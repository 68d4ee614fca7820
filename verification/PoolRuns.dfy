/** Every run of the held pool: admissions, drains, recoveries, releases and evictions in
    any order, with the drained-but-unresolved transactions kept as an explicit list. */
module PoolRuns {
  import opened Types
  import opened HeldPoolSpec

  /** `outstanding` lists the drained transactions nobody has resolved yet, in drain order;
      `source` is each chain's current nonce on its source chain. */
  datatype Run = Run(pool: PoolState, outstanding: seq<HeldTx>, source: NonceChain -> nat)

  datatype Op =
    | Admit(tx: HeldTx, onChain: nat)
    | Drain(max: nat)
    /** Give back the masked transactions, possibly with other attempt counts. */
    | Recover(mask: seq<bool>, returned: seq<HeldTx>)
    | Settle(mask: seq<bool>)
    | Evict(chain: NonceChain, nonce: nat)
    | Advance(chain: NonceChain, nonce: nat)

  /** The transactions of `txs` whose mask bit is `want`, in order. */
  function Pick(txs: seq<HeldTx>, mask: seq<bool>, want: bool): (r: seq<HeldTx>)
    requires |mask| == |txs|
    ensures forall tx :: tx in r ==> tx in txs
  {
    if txs == [] then []
    else (if mask[0] == want then [txs[0]] else []) + Pick(txs[1..], mask[1..], want)
  }

  /** Equal but for the attempt count. */
  predicate SameTxs(a: seq<HeldTx>, b: seq<HeldTx>) {
    |a| == |b| && forall i :: 0 <= i < |a| ==> a[i] == b[i].(attempts := a[i].attempts)
  }

  /** Every transaction of `a` sits below every transaction of `b` on their common chains. */
  ghost predicate Below(a: seq<HeldTx>, b: seq<HeldTx>) {
    forall x, y :: x in a && y in b && x.Chain() == y.Chain() ==> x.nonce < y.nonce
  }

  /** Recovery gives back a suffix of each chain: nothing still outstanding lies above it. */
  ghost predicate Enabled(r: Run, op: Op) {
    match op
    case Recover(mask, returned) =>
      && |mask| == |r.outstanding|
      && SameTxs(returned, Pick(r.outstanding, mask, true))
      && Below(Pick(r.outstanding, mask, false), Pick(r.outstanding, mask, true))
    case Settle(mask) => |mask| == |r.outstanding|
    case _ => true
  }

  /** The further conditions under which no chain ever develops a gap: admission may read a
      stale source nonce but not a future one, the source nonce only grows, and only
      transactions that landed are released. */
  ghost predicate Gentle(r: Run, op: Op) {
    match op
    case Admit(tx, onChain) => onChain <= r.source(tx.Chain())
    case Settle(mask) =>
      && |mask| == |r.outstanding|
      && forall tx :: tx in Pick(r.outstanding, mask, true) ==> tx.nonce < r.source(tx.Chain())
    case Advance(c, n) => r.source(c) <= n
    case _ => true
  }

  ghost function Advanced(source: NonceChain -> nat, c: NonceChain, n: nat): NonceChain -> nat {
    d => if d == c then n else source(d)
  }

  ghost function Exec(r: Run, op: Op): Run
    requires Enabled(r, op)
  {
    match op
    case Admit(tx, onChain) => r.(pool := PushContiguous(r.pool, tx, onChain).0)
    case Drain(max) =>
      var (pool, drained) := PopN(r.pool, max);
      r.(pool := pool, outstanding := r.outstanding + drained)
    case Recover(mask, returned) =>
      r.(pool := PushFrontBatch(r.pool, returned), outstanding := Pick(r.outstanding, mask, false))
    case Settle(mask) =>
      r.(pool := Release(r.pool, Pick(r.outstanding, mask, true)), outstanding := Pick(r.outstanding, mask, false))
    case Evict(c, n) =>
      r.(pool := EvictChain(r.pool, c, n).0, outstanding := Without(r.outstanding, c, n))
    case Advance(c, n) =>
      r.(source := Advanced(r.source, c, n))
  }

  ghost predicate Inv(r: Run) {
    && Valid(r.pool)
    && r.pool.inFlight.Keys == Hashes(r.outstanding)
    && (forall tx :: tx in r.outstanding ==> tx.hash in r.pool.inFlight && r.pool.inFlight[tx.hash] == tx.Reserve())
    && Distinct(r.outstanding)
    && ChainOrdered(r.outstanding + r.pool.txs)
  }

  /** Reserved nonces at or above the source nonce leave no hole above it. */
  ghost predicate GapFree(r: Run) {
    forall c, n, m :: n in Reserved(r.pool, c) && r.source(c) <= m < n ==> m in Reserved(r.pool, c)
  }

  // ---- Order ---------------------------------------------------------------------

  lemma {:induction false} OrderedAppend(a: seq<HeldTx>, b: seq<HeldTx>)
    ensures ChainOrdered(a + b) <==> ChainOrdered(a) && ChainOrdered(b) && Below(a, b)
  {
    var ab := a + b;
    if ChainOrdered(ab) {
      forall i, j | 0 <= i < j < |a| && a[i].Chain() == a[j].Chain()
        ensures a[i].nonce < a[j].nonce
      {
        assert ab[i] == a[i] && ab[j] == a[j];
      }
      forall i, j | 0 <= i < j < |b| && b[i].Chain() == b[j].Chain()
        ensures b[i].nonce < b[j].nonce
      {
        assert ab[|a| + i] == b[i] && ab[|a| + j] == b[j];
      }
      forall x, y | x in a && y in b && x.Chain() == y.Chain()
        ensures x.nonce < y.nonce
      {
        var i :| 0 <= i < |a| && a[i] == x;
        var j :| 0 <= j < |b| && b[j] == y;
        assert ab[i] == x && ab[|a| + j] == y;
      }
    }
  }

  lemma {:induction false} SubOrdered(head: HeldTx, sub: seq<HeldTx>, all: seq<HeldTx>)
    requires ChainOrdered([head] + all) && ChainOrdered(sub) && forall tx :: tx in sub ==> tx in all
    ensures ChainOrdered([head] + sub)
  {
    OrderedAppend([head], all);
    OrderedAppend([head], sub);
  }

  lemma {:induction false} PickFacts(txs: seq<HeldTx>, mask: seq<bool>, want: bool)
    requires |mask| == |txs| && Distinct(txs)
    ensures Distinct(Pick(txs, mask, want))
    ensures Hashes(Pick(txs, mask, want)) == Hashes(txs) - Hashes(Pick(txs, mask, !want))
    ensures forall tx :: tx in txs ==> tx in Pick(txs, mask, want) || tx in Pick(txs, mask, !want)
  {
    if txs != [] {
      hide Hashes, Distinct;
      var head, rest := txs[0], txs[1..];
      var same, other := Pick(rest, mask[1..], want), Pick(rest, mask[1..], !want);
      DistinctHead(txs);
      PickFacts(rest, mask[1..], want);
      PickWithin(rest, mask[1..], want);
      PickWithin(rest, mask[1..], !want);
      PickOne(head, rest, same, other);
      assert [] + other == other && [] + same == same && txs == [head] + rest;
    }
  }

  lemma {:induction false} PickWithin(txs: seq<HeldTx>, mask: seq<bool>, want: bool)
    requires |mask| == |txs|
    ensures Hashes(Pick(txs, mask, want)) <= Hashes(txs)
  {
  }

  lemma {:induction false} PickOne(head: HeldTx, rest: seq<HeldTx>, same: seq<HeldTx>, other: seq<HeldTx>)
    requires head.hash !in Hashes(rest) && Distinct(same) && Hashes(same) <= Hashes(rest)
    requires Hashes(other) <= Hashes(rest) && Hashes(same) == Hashes(rest) - Hashes(other)
    ensures Distinct([head] + same)
    ensures Hashes([head] + same) == Hashes([head] + rest) - Hashes(other)
    ensures Hashes(same) == Hashes([head] + rest) - Hashes([head] + other)
  {
    assert Hashes([head]) == {head.hash} && Distinct([head]);
    hide Hashes, Distinct;
    HashesAppend([head], same);
    HashesAppend([head], other);
    HashesAppend([head], rest);
    DistinctAppend([head], same);
  }

  lemma {:induction false} PickOrdered(txs: seq<HeldTx>, mask: seq<bool>, want: bool)
    requires |mask| == |txs| && ChainOrdered(txs)
    ensures ChainOrdered(Pick(txs, mask, want))
  {
    if txs != [] {
      var rest := Pick(txs[1..], mask[1..], want);
      assert txs == [txs[0]] + txs[1..];
      OrderedAppend([txs[0]], txs[1..]);
      PickOrdered(txs[1..], mask[1..], want);
      SubOrdered(txs[0], rest, txs[1..]);
      assert [] + rest == rest;
    }
  }

  lemma {:induction false} SameTxsFacts(a: seq<HeldTx>, b: seq<HeldTx>)
    requires SameTxs(a, b)
    ensures Hashes(a) == Hashes(b)
    ensures Distinct(b) ==> Distinct(a)
    ensures ChainOrdered(b) ==> ChainOrdered(a)
    ensures forall tx :: tx in a ==> exists y :: y in b && y.Reserve() == tx.Reserve() && y.hash == tx.hash
    ensures forall tx :: tx in b ==> exists y :: y in a && y.Reserve() == tx.Reserve() && y.hash == tx.hash
  {
    forall i | 0 <= i < |a|
      ensures a[i].hash == b[i].hash && a[i].Reserve() == b[i].Reserve() && a[i].Chain() == b[i].Chain()
    {
    }
    forall tx | tx in b
      ensures exists y :: y in a && y.Reserve() == tx.Reserve() && y.hash == tx.hash
    {
      var i :| 0 <= i < |b| && b[i] == tx;
      assert a[i] in a;
    }
    forall tx | tx in a
      ensures exists y :: y in b && y.Reserve() == tx.Reserve() && y.hash == tx.hash
    {
      var i :| 0 <= i < |a| && a[i] == tx;
      assert b[i] in b;
    }
    assert Hashes(a) <= Hashes(b);
  }

  lemma {:induction false} WithoutOrdered(txs: seq<HeldTx>, c: NonceChain, n: nat)
    requires ChainOrdered(txs)
    ensures ChainOrdered(Without(txs, c, n))
  {
    if txs != [] {
      var init, last := txs[..|txs| - 1], txs[|txs| - 1];
      assert txs == init + [last];
      OrderedAppend(init, [last]);
      WithoutOrdered(init, c, n);
      OrderedAppend(Without(init, c, n), [last]);
      assert Without(init, c, n) + [] == Without(init, c, n);
    }
  }

  /** Nothing recovered is contested when every recovered nonce is below the queue. */
  lemma {:induction false} BelowUncontested(queue: seq<HeldTx>, recovered: seq<HeldTx>)
    requires Below(recovered, queue)
    ensures Unsuperseded(queue, recovered, recovered) == recovered
  {
    UnsupersededAll(queue, recovered, recovered);
  }

  lemma {:induction false} UnsupersededAll(queue: seq<HeldTx>, recovered: seq<HeldTx>, todo: seq<HeldTx>)
    requires Below(recovered, queue) && forall tx :: tx in todo ==> tx in recovered
    ensures Unsuperseded(queue, recovered, todo) == todo
  {
    if todo != [] {
      UnsupersededAll(queue, recovered, todo[1..]);
      assert todo == [todo[0]] + todo[1..];
    }
  }

  // ---- Each operation keeps the invariant ------------------------------------------

  ghost predicate Reserves(txs: seq<HeldTx>, slot: Reservation) {
    exists tx :: tx in txs && tx.Reserve() == slot
  }

  /** Queued, or drained and unresolved. */
  ghost predicate Live(r: Run, slot: Reservation) {
    Reserves(r.outstanding, slot) || Reserves(r.pool.txs, slot)
  }

  lemma {:induction false} ReservedIsLive(r: Run, c: NonceChain, n: u64)
    requires Inv(r)
    ensures n in Reserved(r.pool, c) <==> Live(r, Reservation(c.sender, c.direction, n))
  {
    var slot := Reservation(c.sender, c.direction, n);
    if h :| h in r.pool.inFlight && r.pool.inFlight[h].Chain() == c && r.pool.inFlight[h].nonce == n {
      assert h in Hashes(r.outstanding);
      var tx :| tx in r.outstanding && tx.hash == h;
      assert tx.Reserve() == slot;
    }
    if tx :| tx in r.pool.txs && tx.Chain() == c && tx.nonce == n {
      assert tx.Reserve() == slot;
    }
    if tx :| tx in r.outstanding && tx.Reserve() == slot {
      assert r.pool.inFlight[tx.hash].Chain() == c;
    }
  }

  lemma {:induction false} ReservesAppend(a: seq<HeldTx>, b: seq<HeldTx>, slot: Reservation)
    ensures Reserves(a + b, slot) <==> Reserves(a, slot) || Reserves(b, slot)
  {
    if Reserves(a, slot) {
      var tx :| tx in a && tx.Reserve() == slot;
      assert tx in a + b;
    }
    if Reserves(b, slot) {
      var tx :| tx in b && tx.Reserve() == slot;
      assert tx in a + b;
    }
  }

  lemma {:induction false} ReservesSame(a: seq<HeldTx>, b: seq<HeldTx>, slot: Reservation)
    requires |a| == |b| && forall i :: 0 <= i < |a| ==> a[i].Reserve() == b[i].Reserve()
    ensures Reserves(a, slot) <==> Reserves(b, slot)
  {
    if x :| x in a && x.Reserve() == slot {
      var i :| 0 <= i < |a| && a[i] == x;
      assert b[i] in b;
    }
    if x :| x in b && x.Reserve() == slot {
      var i :| 0 <= i < |b| && b[i] == x;
      assert a[i] in a;
    }
  }

  lemma {:induction false} ReservesPick(txs: seq<HeldTx>, mask: seq<bool>, slot: Reservation)
    requires |mask| == |txs|
    ensures Reserves(txs, slot)
      <==> Reserves(Pick(txs, mask, true), slot) || Reserves(Pick(txs, mask, false), slot)
  {
    if txs != [] {
      assert txs == [txs[0]] + txs[1..];
      ReservesPick(txs[1..], mask[1..], slot);
      ReservesAppend([txs[0]], txs[1..], slot);
      ReservesAppend([txs[0]], Pick(txs[1..], mask[1..], mask[0]), slot);
      assert [] + Pick(txs[1..], mask[1..], !mask[0]) == Pick(txs[1..], mask[1..], !mask[0]);
    }
  }

  lemma {:induction false} ReservesWithout(txs: seq<HeldTx>, c: NonceChain, n: nat, slot: Reservation)
    ensures Reserves(Without(txs, c, n), slot) <==> Reserves(txs, slot) && !slot.AtOrAbove(c, n)
  {
    if Reserves(txs, slot) && !slot.AtOrAbove(c, n) {
      var tx :| tx in txs && tx.Reserve() == slot;
      assert tx in Without(txs, c, n);
    }
  }

  lemma {:induction false} SameSlotsOrdered(a: seq<HeldTx>, b: seq<HeldTx>)
    requires |a| == |b| && forall i :: 0 <= i < |a| ==> a[i].Reserve() == b[i].Reserve()
    ensures ChainOrdered(a) ==> ChainOrdered(b)
  {
    forall i | 0 <= i < |a|
      ensures a[i].Chain() == b[i].Chain() && a[i].nonce == b[i].nonce
    {
      assert a[i].Reserve() == b[i].Reserve();
    }
  }

  /** Admission either changes nothing, replaces one queued transaction at its own nonce, or
      appends one at the next expected nonce. */
  lemma {:induction false} AdmitShape(p: PoolState, tx: HeldTx, onChain: nat)
    ensures
      var p' := PushContiguous(p, tx, onChain).0;
      || p' == p
      || (exists i :: 0 <= i < |p.txs| && p'.txs == p.txs[i := tx] && p.txs[i].Reserve() == tx.Reserve())
      || (p'.txs == p.txs + [tx] && NextExpectedNonce(p, tx.Chain(), onChain) == Some(tx.nonce))
  {
    var queued := QueuedAt(p.txs, tx.Chain(), tx.nonce);
    if queued.Some? {
      assert p.txs[queued.value].Reserve() == tx.Reserve();
    }
  }

  lemma {:induction false} NextAboveLive(r: Run, c: NonceChain, onChain: nat, tx: HeldTx)
    requires Inv(r) && NextExpectedNonce(r.pool, c, onChain).Some?
    requires tx in r.outstanding + r.pool.txs && tx.Chain() == c
    ensures tx.nonce < NextExpectedNonce(r.pool, c, onChain).value
  {
    ReservedIsLive(r, c, tx.nonce);
    assert tx.Reserve() == Reservation(c.sender, c.direction, tx.nonce);
  }

  lemma {:induction false} AdmitKeeps(r: Run, tx: HeldTx, onChain: nat)
    requires Inv(r)
    ensures Inv(Exec(r, Admit(tx, onChain)))
  {
    var p' := PushContiguous(r.pool, tx, onChain).0;
    PushContiguousValid(r.pool, tx, onChain);
    AdmitShape(r.pool, tx, onChain);
    if p' != r.pool {
      if i :| 0 <= i < |r.pool.txs| && p'.txs == r.pool.txs[i := tx] && r.pool.txs[i].Reserve() == tx.Reserve() {
        SameSlotsOrdered(r.outstanding + r.pool.txs, r.outstanding + p'.txs);
      } else {
        forall x | x in r.outstanding + r.pool.txs && x.Chain() == tx.Chain()
          ensures x.nonce < tx.nonce
        {
          NextAboveLive(r, tx.Chain(), onChain, x);
        }
        assert r.outstanding + p'.txs == (r.outstanding + r.pool.txs) + [tx];
        OrderedAppend(r.outstanding + r.pool.txs, [tx]);
      }
    }
  }

  lemma {:induction false} PopNShape(p: PoolState, max: nat)
    requires Valid(p)
    ensures
      var (p', drained) := PopN(p, max);
      && p.txs == drained + p'.txs && Hashes(drained) <= p.byHash && Distinct(drained)
      && p'.inFlight == Mark(p.inFlight, drained)
  {
    PopNValid(p, max);
    var (p', drained) := PopN(p, max);
    assert p.txs == drained + p'.txs;
    HashesAppend(drained, p'.txs);
  }

  lemma {:induction false} DrainKeeps(r: Run, max: nat)
    requires Inv(r)
    ensures Inv(Exec(r, Drain(max)))
  {
    PopNValid(r.pool, max);
    PopNShape(r.pool, max);
    var (pool, drained) := PopN(r.pool, max);
    hide Inv, Valid, Mark, Hashes, Distinct;
    DrainedKeeps(r, pool, drained);
  }

  lemma {:induction false} DrainedKeeps(r: Run, pool: PoolState, drained: seq<HeldTx>)
    requires Inv(r) && Valid(pool) && r.pool.txs == drained + pool.txs
    requires Distinct(drained) && Hashes(drained) <= r.pool.byHash && pool.inFlight == Mark(r.pool.inFlight, drained)
    ensures Inv(Run(pool, r.outstanding + drained, r.source))
  {
    hide *;
    InvGives(r);
    DrainedJoin(r.outstanding, drained, r.pool.inFlight);
    assert (r.outstanding + drained) + pool.txs == r.outstanding + r.pool.txs;
    InvParts(Run(pool, r.outstanding + drained, r.source));
  }

  lemma {:induction false} InvGives(r: Run)
    requires Inv(r)
    ensures Valid(r.pool) && r.pool.byHash !! r.pool.inFlight.Keys && Distinct(r.outstanding)
    ensures r.pool.inFlight.Keys == Hashes(r.outstanding) && ChainOrdered(r.outstanding + r.pool.txs)
    ensures forall tx :: tx in r.outstanding ==> tx.hash in r.pool.inFlight && r.pool.inFlight[tx.hash] == tx.Reserve()
  {
  }

  lemma {:induction false} InvParts(r: Run)
    requires Valid(r.pool) && Distinct(r.outstanding) && r.pool.inFlight.Keys == Hashes(r.outstanding)
    requires forall tx :: tx in r.outstanding ==> tx.hash in r.pool.inFlight && r.pool.inFlight[tx.hash] == tx.Reserve()
    requires ChainOrdered(r.outstanding + r.pool.txs)
    ensures Inv(r)
  {
  }

  lemma {:induction false} DrainedJoin(outstanding: seq<HeldTx>, drained: seq<HeldTx>, m: map<TxHash, Reservation>)
    requires Distinct(outstanding) && Distinct(drained) && m.Keys == Hashes(outstanding) && m.Keys !! Hashes(drained)
    requires forall tx :: tx in outstanding ==> tx.hash in m
    requires forall tx :: tx in outstanding ==> m[tx.hash] == tx.Reserve()
    ensures Distinct(outstanding + drained) && Mark(m, drained).Keys == Hashes(outstanding + drained)
    ensures forall tx :: tx in outstanding + drained ==>
      tx.hash in Mark(m, drained) && Mark(m, drained)[tx.hash] == tx.Reserve()
  {
    MarkMatches(m, drained);
    HashesAppend(outstanding, drained);
    DistinctAppend(outstanding, drained);
  }

  lemma {:induction false} RecoverKeeps(r: Run, mask: seq<bool>, returned: seq<HeldTx>)
    requires Inv(r) && Enabled(r, Recover(mask, returned))
    ensures Inv(Exec(r, Recover(mask, returned)))
    ensures Exec(r, Recover(mask, returned)).pool.txs == returned + r.pool.txs
  {
    var kept, gone := Pick(r.outstanding, mask, false), Pick(r.outstanding, mask, true);
    OrderedAppend(r.outstanding, r.pool.txs);
    PickFacts(r.outstanding, mask, false);
    PickFacts(r.outstanding, mask, true);
    PickOrdered(r.outstanding, mask, false);
    PickOrdered(r.outstanding, mask, true);
    SameTxsFacts(returned, gone);
    SameBelow(returned, gone, kept, r.pool.txs);
    PushFrontBatchValid(r.pool, returned);
    BelowUncontested(r.pool.txs, returned);
    PushFrontFromClosed(r.pool, r.pool.txs, returned, returned);
    OrderedAppend(returned, r.pool.txs);
    OrderedAppend(kept, returned + r.pool.txs);
  }

  lemma {:induction false} SameBelow(a: seq<HeldTx>, b: seq<HeldTx>, lower: seq<HeldTx>, upper: seq<HeldTx>)
    requires SameTxs(a, b) && Below(lower, b) && Below(b, upper) && Below(lower, upper)
    ensures Below(a, upper) && Below(lower, a + upper)
  {
    forall x, y | x in a && y in upper && x.Chain() == y.Chain()
      ensures x.nonce < y.nonce
    {
      var i :| 0 <= i < |a| && a[i] == x;
      assert b[i] in b;
    }
    forall x, y | x in lower && y in a && x.Chain() == y.Chain()
      ensures x.nonce < y.nonce
    {
      var i :| 0 <= i < |a| && a[i] == y;
      assert b[i] in b;
    }
  }

  lemma {:induction false} SettleKeeps(r: Run, mask: seq<bool>)
    requires Inv(r) && Enabled(r, Settle(mask))
    ensures Inv(Exec(r, Settle(mask)))
  {
    var kept, gone := Pick(r.outstanding, mask, false), Pick(r.outstanding, mask, true);
    PickFacts(r.outstanding, mask, false);
    OrderedAppend(r.outstanding, r.pool.txs);
    PickOrdered(r.outstanding, mask, false);
    OrderedAppend(kept, r.pool.txs);
    forall tx | tx in kept
      ensures tx.hash in r.pool.inFlight && tx.hash !in Hashes(gone)
    {
      assert tx.hash in Hashes(kept);
    }
  }

  lemma {:induction false} EvictKeeps(r: Run, c: NonceChain, n: nat)
    requires Inv(r)
    ensures Inv(Exec(r, Evict(c, n)))
  {
    hide *;
    var pool, kept := EvictChain(r.pool, c, n).0, Without(r.outstanding, c, n);
    InvGives(r);
    EvictChainValid(r.pool, c, n);
    WithoutDistinct(r.outstanding, c, n);
    EvictReserves(r.pool, r.outstanding, c, n);
    EvictOrders(r.outstanding, r.pool.txs, c, n);
    EvictStep(r, c, n);
    InvParts(Run(pool, kept, r.source));
  }

  lemma {:induction false} EvictStep(r: Run, c: NonceChain, n: nat)
    ensures Exec(r, Evict(c, n)) == Run(EvictChain(r.pool, c, n).0, Without(r.outstanding, c, n), r.source)
    ensures EvictChain(r.pool, c, n).0.txs == Without(r.pool.txs, c, n)
  {
  }

  lemma {:induction false} EvictOrders(a: seq<HeldTx>, b: seq<HeldTx>, c: NonceChain, n: nat)
    requires ChainOrdered(a + b)
    ensures ChainOrdered(Without(a, c, n) + Without(b, c, n))
  {
    hide ChainOrdered;
    OrderedAppend(a, b);
    WithoutOrdered(a, c, n);
    WithoutOrdered(b, c, n);
    OrderedAppend(Without(a, c, n), Without(b, c, n));
  }

  lemma {:induction false} EvictReserves(p: PoolState, outstanding: seq<HeldTx>, c: NonceChain, n: nat)
    requires p.inFlight.Keys == Hashes(outstanding)
    requires forall tx :: tx in outstanding ==> tx.hash in p.inFlight && p.inFlight[tx.hash] == tx.Reserve()
    ensures
      var m, kept := EvictChain(p, c, n).0.inFlight, Without(outstanding, c, n);
      && m.Keys == Hashes(kept)
      && forall tx :: tx in kept ==> tx.hash in m && m[tx.hash] == tx.Reserve()
  {
    var m, kept := EvictChain(p, c, n).0.inFlight, Without(outstanding, c, n);
    forall h | h in m ensures h in Hashes(kept) {
      assert h in Hashes(outstanding);
      var tx :| tx in outstanding && tx.hash == h;
      assert tx in kept;
    }
  }

  lemma {:induction false} StepKeeps(r: Run, op: Op)
    requires Inv(r) && Enabled(r, op)
    ensures Inv(Exec(r, op))
  {
    match op
    case Admit(tx, onChain) => AdmitKeeps(r, tx, onChain);
    case Drain(max) => DrainKeeps(r, max);
    case Recover(mask, returned) => RecoverKeeps(r, mask, returned);
    case Settle(mask) => SettleKeeps(r, mask);
    case Evict(c, n) => EvictKeeps(r, c, n);
    case Advance(c, n) =>
  }

  // ---- No gaps ---------------------------------------------------------------------

  /** What a step does to the live nonces of every chain. */
  lemma {:induction false} LiveAfter(r: Run, op: Op, slot: Reservation)
    requires Inv(r) && Enabled(r, op)
    ensures
      var live := Live(Exec(r, op), slot);
      match op
      case Admit(tx, _) => Live(r, slot) ==> live
      case Drain(_) => live <==> Live(r, slot)
      case Recover(_, _) => live <==> Live(r, slot)
      case Settle(mask) => (live ==> Live(r, slot))
                        && (Live(r, slot) && !Reserves(Pick(r.outstanding, mask, true), slot) ==> live)
      case Evict(c, n) => live <==> Live(r, slot) && !slot.AtOrAbove(c, n)
      case Advance(_, _) => live <==> Live(r, slot)
  {
    match op
    case Admit(tx, onChain) => LiveAfterAdmit(r, tx, onChain, slot);
    case Drain(max) => LiveAfterDrain(r, max, slot);
    case Recover(mask, returned) => LiveAfterRecover(r, mask, returned, slot);
    case Settle(mask) => ReservesPick(r.outstanding, mask, slot);
    case Evict(c, n) => LiveAfterEvict(r, c, n, slot);
    case Advance(c, n) =>
  }

  lemma {:induction false} LiveAfterDrain(r: Run, max: nat, slot: Reservation)
    ensures Live(Exec(r, Drain(max)), slot) <==> Live(r, slot)
  {
    var (pool, drained) := PopN(r.pool, max);
    assert r.pool.txs == drained + pool.txs;
    ReservesAppend(drained, pool.txs, slot);
    ReservesAppend(r.outstanding, drained, slot);
  }

  lemma {:induction false} LiveAfterRecover(r: Run, mask: seq<bool>, returned: seq<HeldTx>, slot: Reservation)
    requires Inv(r) && Enabled(r, Recover(mask, returned))
    ensures Live(Exec(r, Recover(mask, returned)), slot) <==> Live(r, slot)
  {
    RecoverKeeps(r, mask, returned);
    ReservesPick(r.outstanding, mask, slot);
    ReservesSame(returned, Pick(r.outstanding, mask, true), slot);
    ReservesAppend(returned, r.pool.txs, slot);
  }

  lemma {:induction false} LiveAfterEvict(r: Run, c: NonceChain, n: nat, slot: Reservation)
    ensures Live(Exec(r, Evict(c, n)), slot) <==> Live(r, slot) && !slot.AtOrAbove(c, n)
  {
    ReservesWithout(r.outstanding, c, n, slot);
    ReservesWithout(r.pool.txs, c, n, slot);
  }

  lemma {:induction false} LiveAfterAdmit(r: Run, tx: HeldTx, onChain: nat, slot: Reservation)
    requires Inv(r)
    ensures
      var r' := Exec(r, Admit(tx, onChain));
      && (Live(r, slot) ==> Live(r', slot))
      && (Live(r', slot) && !Live(r, slot) ==>
            slot == tx.Reserve() && NextExpectedNonce(r.pool, tx.Chain(), onChain) == Some(tx.nonce))
  {
    var p' := PushContiguous(r.pool, tx, onChain).0;
    AdmitShape(r.pool, tx, onChain);
    if p' != r.pool {
      if i :| 0 <= i < |r.pool.txs| && p'.txs == r.pool.txs[i := tx] && r.pool.txs[i].Reserve() == tx.Reserve() {
        ReservesSame(r.pool.txs, p'.txs, slot);
      } else {
        ReservesAppend(r.pool.txs, [tx], slot);
      }
    }
  }

  ghost predicate LiveGapFree(r: Run) {
    forall slot: Reservation, m: u64 :: Live(r, slot) && r.source(slot.Chain()) <= m < slot.nonce
      ==> Live(r, slot.(nonce := m))
  }

  lemma {:induction false} GapFreeIsLive(r: Run)
    requires Inv(r)
    ensures GapFree(r) <==> LiveGapFree(r)
  {
    forall c: NonceChain, n: u64
      ensures n in Reserved(r.pool, c) <==> Live(r, Reservation(c.sender, c.direction, n))
    {
      ReservedIsLive(r, c, n);
    }
    if GapFree(r) {
      forall slot: Reservation, m: u64 | Live(r, slot) && r.source(slot.Chain()) <= m < slot.nonce
        ensures Live(r, slot.(nonce := m))
      {
        assert slot == Reservation(slot.Chain().sender, slot.Chain().direction, slot.nonce);
        assert slot.nonce in Reserved(r.pool, slot.Chain()) && m in Reserved(r.pool, slot.Chain());
      }
    }
    if LiveGapFree(r) {
      forall c, n, m | n in Reserved(r.pool, c) && r.source(c) <= m < n
        ensures m in Reserved(r.pool, c)
      {
        var slot := Reservation(c.sender, c.direction, n);
        assert Live(r, slot) && slot.Chain() == c;
        assert Live(r, slot.(nonce := m));
      }
    }
  }

  lemma {:induction false} NextLeavesNoGap(r: Run, c: NonceChain, onChain: nat, m: u64)
    requires Inv(r) && LiveGapFree(r) && onChain <= r.source(c) <= m
    requires NextExpectedNonce(r.pool, c, onChain).Some? && m < NextExpectedNonce(r.pool, c, onChain).value
    ensures Live(r, Reservation(c.sender, c.direction, m))
  {
    var above := ReservedFrom(r.pool, c, onChain);
    assert above != {};
    var top := Max(above);
    ReservedIsLive(r, c, top);
    var slot := Reservation(c.sender, c.direction, top);
    assert slot.Chain() == c;
    assert m < top ==> Live(r, slot.(nonce := m));
  }

  lemma {:induction false} StepLeavesNoGap(r: Run, op: Op)
    requires Inv(r) && LiveGapFree(r) && Enabled(r, op) && Gentle(r, op)
    ensures LiveGapFree(Exec(r, op))
  {
    var r' := Exec(r, op);
    forall slot: Reservation, m: u64 | Live(r', slot) && r'.source(slot.Chain()) <= m < slot.nonce
      ensures Live(r', slot.(nonce := m))
    {
      LiveAfter(r, op, slot);
      LiveAfter(r, op, slot.(nonce := m));
      if op.Admit? {
        LiveAfterAdmit(r, op.tx, op.onChain, slot);
        if !Live(r, slot) { NextLeavesNoGap(r, slot.Chain(), op.onChain, m); }
      }
    }
  }

  // ---- Whole runs ------------------------------------------------------------------

  /** `ops` can be executed one after the other from `r`. */
  ghost predicate Executable(r: Run, ops: seq<Op>)
    decreases |ops|
  {
    ops == [] || (Enabled(r, ops[0]) && Executable(Exec(r, ops[0]), ops[1..]))
  }

  ghost predicate AllGentle(r: Run, ops: seq<Op>)
    requires Executable(r, ops)
    decreases |ops|
  {
    ops == [] || (Gentle(r, ops[0]) && AllGentle(Exec(r, ops[0]), ops[1..]))
  }

  ghost function ExecAll(r: Run, ops: seq<Op>): Run
    requires Executable(r, ops)
    decreases |ops|
  {
    if ops == [] then r else ExecAll(Exec(r, ops[0]), ops[1..])
  }

  lemma {:induction false} RunKeeps(r: Run, ops: seq<Op>)
    requires Inv(r) && Executable(r, ops)
    ensures Inv(ExecAll(r, ops))
    ensures LiveGapFree(r) && AllGentle(r, ops) ==> LiveGapFree(ExecAll(r, ops))
    decreases |ops|
  {
    if ops != [] {
      StepKeeps(r, ops[0]);
      if LiveGapFree(r) && Gentle(r, ops[0]) { StepLeavesNoGap(r, ops[0]); }
      RunKeeps(Exec(r, ops[0]), ops[1..]);
    }
  }

  /** From an empty pool, after any run in which recovery gives back chain suffixes: the hash
      index is exactly the queue's hashes, nothing is queued and reserved at once, and every
      chain rises strictly through the queue. If moreover the run is gentle, the reserved
      nonces of each chain form one gap-free interval starting at the source nonce. */
  lemma {:induction false} EveryRunKeepsThePool(source: NonceChain -> nat, ops: seq<Op>)
    requires Executable(Run(EMPTY, [], source), ops)
    ensures var r := ExecAll(Run(EMPTY, [], source), ops);
      && r.pool.byHash == Hashes(r.pool.txs)
      && Distinct(r.pool.txs)
      && r.pool.byHash !! r.pool.inFlight.Keys
      && ChainOrdered(r.pool.txs)
      && (AllGentle(Run(EMPTY, [], source), ops) ==> GapFree(r))
  {
    var r0 := Run(EMPTY, [], source);
    assert Inv(r0) && LiveGapFree(r0);
    RunKeeps(r0, ops);
    var r := ExecAll(r0, ops);
    GapFreeIsLive(r);
    OrderedAppend(r.outstanding, r.pool.txs);
  }

  // ---- When a re-queue breaks the order ----------------------------------------------

  /** Re-queueing keeps every chain's order exactly when no queued nonce lies below a
      transaction that is actually put back on the same chain. */
  lemma {:induction false} RequeueKeepsOrderIff(p: PoolState, recovered: seq<HeldTx>)
    requires Valid(p) && ChainOrdered(p.txs)
    requires Distinct(recovered) && ChainOrdered(recovered) && Hashes(recovered) !! p.byHash
    ensures ChainOrdered(PushFrontBatch(p, recovered).txs)
      <==> forall r, q :: r in recovered && q in p.txs && r.Chain() == q.Chain() && q.nonce < r.nonce
                          ==> Superseded(p.txs, recovered, r)
  {
    var back := Unsuperseded(p.txs, recovered, recovered);
    PushFrontFromClosed(p, p.txs, recovered, recovered);
    UnsupersededOrdered(p.txs, recovered, recovered);
    OrderedAppend(back, p.txs);
    forall x, y | x in back && y in p.txs && x.Chain() == y.Chain()
      ensures x.nonce != y.nonce
    {
      assert x.hash in Hashes(recovered) && y.hash in Hashes(p.txs);
      assert x.nonce == y.nonce ==> Contested(p.txs, x);
    }
  }

  lemma {:induction false} UnsupersededOrdered(queue: seq<HeldTx>, recovered: seq<HeldTx>, todo: seq<HeldTx>)
    requires ChainOrdered(todo)
    ensures ChainOrdered(Unsuperseded(queue, recovered, todo))
  {
    if todo != [] {
      var rest := Unsuperseded(queue, recovered, todo[1..]);
      assert todo == [todo[0]] + todo[1..];
      OrderedAppend([todo[0]], todo[1..]);
      UnsupersededOrdered(queue, recovered, todo[1..]);
      SubOrdered(todo[0], rest, todo[1..]);
      assert [] + rest == rest;
    }
  }

  /** Admitting one transaction to an empty pool and draining it. */
  lemma {:induction false} DealOne(tx: HeldTx)
    ensures PopN(PushContiguous(EMPTY, tx, tx.nonce).0, 1) == (PoolState([], {}, map[tx.hash := tx.Reserve()]), [tx])
  {
    var a := PushContiguous(EMPTY, tx, tx.nonce).0;
    assert ReservedFrom(EMPTY, tx.Chain(), tx.nonce) == {};
    assert a == PoolState([tx], {tx.hash}, map[]);
    assert Hashes([tx]) == {tx.hash};
    assert [tx][..1] == [tx] && [tx][..0] == [] && [tx][1..] == [];
    assert Mark(map[], [tx]) == map[tx.hash := tx.Reserve()];
  }

  lemma {:induction false} GiveBackOne(p: PoolState, tx: HeldTx)
    requires tx.hash !in p.byHash && !Contested(p.txs, tx)
    ensures PushFrontBatch(p, [tx]).txs == [tx] + p.txs
    ensures PushFrontBatch(p, [tx]).byHash == p.byHash + {tx.hash}
  {
    assert [tx][1..] == [];
    assert PushFrontFrom(p, p.txs, [tx], []) == p;
    assert !Superseded(p.txs, [tx], tx);
  }

  /** A run that leaves the queue out of order: nonce 5 settles and is released, nonce 6 is
      drained behind it, an L1 reorg gives 5 back, and then 6's own bundle fails. The queue
      then deals 6 before 5. */
  lemma {:induction false} ReorgThenDropReversesTheQueue(five: HeldTx, six: HeldTx)
    requires five.Chain() == six.Chain() && five.nonce == 5 && six.nonce == 6 && five.hash != six.hash
    ensures
      var drainedFive := PopN(PushContiguous(EMPTY, five, 5).0, 1).0;
      var settled := Release(drainedFive, [five]);
      var drainedSix := PopN(PushContiguous(settled, six, 6).0, 1).0;
      var rolledOut := PushFrontBatch(drainedSix, [five]);
      var dropped := PushFrontBatch(rolledOut, [six]);
      dropped.txs == [six, five] && !ChainOrdered(dropped.txs)
  {
    DealOne(five);
    var drainedFive := PopN(PushContiguous(EMPTY, five, 5).0, 1).0;
    assert Hashes([five]) == {five.hash};
    assert Release(drainedFive, [five]) == EMPTY;
    DealOne(six);
    var drainedSix := PopN(PushContiguous(EMPTY, six, 6).0, 1).0;
    GiveBackOne(drainedSix, five);
    var rolledOut := PushFrontBatch(drainedSix, [five]);
    GiveBackOne(rolledOut, six);
    assert PushFrontBatch(rolledOut, [six]).txs == [six, five];
    assert [six, five][0].Chain() == [six, five][1].Chain();
  }
}
