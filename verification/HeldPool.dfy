/** The per-rollup pool of cross-chain transactions awaiting Sync-slot composition.
    `PoolState` and its functions say what each lock-protected method does to the
    whole state; class `HeldPool` below carries the same state in fields and loops. */
module HeldPoolSpec {
  import opened Types

  const REPLACEMENT_TX_COST_PERCENT: nat := 10

  datatype PoolState = PoolState(
    txs: seq<HeldTx>,
    byHash: set<TxHash>,
    inFlight: map<TxHash, Reservation>)

  const EMPTY := PoolState([], {}, map[])

  datatype Admission =
    | Admitted
    | NonceRejected(expected: nat, onChain: nat)
    | UnderpricedReplacement(requiredMaxFee: u128, requiredPriorityFee: u128)

  /** Queue membership, hash dedupe and reservations agree with each other. */
  ghost predicate Valid(p: PoolState) {
    && p.byHash == Hashes(p.txs)
    && Distinct(p.txs)
    && p.byHash !! p.inFlight.Keys
  }

  function MinReplacementFee(replaced: u128): (required: u128)
    ensures replaced <= required
    // An equal offer is barred except at the very top of the fee range.
    ensures required == replaced <==> replaced == U128_MAX
  {
    var product := if replaced * REPLACEMENT_TX_COST_PERCENT <= U128_MAX
                   then replaced * REPLACEMENT_TX_COST_PERCENT else U128_MAX;
    var increase := if product / 100 >= 1 then product / 100 else 1;
    if replaced + increase <= U128_MAX then replaced + increase else U128_MAX
  }

  /** A replacement offers a tenth more, rounded down, and at least one unit. Only past a tenth of the
      fee range does the tenth stop growing. */
  lemma {:induction false} FeeRisesByATenth(replaced: u128)
    ensures replaced < 10 ==> MinReplacementFee(replaced) == replaced + 1
    ensures 10 <= replaced <= U128_MAX / 10 ==> MinReplacementFee(replaced) == replaced + replaced / 10
    ensures U128_MAX / 10 < replaced ==>
      var raised := replaced + U128_MAX / 100;
      MinReplacementFee(replaced) == if raised <= U128_MAX then raised else U128_MAX
  {
    assert replaced * 10 / 100 == replaced / 10;
  }

  /** Nonces of one chain that are queued or reserved in flight. */
  function Reserved(p: PoolState, c: NonceChain): set<nat> {
    (set tx | tx in p.txs && tx.Chain() == c :: tx.nonce)
    + (set h | h in p.inFlight && p.inFlight[h].Chain() == c :: p.inFlight[h].nonce)
  }

  function ReservedFrom(p: PoolState, c: NonceChain, onChain: nat): set<nat> {
    set n | n in Reserved(p, c) && n >= onChain
  }

  function NextExpectedNonce(p: PoolState, c: NonceChain, onChain: nat): (r: Option<nat>)
    ensures r.Some? ==> onChain <= r.value && forall n :: n in Reserved(p, c) ==> n < r.value
  {
    var above := ReservedFrom(p, c, onChain);
    if above == {} then
      assert forall n :: n in Reserved(p, c) && n >= onChain ==> n in above;
      Some(onChain)
    else if Max(above) < U64_MAX then
      assert forall n :: n in Reserved(p, c) && n >= onChain ==> n in above;
      Some(Max(above) + 1)
    else
      None
  }

  function ExpectedOrMax(p: PoolState, c: NonceChain, onChain: nat): nat {
    var next := NextExpectedNonce(p, c, onChain);
    if next.Some? then next.value else U64_MAX
  }

  /** First queued position holding nonce `n` of chain `c`. */
  function QueuedAt(txs: seq<HeldTx>, c: NonceChain, n: nat): (r: Option<nat>)
    ensures r.Some? ==> r.value < |txs| && txs[r.value].Chain() == c && txs[r.value].nonce == n
    ensures r.Some? ==> forall i :: 0 <= i < r.value ==> !(txs[i].Chain() == c && txs[i].nonce == n)
    ensures r.None? ==> forall tx :: tx in txs ==> !(tx.Chain() == c && tx.nonce == n)
  {
    if txs == [] then None
    else if txs[0].Chain() == c && txs[0].nonce == n then Some(0)
    else
      var rest := QueuedAt(txs[1..], c, n);
      assert txs == [txs[0]] + txs[1..];
      if rest.Some? then Some(rest.value + 1) else None
  }

  function PushContiguous(p: PoolState, tx: HeldTx, onChain: nat): (PoolState, Admission)
  {
    var c := tx.Chain();
    if tx.hash in p.byHash || tx.hash in p.inFlight then (p, Admitted)
    else if tx.nonce < onChain then (p, NonceRejected(ExpectedOrMax(p, c, onChain), onChain))
    else
      var queued := QueuedAt(p.txs, c, tx.nonce);
      if queued.Some? then
        var prior := p.txs[queued.value];
        var maxFee := MinReplacementFee(prior.maxFee);
        var priorityFee := MinReplacementFee(prior.priorityFee);
        if tx.maxFee < maxFee || tx.priorityFee < priorityFee
        then (p, UnderpricedReplacement(maxFee, priorityFee))
        else (PoolState(p.txs[queued.value := tx], p.byHash - {prior.hash} + {tx.hash}, p.inFlight), Admitted)
      else if exists h :: h in p.inFlight && p.inFlight[h] == tx.Reserve() then
        (p, NonceRejected(ExpectedOrMax(p, c, onChain), onChain))
      else
        var next := NextExpectedNonce(p, c, onChain);
        if next.None? then (p, NonceRejected(U64_MAX, onChain))
        else if tx.nonce != next.value then (p, NonceRejected(next.value, onChain))
        else (PoolState(p.txs + [tx], p.byHash + {tx.hash}, p.inFlight), Admitted)
  }

  function Release(p: PoolState, txs: seq<HeldTx>): PoolState {
    p.(inFlight := p.inFlight - Hashes(txs))
  }

  function Mark(m: map<TxHash, Reservation>, txs: seq<HeldTx>): (r: map<TxHash, Reservation>)
    ensures r.Keys == m.Keys + Hashes(txs)
  {
    if txs == [] then m
    else
      var last := txs[|txs| - 1];
      var before := Mark(m, txs[..|txs| - 1]);
      assert txs == txs[..|txs| - 1] + [last];
      HashesAppend(txs[..|txs| - 1], [last]);
      if last.hash in before then before else before[last.hash := last.Reserve()]
  }

  lemma {:induction false} MarkSnoc(m: map<TxHash, Reservation>, txs: seq<HeldTx>, i: nat)
    requires i < |txs|
    ensures var before := Mark(m, txs[..i]);
            Mark(m, txs[..i + 1])
            == if txs[i].hash in before then before else before[txs[i].hash := txs[i].Reserve()]
  {
    assert txs[..i + 1][..i] == txs[..i];
  }

  function PopN(p: PoolState, max: nat): (PoolState, seq<HeldTx>) {
    var count := if max <= |p.txs| then max else |p.txs|;
    var drained := p.txs[..count];
    (PoolState(p.txs[count..], p.byHash - Hashes(drained), Mark(p.inFlight, drained)), drained)
  }

  /** Queued transactions of chain `c` at or above `n`, in queue order. */
  function AtOrAbove(txs: seq<HeldTx>, c: NonceChain, n: nat): (r: seq<HeldTx>)
    ensures forall tx :: tx in r <==> tx in txs && tx.Reserve().AtOrAbove(c, n)
  {
    if txs == [] then []
    else
      var last := txs[|txs| - 1];
      assert txs == txs[..|txs| - 1] + [last];
      AtOrAbove(txs[..|txs| - 1], c, n) + (if last.Reserve().AtOrAbove(c, n) then [last] else [])
  }

  /** The queue without those transactions. */
  function Without(txs: seq<HeldTx>, c: NonceChain, n: nat): (r: seq<HeldTx>)
    ensures forall tx :: tx in r <==> tx in txs && !tx.Reserve().AtOrAbove(c, n)
  {
    if txs == [] then []
    else
      var last := txs[|txs| - 1];
      assert txs == txs[..|txs| - 1] + [last];
      Without(txs[..|txs| - 1], c, n) + (if last.Reserve().AtOrAbove(c, n) then [] else [last])
  }

  function EvictChain(p: PoolState, c: NonceChain, n: nat): (PoolState, seq<HeldTx>) {
    var evicted := AtOrAbove(p.txs, c, n);
    (PoolState(
       Without(p.txs, c, n),
       p.byHash - Hashes(evicted),
       map h | h in p.inFlight && !p.inFlight[h].AtOrAbove(c, n) :: p.inFlight[h]),
     evicted)
  }

  /** A different queued transaction already owns this nonce. */
  predicate Contested(queue: seq<HeldTx>, tx: HeldTx) {
    exists q :: q in queue && q.Chain() == tx.Chain() && q.nonce == tx.nonce && q.hash != tx.hash
  }

  /** At or above a contested nonce of its own chain: recovery discards it. */
  predicate Superseded(queue: seq<HeldTx>, recovered: seq<HeldTx>, tx: HeldTx) {
    exists r :: r in recovered && r.Chain() == tx.Chain() && r.nonce <= tx.nonce && Contested(queue, r)
  }

  /** Recover `todo`, last transaction first, against the queue and batch seen at entry. */
  function PushFrontFrom(p: PoolState, queue: seq<HeldTx>, recovered: seq<HeldTx>, todo: seq<HeldTx>): PoolState {
    if todo == [] then p
    else
      var rest := PushFrontFrom(p, queue, recovered, todo[1..]);
      var tx := todo[0];
      var released := rest.inFlight - {tx.hash};
      if Superseded(queue, recovered, tx) || tx.hash in rest.byHash then rest.(inFlight := released)
      else PoolState([tx] + rest.txs, rest.byHash + {tx.hash}, released)
  }

  function PushFrontBatch(p: PoolState, recovered: seq<HeldTx>): PoolState {
    PushFrontFrom(p, p.txs, recovered, recovered)
  }

  /** The recovered transactions no queued replacement supersedes, in order. */
  function Unsuperseded(queue: seq<HeldTx>, recovered: seq<HeldTx>, todo: seq<HeldTx>): (r: seq<HeldTx>)
    ensures forall tx :: tx in r <==> tx in todo && !Superseded(queue, recovered, tx)
  {
    if todo == [] then []
    else
      assert todo == [todo[0]] + todo[1..];
      (if Superseded(queue, recovered, todo[0]) then [] else [todo[0]])
      + Unsuperseded(queue, recovered, todo[1..])
  }

  // ---- What each operation keeps -------------------------------------------------

  lemma {:induction false} WithoutDistinct(txs: seq<HeldTx>, c: NonceChain, n: nat)
    requires Distinct(txs)
    ensures Distinct(Without(txs, c, n))
    ensures Hashes(Without(txs, c, n)) == Hashes(txs) - Hashes(AtOrAbove(txs, c, n))
  {
    if txs != [] {
      var init := txs[..|txs| - 1];
      var last := txs[|txs| - 1];
      assert txs == init + [last];
      DistinctSplit(init, [last]);
      WithoutDistinct(init, c, n);
      HashesAppend(init, [last]);
      HashesAppend(Without(init, c, n), [last]);
      HashesAppend(AtOrAbove(init, c, n), [last]);
      assert last.hash in Hashes([last]);
      if !last.Reserve().AtOrAbove(c, n) {
        DistinctAppend(Without(init, c, n), [last]);
        assert Hashes(AtOrAbove(init, c, n)) <= Hashes(init);
      }
    }
  }

  lemma {:induction false} EvictChainValid(p: PoolState, c: NonceChain, n: nat)
    requires Valid(p)
    ensures Valid(EvictChain(p, c, n).0)
  {
    WithoutDistinct(p.txs, c, n);
  }

  lemma {:induction false} PopNValid(p: PoolState, max: nat)
    requires Valid(p)
    ensures Valid(PopN(p, max).0)
    ensures Distinct(PopN(p, max).1)
  {
    var (_, drained) := PopN(p, max);
    assert p.txs == drained + p.txs[|drained|..];
    DistinctSplit(drained, p.txs[|drained|..]);
    HashesAppend(drained, p.txs[|drained|..]);
  }

  /** A drained transaction's reservation records that very transaction. */
  lemma {:induction false} MarkMatches(m: map<TxHash, Reservation>, txs: seq<HeldTx>)
    requires Distinct(txs) && Hashes(txs) !! m.Keys
    ensures forall tx :: tx in txs ==> tx.hash in Mark(m, txs) && Mark(m, txs)[tx.hash] == tx.Reserve()
    ensures forall h :: h in m ==> Mark(m, txs)[h] == m[h]
  {
    if txs != [] {
      var init, last := txs[..|txs| - 1], txs[|txs| - 1];
      assert txs == init + [last];
      DistinctSplit(init, [last]);
      HashesAppend(init, [last]);
      assert last.hash in Hashes([last]) && last.hash !in Hashes(init) && last.hash !in m;
      hide Hashes, Distinct;
      MarkMatches(m, init);
      MarkFresh(m, init, last);
    }
  }

  lemma {:induction false} MarkFresh(m: map<TxHash, Reservation>, init: seq<HeldTx>, last: HeldTx)
    requires last.hash !in Hashes(init) && last.hash !in m
    ensures Mark(m, init + [last]) == Mark(m, init)[last.hash := last.Reserve()]
    ensures forall tx :: tx in init ==> tx.hash != last.hash
  {
    assert (init + [last])[..|init|] == init;
    forall tx | tx in init
      ensures tx.hash != last.hash
    {
      assert tx.hash in Hashes(init);
    }
  }

  lemma {:induction false} ReplaceDistinct(txs: seq<HeldTx>, i: nat, tx: HeldTx)
    requires Distinct(txs) && i < |txs| && tx.hash !in Hashes(txs)
    ensures Distinct(txs[i := tx])
  {
    forall k | 0 <= k < |txs|
      ensures txs[k].hash != tx.hash
    {
      assert txs[k] in txs;
    }
  }

  lemma {:induction false} ReplaceHashes(txs: seq<HeldTx>, i: nat, tx: HeldTx)
    requires Distinct(txs) && i < |txs| && tx.hash !in Hashes(txs)
    ensures Hashes(txs[i := tx]) == Hashes(txs) - {txs[i].hash} + {tx.hash}
  {
    var after := txs[i := tx];
    forall h
      ensures h in Hashes(after) <==> h in Hashes(txs) - {txs[i].hash} + {tx.hash}
    {
      if h in Hashes(after) {
        var x :| x in after && x.hash == h;
        var k :| 0 <= k < |after| && after[k] == x;
        assert k != i ==> txs[k] in txs && txs[k].hash != txs[i].hash;
      }
      if h == tx.hash { assert after[i] in after; }
      if h in Hashes(txs) && h != txs[i].hash {
        var x :| x in txs && x.hash == h;
        var k :| 0 <= k < |txs| && txs[k] == x;
        assert after[k] in after;
      }
    }
  }

  lemma {:induction false} ReplaceValid(p: PoolState, i: nat, tx: HeldTx)
    requires Valid(p) && i < |p.txs| && tx.hash !in p.byHash && tx.hash !in p.inFlight
    ensures Valid(PoolState(p.txs[i := tx], p.byHash - {p.txs[i].hash} + {tx.hash}, p.inFlight))
  {
    ReplaceDistinct(p.txs, i, tx);
    ReplaceHashes(p.txs, i, tx);
  }

  lemma {:induction false} PushContiguousValid(p: PoolState, tx: HeldTx, onChain: nat)
    requires Valid(p)
    ensures Valid(PushContiguous(p, tx, onChain).0)
    ensures PushContiguous(p, tx, onChain).0.inFlight == p.inFlight
    ensures PushContiguous(p, tx, onChain).1 != Admitted ==> PushContiguous(p, tx, onChain).0 == p
    ensures forall q :: q in PushContiguous(p, tx, onChain).0.txs ==> q in p.txs || q == tx
  {
    if tx.hash !in p.byHash && tx.hash !in p.inFlight {
      var queued := QueuedAt(p.txs, tx.Chain(), tx.nonce);
      if queued.Some? {
        ReplaceValid(p, queued.value, tx);
      } else {
        assert Hashes([tx]) == {tx.hash};
        HashesAppend(p.txs, [tx]);
        DistinctAppend(p.txs, [tx]);
      }
    }
  }

  /** What a replacement must offer against the transaction it displaces. */
  predicate Outbids(tx: HeldTx, prior: HeldTx) {
    tx.maxFee >= MinReplacementFee(prior.maxFee) && tx.priorityFee >= MinReplacementFee(prior.priorityFee)
  }

  /** The next free nonce of its chain: the source nonce, or right above everything reserved. */
  predicate Extends(p: PoolState, tx: HeldTx, onChain: nat) {
    && onChain <= tx.nonce
    && (forall n :: n in Reserved(p, tx.Chain()) ==> n < tx.nonce)
    && (tx.nonce == onChain || tx.nonce - 1 in Reserved(p, tx.Chain()))
  }

  /** The nonce the pool expects is the one that extends the chain. */
  lemma {:induction false} NextExtends(p: PoolState, tx: HeldTx, onChain: nat)
    ensures NextExpectedNonce(p, tx.Chain(), onChain) == Some(tx.nonce as nat) <==> Extends(p, tx, onChain)
  {
    var above := ReservedFrom(p, tx.Chain(), onChain);
    if above != {} {
      assert Max(above) in above;
      if Extends(p, tx, onChain) {
        assert tx.nonce - 1 in above;
      }
    }
  }

  /** A transaction is admitted exactly when it is already known, or outbids the queued holder of its
      nonce, or extends its chain over everything queued and in flight. */
  lemma {:induction false} AdmittedIff(p: PoolState, tx: HeldTx, onChain: nat)
    requires Valid(p) && ChainOrdered(p.txs)
    ensures PushContiguous(p, tx, onChain).1 == Admitted <==>
      || tx.hash in p.byHash || tx.hash in p.inFlight
      || (onChain <= tx.nonce && exists q :: q in p.txs && q.Reserve() == tx.Reserve() && Outbids(tx, q))
      || Extends(p, tx, onChain)
  {
    var queued := QueuedAt(p.txs, tx.Chain(), tx.nonce);
    NextExtends(p, tx, onChain);
    if queued.Some? {
      var i := queued.value;
      assert p.txs[i].Reserve() == tx.Reserve() && p.txs[i].nonce in Reserved(p, tx.Chain());
      forall q | q in p.txs && q.Reserve() == tx.Reserve()
        ensures q == p.txs[i]
      {
        var j :| 0 <= j < |p.txs| && p.txs[j] == q;
        assert i == j;
      }
    } else if exists h :: h in p.inFlight && p.inFlight[h] == tx.Reserve() {
      var h :| h in p.inFlight && p.inFlight[h] == tx.Reserve();
      assert p.inFlight[h].nonce in Reserved(p, tx.Chain());
    }
  }

  /** What a refusal says: the fees it takes to outbid the queued holder of the nonce, or the nonce
      that would have been admitted, if there is one. A refusal changes nothing. */
  lemma {:induction false} RefusalTells(p: PoolState, tx: HeldTx, onChain: nat)
    requires Valid(p) && PushContiguous(p, tx, onChain).1 != Admitted
    ensures PushContiguous(p, tx, onChain).0 == p
    ensures
      match PushContiguous(p, tx, onChain).1
      case UnderpricedReplacement(maxFee, priorityFee) =>
        && onChain <= tx.nonce && (tx.maxFee < maxFee || tx.priorityFee < priorityFee)
        && exists q :: q in p.txs && q.Reserve() == tx.Reserve()
             && maxFee == MinReplacementFee(q.maxFee) && priorityFee == MinReplacementFee(q.priorityFee)
      case NonceRejected(expected, seen) =>
        && seen == onChain && !Extends(p, tx, onChain)
        && (onChain <= tx.nonce ==> forall q :: q in p.txs ==> q.Reserve() != tx.Reserve())
        && forall next: HeldTx :: next.Chain() == tx.Chain() && Extends(p, next, onChain) ==> next.nonce == expected
      case Admitted => false
  {
    var queued := QueuedAt(p.txs, tx.Chain(), tx.nonce);
    NextExtends(p, tx, onChain);
    if onChain <= tx.nonce && queued.Some? {
      assert p.txs[queued.value] in p.txs && p.txs[queued.value].Reserve() == tx.Reserve();
    } else {
      if h :| h in p.inFlight && p.inFlight[h] == tx.Reserve() {
        assert p.inFlight[h].nonce in Reserved(p, tx.Chain());
      }
      forall next: HeldTx | next.Chain() == tx.Chain() && Extends(p, next, onChain)
        ensures next.nonce == ExpectedOrMax(p, tx.Chain(), onChain)
      {
        NextExtends(p, next, onChain);
      }
    }
  }

  /** An admission that changes the pool appends the transaction, or puts it in the very place of the
      one it outbids; nothing else in the queue moves. */
  lemma {:induction false} AdmissionEffect(p: PoolState, tx: HeldTx, onChain: nat)
    requires Valid(p) && PushContiguous(p, tx, onChain).0 != p
    ensures
      var p' := PushContiguous(p, tx, onChain).0;
      || (p'.txs == p.txs + [tx] && Extends(p, tx, onChain))
      || (exists i :: 0 <= i < |p.txs| && p'.txs == p.txs[i := tx]
            && p.txs[i].Reserve() == tx.Reserve() && Outbids(tx, p.txs[i]))
  {
    var queued := QueuedAt(p.txs, tx.Chain(), tx.nonce);
    if queued.Some? {
      assert p.txs[queued.value].Reserve() == tx.Reserve();
    } else {
      NextExtends(p, tx, onChain);
    }
  }

  lemma {:induction false} PushFrontFromValid(
    p: PoolState, queue: seq<HeldTx>, recovered: seq<HeldTx>, todo: seq<HeldTx>)
    requires Valid(p)
    ensures Valid(PushFrontFrom(p, queue, recovered, todo))
    ensures PushFrontFrom(p, queue, recovered, todo).inFlight == p.inFlight - Hashes(todo)
    ensures forall tx :: tx in PushFrontFrom(p, queue, recovered, todo).txs ==> tx in p.txs || tx in todo
  {
    if todo == [] {
      assert Hashes(todo) == {};
    } else {
      PushFrontFromValid(p, queue, recovered, todo[1..]);
      HashesCons(todo);
      var rest := PushFrontFrom(p, queue, recovered, todo[1..]);
      assert Hashes([todo[0]]) == {todo[0].hash};
      HashesAppend([todo[0]], rest.txs);
      if !Superseded(queue, recovered, todo[0]) && todo[0].hash !in rest.byHash {
        DistinctAppend([todo[0]], rest.txs);
      }
    }
  }

  lemma {:induction false} PushFrontBatchValid(p: PoolState, recovered: seq<HeldTx>)
    requires Valid(p)
    ensures Valid(PushFrontBatch(p, recovered))
    ensures PushFrontBatch(p, recovered).inFlight == p.inFlight - Hashes(recovered)
    ensures forall tx :: tx in PushFrontBatch(p, recovered).txs ==> tx in p.txs || tx in recovered
  {
    PushFrontFromValid(p, p.txs, recovered, recovered);
  }

  /** Re-queueing puts the batch back in front, in order, except for what a newer
      queued transaction superseded. */
  lemma {:induction false} PushFrontFromClosed(
    p: PoolState, queue: seq<HeldTx>, recovered: seq<HeldTx>, todo: seq<HeldTx>)
    requires Valid(p) && Distinct(todo) && Hashes(todo) !! p.byHash
    ensures PushFrontFrom(p, queue, recovered, todo).txs == Unsuperseded(queue, recovered, todo) + p.txs
    ensures PushFrontFrom(p, queue, recovered, todo).byHash == p.byHash + Hashes(Unsuperseded(queue, recovered, todo))
  {
    if todo == [] {
      assert Unsuperseded(queue, recovered, todo) + p.txs == p.txs;
      assert Hashes(Unsuperseded(queue, recovered, todo)) == {};
    } else {
      var head, tail := todo[0], Unsuperseded(queue, recovered, todo[1..]);
      var rest := PushFrontFrom(p, queue, recovered, todo[1..]);
      assert head.hash in Hashes(todo) && Hashes(todo[1..]) !! p.byHash by { HashesCons(todo); }
      DistinctHead(todo);
      PushFrontFromClosed(p, queue, recovered, todo[1..]);
      UnsupersededCons(queue, recovered, todo);
      if !Superseded(queue, recovered, head) {
        NotRequeuedYet(queue, recovered, todo[1..], head);
        assert head.hash !in rest.byHash;
        ConsFront(head, tail, p.txs);
      }
    }
  }

  lemma {:induction false} UnsupersededCons(queue: seq<HeldTx>, recovered: seq<HeldTx>, todo: seq<HeldTx>)
    requires todo != []
    ensures Unsuperseded(queue, recovered, todo)
      == if Superseded(queue, recovered, todo[0]) then Unsuperseded(queue, recovered, todo[1..])
         else [todo[0]] + Unsuperseded(queue, recovered, todo[1..])
  {
  }

  lemma {:induction false} ConsFront(head: HeldTx, tail: seq<HeldTx>, queue: seq<HeldTx>)
    ensures [head] + (tail + queue) == ([head] + tail) + queue
    ensures Hashes([head] + tail) == {head.hash} + Hashes(tail)
  {
    HashesAppend([head], tail);
    assert Hashes([head]) == {head.hash};
  }

  lemma {:induction false} NotRequeuedYet(queue: seq<HeldTx>, recovered: seq<HeldTx>, todo: seq<HeldTx>, tx: HeldTx)
    requires tx.hash !in Hashes(todo)
    ensures tx.hash !in Hashes(Unsuperseded(queue, recovered, todo))
  {
  }
}

/** The pool as the composer holds it: three fields under one lock, so each method is
    one atomic step. */
module HeldPools {
  import opened Types
  import opened HeldPoolSpec

  class HeldPool {
    var txs: seq<HeldTx>
    var byHash: set<TxHash>
    var inFlight: map<TxHash, Reservation>

    function State(): PoolState
      reads this
    {
      PoolState(txs, byHash, inFlight)
    }

    constructor ()
      ensures State() == EMPTY
    {
      txs, byHash, inFlight := [], {}, map[];
    }

    method HighestReserved(c: NonceChain, onChain: nat) returns (highest: Option<u64>)
      ensures highest.None? <==> ReservedFrom(State(), c, onChain) == {}
      ensures highest.Some? ==> highest.value == Max(ReservedFrom(State(), c, onChain))
    {
      highest := None;
      ghost var all := ReservedFrom(State(), c, onChain);
      for i := 0 to |txs|
        invariant highest.None? ==> forall j :: 0 <= j < i && txs[j].Chain() == c ==> txs[j].nonce < onChain
        invariant highest.Some? ==> highest.value in all
        invariant highest.Some? ==> forall j :: 0 <= j < i && txs[j].Chain() == c ==> txs[j].nonce <= highest.value
      {
        if txs[i].Chain() == c && txs[i].nonce >= onChain && (highest.None? || highest.value < txs[i].nonce) {
          assert txs[i].nonce in Reserved(State(), c);
          highest := Some(txs[i].nonce);
        }
      }
      var keys := inFlight.Keys;
      while keys != {}
        invariant keys <= inFlight.Keys
        invariant highest.None? ==> forall tx :: tx in txs && tx.Chain() == c ==> tx.nonce < onChain
        invariant highest.None? ==> forall h ::
          h in inFlight.Keys - keys && inFlight[h].Chain() == c ==> inFlight[h].nonce < onChain
        invariant highest.Some? ==> highest.value in all
        invariant highest.Some? ==> forall tx :: tx in txs && tx.Chain() == c ==> tx.nonce <= highest.value
        invariant highest.Some? ==> forall h ::
          h in inFlight.Keys - keys && inFlight[h].Chain() == c ==> inFlight[h].nonce <= highest.value
        decreases |keys|
      {
        var h :| h in keys;
        keys := keys - {h};
        var r := inFlight[h];
        if r.Chain() == c && r.nonce >= onChain && (highest.None? || highest.value < r.nonce) {
          assert r.nonce in Reserved(State(), c);
          highest := Some(r.nonce);
        }
      }
      assert highest.Some? ==> forall n :: n in all ==> n <= highest.value;
    }

    method NextExpected(c: NonceChain, onChain: nat) returns (next: Option<nat>)
      ensures next == NextExpectedNonce(State(), c, onChain)
    {
      var highest := HighestReserved(c, onChain);
      match highest
      case None => next := Some(onChain);
      case Some(n) => next := if n < U64_MAX then Some(n + 1) else None;
    }

    method InFlightHolds(slot: Reservation) returns (found: bool)
      ensures found <==> exists h :: h in inFlight && inFlight[h] == slot
    {
      var keys := inFlight.Keys;
      while keys != {}
        invariant keys <= inFlight.Keys
        invariant forall h :: h in inFlight.Keys - keys ==> inFlight[h] != slot
        decreases |keys|
      {
        var h :| h in keys;
        if inFlight[h] == slot { return true; }
        keys := keys - {h};
      }
      return false;
    }

    method PushContiguous(tx: HeldTx, onChain: nat) returns (r: Admission)
      modifies this
      ensures (State(), r) == HeldPoolSpec.PushContiguous(old(State()), tx, onChain)
    {
      if tx.hash in byHash || tx.hash in inFlight { return Admitted; }
      var queued := QueuedAt(txs, tx.Chain(), tx.nonce);
      var next := NextExpected(tx.Chain(), onChain);
      var expected := if next.Some? then next.value else U64_MAX;
      if tx.nonce < onChain { return NonceRejected(expected, onChain); }
      if queued.Some? {
        var prior := txs[queued.value];
        var maxFee := MinReplacementFee(prior.maxFee);
        var priorityFee := MinReplacementFee(prior.priorityFee);
        if tx.maxFee < maxFee || tx.priorityFee < priorityFee {
          return UnderpricedReplacement(maxFee, priorityFee);
        }
        txs := txs[queued.value := tx];
        byHash := byHash - {prior.hash};
        byHash := byHash + {tx.hash};
        return Admitted;
      }
      var taken := InFlightHolds(tx.Reserve());
      if taken || next.None? || tx.nonce != next.value { return NonceRejected(expected, onChain); }
      byHash := byHash + {tx.hash};
      txs := txs + [tx];
      return Admitted;
    }

    /** The lowest contested nonce of each recovered chain. */
    method ReplacementRoots(recovered: seq<HeldTx>) returns (roots: map<NonceChain, nat>)
      ensures forall tx :: tx in recovered ==>
        (Superseded(txs, recovered, tx) <==> tx.Chain() in roots && roots[tx.Chain()] <= tx.nonce)
    {
      roots := map[];
      for i := 0 to |recovered|
        invariant forall c :: c in roots ==>
          exists r :: r in recovered[..i] && r.Chain() == c && r.nonce == roots[c] && Contested(txs, r)
        invariant forall r :: r in recovered[..i] && Contested(txs, r) ==>
          r.Chain() in roots && roots[r.Chain()] <= r.nonce
      {
        var tx := recovered[i];
        assert recovered[..i + 1] == recovered[..i] + [tx];
        if Contested(txs, tx) {
          if tx.Chain() !in roots || tx.nonce < roots[tx.Chain()] {
            roots := roots[tx.Chain() := tx.nonce];
          }
        }
      }
      assert recovered[..|recovered|] == recovered;
    }

    method PushFrontBatch(recovered: seq<HeldTx>)
      modifies this
      ensures State() == HeldPoolSpec.PushFrontBatch(old(State()), recovered)
    {
      var roots := ReplacementRoots(recovered);
      var i := |recovered|;
      while i > 0
        invariant 0 <= i <= |recovered|
        invariant State() == PushFrontFrom(old(State()), old(txs), recovered, recovered[i..])
      {
        i := i - 1;
        var tx := recovered[i];
        assert recovered[i..][0] == tx && recovered[i..][1..] == recovered[i + 1..];
        inFlight := inFlight - {tx.hash};
        if !(tx.Chain() in roots && tx.nonce >= roots[tx.Chain()]) && tx.hash !in byHash {
          byHash := byHash + {tx.hash};
          txs := [tx] + txs;
        }
      }
      assert recovered[0..] == recovered;
    }

    method ReleaseInFlightBatch(released: seq<HeldTx>)
      modifies this`inFlight
      ensures State() == HeldPoolSpec.Release(old(State()), released)
    {
      for i := 0 to |released|
        invariant inFlight == old(inFlight) - Hashes(released[..i])
      {
        HashesSnoc(released, i);
        inFlight := inFlight - {released[i].hash};
      }
      assert released[..|released|] == released;
    }

    method EvictChainAtOrAbove(c: NonceChain, n: nat) returns (evicted: seq<HeldTx>)
      modifies this
      ensures (State(), evicted) == EvictChain(old(State()), c, n)
    {
      evicted := [];
      var kept: seq<HeldTx> := [];
      for i := 0 to |txs|
        invariant txs == old(txs) && inFlight == old(inFlight)
        invariant kept == Without(txs[..i], c, n) && evicted == HeldPoolSpec.AtOrAbove(txs[..i], c, n)
        invariant byHash == old(byHash) - Hashes(evicted)
      {
        var tx := txs[i];
        assert txs[..i + 1][..i] == txs[..i];
        if tx.Reserve().AtOrAbove(c, n) {
          HashesAppend(evicted, [tx]);
          byHash := byHash - {tx.hash};
          evicted := evicted + [tx];
        } else {
          kept := kept + [tx];
        }
      }
      assert txs[..|txs|] == txs;
      txs := kept;
      inFlight := map h | h in inFlight && !inFlight[h].AtOrAbove(c, n) :: inFlight[h];
    }

    method PopN(max: nat) returns (drained: seq<HeldTx>)
      modifies this
      ensures (State(), drained) == HeldPoolSpec.PopN(old(State()), max)
    {
      var count := if max <= |txs| then max else |txs|;
      drained := txs[..count];
      txs := txs[count..];
      for i := 0 to |drained|
        invariant txs == old(txs)[count..]
        invariant byHash == old(byHash) - Hashes(drained[..i])
        invariant inFlight == Mark(old(inFlight), drained[..i])
      {
        var tx := drained[i];
        HashesSnoc(drained, i);
        MarkSnoc(old(inFlight), drained, i);
        byHash := byHash - {tx.hash};
        if tx.hash !in inFlight { inFlight := inFlight[tx.hash := tx.Reserve()]; }
      }
      assert drained[..|drained|] == drained;
    }
  }
}
