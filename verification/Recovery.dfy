/** What recovery does with the transactions of a batch that failed or settled in part.
    Each plan is a list of locked pool calls, so other threads may run between them. */
module RecoverySpec {
  import opened Types
  import opened HeldPoolSpec

  const MAX_BUNDLE_ATTEMPTS: nat := 3

  datatype PoolOp =
    | ReleaseAll(txs: seq<HeldTx>)
    | Evict(gap: Reservation)
    /** Release these and everything the evictions so far returned. */
    | ReleaseEvicted(txs: seq<HeldTx>)
    | Requeue(txs: seq<HeldTx>)

  function ExecOp(p: PoolState, log: seq<HeldTx>, op: PoolOp): (PoolState, seq<HeldTx>) {
    match op
    case ReleaseAll(txs) => (Release(p, txs), log)
    case Evict(gap) =>
      var (p', evicted) := EvictChain(p, gap.Chain(), gap.nonce);
      (p', log + evicted)
    case ReleaseEvicted(txs) => (Release(p, txs + log), log)
    case Requeue(txs) => (PushFrontBatch(p, txs), log)
  }

  function ExecAll(p: PoolState, ops: seq<PoolOp>): (PoolState, seq<HeldTx>) {
    if ops == [] then (p, [])
    else
      var (q, log) := ExecAll(p, ops[..|ops| - 1]);
      ExecOp(q, log, ops[|ops| - 1])
  }

  // ---- The plans -------------------------------------------------------------------

  function Charge(tx: HeldTx): HeldTx {
    tx.(attempts := tx.attempts + 1)
  }

  predicate Spends(tx: HeldTx) {
    tx.attempts + 1 >= MAX_BUNDLE_ATTEMPTS
  }

  /** Charged transactions that reach the bound. */
  function Exhausted(txs: seq<HeldTx>): seq<HeldTx> {
    if txs == [] then []
    else
      var last := txs[|txs| - 1];
      Exhausted(txs[..|txs| - 1]) + (if Spends(last) then [Charge(last)] else [])
  }

  /** Charged transactions that stay below the bound. */
  function Retryable(txs: seq<HeldTx>): seq<HeldTx> {
    if txs == [] then []
    else
      var last := txs[|txs| - 1];
      Retryable(txs[..|txs| - 1]) + (if Spends(last) then [] else [Charge(last)])
  }

  function Gaps(txs: seq<HeldTx>): (r: seq<Reservation>)
    ensures |r| == |txs| && forall i :: 0 <= i < |r| ==> r[i] == txs[i].Reserve()
  {
    seq(|txs|, i requires 0 <= i < |txs| => txs[i].Reserve())
  }

  /** Behind a missing nonce of its own chain. */
  predicate AboveGap(gaps: seq<Reservation>, tx: HeldTx) {
    exists g :: g in gaps && g.Chain() == tx.Chain() && g.nonce < tx.nonce
  }

  function Clear(txs: seq<HeldTx>, gaps: seq<Reservation>): seq<HeldTx> {
    if txs == [] then []
    else
      var last := txs[|txs| - 1];
      Clear(txs[..|txs| - 1], gaps) + (if AboveGap(gaps, last) then [] else [last])
  }

  function Stranded(txs: seq<HeldTx>, gaps: seq<Reservation>): seq<HeldTx> {
    if txs == [] then []
    else
      var last := txs[|txs| - 1];
      Stranded(txs[..|txs| - 1], gaps) + (if AboveGap(gaps, last) then [last] else [])
  }

  function EvictOps(gaps: seq<Reservation>): (r: seq<PoolOp>)
    ensures |r| == |gaps| && forall i :: 0 <= i < |r| ==> r[i] == Evict(gaps[i])
  {
    seq(|gaps|, i requires 0 <= i < |gaps| => Evict(gaps[i]))
  }

  /** Count one failed settlement for every transaction. */
  function SettlementOps(txs: seq<HeldTx>): seq<PoolOp> {
    var gone, retry := Exhausted(txs), Retryable(txs);
    var gaps := Gaps(gone);
    EvictOps(gaps) + [ReleaseEvicted(gone + Stranded(retry, gaps))] + [Requeue(Clear(retry, gaps))]
  }

  function Landed(txs: seq<HeldTx>, landed: seq<TxHash>, want: bool): (r: seq<HeldTx>)
    ensures forall tx :: tx in r <==> tx in txs && (tx.hash in landed <==> want)
  {
    if txs == [] then []
    else
      var last := txs[|txs| - 1];
      assert txs == txs[..|txs| - 1] + [last];
      Landed(txs[..|txs| - 1], landed, want) + (if last.hash in landed <==> want then [last] else [])
  }

  function DisposeOps(txs: seq<HeldTx>, landed: seq<TxHash>, charge: bool): seq<PoolOp> {
    var keep := Landed(txs, landed, false);
    [ReleaseAll(Landed(txs, landed, true))] + (if charge then SettlementOps(keep) else [Requeue(keep)])
  }

  // ---- Partial settlement ----------------------------------------------------------

  predicate Stale(tx: HeldTx, nonces: map<NonceChain, nat>) {
    tx.Chain() in nonces && tx.nonce < nonces[tx.Chain()]
  }

  /** Split by whether the source nonce has moved past the transaction. */
  function PartitionStale(txs: seq<HeldTx>, nonces: map<NonceChain, nat>, stale: bool): (r: seq<HeldTx>)
    ensures forall tx :: tx in r <==> tx in txs && (Stale(tx, nonces) <==> stale)
  {
    if txs == [] then []
    else
      var last := txs[|txs| - 1];
      assert txs == txs[..|txs| - 1] + [last];
      PartitionStale(txs[..|txs| - 1], nonces, stale) + (if Stale(last, nonces) == stale then [last] else [])
  }

  function FirstOf(txs: seq<HeldTx>, d: Direction): (r: Option<HeldTx>)
    ensures r.Some? ==> r.value in txs && r.value.direction == d
    ensures r.None? ==> forall tx :: tx in txs ==> tx.direction != d
  {
    if txs == [] then None
    else if txs[0].direction == d then Some(txs[0])
    else
      assert txs == [txs[0]] + txs[1..];
      FirstOf(txs[1..], d)
  }

  function HashList(txs: seq<HeldTx>): (r: seq<TxHash>)
    ensures |r| == |txs| && forall i :: 0 <= i < |r| ==> r[i] == txs[i].hash
  {
    seq(|txs|, i requires 0 <= i < |txs| => txs[i].hash)
  }

  /** The transaction where L1 stopped, when it can be named. */
  function Culprit(txs: seq<HeldTx>, nonces: map<NonceChain, nat>): (r: Option<TxHash>) {
    var unspent := PartitionStale(txs, nonces, false);
    var out := FirstOf(unspent, Outbound);
    if out.Some? then Some(out.value.hash)
    else
      var first := FirstOf(txs, Inbound);
      if first.Some? && exists tx :: tx in unspent && tx.hash == first.value.hash
      then Some(first.value.hash) else None
  }

  function Named(txs: seq<HeldTx>, nonces: map<NonceChain, nat>): seq<TxHash> {
    var culprit := Culprit(txs, nonces);
    if culprit.Some? then [culprit.value] else []
  }

  function PartialOps(txs: seq<HeldTx>, nonces: map<NonceChain, nat>): seq<PoolOp> {
    var spent := HashList(PartitionStale(txs, nonces, true));
    var named := Named(txs, nonces);
    DisposeOps(Landed(txs, named, false), spent, false) + DisposeOps(Landed(txs, named, true), [], true)
  }

  // ---- Closed forms ----------------------------------------------------------------

  ghost predicate Doomed(gaps: seq<Reservation>, r: Reservation) {
    exists g :: g in gaps && r.AtOrAbove(g.Chain(), g.nonce)
  }

  /** The queue without what lies at or above a gap. */
  ghost function Spared(txs: seq<HeldTx>, gaps: seq<Reservation>): seq<HeldTx> {
    if txs == [] then []
    else
      var last := txs[|txs| - 1];
      Spared(txs[..|txs| - 1], gaps) + (if Doomed(gaps, last.Reserve()) then [] else [last])
  }

  lemma {:induction false} SparedMembers(txs: seq<HeldTx>, gaps: seq<Reservation>)
    ensures forall tx :: tx in Spared(txs, gaps) <==> tx in txs && !Doomed(gaps, tx.Reserve())
  {
    if txs != [] {
      assert txs == txs[..|txs| - 1] + [txs[|txs| - 1]];
      SparedMembers(txs[..|txs| - 1], gaps);
    }
  }

  ghost function SparedReservations(m: map<TxHash, Reservation>, gaps: seq<Reservation>): map<TxHash, Reservation> {
    map h | h in m && !Doomed(gaps, m[h]) :: m[h]
  }

  lemma {:induction false} DoomedSnoc(gaps: seq<Reservation>, g: Reservation, r: Reservation)
    ensures Doomed(gaps + [g], r) <==> Doomed(gaps, r) || r.AtOrAbove(g.Chain(), g.nonce)
  {
    if Doomed(gaps, r) {
      var w :| w in gaps && r.AtOrAbove(w.Chain(), w.nonce);
      assert w in gaps + [g];
    }
    assert g in gaps + [g];
  }

  lemma {:induction false} WithoutSnoc(txs: seq<HeldTx>, tx: HeldTx, c: NonceChain, n: nat)
    ensures Without(txs + [tx], c, n) == Without(txs, c, n) + (if tx.Reserve().AtOrAbove(c, n) then [] else [tx])
  {
    assert (txs + [tx])[..|txs|] == txs;
  }

  lemma {:induction false} SparedSnoc(txs: seq<HeldTx>, gaps: seq<Reservation>, g: Reservation)
    ensures Spared(txs, gaps + [g]) == Without(Spared(txs, gaps), g.Chain(), g.nonce)
  {
    if txs == [] {
      assert Spared(txs, gaps) == [];
    } else {
      var init, last := txs[..|txs| - 1], txs[|txs| - 1];
      SparedSnoc(init, gaps, g);
      DoomedSnoc(gaps, g, last.Reserve());
      if Doomed(gaps, last.Reserve()) {
        assert Spared(txs, gaps) == Spared(init, gaps);
      } else {
        assert Spared(txs, gaps) == Spared(init, gaps) + [last];
        WithoutSnoc(Spared(init, gaps), last, g.Chain(), g.nonce);
      }
    }
  }

  lemma {:induction false} SparedNone(txs: seq<HeldTx>)
    ensures Spared(txs, []) == txs
  {
    if txs != [] {
      SparedNone(txs[..|txs| - 1]);
      assert txs == txs[..|txs| - 1] + [txs[|txs| - 1]];
    }
  }

  lemma {:induction false} ExecSnoc(p: PoolState, ops: seq<PoolOp>, op: PoolOp)
    ensures var (q, log) := ExecAll(p, ops); ExecAll(p, ops + [op]) == ExecOp(q, log, op)
  {
    assert (ops + [op])[..|ops|] == ops;
  }

  lemma {:induction false} OpValid(p: PoolState, log: seq<HeldTx>, op: PoolOp)
    requires Valid(p)
    ensures Valid(ExecOp(p, log, op).0)
  {
    match op
    case ReleaseAll(txs) =>
    case Evict(gap) => EvictChainValid(p, gap.Chain(), gap.nonce);
    case ReleaseEvicted(txs) =>
    case Requeue(txs) => PushFrontBatchValid(p, txs);
  }

  lemma {:induction false} OpsValid(p: PoolState, ops: seq<PoolOp>)
    requires Valid(p)
    ensures Valid(ExecAll(p, ops).0)
  {
    if ops != [] {
      var (q, log) := ExecAll(p, ops[..|ops| - 1]);
      OpsValid(p, ops[..|ops| - 1]);
      OpValid(q, log, ops[|ops| - 1]);
    }
  }

  lemma {:induction false} SparedReservationsSnoc(m: map<TxHash, Reservation>, gaps: seq<Reservation>, g: Reservation)
    ensures SparedReservations(m, gaps + [g])
      == var before := SparedReservations(m, gaps);
         map h | h in before && !before[h].AtOrAbove(g.Chain(), g.nonce) :: before[h]
  {
    forall r: Reservation
      ensures Doomed(gaps + [g], r) <==> Doomed(gaps, r) || r.AtOrAbove(g.Chain(), g.nonce)
    {
      DoomedSnoc(gaps, g, r);
    }
  }

  /** Evicting several chain suffixes removes exactly what lies at or above a gap. */
  lemma {:induction false} EvictOpsClosed(p: PoolState, gaps: seq<Reservation>)
    ensures ExecAll(p, EvictOps(gaps)).0.txs == Spared(p.txs, gaps)
    ensures ExecAll(p, EvictOps(gaps)).0.inFlight == SparedReservations(p.inFlight, gaps)
    ensures forall tx :: tx in ExecAll(p, EvictOps(gaps)).1 ==> tx in p.txs
  {
    if gaps == [] {
      SparedNone(p.txs);
      assert SparedReservations(p.inFlight, gaps) == p.inFlight;
    } else {
      var init, g := gaps[..|gaps| - 1], gaps[|gaps| - 1];
      assert gaps == init + [g];
      assert EvictOps(gaps) == EvictOps(init) + [Evict(g)];
      EvictOpsClosed(p, init);
      ExecSnoc(p, EvictOps(init), Evict(g));
      SparedSnoc(p.txs, init, g);
      SparedReservationsSnoc(p.inFlight, init, g);
      SparedMembers(p.txs, init);
    }
  }

  // ---- Sub-batches keep distinctness and order ------------------------------------

  lemma {:induction false} SnocFacts(txs: seq<HeldTx>)
    requires txs != [] && Distinct(txs)
    ensures
      var init, last := txs[..|txs| - 1], txs[|txs| - 1];
      && txs == init + [last] && Distinct(init) && last.hash !in Hashes(init)
      && Hashes(txs) == Hashes(init) + {last.hash}
  {
    var init, last := txs[..|txs| - 1], txs[|txs| - 1];
    assert txs == init + [last];
    HashesAppend(init, [last]);
    assert Hashes([last]) == {last.hash};
  }

  lemma {:induction false} AppendOne(txs: seq<HeldTx>, tx: HeldTx)
    ensures Hashes(txs + [tx]) == Hashes(txs) + {tx.hash}
    ensures Distinct(txs) && tx.hash !in Hashes(txs) ==> Distinct(txs + [tx])
  {
    HashesAppend(txs, [tx]);
    assert Hashes([tx]) == {tx.hash};
    if Distinct(txs) && tx.hash !in Hashes(txs) {
      DistinctAppend(txs, [tx]);
    }
  }

  lemma {:induction false} ChargeMembers(txs: seq<HeldTx>, tx: HeldTx)
    ensures tx in txs && Spends(tx) <==> Charge(tx) in Exhausted(txs)
    ensures tx in txs && !Spends(tx) <==> Charge(tx) in Retryable(txs)
  {
    if txs != [] {
      var init, last := txs[..|txs| - 1], txs[|txs| - 1];
      assert txs == init + [last];
      ChargeMembers(init, tx);
      assert Charge(tx) == Charge(last) ==> tx == last.(attempts := tx.attempts) && tx.attempts == last.attempts;
    }
  }

  /** Everything charged came from the batch. */
  lemma {:induction false} ChargedFrom(txs: seq<HeldTx>, c: HeldTx) returns (tx: HeldTx)
    requires c in Exhausted(txs) || c in Retryable(txs)
    ensures tx in txs && c == Charge(tx)
  {
    var init, last := txs[..|txs| - 1], txs[|txs| - 1];
    assert txs == init + [last];
    if c == Charge(last) {
      tx := last;
    } else {
      tx := ChargedFrom(init, c);
    }
  }

  lemma {:induction false} GapOf(txs: seq<HeldTx>, tx: HeldTx)
    requires tx in txs
    ensures tx.Reserve() in Gaps(txs)
  {
    var i :| 0 <= i < |txs| && txs[i] == tx;
    assert Gaps(txs)[i] == tx.Reserve();
  }

  lemma {:induction false} GapFrom(txs: seq<HeldTx>, g: Reservation) returns (tx: HeldTx)
    requires g in Gaps(txs)
    ensures tx in txs && tx.Reserve() == g
  {
    var i :| 0 <= i < |txs| && Gaps(txs)[i] == g;
    tx := txs[i];
  }

  lemma {:induction false} GapMembers(txs: seq<HeldTx>, gaps: seq<Reservation>)
    ensures forall tx :: tx in Clear(txs, gaps) <==> tx in txs && !AboveGap(gaps, tx)
    ensures forall tx :: tx in Stranded(txs, gaps) <==> tx in txs && AboveGap(gaps, tx)
  {
    if txs != [] {
      var init, last := txs[..|txs| - 1], txs[|txs| - 1];
      assert txs == init + [last];
      GapMembers(init, gaps);
    }
  }

  lemma {:induction false} ChargeSplit(txs: seq<HeldTx>)
    requires Distinct(txs)
    ensures Distinct(Retryable(txs)) && Distinct(Exhausted(txs))
    ensures Hashes(Retryable(txs)) !! Hashes(Exhausted(txs))
    ensures Hashes(txs) == Hashes(Retryable(txs)) + Hashes(Exhausted(txs))
  {
    if txs == [] {
      assert Hashes(txs) == {};
    } else {
      var init, last := txs[..|txs| - 1], txs[|txs| - 1];
      SnocFacts(txs);
      ChargeSplit(init);
      if Spends(last) {
        AppendOne(Exhausted(init), Charge(last));
        assert Retryable(txs) == Retryable(init);
      } else {
        AppendOne(Retryable(init), Charge(last));
        assert Exhausted(txs) == Exhausted(init);
      }
    }
  }

  lemma {:induction false} GapSplit(txs: seq<HeldTx>, gaps: seq<Reservation>)
    requires Distinct(txs)
    ensures Distinct(Clear(txs, gaps))
    ensures Hashes(txs) == Hashes(Clear(txs, gaps)) + Hashes(Stranded(txs, gaps))
    ensures Hashes(Clear(txs, gaps)) !! Hashes(Stranded(txs, gaps))
  {
    if txs == [] {
      assert Hashes(txs) == {};
    } else {
      var init, last := txs[..|txs| - 1], txs[|txs| - 1];
      SnocFacts(txs);
      GapSplit(init, gaps);
      if AboveGap(gaps, last) {
        AppendOne(Stranded(init, gaps), last);
        assert Clear(txs, gaps) == Clear(init, gaps);
      } else {
        AppendOne(Clear(init, gaps), last);
        assert Stranded(txs, gaps) == Stranded(init, gaps);
      }
    }
  }

  lemma {:induction false} LandedSplit(txs: seq<HeldTx>, landed: seq<TxHash>)
    requires Distinct(txs)
    ensures Distinct(Landed(txs, landed, true)) && Distinct(Landed(txs, landed, false))
    ensures Hashes(txs) == Hashes(Landed(txs, landed, true)) + Hashes(Landed(txs, landed, false))
    ensures Hashes(Landed(txs, landed, true)) !! Hashes(Landed(txs, landed, false))
  {
    if txs == [] {
      assert Hashes(txs) == {};
      assert Hashes(Landed(txs, landed, true)) == {} && Hashes(Landed(txs, landed, false)) == {};
    } else {
      var init, last := txs[..|txs| - 1], txs[|txs| - 1];
      SnocFacts(txs);
      LandedSplit(init, landed);
      if last.hash in landed {
        AppendOne(Landed(init, landed, true), last);
        assert Landed(txs, landed, false) == Landed(init, landed, false);
      } else {
        AppendOne(Landed(init, landed, false), last);
        assert Landed(txs, landed, true) == Landed(init, landed, true);
      }
    }
  }

  /** A batch member is identified by its hash. */
  lemma {:induction false} SameHash(txs: seq<HeldTx>, a: HeldTx, b: HeldTx)
    requires Distinct(txs) && a in txs && b in txs && a.hash == b.hash
    ensures a == b
  {
    var i :| 0 <= i < |txs| && txs[i] == a;
    var j :| 0 <= j < |txs| && txs[j] == b;
    assert !(i < j) && !(j < i);
  }

  lemma {:induction false} OtherHash(txs: seq<HeldTx>, a: HeldTx, b: HeldTx)
    requires Distinct(txs) && a in txs && b in txs && a != b
    ensures a.hash != b.hash
  {
    var i :| 0 <= i < |txs| && txs[i] == a;
    var j :| 0 <= j < |txs| && txs[j] == b;
    assert i < j || j < i;
  }

  /** A batch member is identified by its place in its chain. */
  lemma {:induction false} SameSlot(txs: seq<HeldTx>, a: HeldTx, b: HeldTx)
    requires ChainOrdered(txs) && a in txs && b in txs && a.Reserve() == b.Reserve()
    ensures a == b
  {
    var i :| 0 <= i < |txs| && txs[i] == a;
    var j :| 0 <= j < |txs| && txs[j] == b;
    assert !(i < j) && !(j < i);
  }

  // ---- A charged recovery ----------------------------------------------------------

  /** The pool after the evictions and the release, before anything is re-queued. */
  ghost function Cleared(p: PoolState, gaps: seq<Reservation>, gone: seq<HeldTx>): PoolState {
    var queue := Spared(p.txs, gaps);
    PoolState(queue, Hashes(queue), SparedReservations(p.inFlight, gaps) - Hashes(gone))
  }

  lemma {:induction false} MinusTwice<K, V>(m: map<K, V>, a: set<K>, b: set<K>)
    ensures m - a - b == m - (a + b)
    ensures m.Keys !! b ==> m - (a + b) == m - a
  {
  }

  lemma {:induction false} EvictedAreQueued(p: PoolState, gaps: seq<Reservation>)
    requires Valid(p)
    ensures ExecAll(p, EvictOps(gaps)).0.inFlight.Keys !! Hashes(ExecAll(p, EvictOps(gaps)).1)
  {
    EvictOpsClosed(p, gaps);
    assert Hashes(ExecAll(p, EvictOps(gaps)).1) <= p.byHash;
    assert SparedReservations(p.inFlight, gaps).Keys <= p.inFlight.Keys;
  }

  lemma {:induction false} ClearedIsExec(p: PoolState, gaps: seq<Reservation>, gone: seq<HeldTx>)
    requires Valid(p)
    ensures ExecAll(p, EvictOps(gaps) + [ReleaseEvicted(gone)]).0 == Cleared(p, gaps, gone)
    ensures Valid(Cleared(p, gaps, gone))
  {
    var (q, log) := ExecAll(p, EvictOps(gaps));
    ExecSnoc(p, EvictOps(gaps), ReleaseEvicted(gone));
    EvictedAreQueued(p, gaps);
    HashesAppend(gone, log);
    MinusTwice(q.inFlight, Hashes(gone), Hashes(log));
    assert q.byHash == Hashes(q.txs) && Valid(q) by { OpsValid(p, EvictOps(gaps)); }
    EvictOpsClosed(p, gaps);
  }

  lemma {:induction false} SettlementSplit(txs: seq<HeldTx>)
    requires Distinct(txs)
    ensures
      var gone, retry := Exhausted(txs), Retryable(txs);
      var lost, keep := Stranded(retry, Gaps(gone)), Clear(retry, Gaps(gone));
      && Distinct(keep) && Hashes(keep) <= Hashes(txs)
      && Hashes(gone + lost) + Hashes(keep) == Hashes(txs)
  {
    var gone, retry := Exhausted(txs), Retryable(txs);
    ChargeSplit(txs);
    GapSplit(retry, Gaps(gone));
    HashesAppend(gone, Stranded(retry, Gaps(gone)));
  }

  lemma {:induction false} RequeueClosed(p: PoolState, keep: seq<HeldTx>)
    requires Valid(p) && Distinct(keep) && Hashes(keep) !! p.byHash
    ensures Valid(PushFrontBatch(p, keep))
    ensures PushFrontBatch(p, keep).txs == Unsuperseded(p.txs, keep, keep) + p.txs
    ensures PushFrontBatch(p, keep).inFlight == p.inFlight - Hashes(keep)
  {
    PushFrontBatchValid(p, keep);
    PushFrontFromClosed(p, p.txs, keep, keep);
  }

  lemma {:induction false} SparedHashes(p: PoolState, gaps: seq<Reservation>)
    requires Valid(p)
    ensures Hashes(Spared(p.txs, gaps)) <= p.byHash
  {
    SparedMembers(p.txs, gaps);
  }

  lemma {:induction false} SettlementSteps(p: PoolState, txs: seq<HeldTx>)
    requires Valid(p)
    ensures
      var gaps := Gaps(Exhausted(txs));
      var lost, keep := Stranded(Retryable(txs), gaps), Clear(Retryable(txs), gaps);
      ExecAll(p, SettlementOps(txs)).0 == PushFrontBatch(Cleared(p, gaps, Exhausted(txs) + lost), keep)
  {
    var gaps := Gaps(Exhausted(txs));
    var lost, keep := Stranded(Retryable(txs), gaps), Clear(Retryable(txs), gaps);
    ClearedIsExec(p, gaps, Exhausted(txs) + lost);
    var ops := EvictOps(gaps) + [ReleaseEvicted(Exhausted(txs) + lost)];
    assert SettlementOps(txs) == ops + [Requeue(keep)];
    ExecSnoc(p, ops, Requeue(keep));
  }

  lemma {:induction false} SettlementClosed(p: PoolState, txs: seq<HeldTx>)
    requires Valid(p) && Distinct(txs) && Hashes(txs) !! p.byHash
    ensures
      var gaps := Gaps(Exhausted(txs));
      var keep, queue := Clear(Retryable(txs), gaps), Spared(p.txs, gaps);
      var p' := ExecAll(p, SettlementOps(txs)).0;
      && Valid(p')
      && p'.txs == Unsuperseded(queue, keep, keep) + queue
      && p'.inFlight == SparedReservations(p.inFlight, gaps) - Hashes(txs)
  {
    var gone := Exhausted(txs);
    var gaps := Gaps(gone);
    var lost, keep := Stranded(Retryable(txs), gaps), Clear(Retryable(txs), gaps);
    SettlementSteps(p, txs);
    assert Valid(Cleared(p, gaps, gone + lost)) by { ClearedIsExec(p, gaps, gone + lost); }
    SettlementSplit(txs);
    SparedHashes(p, gaps);
    RequeueClosed(Cleared(p, gaps, gone + lost), keep);
    MinusTwice(SparedReservations(p.inFlight, gaps), Hashes(gone + lost), Hashes(keep));
  }

  // ---- Where each transaction of the batch ends up ---------------------------------

  datatype Fate = Released | Evicted | Replaced | Requeued(attempts: nat)

  /** At or above a transaction of its chain that this failure exhausts. */
  ghost predicate Dies(batch: seq<HeldTx>, slot: Reservation) {
    exists t :: t in batch && Spends(t) && slot.AtOrAbove(t.Chain(), t.nonce)
  }

  ghost function FateOf(queue: seq<HeldTx>, txs: seq<HeldTx>, landed: seq<TxHash>, charge: bool, tx: HeldTx): Fate {
    var keep := Landed(txs, landed, false);
    if tx.hash in landed then Released
    else if charge && Dies(keep, tx.Reserve()) then Evicted
    else if Superseded(queue, keep, tx) then Replaced
    else Requeued(if charge then tx.attempts + 1 else tx.attempts)
  }

  /** The pool shows exactly that fate, and no reservation is left behind. */
  ghost predicate Shows(p: PoolState, tx: HeldTx, fate: Fate) {
    && tx.hash !in p.inFlight
    && match fate
       case Requeued(n) => tx.(attempts := n) in p.txs
       case _ => tx.hash !in p.byHash
  }

  lemma {:induction false} DiesIsDoomed(batch: seq<HeldTx>, slot: Reservation)
    ensures Doomed(Gaps(Exhausted(batch)), slot) <==> Dies(batch, slot)
  {
    var gone := Exhausted(batch);
    if Doomed(Gaps(gone), slot) {
      var g :| g in Gaps(gone) && slot.AtOrAbove(g.Chain(), g.nonce);
      var c := GapFrom(gone, g);
      var t := ChargedFrom(batch, c);
      ChargeMembers(batch, t);
    }
    if Dies(batch, slot) {
      var t :| t in batch && Spends(t) && slot.AtOrAbove(t.Chain(), t.nonce);
      ChargeMembers(batch, t);
      GapOf(gone, Charge(t));
      assert slot.AtOrAbove(t.Reserve().Chain(), t.Reserve().nonce);
    }
  }

  /** For a batch member, lying above a gap or reaching the bound is dying. */
  lemma {:induction false} DiesMeans(batch: seq<HeldTx>, tx: HeldTx)
    requires ChainOrdered(batch) && tx in batch
    ensures Dies(batch, tx.Reserve()) <==> Spends(tx) || AboveGap(Gaps(Exhausted(batch)), Charge(tx))
  {
    var gone := Exhausted(batch);
    if Dies(batch, tx.Reserve()) {
      var t :| t in batch && Spends(t) && tx.Reserve().AtOrAbove(t.Chain(), t.nonce);
      if t.nonce == tx.nonce {
        SameSlot(batch, t, tx);
      } else {
        ChargeMembers(batch, t);
        GapOf(gone, Charge(t));
        assert t.Reserve().Chain() == tx.Chain() && t.Reserve().nonce < tx.nonce;
      }
    }
    if AboveGap(Gaps(gone), Charge(tx)) {
      var g :| g in Gaps(gone) && g.Chain() == tx.Chain() && g.nonce < tx.nonce;
      var c := GapFrom(gone, g);
      var t := ChargedFrom(batch, c);
      ChargeMembers(batch, t);
      assert tx.Reserve().AtOrAbove(t.Chain(), t.nonce);
    }
    if Spends(tx) {
      assert tx.Reserve().AtOrAbove(tx.Chain(), tx.nonce);
    }
  }

  /** What a charged batch re-queues is exactly what does not die. */
  lemma {:induction false} KeptIffAlive(batch: seq<HeldTx>, tx: HeldTx)
    requires ChainOrdered(batch) && tx in batch
    ensures Charge(tx) in Clear(Retryable(batch), Gaps(Exhausted(batch))) <==> !Dies(batch, tx.Reserve())
  {
    ChargeMembers(batch, tx);
    GapMembers(Retryable(batch), Gaps(Exhausted(batch)));
    DiesMeans(batch, tx);
  }

  lemma {:induction false} AliveBelow(batch: seq<HeldTx>, r: HeldTx, tx: HeldTx)
    requires r.Chain() == tx.Chain() && r.nonce <= tx.nonce && !Dies(batch, tx.Reserve())
    ensures !Dies(batch, r.Reserve())
  {
    forall t | t in batch && Spends(t)
      ensures !r.Reserve().AtOrAbove(t.Chain(), t.nonce)
    {
      assert r.Reserve().AtOrAbove(t.Chain(), t.nonce) ==> tx.Reserve().AtOrAbove(t.Chain(), t.nonce);
    }
  }

  lemma {:induction false} StillContested(queue: seq<HeldTx>, batch: seq<HeldTx>, r: HeldTx)
    requires !Dies(batch, r.Reserve())
    ensures Contested(Spared(queue, Gaps(Exhausted(batch))), Charge(r)) <==> Contested(queue, r)
  {
    var gaps := Gaps(Exhausted(batch));
    SparedMembers(queue, gaps);
    DiesIsDoomed(batch, r.Reserve());
    if Contested(queue, r) {
      var q :| q in queue && q.Chain() == r.Chain() && q.nonce == r.nonce && q.hash != r.hash;
      assert q.Reserve() == r.Reserve();
      assert q in Spared(queue, gaps);
    }
  }

  /** Supersession survives the charge: only transactions below an eviction can contest. */
  lemma {:induction false} SameSupersession(queue: seq<HeldTx>, batch: seq<HeldTx>, tx: HeldTx)
    requires ChainOrdered(batch) && tx in batch && !Dies(batch, tx.Reserve())
    ensures
      var gaps := Gaps(Exhausted(batch));
      Superseded(Spared(queue, gaps), Clear(Retryable(batch), gaps), Charge(tx)) <==> Superseded(queue, batch, tx)
  {
    var gaps := Gaps(Exhausted(batch));
    var kept, spared := Clear(Retryable(batch), gaps), Spared(queue, gaps);
    if Superseded(queue, batch, tx) {
      var r :| r in batch && r.Chain() == tx.Chain() && r.nonce <= tx.nonce && Contested(queue, r);
      AliveBelow(batch, r, tx);
      KeptIffAlive(batch, r);
      StillContested(queue, batch, r);
      assert Charge(r).Chain() == Charge(tx).Chain() && Charge(r).nonce <= Charge(tx).nonce;
    }
    if Superseded(spared, kept, Charge(tx)) {
      var c :| c in kept && c.Chain() == Charge(tx).Chain() && c.nonce <= tx.nonce && Contested(spared, c);
      assert c in Retryable(batch) by { GapMembers(Retryable(batch), gaps); }
      var r := ChargedFrom(batch, c);
      AliveBelow(batch, r, tx);
      StillContested(queue, batch, r);
    }
  }

  lemma {:induction false} ExecPrefix(p: PoolState, a: seq<PoolOp>, b: seq<PoolOp>)
    requires ExecAll(p, a).1 == []
    ensures ExecAll(p, a + b) == ExecAll(ExecAll(p, a).0, b)
  {
    if b == [] {
      assert a + b == a;
    } else {
      var init, last := b[..|b| - 1], b[|b| - 1];
      ExecPrefix(p, a, init);
      assert a + b == (a + init) + [last];
      ExecSnoc(p, a + init, last);
    }
  }

  lemma {:induction false} DisposeSteps(p: PoolState, txs: seq<HeldTx>, landed: seq<TxHash>, charge: bool)
    ensures
      var q, keep := Release(p, Landed(txs, landed, true)), Landed(txs, landed, false);
      ExecAll(p, DisposeOps(txs, landed, charge)).0
      == if charge then ExecAll(q, SettlementOps(keep)).0 else PushFrontBatch(q, keep)
  {
    var first := [ReleaseAll(Landed(txs, landed, true))];
    var keep := Landed(txs, landed, false);
    ExecSnoc(p, [], first[0]);
    assert [] + first == first;
    ExecPrefix(p, first, if charge then SettlementOps(keep) else [Requeue(keep)]);
    if !charge {
      ExecSnoc(ExecAll(p, first).0, [], Requeue(keep));
      assert [] + [Requeue(keep)] == [Requeue(keep)];
    }
  }

  lemma {:induction false} LandedOrdered(txs: seq<HeldTx>, landed: seq<TxHash>, want: bool)
    requires ChainOrdered(txs)
    ensures ChainOrdered(Landed(txs, landed, want))
  {
    if txs != [] {
      var init, last := txs[..|txs| - 1], txs[|txs| - 1];
      assert txs == init + [last];
      OrderedInit(txs);
      LandedOrdered(init, landed, want);
      if last.hash in landed <==> want {
        OrderedSnoc(Landed(init, landed, want), last);
      } else {
        assert Landed(txs, landed, want) == Landed(init, landed, want);
      }
    }
  }

  /** `tx` holds no reservation, and is either back in the queue as `back` or not queued at all. */
  ghost predicate Returns(p: PoolState, tx: HeldTx, back: HeldTx, yes: bool) {
    && tx.hash !in p.inFlight
    && if yes then back in p.txs else tx.hash !in p.byHash
  }

  lemma {:induction false} FrontFate(p: PoolState, front: seq<HeldTx>, queue: seq<HeldTx>, tx: HeldTx, back: HeldTx)
    requires Valid(p) && p.txs == front + queue && tx.hash !in p.inFlight && back.hash == tx.hash
    requires forall q :: q in queue ==> q.hash != tx.hash
    requires forall f :: f in front && f.hash == tx.hash ==> f == back
    ensures Returns(p, tx, back, back in front)
  {
  }

  lemma {:induction false} KeptByHash(txs: seq<HeldTx>, gaps: seq<Reservation>, tx: HeldTx, c: HeldTx)
    requires Distinct(txs) && tx in txs && c in Clear(Retryable(txs), gaps) && c.hash == tx.hash
    ensures c == Charge(tx)
  {
    assert c in Retryable(txs) by { GapMembers(Retryable(txs), gaps); }
    var r := ChargedFrom(txs, c);
    SameHash(txs, r, tx);
  }

  /** A charged recovery: dead transactions leave the pool, the rest return charged. */
  lemma {:induction false} ChargedFate(p: PoolState, txs: seq<HeldTx>, tx: HeldTx)
    requires Valid(p) && Distinct(txs) && ChainOrdered(txs) && Hashes(txs) !! p.byHash && tx in txs
    ensures Returns(ExecAll(p, SettlementOps(txs)).0, tx, Charge(tx),
                    !Dies(txs, tx.Reserve()) && !Superseded(p.txs, txs, tx))
  {
    var p' := ExecAll(p, SettlementOps(txs)).0;
    var gaps := Gaps(Exhausted(txs));
    var keep, queue := Clear(Retryable(txs), gaps), Spared(p.txs, gaps);
    var front := Unsuperseded(queue, keep, keep);
    assert tx.hash in Hashes(txs);
    assert Valid(p') && p'.txs == front + queue && tx.hash !in p'.inFlight by { SettlementClosed(p, txs); }
    NotQueued(p, gaps, tx);
    FrontByHash(queue, txs, gaps, tx);
    FrontIff(p.txs, txs, tx);
    FrontFate(p', front, queue, tx, Charge(tx));
  }

  lemma {:induction false} FrontByHash(queue: seq<HeldTx>, txs: seq<HeldTx>, gaps: seq<Reservation>, tx: HeldTx)
    requires Distinct(txs) && tx in txs
    ensures
      var keep := Clear(Retryable(txs), gaps);
      forall f :: f in Unsuperseded(queue, keep, keep) && f.hash == tx.hash ==> f == Charge(tx)
  {
    var keep := Clear(Retryable(txs), gaps);
    forall f | f in Unsuperseded(queue, keep, keep) && f.hash == tx.hash
      ensures f == Charge(tx)
    {
      KeptByHash(txs, gaps, tx, f);
    }
  }

  lemma {:induction false} FrontIff(queue: seq<HeldTx>, txs: seq<HeldTx>, tx: HeldTx)
    requires ChainOrdered(txs) && tx in txs
    ensures
      var gaps := Gaps(Exhausted(txs));
      var keep := Clear(Retryable(txs), gaps);
      Charge(tx) in Unsuperseded(Spared(queue, gaps), keep, keep)
      <==> !Dies(txs, tx.Reserve()) && !Superseded(queue, txs, tx)
  {
    KeptIffAlive(txs, tx);
    if !Dies(txs, tx.Reserve()) {
      SameSupersession(queue, txs, tx);
    }
  }

  lemma {:induction false} NotQueued(p: PoolState, gaps: seq<Reservation>, tx: HeldTx)
    requires Valid(p) && tx.hash !in p.byHash
    ensures forall q :: q in Spared(p.txs, gaps) ==> q.hash != tx.hash
  {
    SparedHashes(p, gaps);
  }

  /** Releasing, re-queueing or evicting: recovery gives every transaction of the batch
      exactly one fate, and leaves none of their reservations behind. */
  lemma {:induction false} EveryRecoveredTxHasOneFate(p: PoolState, txs: seq<HeldTx>, landed: seq<TxHash>, charge: bool)
    requires Valid(p) && Distinct(txs) && (charge ==> ChainOrdered(txs)) && Hashes(txs) !! p.byHash
    ensures
      var p' := ExecAll(p, DisposeOps(txs, landed, charge)).0;
      && Valid(p')
      && forall tx :: tx in txs ==> Shows(p', tx, FateOf(p.txs, txs, landed, charge, tx))
  {
    var p' := ExecAll(p, DisposeOps(txs, landed, charge)).0;
    OpsValid(p, DisposeOps(txs, landed, charge));
    forall tx | tx in txs
      ensures Shows(p', tx, FateOf(p.txs, txs, landed, charge, tx))
    {
      OneFate(p, txs, landed, charge, tx);
    }
  }

  lemma {:induction false} OneFate(p: PoolState, txs: seq<HeldTx>, landed: seq<TxHash>, charge: bool, tx: HeldTx)
    requires Valid(p) && Distinct(txs) && (charge ==> ChainOrdered(txs)) && Hashes(txs) !! p.byHash && tx in txs
    ensures Shows(ExecAll(p, DisposeOps(txs, landed, charge)).0, tx, FateOf(p.txs, txs, landed, charge, tx))
  {
    if tx.hash in landed {
      ReleasedFate(p, txs, landed, charge, tx);
    } else {
      KeptFate(p, txs, landed, charge, tx);
      var p' := ExecAll(p, DisposeOps(txs, landed, charge)).0;
      var fate := FateOf(p.txs, txs, landed, charge, tx);
      assert Returns(p', tx, if charge then Charge(tx) else tx, fate.Requeued?);
      assert fate.Requeued? ==> tx.(attempts := fate.attempts) == if charge then Charge(tx) else tx;
    }
  }

  lemma {:induction false} KeptFate(p: PoolState, txs: seq<HeldTx>, landed: seq<TxHash>, charge: bool, tx: HeldTx)
    requires Valid(p) && Distinct(txs) && (charge ==> ChainOrdered(txs)) && Hashes(txs) !! p.byHash
    requires tx in txs && tx.hash !in landed
    ensures
      var keep := Landed(txs, landed, false);
      Returns(ExecAll(p, DisposeOps(txs, landed, charge)).0, tx, if charge then Charge(tx) else tx,
              !(charge && Dies(keep, tx.Reserve())) && !Superseded(p.txs, keep, tx))
  {
    var q, keep := Release(p, Landed(txs, landed, true)), Landed(txs, landed, false);
    DisposeSteps(p, txs, landed, charge);
    LandedSplit(txs, landed);
    if charge {
      LandedOrdered(txs, landed, false);
      ChargedFate(q, keep, tx);
    } else {
      RequeuedFate(q, keep, tx);
    }
  }

  lemma {:induction false} RequeuedFate(p: PoolState, keep: seq<HeldTx>, tx: HeldTx)
    requires Valid(p) && Distinct(keep) && Hashes(keep) !! p.byHash && tx in keep
    ensures Returns(PushFrontBatch(p, keep), tx, tx, !Superseded(p.txs, keep, tx))
  {
    assert tx.hash in Hashes(keep);
    RequeueClosed(p, keep);
    var front := Unsuperseded(p.txs, keep, keep);
    forall r | r in front && r.hash == tx.hash
      ensures r == tx
    {
      SameHash(keep, r, tx);
    }
    FrontFate(PushFrontBatch(p, keep), front, p.txs, tx, tx);
  }

  lemma {:induction false} ReleasedFate(p: PoolState, txs: seq<HeldTx>, landed: seq<TxHash>, charge: bool, tx: HeldTx)
    requires Valid(p) && Distinct(txs) && Hashes(txs) !! p.byHash && tx in txs && tx.hash in landed
    ensures Shows(ExecAll(p, DisposeOps(txs, landed, charge)).0, tx, Released)
  {
    var q, keep := Release(p, Landed(txs, landed, true)), Landed(txs, landed, false);
    DisposeSteps(p, txs, landed, charge);
    LandedSplit(txs, landed);
    assert tx in Landed(txs, landed, true) && tx.hash in Hashes(Landed(txs, landed, true)) && tx.hash in Hashes(txs);
    if charge {
      SettlementClosed(q, keep);
      var gaps := Gaps(Exhausted(keep));
      NotQueued(q, gaps, tx);
      assert Hashes(Clear(Retryable(keep), gaps)) <= Hashes(keep) by { SettlementSplit(keep); }
    } else {
      RequeueClosed(q, keep);
    }
  }

  /** After a charged recovery nothing queued or reserved stands at or above an exhausted
      nonce, and every other queued transaction is untouched. */
  lemma {:induction false} SettlementLeavesNothingAbove(p: PoolState, txs: seq<HeldTx>)
    requires Valid(p) && Distinct(txs) && ChainOrdered(txs) && Hashes(txs) !! p.byHash
    ensures
      var p' := ExecAll(p, SettlementOps(txs)).0;
      && (forall q :: q in p'.txs ==> !Dies(txs, q.Reserve()))
      && (forall h :: h in p'.inFlight ==> !Dies(txs, p'.inFlight[h]))
      && (forall q :: q in p.txs ==> (q in p'.txs <==> !Dies(txs, q.Reserve())))
      && (forall q :: q in p'.txs ==> q in p.txs || exists tx :: tx in txs && q == Charge(tx))
  {
    var p' := ExecAll(p, SettlementOps(txs)).0;
    var gaps := Gaps(Exhausted(txs));
    var keep := Clear(Retryable(txs), gaps);
    SettlementClosed(p, txs);
    SparedMembers(p.txs, gaps);
    forall slot: Reservation
      ensures Doomed(gaps, slot) <==> Dies(txs, slot)
    {
      DiesIsDoomed(txs, slot);
    }
    forall q | q in Unsuperseded(Spared(p.txs, gaps), keep, keep)
      ensures !Dies(txs, q.Reserve()) && exists tx :: tx in txs && q == Charge(tx)
    {
      assert q in Retryable(txs) by { GapMembers(Retryable(txs), gaps); }
      var tx := ChargedFrom(txs, q);
      KeptIffAlive(txs, tx);
    }
  }

  // ---- A partial settlement --------------------------------------------------------

  lemma {:induction false} SpentIsStale(txs: seq<HeldTx>, nonces: map<NonceChain, nat>, tx: HeldTx)
    requires Distinct(txs) && tx in txs
    ensures tx.hash in HashList(PartitionStale(txs, nonces, true)) <==> Stale(tx, nonces)
  {
    var spent := PartitionStale(txs, nonces, true);
    if tx.hash in HashList(spent) {
      var i :| 0 <= i < |spent| && spent[i].hash == tx.hash;
      SameHash(txs, spent[i], tx);
    }
    if Stale(tx, nonces) {
      var i :| 0 <= i < |spent| && spent[i] == tx;
      assert HashList(spent)[i] == tx.hash;
    }
  }

  /** The named culprit is an unspent transaction of the batch, and no unspent transaction of
      its chain stands below it. */
  lemma {:induction false} CulpritIsFirst(txs: seq<HeldTx>, nonces: map<NonceChain, nat>) returns (c: HeldTx)
    requires Distinct(txs) && ChainOrdered(txs) && Culprit(txs, nonces).Some?
    ensures c in txs && Culprit(txs, nonces) == Some(c.hash) && !Stale(c, nonces)
    ensures forall tx :: tx in txs && !Stale(tx, nonces) && tx.Chain() == c.Chain() ==> c.nonce <= tx.nonce
  {
    var unspent := PartitionStale(txs, nonces, false);
    var out := FirstOf(unspent, Outbound);
    if out.Some? {
      c := out.value;
      StaleOrdered(txs, nonces);
      FirstIsLowest(unspent, Outbound);
    } else {
      c := FirstOf(txs, Inbound).value;
      var u :| u in unspent && u.hash == c.hash;
      SameHash(txs, u, c);
      FirstIsLowest(txs, Inbound);
    }
  }

  lemma {:induction false} StaleOrdered(txs: seq<HeldTx>, nonces: map<NonceChain, nat>)
    requires ChainOrdered(txs)
    ensures ChainOrdered(PartitionStale(txs, nonces, false))
  {
    if txs != [] {
      var init, last := txs[..|txs| - 1], txs[|txs| - 1];
      assert txs == init + [last];
      OrderedInit(txs);
      StaleOrdered(init, nonces);
      if Stale(last, nonces) {
        assert PartitionStale(txs, nonces, false) == PartitionStale(init, nonces, false);
      } else {
        OrderedSnoc(PartitionStale(init, nonces, false), last);
      }
    }
  }

  lemma {:induction false} FirstIsLowest(txs: seq<HeldTx>, d: Direction)
    requires ChainOrdered(txs) && FirstOf(txs, d).Some?
    ensures
      var c := FirstOf(txs, d).value;
      forall tx :: tx in txs && tx.Chain() == c.Chain() ==> c.nonce <= tx.nonce
  {
    if txs[0].direction == d {
      forall tx | tx in txs && tx.Chain() == txs[0].Chain()
        ensures txs[0].nonce <= tx.nonce
      {
        var i :| 0 <= i < |txs| && txs[i] == tx;
      }
    } else {
      assert txs == [txs[0]] + txs[1..];
      FirstIsLowest(txs[1..], d);
    }
  }

  /** No source nonce has moved past it. */
  ghost predicate Unspent(tx: HeldTx, nonces: map<NonceChain, nat>) {
    tx.Chain() in nonces ==> nonces[tx.Chain()] <= tx.nonce
  }

  /** L1 stopped at the transaction in position `i`: it is unspent, and it is the first outbound one
      not spent, or all outbound ones are spent and it is the very first inbound one. */
  ghost predicate StopsAt(txs: seq<HeldTx>, nonces: map<NonceChain, nat>, i: nat) {
    && i < |txs| && Unspent(txs[i], nonces)
    && (txs[i].direction == Outbound ==>
         forall j :: 0 <= j < i && txs[j].direction == Outbound ==> !Unspent(txs[j], nonces))
    && (txs[i].direction == Inbound ==>
         && (forall j :: 0 <= j < |txs| && txs[j].direction == Outbound ==> !Unspent(txs[j], nonces))
         && FirstInbound(txs, i))
  }

  ghost predicate FirstInbound(txs: seq<HeldTx>, i: nat) {
    i < |txs| && txs[i].direction == Inbound && forall j :: 0 <= j < i ==> txs[j].direction == Outbound
  }

  lemma {:induction false} FirstOfAt(txs: seq<HeldTx>, d: Direction) returns (i: nat)
    requires FirstOf(txs, d).Some?
    ensures i < |txs| && txs[i] == FirstOf(txs, d).value && forall j :: 0 <= j < i ==> txs[j].direction != d
  {
    if txs[0].direction == d {
      i := 0;
    } else {
      var k := FirstOfAt(txs[1..], d);
      i := k + 1;
      assert forall j :: 1 <= j < i ==> txs[j] == txs[1..][j - 1];
    }
  }

  lemma {:induction false} FirstOfSnoc(txs: seq<HeldTx>, tx: HeldTx, d: Direction)
    ensures FirstOf(txs + [tx], d)
      == if FirstOf(txs, d).Some? then FirstOf(txs, d) else if tx.direction == d then Some(tx) else None
  {
    if txs == [] {
      assert [] + [tx] == [tx];
    } else {
      FirstOfSnoc(txs[1..], tx, d);
      assert (txs + [tx])[1..] == txs[1..] + [tx];
    }
  }

  lemma {:induction false} FirstUnspentAt(txs: seq<HeldTx>, nonces: map<NonceChain, nat>) returns (i: nat)
    requires FirstOf(PartitionStale(txs, nonces, false), Outbound).Some?
    ensures StopsAt(txs, nonces, i) && txs[i] == FirstOf(PartitionStale(txs, nonces, false), Outbound).value
    ensures txs[i].direction == Outbound
  {
    var n := |txs| - 1;
    var init, last := txs[..n], txs[n];
    var unspent := PartitionStale(init, nonces, false);
    FirstOfSnoc(unspent, last, Outbound);
    if FirstOf(unspent, Outbound).Some? {
      i := FirstUnspentAt(init, nonces);
      assert forall j :: 0 <= j < n ==> txs[j] == init[j];
      assert unspent + [] == unspent;
    } else {
      i := n;
      assert unspent + [] == unspent;
      forall j | 0 <= j < n && txs[j].direction == Outbound ensures !Unspent(txs[j], nonces) {
        assert txs[j] in init;
      }
    }
  }

  lemma {:induction false} CulpritStops(txs: seq<HeldTx>, nonces: map<NonceChain, nat>) returns (i: nat)
    requires Distinct(txs) && Culprit(txs, nonces).Some?
    ensures StopsAt(txs, nonces, i) && Culprit(txs, nonces) == Some(txs[i].hash)
  {
    var unspent := PartitionStale(txs, nonces, false);
    if FirstOf(unspent, Outbound).Some? {
      i := FirstUnspentAt(txs, nonces);
    } else {
      i := FirstOfAt(txs, Inbound);
      var u :| u in unspent && u.hash == txs[i].hash;
      SameHash(txs, u, txs[i]);
      forall j | 0 <= j < |txs| && txs[j].direction == Outbound ensures !Unspent(txs[j], nonces) {
        assert txs[j] in txs;
      }
    }
  }

  lemma {:induction false} StopIsNamed(txs: seq<HeldTx>, nonces: map<NonceChain, nat>, i: nat)
    requires StopsAt(txs, nonces, i)
    ensures Culprit(txs, nonces).Some?
  {
    var unspent := PartitionStale(txs, nonces, false);
    assert txs[i] in txs && txs[i] in unspent;
    if txs[i].direction == Inbound && FirstOf(unspent, Outbound).None? {
      var k := FirstOfAt(txs, Inbound);
      assert k == i;
    }
  }

  /** The culprit is named exactly where L1 stopped: nobody is if all outbound transactions are spent
      and the first inbound one is, even when a later inbound one is not. */
  lemma {:induction false} CulpritIff(txs: seq<HeldTx>, nonces: map<NonceChain, nat>, h: TxHash)
    requires Distinct(txs)
    ensures Culprit(txs, nonces) == Some(h) <==> exists i: nat :: StopsAt(txs, nonces, i) && txs[i].hash == h
  {
    if Culprit(txs, nonces).Some? {
      var k := CulpritStops(txs, nonces);
      forall i: nat | StopsAt(txs, nonces, i) ensures i == k {}
    }
    if i: nat :| StopsAt(txs, nonces, i) && txs[i].hash == h {
      StopIsNamed(txs, nonces, i);
    }
  }

  /** With every outbound transaction and the first inbound one spent, a partial settlement charges and
      evicts nobody: what was queued stays, and what comes back has the attempts it had. */
  lemma {:induction false} NobodyChargedUnlessStopped(
    p: PoolState, txs: seq<HeldTx>, nonces: map<NonceChain, nat>)
    requires Valid(p) && Distinct(txs) && Hashes(txs) !! p.byHash
    requires forall j :: 0 <= j < |txs| && txs[j].direction == Outbound ==> !Unspent(txs[j], nonces)
    requires forall i: nat :: FirstInbound(txs, i) ==> !Unspent(txs[i], nonces)
    ensures
      var p' := ExecAll(p, PartialOps(txs, nonces)).0;
      && (forall q :: q in p.txs ==> q in p'.txs)
      && (forall q :: q in p'.txs ==> q in p.txs || (q in txs && Unspent(q, nonces)))
  {
    hide Culprit, ExecAll, PartialOps, Halfway, SettlementOps, PartitionStale;
    NobodyNamed(txs, nonces);
    PartialSteps(p, txs, nonces);
    LandedNone(txs);
    HalfwayQueue(p, txs, nonces);
    NothingSettled(Halfway(p, txs, nonces));
  }

  lemma {:induction false} NobodyNamed(txs: seq<HeldTx>, nonces: map<NonceChain, nat>)
    requires Distinct(txs)
    requires forall j :: 0 <= j < |txs| && txs[j].direction == Outbound ==> !Unspent(txs[j], nonces)
    requires forall i: nat :: FirstInbound(txs, i) ==> !Unspent(txs[i], nonces)
    ensures Named(txs, nonces) == []
  {
    if Culprit(txs, nonces).Some? {
      var i := CulpritStops(txs, nonces);
      assert false;
    }
  }

  lemma {:induction false} NothingSettled(p: PoolState)
    ensures ExecAll(p, SettlementOps([])).0.txs == p.txs
  {
    var release, requeue := ReleaseEvicted([]), Requeue([]);
    var none: seq<HeldTx> := [];
    assert Exhausted(none) == none && Retryable(none) == none && Gaps(none) == [] && EvictOps([]) == [];
    assert Stranded(none, []) == none && Clear(none, []) == none && none + none == none;
    assert SettlementOps(none) == [release] + [requeue];
    ExecSnoc(p, [], release);
    assert [] + [release] == [release];
    ExecSnoc(p, [release], requeue);
  }

  /** Where a partial settlement leaves each transaction. */
  ghost function PartialFate(queue: seq<HeldTx>, txs: seq<HeldTx>, nonces: map<NonceChain, nat>, tx: HeldTx): Fate {
    var named := Named(txs, nonces);
    var charged, rest := Landed(txs, named, true), Landed(txs, named, false);
    if Stale(tx, nonces) then Released
    else if Dies(charged, tx.Reserve()) then Evicted
    else if tx.hash in named then (if Contested(queue, tx) then Replaced else Requeued(tx.attempts + 1))
    else if Superseded(queue, PartitionStale(rest, nonces, false), tx) then Replaced
    else Requeued(tx.attempts)
  }

  lemma {:induction false} LandedNone(txs: seq<HeldTx>)
    ensures Landed(txs, [], false) == txs && Landed(txs, [], true) == []
  {
    if txs != [] {
      var init, last := txs[..|txs| - 1], txs[|txs| - 1];
      assert txs == init + [last];
      LandedNone(init);
    }
  }

  /** The pool between the two disposals. */
  ghost function Halfway(p: PoolState, txs: seq<HeldTx>, nonces: map<NonceChain, nat>): PoolState {
    var spent := HashList(PartitionStale(txs, nonces, true));
    ExecAll(p, DisposeOps(Landed(txs, Named(txs, nonces), false), spent, false)).0
  }

  lemma {:induction false} PartialSteps(p: PoolState, txs: seq<HeldTx>, nonces: map<NonceChain, nat>)
    ensures ExecAll(p, PartialOps(txs, nonces)).0
      == ExecAll(Halfway(p, txs, nonces), SettlementOps(Landed(txs, Named(txs, nonces), true))).0
  {
    var spent := HashList(PartitionStale(txs, nonces, true));
    var rest, charged := Landed(txs, Named(txs, nonces), false), Landed(txs, Named(txs, nonces), true);
    NoLog(p, rest, spent);
    ExecPrefix(p, DisposeOps(rest, spent, false), DisposeOps(charged, [], true));
    DisposeAll(Halfway(p, txs, nonces), charged);
  }

  lemma {:induction false} DisposeAll(p: PoolState, txs: seq<HeldTx>)
    ensures ExecAll(p, DisposeOps(txs, [], true)).0 == ExecAll(p, SettlementOps(txs)).0
  {
    DisposeSteps(p, txs, [], true);
    LandedNone(txs);
    assert p.inFlight - Hashes([]) == p.inFlight;
    assert Release(p, []) == p;
  }

  lemma {:induction false} NoLog(p: PoolState, txs: seq<HeldTx>, landed: seq<TxHash>)
    ensures ExecAll(p, DisposeOps(txs, landed, false)).1 == []
  {
    var a, b := ReleaseAll(Landed(txs, landed, true)), Requeue(Landed(txs, landed, false));
    assert DisposeOps(txs, landed, false) == ([] + [a]) + [b];
    ExecSnoc(p, [], a);
    ExecSnoc(p, [] + [a], b);
  }

  /** A charged recovery of other transactions only evicts a bystander that stands behind them. */
  lemma {:induction false} Bystander(p: PoolState, batch: seq<HeldTx>, tx: HeldTx, yes: bool)
    requires Valid(p) && Distinct(batch) && ChainOrdered(batch) && Hashes(batch) !! p.byHash
    requires tx.hash !in Hashes(batch) && Returns(p, tx, tx, yes)
    ensures Returns(ExecAll(p, SettlementOps(batch)).0, tx, tx, yes && !Dies(batch, tx.Reserve()))
  {
    var p' := ExecAll(p, SettlementOps(batch)).0;
    SettlementClosed(p, batch);
    SettlementLeavesNothingAbove(p, batch);
    if !(yes && !Dies(batch, tx.Reserve())) {
      forall q | q in p'.txs
        ensures q.hash != tx.hash
      {
        if q in p.txs {
          assert q.hash in p.byHash;
          if yes && q.hash == tx.hash { SameHash(p.txs, q, tx); }
        } else {
          var t :| t in batch && q == Charge(t);
          assert t.hash in Hashes(batch);
        }
      }
    }
  }

  /** The same members supersede the same transactions. */
  lemma {:induction false} SameMembersSupersede(queue: seq<HeldTx>, a: seq<HeldTx>, b: seq<HeldTx>, tx: HeldTx)
    requires forall r :: r in a <==> r in b
    ensures Superseded(queue, a, tx) <==> Superseded(queue, b, tx)
  {
  }

  lemma {:induction false} HalfwayFacts(p: PoolState, txs: seq<HeldTx>, nonces: map<NonceChain, nat>)
    requires Valid(p) && Distinct(txs) && ChainOrdered(txs) && Hashes(txs) !! p.byHash
    ensures
      var q := Halfway(p, txs, nonces);
      && Valid(q) && Hashes(Landed(txs, Named(txs, nonces), true)) !! q.byHash
      && (forall x :: x in q.txs ==> x in p.txs || x in Landed(txs, Named(txs, nonces), false))
      && (forall x :: x in p.txs ==> x in q.txs)
  {
    var named := Named(txs, nonces);
    var rest := Landed(txs, named, false);
    var spent := HashList(PartitionStale(txs, nonces, true));
    var q := Halfway(p, txs, nonces);
    LandedSplit(txs, named);
    LandedSplit(rest, spent);
    DisposeSteps(p, rest, spent, false);
    RequeueClosed(Release(p, Landed(rest, spent, true)), Landed(rest, spent, false));
    forall x | x in q.txs
      ensures x.hash !in Hashes(Landed(txs, named, true))
    {
      assert x in p.txs ==> x.hash in p.byHash;
      assert x in rest ==> x.hash in Hashes(rest);
    }
  }

  lemma {:induction false} OthersFate(p: PoolState, txs: seq<HeldTx>, nonces: map<NonceChain, nat>, tx: HeldTx)
    requires Valid(p) && Distinct(txs) && ChainOrdered(txs) && Hashes(txs) !! p.byHash
    requires tx in txs && tx.hash !in Named(txs, nonces)
    ensures
      var named := Named(txs, nonces);
      var charged, rest := Landed(txs, named, true), Landed(txs, named, false);
      Returns(ExecAll(p, PartialOps(txs, nonces)).0, tx, tx,
              && !Stale(tx, nonces) && !Dies(charged, tx.Reserve())
              && !Superseded(p.txs, PartitionStale(rest, nonces, false), tx))
  {
    var named := Named(txs, nonces);
    var charged, rest := Landed(txs, named, true), Landed(txs, named, false);
    var spent := HashList(PartitionStale(txs, nonces, true));
    var q, keep := Halfway(p, txs, nonces), Landed(rest, spent, false);
    LandedSplit(txs, named);
    LandedOrdered(txs, named, true);
    LandedOrdered(txs, named, false);
    HalfwayFacts(p, txs, nonces);
    PartialSteps(p, txs, nonces);
    SpentIsStale(txs, nonces, tx);
    assert tx in rest && tx.hash in Hashes(rest);
    forall r | r in rest
      ensures r in keep <==> r in PartitionStale(rest, nonces, false)
    {
      SpentIsStale(txs, nonces, r);
    }
    SameMembersSupersede(p.txs, keep, PartitionStale(rest, nonces, false), tx);
    if Stale(tx, nonces) {
      ReleasedFate(p, rest, spent, false, tx);
      assert Returns(q, tx, tx, false);
    } else {
      KeptFate(p, rest, spent, false, tx);
    }
    Bystander(q, charged, tx, !Stale(tx, nonces) && !Superseded(p.txs, keep, tx));
  }

  lemma {:induction false} CulpritFate(p: PoolState, txs: seq<HeldTx>, nonces: map<NonceChain, nat>, tx: HeldTx)
    requires Valid(p) && Distinct(txs) && ChainOrdered(txs) && Hashes(txs) !! p.byHash
    requires tx in txs && tx.hash in Named(txs, nonces)
    ensures
      var charged := Landed(txs, Named(txs, nonces), true);
      Returns(ExecAll(p, PartialOps(txs, nonces)).0, tx, Charge(tx),
              !Dies(charged, tx.Reserve()) && !Contested(p.txs, tx))
  {
    var named := Named(txs, nonces);
    var charged, rest := Landed(txs, named, true), Landed(txs, named, false);
    var q := Halfway(p, txs, nonces);
    LandedSplit(txs, named);
    LandedOrdered(txs, named, true);
    HalfwayFacts(p, txs, nonces);
    PartialSteps(p, txs, nonces);
    ChargedFate(q, charged, tx);
    OnlyOneNamed(txs, nonces, tx);
    assert Superseded(q.txs, charged, tx) <==> Contested(q.txs, tx);
    assert Contested(q.txs, tx) <==> Contested(p.txs, tx) by {
      forall x | x in rest
        ensures x.Reserve() != tx.Reserve()
      {
        if x.Reserve() == tx.Reserve() { SameSlot(txs, x, tx); }
      }
    }
  }

  lemma {:induction false} OnlyOneNamed(txs: seq<HeldTx>, nonces: map<NonceChain, nat>, tx: HeldTx)
    requires Distinct(txs) && tx in txs && tx.hash in Named(txs, nonces)
    ensures forall c :: c in Landed(txs, Named(txs, nonces), true) <==> c == tx
  {
    forall c | c in Landed(txs, Named(txs, nonces), true)
      ensures c == tx
    {
      SameHash(txs, c, tx);
    }
  }

  /** A partial settlement releases what was spent and returns the rest; only the culprit is
      charged, and only the culprit running out evicts anything. */
  lemma {:induction false} PartialSettlementFates(p: PoolState, txs: seq<HeldTx>, nonces: map<NonceChain, nat>)
    requires Valid(p) && Distinct(txs) && ChainOrdered(txs) && Hashes(txs) !! p.byHash
    ensures
      var p' := ExecAll(p, PartialOps(txs, nonces)).0;
      && Valid(p')
      && (forall tx :: tx in txs ==> Shows(p', tx, PartialFate(p.txs, txs, nonces, tx)))
  {
    var p' := ExecAll(p, PartialOps(txs, nonces)).0;
    OpsValid(p, PartialOps(txs, nonces));
    forall tx | tx in txs
      ensures Shows(p', tx, PartialFate(p.txs, txs, nonces, tx))
    {
      if tx.hash in Named(txs, nonces) {
        CulpritFate(p, txs, nonces, tx);
        NamedIsUnspent(txs, nonces, tx);
        ShowsCulprit(p', p.txs, txs, nonces, tx);
      } else {
        OthersFate(p, txs, nonces, tx);
        ShowsOther(p', p.txs, txs, nonces, tx);
      }
    }
  }

  lemma {:induction false} ShowsCulprit(
    p: PoolState, queue: seq<HeldTx>, txs: seq<HeldTx>, nonces: map<NonceChain, nat>, tx: HeldTx)
    requires tx.hash in Named(txs, nonces) && !Stale(tx, nonces)
    requires Returns(p, tx, Charge(tx),
               !Dies(Landed(txs, Named(txs, nonces), true), tx.Reserve()) && !Contested(queue, tx))
    ensures Shows(p, tx, PartialFate(queue, txs, nonces, tx))
  {
  }

  lemma {:induction false} ShowsOther(
    p: PoolState, queue: seq<HeldTx>, txs: seq<HeldTx>, nonces: map<NonceChain, nat>, tx: HeldTx)
    requires tx.hash !in Named(txs, nonces)
    requires Returns(p, tx, tx,
               && !Stale(tx, nonces) && !Dies(Landed(txs, Named(txs, nonces), true), tx.Reserve())
               && !Superseded(queue, PartitionStale(Landed(txs, Named(txs, nonces), false), nonces, false), tx))
    ensures Shows(p, tx, PartialFate(queue, txs, nonces, tx))
  {
    assert tx.(attempts := tx.attempts) == tx;
  }

  lemma {:induction false} NamedIsUnspent(txs: seq<HeldTx>, nonces: map<NonceChain, nat>, tx: HeldTx)
    requires Distinct(txs) && ChainOrdered(txs) && tx in txs && tx.hash in Named(txs, nonces)
    ensures !Stale(tx, nonces)
  {
    var c := CulpritIsFirst(txs, nonces);
    SameHash(txs, c, tx);
  }

  /** After either recovery nothing queued or reserved is at or above an evicted nonce. */
  lemma {:induction false} EvictionLeavesNothingAbove(
    p: PoolState, txs: seq<HeldTx>, landed: seq<TxHash>, nonces: map<NonceChain, nat>)
    requires Valid(p) && Distinct(txs) && ChainOrdered(txs) && Hashes(txs) !! p.byHash
    ensures
      var p' := ExecAll(p, DisposeOps(txs, landed, true)).0;
      && (forall q :: q in p'.txs ==> !Dies(Landed(txs, landed, false), q.Reserve()))
      && (forall h :: h in p'.inFlight ==> !Dies(Landed(txs, landed, false), p'.inFlight[h]))
    ensures
      var p' := ExecAll(p, PartialOps(txs, nonces)).0;
      && (forall q :: q in p'.txs ==> !Dies(Landed(txs, Named(txs, nonces), true), q.Reserve()))
      && (forall h :: h in p'.inFlight ==> !Dies(Landed(txs, Named(txs, nonces), true), p'.inFlight[h]))
  {
    DisposeSteps(p, txs, landed, true);
    LandedSplit(txs, landed);
    LandedOrdered(txs, landed, false);
    SettlementLeavesNothingAbove(Release(p, Landed(txs, landed, true)), Landed(txs, landed, false));
    PartialSteps(p, txs, nonces);
    HalfwayFacts(p, txs, nonces);
    LandedSplit(txs, Named(txs, nonces));
    LandedOrdered(txs, Named(txs, nonces), true);
    SettlementLeavesNothingAbove(Halfway(p, txs, nonces), Landed(txs, Named(txs, nonces), true));
  }

  // ---- Queue order after a partial settlement ----------------------------------------

  lemma {:induction false} UnspentRest(
    txs: seq<HeldTx>, batch: seq<HeldTx>, nonces: map<NonceChain, nat>, named: seq<TxHash>)
    requires Distinct(batch) && forall tx :: tx in txs ==> tx in batch
    ensures
      var spent := HashList(PartitionStale(batch, nonces, true));
      Landed(Landed(txs, named, false), spent, false) == Landed(PartitionStale(txs, nonces, false), named, false)
  {
    if txs != [] {
      var init, last := txs[..|txs| - 1], txs[|txs| - 1];
      assert txs == init + [last];
      var spent := HashList(PartitionStale(batch, nonces, true));
      UnspentRest(init, batch, nonces, named);
      SpentIsStale(batch, nonces, last);
      if last.hash in named {
        assert Landed(txs, named, false) == Landed(init, named, false);
      } else {
        LandedSnoc(Landed(init, named, false), spent, last);
      }
      if Stale(last, nonces) {
        assert PartitionStale(txs, nonces, false) == PartitionStale(init, nonces, false);
      } else {
        LandedSnoc(PartitionStale(init, nonces, false), named, last);
      }
    }
  }

  lemma {:induction false} LandedSnoc(txs: seq<HeldTx>, landed: seq<TxHash>, tx: HeldTx)
    ensures Landed(txs + [tx], landed, false) == Landed(txs, landed, false) + (if tx.hash in landed then [] else [tx])
  {
    assert (txs + [tx])[..|txs|] == txs;
  }

  /** The unspent transactions of the batch other than the culprit, in order. */
  ghost function Others(txs: seq<HeldTx>, nonces: map<NonceChain, nat>): seq<HeldTx> {
    Landed(PartitionStale(txs, nonces, false), Named(txs, nonces), false)
  }

  /** The queue after the uncharged half of a partial settlement. */
  ghost function MidQueue(queue: seq<HeldTx>, txs: seq<HeldTx>, nonces: map<NonceChain, nat>): seq<HeldTx> {
    Unsuperseded(queue, Others(txs, nonces), Others(txs, nonces)) + queue
  }

  lemma {:induction false} HalfwayQueue(p: PoolState, txs: seq<HeldTx>, nonces: map<NonceChain, nat>)
    requires Valid(p) && Distinct(txs) && Hashes(txs) !! p.byHash
    ensures Halfway(p, txs, nonces).txs == MidQueue(p.txs, txs, nonces)
  {
    var named := Named(txs, nonces);
    var rest := Landed(txs, named, false);
    var spent := HashList(PartitionStale(txs, nonces, true));
    LandedSplit(txs, named);
    LandedSplit(rest, spent);
    DisposeSteps(p, rest, spent, false);
    RequeueClosed(Release(p, Landed(rest, spent, true)), Landed(rest, spent, false));
    UnspentRest(txs, txs, nonces, named);
  }

  lemma {:induction false} NamedAlone(txs: seq<HeldTx>, named: seq<TxHash>, c: HeldTx)
    requires Distinct(txs) && c in txs && (forall tx :: tx in txs ==> (tx.hash in named <==> tx == c))
    ensures Landed(txs, named, true) == [c]
  {
    var init, last := txs[..|txs| - 1], txs[|txs| - 1];
    SnocFacts(txs);
    if last == c {
      assert c.hash !in Hashes(init);
      NoneNamed(init, named, c);
    } else {
      NamedAlone(init, named, c);
    }
  }

  lemma {:induction false} NoneNamed(txs: seq<HeldTx>, named: seq<TxHash>, c: HeldTx)
    requires c.hash !in Hashes(txs) && (forall tx :: tx in txs ==> (tx.hash in named <==> tx == c))
    ensures Landed(txs, named, true) == []
  {
    if txs != [] {
      var init, last := txs[..|txs| - 1], txs[|txs| - 1];
      assert txs == init + [last];
      HashesAppend(init, [last]);
      assert last.hash in Hashes([last]);
      NoneNamed(init, named, c);
    }
  }

  lemma {:induction false} OneCharged(c: HeldTx)
    ensures Exhausted([c]) == (if Spends(c) then [Charge(c)] else [])
    ensures Retryable([c]) == (if Spends(c) then [] else [Charge(c)])
    ensures Clear([Charge(c)], []) == [Charge(c)]
  {
    assert [c][..0] == [] && [Charge(c)][..0] == [];
  }

  /** Charging one transaction evicts its chain from there on, or puts it in front unless a queued
      one holds its nonce. */
  lemma {:induction false} ChargeOne(p: PoolState, c: HeldTx)
    requires Valid(p) && c.hash !in p.byHash
    ensures ExecAll(p, SettlementOps([c])).0.txs
      == if Spends(c) then Spared(p.txs, [c.Reserve()])
         else if Contested(p.txs, c) then p.txs
         else [Charge(c)] + p.txs
  {
    hide ExecAll, SettlementOps, Spared, Contested;
    if Spends(c) { ChargeSpent(p, c); } else { ChargeRetried(p, c); }
  }

  lemma {:induction false} ChargeSpent(p: PoolState, c: HeldTx)
    requires Valid(p) && c.hash !in p.byHash && Spends(c)
    ensures ExecAll(p, SettlementOps([c])).0.txs == Spared(p.txs, [c.Reserve()])
  {
    assert Hashes([c]) == {c.hash};
    OneCharged(c);
    assert Gaps([Charge(c)]) == [c.Reserve()];
    NothingToCharge(Spared(p.txs, [c.Reserve()]), [c.Reserve()]);
    hide ExecAll, SettlementOps, Exhausted, Retryable, Valid;
    SettlementClosed(p, [c]);
  }

  lemma {:induction false} ChargeRetried(p: PoolState, c: HeldTx)
    requires Valid(p) && c.hash !in p.byHash && !Spends(c)
    ensures ExecAll(p, SettlementOps([c])).0.txs == if Contested(p.txs, c) then p.txs else [Charge(c)] + p.txs
  {
    assert Hashes([c]) == {c.hash};
    OneCharged(c);
    SparedNone(p.txs);
    assert Gaps([]) == [] && [] + p.txs == p.txs;
    OneReturns(p.txs, c);
    hide ExecAll, SettlementOps, Exhausted, Retryable, Valid, Contested;
    SettlementClosed(p, [c]);
  }

  lemma {:induction false} NothingToCharge(queue: seq<HeldTx>, gaps: seq<Reservation>)
    ensures Clear([], gaps) == [] && Unsuperseded(queue, [], []) + queue == queue
  {
  }

  lemma {:induction false} OneReturns(queue: seq<HeldTx>, c: HeldTx)
    ensures Unsuperseded(queue, [Charge(c)], [Charge(c)]) == if Contested(queue, c) then [] else [Charge(c)]
  {
    assert Charge(c) in [Charge(c)];
    assert Contested(queue, Charge(c)) <==> Contested(queue, c);
    assert Superseded(queue, [Charge(c)], Charge(c)) <==> Contested(queue, c);
    assert [Charge(c)][1..] == [];
  }

  /** The queue a partial settlement leaves: the unspent others in order in front of what was queued,
      and then the culprit, which takes its chain's suffix with it when it ran out, gives way to a
      queued replacement, or else goes in front of everything. */
  lemma {:induction false} CulpritGoesFirst(p: PoolState, txs: seq<HeldTx>, nonces: map<NonceChain, nat>, c: HeldTx)
    requires Valid(p) && Distinct(txs) && ChainOrdered(txs) && Hashes(txs) !! p.byHash
    requires c in txs && c.hash in Named(txs, nonces)
    ensures ExecAll(p, PartialOps(txs, nonces)).0.txs
      == if Spends(c) then Spared(MidQueue(p.txs, txs, nonces), [c.Reserve()])
         else if Contested(p.txs, c) then MidQueue(p.txs, txs, nonces)
         else [Charge(c)] + MidQueue(p.txs, txs, nonces)
  {
    OnlyOneNamed(txs, nonces, c);
    NamedAlone(txs, Named(txs, nonces), c);
    assert c.hash in Hashes([c]);
    HalfwayFacts(p, txs, nonces);
    ContestedHalfway(p, txs, nonces, c);
    PartialSteps(p, txs, nonces);
    ChargeOne(Halfway(p, txs, nonces), c);
    HalfwayQueue(p, txs, nonces);
  }

  lemma {:induction false} ContestedHalfway(p: PoolState, txs: seq<HeldTx>, nonces: map<NonceChain, nat>, c: HeldTx)
    requires Valid(p) && Distinct(txs) && ChainOrdered(txs) && Hashes(txs) !! p.byHash
    requires c in txs && c.hash in Named(txs, nonces)
    ensures Contested(Halfway(p, txs, nonces).txs, c) <==> Contested(p.txs, c)
  {
    HalfwayFacts(p, txs, nonces);
    forall x | x in Landed(txs, Named(txs, nonces), false)
      ensures x.Reserve() != c.Reserve()
    {
      if x.Reserve() == c.Reserve() { SameSlot(txs, x, c); }
    }
  }

  // ---- First in, first out ---------------------------------------------------------------

  /** Dealt earlier in the batch. */
  ghost predicate Precedes(txs: seq<HeldTx>, a: HeldTx, b: HeldTx) {
    exists i, j :: 0 <= i < j < |txs| && txs[i].hash == a.hash && txs[j].hash == b.hash
  }

  /** The queue deals what is left of the batch in the order the batch had. */
  ghost predicate InBatchOrder(queue: seq<HeldTx>, txs: seq<HeldTx>) {
    forall i, j :: 0 <= i < j < |queue| && queue[i].hash in Hashes(txs) && queue[j].hash in Hashes(txs) ==>
      Precedes(txs, queue[i], queue[j])
  }

  lemma {:induction false} BatchInOrder(txs: seq<HeldTx>)
    ensures InBatchOrder(txs, txs)
  {
  }

  lemma {:induction false} OrderSnoc(q: seq<HeldTx>, f: seq<HeldTx>, txs: seq<HeldTx>)
    requires q != [] && InBatchOrder(q, txs) && InBatchOrder(f, txs) && forall x :: x in f ==> x in q[..|q| - 1]
    ensures InBatchOrder(f + [q[|q| - 1]], txs)
  {
    hide Precedes;
    var n := |q| - 1;
    forall i | 0 <= i < |f| && f[i].hash in Hashes(txs) && q[n].hash in Hashes(txs)
      ensures Precedes(txs, f[i], q[n])
    {
      assert f[i] in f && f[i] in q[..n];
      var k :| 0 <= k < n && q[k] == f[i];
    }
  }

  lemma {:induction false} OrderInit(q: seq<HeldTx>, txs: seq<HeldTx>)
    requires q != [] && InBatchOrder(q, txs)
    ensures InBatchOrder(q[..|q| - 1], txs) && InBatchOrder(q[1..], txs)
  {
    hide Precedes;
  }

  lemma {:induction false} StaleInOrder(q: seq<HeldTx>, nonces: map<NonceChain, nat>, txs: seq<HeldTx>)
    requires InBatchOrder(q, txs)
    ensures InBatchOrder(PartitionStale(q, nonces, false), txs)
  {
    if q != [] {
      hide InBatchOrder;
      OrderInit(q, txs);
      StaleInOrder(q[..|q| - 1], nonces, txs);
      OrderSnoc(q, PartitionStale(q[..|q| - 1], nonces, false), txs);
      assert PartitionStale(q[..|q| - 1], nonces, false) + [] == PartitionStale(q[..|q| - 1], nonces, false);
    }
  }

  lemma {:induction false} LandedInOrder(q: seq<HeldTx>, landed: seq<TxHash>, txs: seq<HeldTx>)
    requires InBatchOrder(q, txs)
    ensures InBatchOrder(Landed(q, landed, false), txs)
  {
    if q != [] {
      hide InBatchOrder;
      OrderInit(q, txs);
      LandedInOrder(q[..|q| - 1], landed, txs);
      OrderSnoc(q, Landed(q[..|q| - 1], landed, false), txs);
      assert Landed(q[..|q| - 1], landed, false) + [] == Landed(q[..|q| - 1], landed, false);
    }
  }

  lemma {:induction false} SparedInOrder(q: seq<HeldTx>, gaps: seq<Reservation>, txs: seq<HeldTx>)
    requires InBatchOrder(q, txs)
    ensures InBatchOrder(Spared(q, gaps), txs)
  {
    if q != [] {
      hide InBatchOrder;
      OrderInit(q, txs);
      SparedInOrder(q[..|q| - 1], gaps, txs);
      SparedMembers(q[..|q| - 1], gaps);
      OrderSnoc(q, Spared(q[..|q| - 1], gaps), txs);
      assert Spared(q[..|q| - 1], gaps) + [] == Spared(q[..|q| - 1], gaps);
    }
  }

  lemma {:induction false} OrderCons(q: seq<HeldTx>, f: seq<HeldTx>, txs: seq<HeldTx>)
    requires q != [] && InBatchOrder(q, txs) && InBatchOrder(f, txs) && forall x :: x in f ==> x in q[1..]
    ensures InBatchOrder([q[0]] + f, txs)
  {
    hide Precedes;
    var all := [q[0]] + f;
    forall i, j | 0 <= i < j < |all| && all[i].hash in Hashes(txs) && all[j].hash in Hashes(txs)
      ensures Precedes(txs, all[i], all[j])
    {
      if i == 0 {
        assert f[j - 1] in q[1..];
        var k :| 0 <= k < |q| - 1 && q[1..][k] == f[j - 1];
        assert q[k + 1] == f[j - 1];
      } else {
        assert f[i - 1] == all[i] && f[j - 1] == all[j];
      }
    }
  }

  lemma {:induction false} UnsupersededInOrder(queue: seq<HeldTx>, batch: seq<HeldTx>, q: seq<HeldTx>, txs: seq<HeldTx>)
    requires InBatchOrder(q, txs)
    ensures InBatchOrder(Unsuperseded(queue, batch, q), txs)
  {
    if q != [] {
      hide InBatchOrder;
      OrderInit(q, txs);
      UnsupersededInOrder(queue, batch, q[1..], txs);
      OrderCons(q, Unsuperseded(queue, batch, q[1..]), txs);
      UnsupersededCons(queue, batch, q);
    }
  }

  /** Transactions that are not the batch's follow in any order. */
  lemma {:induction false} OrderAppend(q: seq<HeldTx>, tail: seq<HeldTx>, txs: seq<HeldTx>)
    requires InBatchOrder(q, txs) && Hashes(tail) !! Hashes(txs)
    ensures InBatchOrder(q + tail, txs)
  {
    hide Precedes;
    var all := q + tail;
    forall i | |q| <= i < |all|
      ensures all[i].hash !in Hashes(txs)
    {
      assert all[i] in tail && all[i].hash in Hashes(tail);
    }
  }

  lemma {:induction false} MidInOrder(queue: seq<HeldTx>, txs: seq<HeldTx>, nonces: map<NonceChain, nat>)
    requires Hashes(queue) !! Hashes(txs)
    ensures InBatchOrder(MidQueue(queue, txs, nonces), txs)
  {
    hide InBatchOrder;
    BatchInOrder(txs);
    StaleInOrder(txs, nonces, txs);
    LandedInOrder(PartitionStale(txs, nonces, false), Named(txs, nonces), txs);
    UnsupersededInOrder(queue, Others(txs, nonces), Others(txs, nonces), txs);
    OrderAppend(Unsuperseded(queue, Others(txs, nonces), Others(txs, nonces)), queue, txs);
  }

  /** Of two transactions of the batch exactly one comes first. */
  lemma {:induction false} OneComesFirst(txs: seq<HeldTx>, a: HeldTx, b: HeldTx)
    requires Distinct(txs) && a in txs && b in txs && a.hash != b.hash
    ensures Precedes(txs, a, b) <==> !Precedes(txs, b, a)
  {
    var i :| 0 <= i < |txs| && txs[i] == a;
    var j :| 0 <= j < |txs| && txs[j] == b;
  }

  /** Everything dealt before the culprit was spent, or gives way to a queued replacement. */
  ghost predicate Leads(queue: seq<HeldTx>, txs: seq<HeldTx>, nonces: map<NonceChain, nat>, c: HeldTx) {
    forall tx :: tx in txs && Precedes(txs, tx, c) ==> Stale(tx, nonces) || Superseded(queue, Others(txs, nonces), tx)
  }

  /** First in, first out survives a partial settlement exactly when the culprit does not come back,
      because it ran out or was replaced, or leads everything else that does. */
  lemma {:induction false} PartialKeepsFifoIff(p: PoolState, txs: seq<HeldTx>, nonces: map<NonceChain, nat>, c: HeldTx)
    requires Valid(p) && Distinct(txs) && ChainOrdered(txs) && Hashes(txs) !! p.byHash
    requires c in txs && c.hash in Named(txs, nonces)
    ensures InBatchOrder(ExecAll(p, PartialOps(txs, nonces)).0.txs, txs)
      <==> Spends(c) || Contested(p.txs, c) || Leads(p.txs, txs, nonces, c)
  {
    var mid := MidQueue(p.txs, txs, nonces);
    CulpritGoesFirst(p, txs, nonces, c);
    MidInOrder(p.txs, txs, nonces);
    if Spends(c) {
      SparedInOrder(mid, [c.Reserve()], txs);
    } else if !Contested(p.txs, c) {
      NamedIsUnspent(txs, nonces, c);
      FrontInOrderIff(p.txs, txs, nonces, c);
    }
  }

  lemma {:induction false} FrontInOrderIff(
    queue: seq<HeldTx>, txs: seq<HeldTx>, nonces: map<NonceChain, nat>, c: HeldTx)
    requires Distinct(txs) && Hashes(queue) !! Hashes(txs) && c in txs && c.hash in Named(txs, nonces)
    requires InBatchOrder(MidQueue(queue, txs, nonces), txs)
    ensures InBatchOrder([Charge(c)] + MidQueue(queue, txs, nonces), txs) <==> Leads(queue, txs, nonces, c)
  {
    if Leads(queue, txs, nonces, c) {
      FrontInOrder(queue, txs, nonces, c);
    } else {
      var tx :| tx in txs && Precedes(txs, tx, c) && !Stale(tx, nonces) && !Superseded(queue, Others(txs, nonces), tx);
      BackBefore(queue, txs, nonces, c, tx);
    }
  }

  lemma {:induction false} FrontInOrder(queue: seq<HeldTx>, txs: seq<HeldTx>, nonces: map<NonceChain, nat>, c: HeldTx)
    requires Distinct(txs) && Hashes(queue) !! Hashes(txs) && c in txs && c.hash in Named(txs, nonces)
    requires InBatchOrder(MidQueue(queue, txs, nonces), txs) && Leads(queue, txs, nonces, c)
    ensures InBatchOrder([Charge(c)] + MidQueue(queue, txs, nonces), txs)
  {
    hide Precedes, Leads, Superseded, MidQueue, Named, Hashes;
    var mid := MidQueue(queue, txs, nonces);
    var all := [Charge(c)] + mid;
    forall i, j | 0 <= i < j < |all| && all[i].hash in Hashes(txs) && all[j].hash in Hashes(txs)
      ensures Precedes(txs, all[i], all[j])
    {
      if i > 0 {
        assert all[i] == mid[i - 1] && all[j] == mid[j - 1];
      } else {
        BackFollows(queue, txs, nonces, c, mid[j - 1]);
        SameHashPrecedes(txs, c, Charge(c), all[j]);
      }
    }
  }

  lemma {:induction false} SameHashPrecedes(txs: seq<HeldTx>, a: HeldTx, b: HeldTx, x: HeldTx)
    requires a.hash == b.hash
    ensures Precedes(txs, a, x) <==> Precedes(txs, b, x)
    ensures Precedes(txs, x, a) <==> Precedes(txs, x, b)
  {
  }

  lemma {:induction false} BackFollows(
    queue: seq<HeldTx>, txs: seq<HeldTx>, nonces: map<NonceChain, nat>, c: HeldTx, x: HeldTx)
    requires Distinct(txs) && Hashes(queue) !! Hashes(txs) && c in txs && c.hash in Named(txs, nonces)
    requires Leads(queue, txs, nonces, c) && x in MidQueue(queue, txs, nonces) && x.hash in Hashes(txs)
    ensures Precedes(txs, c, x)
  {
    hide Precedes;
    assert forall q :: q in queue ==> q.hash in Hashes(queue);
    assert x in Others(txs, nonces) && !Superseded(queue, Others(txs, nonces), x);
    OneComesFirst(txs, c, x);
  }

  lemma {:induction false} BackBefore(
    queue: seq<HeldTx>, txs: seq<HeldTx>, nonces: map<NonceChain, nat>, c: HeldTx, tx: HeldTx)
    requires Distinct(txs) && c in txs && c.hash in Named(txs, nonces)
    requires tx in txs && Precedes(txs, tx, c) && !Stale(tx, nonces) && !Superseded(queue, Others(txs, nonces), tx)
    ensures !InBatchOrder([Charge(c)] + MidQueue(queue, txs, nonces), txs)
  {
    hide Precedes, InBatchOrder, Superseded, MidQueue, Named;
    PrecedesDiffers(txs, tx, c);
    BackIsQueued(queue, txs, nonces, c, tx);
    assert c.hash in Hashes(txs) && tx.hash in Hashes(txs);
    OneComesFirst(txs, tx, c);
    SameHashPrecedes(txs, c, Charge(c), tx);
    OutOfOrder(Charge(c), MidQueue(queue, txs, nonces), tx, txs);
  }

  lemma {:induction false} BackIsQueued(
    queue: seq<HeldTx>, txs: seq<HeldTx>, nonces: map<NonceChain, nat>, c: HeldTx, tx: HeldTx)
    requires c.hash in Named(txs, nonces) && tx.hash != c.hash
    requires tx in txs && !Stale(tx, nonces) && !Superseded(queue, Others(txs, nonces), tx)
    ensures tx in MidQueue(queue, txs, nonces)
  {
    assert Named(txs, nonces) == [c.hash];
    assert tx in Others(txs, nonces);
    hide Superseded, Others, Named;
    assert tx in Unsuperseded(queue, Others(txs, nonces), Others(txs, nonces));
  }

  lemma {:induction false} OutOfOrder(x: HeldTx, q: seq<HeldTx>, y: HeldTx, txs: seq<HeldTx>)
    requires y in q && x.hash in Hashes(txs) && y.hash in Hashes(txs) && !Precedes(txs, x, y)
    ensures !InBatchOrder([x] + q, txs)
  {
    hide Precedes;
    var k :| 0 <= k < |q| && q[k] == y;
    assert ([x] + q)[0] == x && ([x] + q)[k + 1] == y;
  }

  lemma {:induction false} PrecedesDiffers(txs: seq<HeldTx>, a: HeldTx, b: HeldTx)
    requires Distinct(txs) && Precedes(txs, a, b)
    ensures a.hash != b.hash
  {
  }

  /** At one batch: an inbound transaction and behind it an outbound one, neither spent. The outbound
      one is charged as the culprit and comes back first. */
  lemma {:induction false} CulpritOvertakes()
    ensures
      var a, b := HeldTx([], 1, 0, 1, 0, Inbound, 0, 0), HeldTx([], 2, 0, 2, 0, Outbound, 0, 0);
      var pool := PoolState([], {}, map[1 := a.Reserve(), 2 := b.Reserve()]);
      ExecAll(pool, PartialOps([a, b], map[])).0.txs == [Charge(b), a]
  {
    hide ExecAll, PartialOps;
    var a, b := HeldTx([], 1, 0, 1, 0, Inbound, 0, 0), HeldTx([], 2, 0, 2, 0, Outbound, 0, 0);
    Overtakes(PoolState([], {}, map[1 := a.Reserve(), 2 := b.Reserve()]), a, b);
  }

  lemma {:induction false} Overtakes(pool: PoolState, a: HeldTx, b: HeldTx)
    requires pool.txs == [] && pool.byHash == {} && a.hash != b.hash && !Spends(b)
    requires a.direction == Inbound && b.direction == Outbound
    ensures ExecAll(pool, PartialOps([a, b], map[])).0.txs == [Charge(b), a]
  {
    hide ExecAll, PartialOps, MidQueue, Named, Valid, Distinct, ChainOrdered, Hashes;
    MidOfTwo(a, b);
    TwoApart(pool, a, b);
    assert !Contested([], b);
    CulpritGoesFirst(pool, [a, b], map[], b);
    assert [Charge(b)] + [a] == [Charge(b), a];
  }

  lemma {:induction false} MidOfTwo(a: HeldTx, b: HeldTx)
    requires a.direction == Inbound && b.direction == Outbound && a.hash != b.hash
    ensures b.hash in Named([a, b], map[]) && MidQueue([], [a, b], map[]) == [a]
  {
    UnspentTwo(a, b);
    NamedTwo(a, b);
    LandedTwo(a, b);
    AloneReturns(a);
    hide Unsuperseded, Landed, Named, PartitionStale;
    assert [a] + [] == [a];
  }

  lemma {:induction false} TwoApart(pool: PoolState, a: HeldTx, b: HeldTx)
    requires pool.txs == [] && pool.byHash == {} && a.hash != b.hash && a.direction != b.direction
    ensures Valid(pool) && Distinct([a, b]) && ChainOrdered([a, b]) && Hashes([a, b]) !! pool.byHash
  {
    assert Hashes([]) == {};
  }

  lemma {:induction false} AloneReturns(a: HeldTx)
    ensures Unsuperseded([], [a], [a]) == [a]
  {
    assert !Superseded([], [a], a) && [a][1..] == [];
  }

  lemma {:induction false} UnspentTwo(a: HeldTx, b: HeldTx)
    ensures PartitionStale([a, b], map[], false) == [a, b]
  {
    assert [a, b][..1] == [a] && [a][..0] == [];
    assert PartitionStale([a], map[], false) == [] + [a];
    assert [] + [a] + [b] == [a, b];
  }

  lemma {:induction false} NamedTwo(a: HeldTx, b: HeldTx)
    requires a.direction == Inbound && b.direction == Outbound
    ensures Named([a, b], map[]) == [b.hash]
  {
    UnspentTwo(a, b);
    hide PartitionStale;
    assert [a, b][1..] == [b];
    assert FirstOf([a, b], Outbound) == FirstOf([b], Outbound) == Some(b);
  }

  lemma {:induction false} LandedTwo(a: HeldTx, b: HeldTx)
    requires a.hash != b.hash
    ensures Landed([a, b], [b.hash], false) == [a]
  {
    assert [a, b][..1] == [a] && [a][..0] == [];
    assert Landed([a], [b.hash], false) == [] + [a];
    assert [] + [a] + [] == [a];
  }
}

/** The recovery calls as the composer makes them on the shared pool and ledger. */
module Recovery {
  import opened Types
  import opened HeldPoolSpec
  import opened HeldPools
  import opened LedgerSpec
  import opened OptimisticLedger
  import opened RecoverySpec

  lemma {:induction false} AboveSnoc(gaps: seq<Reservation>, g: Reservation, tx: HeldTx)
    ensures AboveGap(gaps + [g], tx) <==> AboveGap(gaps, tx) || AboveGap([g], tx)
  {
    if AboveGap(gaps, tx) {
      var w :| w in gaps && w.Chain() == tx.Chain() && w.nonce < tx.nonce;
      assert w in gaps + [g];
    }
    assert g in gaps + [g] && g in [g];
  }

  /** Filtering gap by gap is filtering by all gaps at once. */
  lemma {:induction false} FilterSnoc(txs: seq<HeldTx>, gaps: seq<Reservation>, g: Reservation)
    ensures Clear(txs, gaps + [g]) == Clear(Clear(txs, gaps), [g])
    ensures Hashes(Stranded(txs, gaps + [g])) == Hashes(Stranded(txs, gaps)) + Hashes(Stranded(Clear(txs, gaps), [g]))
  {
    if txs == [] {
      assert Clear(txs, gaps) == [];
    } else {
      var init, last := txs[..|txs| - 1], txs[|txs| - 1];
      FilterSnoc(init, gaps, g);
      AboveSnoc(gaps, g, last);
      if AboveGap(gaps, last) {
        assert Clear(txs, gaps) == Clear(init, gaps);
        AppendOne(Stranded(init, gaps), last);
        AppendOne(Stranded(init, gaps + [g]), last);
      } else if AboveGap([g], last) {
        assert Stranded(txs, gaps) == Stranded(init, gaps);
        FilterOne(Clear(init, gaps), [g], last);
        AppendOne(Stranded(Clear(init, gaps), [g]), last);
        AppendOne(Stranded(init, gaps + [g]), last);
      } else {
        assert Stranded(txs, gaps) == Stranded(init, gaps) && Stranded(txs, gaps + [g]) == Stranded(init, gaps + [g]);
        FilterOne(Clear(init, gaps), [g], last);
      }
    }
  }

  lemma {:induction false} FilterOne(txs: seq<HeldTx>, gaps: seq<Reservation>, tx: HeldTx)
    ensures Clear(txs + [tx], gaps) == Clear(txs, gaps) + (if AboveGap(gaps, tx) then [] else [tx])
    ensures Stranded(txs + [tx], gaps) == Stranded(txs, gaps) + (if AboveGap(gaps, tx) then [tx] else [])
  {
    assert (txs + [tx])[..|txs|] == txs;
  }

  /** `Vec::retain` against one evicted nonce. */
  method Retain(retry: seq<HeldTx>, g: Reservation) returns (kept: seq<HeldTx>, cascade: seq<HeldTx>)
    ensures kept == Clear(retry, [g]) && cascade == Stranded(retry, [g])
  {
    kept, cascade := [], [];
    for i := 0 to |retry|
      invariant kept == Clear(retry[..i], [g]) && cascade == Stranded(retry[..i], [g])
    {
      var tx := retry[i];
      assert retry[..i + 1] == retry[..i] + [tx];
      FilterOne(retry[..i], [g], tx);
      assert AboveGap([g], tx) <==> g.Chain() == tx.Chain() && g.nonce < tx.nonce by { assert g in [g]; }
      if tx.Chain() == g.Chain() && tx.nonce > g.nonce {
        cascade := cascade + [tx];
      } else {
        kept := kept + [tx];
      }
    }
    assert retry[..|retry|] == retry;
  }

  /** Charge every transaction and split off those that reach the bound. */
  method ChargeBatch(txs: seq<HeldTx>) returns (retry: seq<HeldTx>, gone: seq<HeldTx>)
    ensures retry == Retryable(txs) && gone == Exhausted(txs)
  {
    retry, gone := [], [];
    for i := 0 to |txs|
      invariant retry == Retryable(txs[..i]) && gone == Exhausted(txs[..i])
    {
      assert txs[..i + 1][..i] == txs[..i];
      var tx := txs[i].(attempts := txs[i].attempts + 1);
      if tx.attempts >= MAX_BUNDLE_ATTEMPTS {
        gone := gone + [tx];
      } else {
        retry := retry + [tx];
      }
    }
    assert txs[..|txs|] == txs;
  }

  /** One evicted nonce: cascade through the retry list and the pool. */
  lemma {:induction false} EvictNext(p: PoolState, gaps: seq<Reservation>, i: nat)
    requires i < |gaps|
    ensures
      var (q, log) := ExecAll(p, EvictOps(gaps[..i]));
      ExecAll(p, EvictOps(gaps[..i + 1])) == ExecOp(q, log, Evict(gaps[i]))
  {
    assert EvictOps(gaps[..i + 1]) == EvictOps(gaps[..i]) + [Evict(gaps[i])];
    ExecSnoc(p, EvictOps(gaps[..i]), Evict(gaps[i]));
  }

  method EvictChains(pool: HeldPool, charged: seq<HeldTx>, gaps: seq<Reservation>)
    returns (retry: seq<HeldTx>, evicted: seq<HeldTx>)
    modifies pool
    ensures pool.State() == ExecAll(old(pool.State()), EvictOps(gaps)).0
    ensures retry == Clear(charged, gaps)
    ensures Hashes(evicted) == Hashes(Stranded(charged, gaps)) + Hashes(ExecAll(old(pool.State()), EvictOps(gaps)).1)
  {
    retry, evicted := charged, [];
    ghost var log: seq<HeldTx> := [];
    ghost var was := pool.State();
    NoGaps(charged);
    assert EvictOps(gaps[..0]) == [];
    for i := 0 to |gaps|
      invariant (pool.State(), log) == ExecAll(was, EvictOps(gaps[..i]))
      invariant retry == Clear(charged, gaps[..i])
      invariant Hashes(evicted) == Hashes(Stranded(charged, gaps[..i])) + Hashes(log)
    {
      var g := gaps[i];
      EvictNext(was, gaps, i);
      var kept, cascade := Retain(retry, g);
      var dropped := pool.EvictChainAtOrAbove(g.Chain(), g.nonce);
      CascadeNext(charged, gaps, i, evicted, log, dropped);
      retry, evicted, log := kept, evicted + cascade + dropped, log + dropped;
    }
    assert gaps[..|gaps|] == gaps;
  }

  lemma {:induction false} CascadeNext(
    charged: seq<HeldTx>, gaps: seq<Reservation>, i: nat, evicted: seq<HeldTx>, log: seq<HeldTx>, dropped: seq<HeldTx>)
    requires i < |gaps| && Hashes(evicted) == Hashes(Stranded(charged, gaps[..i])) + Hashes(log)
    ensures
      var retry := Clear(charged, gaps[..i]);
      && Clear(retry, [gaps[i]]) == Clear(charged, gaps[..i + 1])
      && Hashes(evicted + Stranded(retry, [gaps[i]]) + dropped)
         == Hashes(Stranded(charged, gaps[..i + 1])) + Hashes(log + dropped)
  {
    var cascade := Stranded(Clear(charged, gaps[..i]), [gaps[i]]);
    assert gaps[..i + 1] == gaps[..i] + [gaps[i]];
    FilterSnoc(charged, gaps[..i], gaps[i]);
    HashesAppend(evicted, cascade);
    HashesAppend(evicted + cascade, dropped);
    HashesAppend(log, dropped);
  }

  lemma {:induction false} NoGaps(txs: seq<HeldTx>)
    ensures Clear(txs, []) == txs && Stranded(txs, []) == []
  {
    if txs != [] {
      NoGaps(txs[..|txs| - 1]);
      assert txs == txs[..|txs| - 1] + [txs[|txs| - 1]];
    }
  }

  method RecoverSettlementFailure(pool: HeldPool, txs: seq<HeldTx>) returns (requeued: nat)
    modifies pool
    ensures pool.State() == ExecAll(old(pool.State()), SettlementOps(txs)).0
    ensures requeued == |Clear(Retryable(txs), Gaps(Exhausted(txs)))|
  {
    ghost var was := pool.State();
    var charged, gone := ChargeBatch(txs);
    var gaps := Gaps(gone);
    var retry, evicted := EvictChains(pool, charged, gaps);
    ghost var lost, log := Stranded(charged, gaps), ExecAll(was, EvictOps(gaps)).1;
    EvictedHashes(gone, evicted, lost, log);
    requeued := |retry|;
    pool.ReleaseInFlightBatch(gone + evicted);
    ExecSnoc(was, EvictOps(gaps), ReleaseEvicted(gone + lost));
    assert pool.State() == ExecAll(was, EvictOps(gaps) + [ReleaseEvicted(gone + lost)]).0;
    pool.PushFrontBatch(retry);
    ExecSnoc(was, EvictOps(gaps) + [ReleaseEvicted(gone + lost)], Requeue(retry));
    assert SettlementOps(txs) == EvictOps(gaps) + [ReleaseEvicted(gone + lost)] + [Requeue(retry)];
  }

  lemma {:induction false} EvictedHashes(gone: seq<HeldTx>, evicted: seq<HeldTx>, lost: seq<HeldTx>, log: seq<HeldTx>)
    requires Hashes(evicted) == Hashes(lost) + Hashes(log)
    ensures Hashes(gone + evicted) == Hashes(gone + lost + log)
  {
    HashesAppend(gone, evicted);
    HashesAppend(gone + lost, log);
    HashesAppend(gone, lost);
  }

  method SplitLanded(txs: seq<HeldTx>, landed: seq<TxHash>) returns (keep: seq<HeldTx>, release: seq<HeldTx>)
    ensures keep == Landed(txs, landed, false) && release == Landed(txs, landed, true)
  {
    keep, release := [], [];
    for i := 0 to |txs|
      invariant keep == Landed(txs[..i], landed, false) && release == Landed(txs[..i], landed, true)
    {
      assert txs[..i + 1][..i] == txs[..i];
      if txs[i].hash in landed {
        release := release + [txs[i]];
      } else {
        keep := keep + [txs[i]];
      }
    }
    assert txs[..|txs|] == txs;
  }

  method DisposeRecoveredTxs(pool: HeldPool, txs: seq<HeldTx>, landed: seq<TxHash>, charge: bool)
    modifies pool
    ensures pool.State() == ExecAll(old(pool.State()), DisposeOps(txs, landed, charge)).0
  {
    ghost var was := pool.State();
    var keep, release := SplitLanded(txs, landed);
    pool.ReleaseInFlightBatch(release);
    DisposeSteps(was, txs, landed, charge);
    if charge {
      var _ := RecoverSettlementFailure(pool, keep);
    } else {
      pool.PushFrontBatch(keep);
    }
  }

  /** Dispose of a partly settled batch once every source nonce has been read, unless a reorg
      took the ledger entry first. */
  method RecoverPartialBatch(
    pool: HeldPool, ledger: OptimisticallyIncluded, partial: FailedBatch, nonces: Option<map<NonceChain, nat>>)
    modifies pool, ledger
    ensures nonces.None? ==> pool.State() == old(pool.State()) && ledger.bySyncHeight == old(ledger.bySyncHeight)
    ensures nonces.Some? ==>
      var spent := HashList(PartitionStale(partial.txs, nonces.value, true));
      var (l, claimed) := LedgerSpec.ClaimPartial(old(ledger.bySyncHeight), partial.syncHeight, partial.postBatchHash,
                                                  Landed(partial.txs, spent, true));
      && ledger.bySyncHeight == l
      && pool.State() == if claimed then ExecAll(old(pool.State()), PartialOps(partial.txs, nonces.value)).0
                         else old(pool.State())
  {
    if nonces.None? { return; }
    ghost var was := pool.State();
    var spent := HashList(PartitionStale(partial.txs, nonces.value, true));
    var _, stranded := SplitLanded(partial.txs, spent);
    var claimed := ledger.ClaimPartial(partial.syncHeight, partial.postBatchHash, stranded);
    if !claimed { return; }
    var rest, charged := SplitLanded(partial.txs, Named(partial.txs, nonces.value));
    DisposeRecoveredTxs(pool, rest, spent, false);
    DisposeRecoveredTxs(pool, charged, [], true);
    NoLog(was, rest, spent);
    ExecPrefix(was, DisposeOps(rest, spent, false), DisposeOps(charged, [], true));
  }
}
