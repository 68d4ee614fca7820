/** The composer's settlement protocol as one step machine. Every lock-protected call on the
    pool or the ledger is one step; admissions, observer verdicts, cursor moves, reorgs and
    finality audits run between any two calls of the slot thread, which reads the cursor once
    per slot. */
module Protocol {
  import opened Types
  import opened HeldPoolSpec
  import opened LedgerSpec
  import opened RecoverySpec

  /** What the slot thread is about to do, with everything it holds. */
  datatype Control =
    | Idle
    | Resolved(c: nat, confirmed: seq<HeldTx>)
    | PartialCheck(c: nat, slot: bool)
    | PartialReads(c: nat, slot: bool, partial: FailedBatch)
    | FailedCheck(c: nat, slot: bool)
    | FailedReads(failed: FailedBatch)
    | Gate(c: nat)
    | Open(c: nat)
    | Composing(c: nat, drained: seq<HeldTx>)
    | Built(c: nat, survivors: seq<HeldTx>)
    | Minimal(c: nat)
    /** Pool calls still to make, what evictions returned so far, and where to go next. */
    | Disposing(ops: seq<PoolOp>, log: seq<HeldTx>, next: Control)

  /** Ledger entries taken out by a reorg or an audit whose pool call is still owed. */
  datatype Task = Task(txs: seq<HeldTx>, rolledOut: bool)

  datatype World = World(
    pool: PoolState,
    ledger: Ledger,
    cursor: nat,
    control: Control,
    tasks: seq<Task>,
    begun: nat)

  const INIT := World(EMPTY, map[], 0, Idle, [], 0)

  datatype Step =
    | Admit(tx: HeldTx, onChain: nat)
    | MoveCursor(to: nat)
    | VerdictSettled(h: nat, postBatchHash: nat)
    | VerdictPartial(h: nat, postBatchHash: nat)
    | VerdictFailed(h: nat, postBatchHash: nat, slotSkipped: bool)
    | Reorg(newCursor: nat)
    | Finality(finalized: nat)
    | RunTask(i: nat, requeue: bool)
    | StartSlot
    | StartTick
    | PoolCall
    | ReleaseConfirmed
    | LookForPartial
    | DisposePartial(nonces: Option<map<NonceChain, nat>>)
    | TakeFailed
    | KeepFailed
    | FailedWasConfirmed
    | DisposeFailed(landed: seq<TxHash>)
    | PassGate
    | EndSlot
    | Catchup
    | Drain(max: nat)
    | ComposeFails(minimal: bool)
    | Classify(stale: seq<HeldTx>, poison: seq<HeldTx>, back: seq<HeldTx>, kept: seq<HeldTx>)
    | PrepareFails(charge: bool)
    | Eject(culprit: HeldTx)
    | BeginRich(h: nat, postBatchHash: nat, parent: nat)
    | BeginEmpty(h: nat, postBatchHash: nat, parent: nat)

  /** A transaction hash fixes the sender, direction and nonce it was signed for. */
  ghost predicate Known(ids: TxHash -> Reservation, txs: seq<HeldTx>) {
    forall tx :: tx in txs ==> tx.Reserve() == ids(tx.hash)
  }

  ghost predicate Bounded(txs: seq<HeldTx>) {
    forall tx :: tx in txs ==> tx.attempts < MAX_BUNDLE_ATTEMPTS
  }

  /** `a` holds transactions of `b`, possibly with other attempt counts. */
  ghost predicate From(a: seq<HeldTx>, b: seq<HeldTx>) {
    forall x :: x in a ==> exists y :: y in b && x == y.(attempts := x.attempts)
  }

  /** The drain gives every transaction it took one class. */
  ghost predicate Accounts(
    drained: seq<HeldTx>, stale: seq<HeldTx>, poison: seq<HeldTx>, back: seq<HeldTx>, kept: seq<HeldTx>)
  {
    && Hashes(drained) == Hashes(stale) + Hashes(poison) + Hashes(back) + Hashes(kept)
    && From(stale + poison + back + kept, drained)
    && Bounded(back) && Bounded(kept)
    && |kept| <= |drained|
  }

  function DrainOps(stale: seq<HeldTx>, poison: seq<HeldTx>, back: seq<HeldTx>): seq<PoolOp> {
    var gaps := Gaps(poison);
    [ReleaseAll(stale)] + EvictOps(gaps) + [ReleaseAll(Stranded(back, gaps)), Requeue(Clear(back, gaps))]
  }

  /** `partition_retryable`: what an attributed prover failure leaves to recompose. */
  function Retrying(survivors: seq<HeldTx>, poison: HeldTx): seq<HeldTx> {
    Without(survivors, poison.Chain(), poison.nonce)
  }

  ghost predicate Enabled(ids: TxHash -> Reservation, w: World, s: Step) {
    match s
    case Admit(tx, _) => tx.attempts == 0 && tx.Reserve() == ids(tx.hash)
    case MoveCursor(_) | VerdictSettled(_, _) | VerdictPartial(_, _) | VerdictFailed(_, _, _) => true
    case Reorg(_) | Finality(_) => true
    case RunTask(i, requeue) => i < |w.tasks| && (w.tasks[i].rolledOut ==> requeue)
    case StartSlot | StartTick => w.control.Idle?
    case PoolCall => w.control.Disposing?
    case ReleaseConfirmed => w.control.Resolved?
    case LookForPartial => w.control.PartialCheck?
    case DisposePartial(_) => w.control.PartialReads?
    case TakeFailed => w.control.FailedCheck?
    case KeepFailed => w.control.FailedReads?
    case FailedWasConfirmed =>
      w.control.FailedReads? && w.control.failed.txs != [] && w.cursor >= w.control.failed.syncHeight
    case DisposeFailed(_) => w.control.FailedReads?
    case PassGate => w.control.Gate?
    case EndSlot => w.control.Open? || w.control.Minimal?
    case Catchup => w.control.Open?
    case Drain(_) => w.control.Open?
    case ComposeFails(_) => w.control.Composing?
    case Classify(stale, poison, back, kept) =>
      w.control.Composing? && Accounts(w.control.drained, stale, poison, back, kept)
    case PrepareFails(_) => w.control.Built?
    case Eject(culprit) => w.control.Built? && culprit in w.control.survivors
    case BeginRich(h, _, _) => w.control.Built? && w.control.c < h
    case BeginEmpty(h, _, _) => (w.control.Open? || w.control.Minimal?) && w.control.c < h
  }

  function AfterRecovery(c: nat, slot: bool): Control {
    if slot then Gate(c) else Idle
  }

  function AuditTasks(audits: seq<Finalized>): (r: seq<Task>)
    ensures |r| == |audits| && forall i :: 0 <= i < |r| ==> r[i] == Task(audits[i].txs, false)
  {
    seq(|audits|, i requires 0 <= i < |audits| => Task(audits[i].txs, false))
  }

  ghost function Exec(ids: TxHash -> Reservation, w: World, s: Step): World
    requires Enabled(ids, w, s)
  {
    match s
    case Admit(tx, onChain) => w.(pool := PushContiguous(w.pool, tx, onChain).0)
    case MoveCursor(to) => w.(cursor := to)
    case VerdictSettled(h, pb) => w.(ledger := MarkSettled(w.ledger, h, pb))
    case VerdictPartial(h, pb) => w.(ledger := MarkSettledPartial(w.ledger, h, pb))
    case VerdictFailed(h, pb, skipped) => w.(ledger := MarkFailed(w.ledger, h, pb, skipped))
    case Reorg(newCursor) =>
      var (l, txs) := TakeRolledOut(w.ledger, newCursor);
      w.(ledger := l, tasks := w.tasks + [Task(txs, true)])
    case Finality(finalized) =>
      var (l, audits) := TakeFinalized(w.ledger, finalized);
      w.(ledger := l, tasks := w.tasks + AuditTasks(audits))
    case RunTask(i, requeue) =>
      var txs := w.tasks[i].txs;
      w.(pool := if requeue then PushFrontBatch(w.pool, txs) else Release(w.pool, txs),
         tasks := w.tasks[..i] + w.tasks[i + 1..])
    case StartSlot =>
      var (l, confirmed) := ResolveBelowCursor(w.ledger, w.cursor);
      w.(ledger := l, control := Resolved(w.cursor, confirmed), begun := 0)
    case StartTick => w.(control := PartialCheck(w.cursor, false), begun := 0)
    case PoolCall =>
      var Disposing(ops, log, next) := w.control;
      if ops == [] then w.(control := next)
      else
        var (pool, log') := ExecOp(w.pool, log, ops[0]);
        w.(pool := pool, control := Disposing(ops[1..], log', next))
    case ReleaseConfirmed =>
      w.(pool := Release(w.pool, w.control.confirmed), control := PartialCheck(w.control.c, true))
    case LookForPartial =>
      var found := PartialToDispose(w.ledger, w.control.c);
      w.(control := if found.Some? then PartialReads(w.control.c, w.control.slot, found.value)
                    else FailedCheck(w.control.c, w.control.slot))
    case DisposePartial(nonces) =>
      var PartialReads(c, slot, b) := w.control;
      if nonces.None? then w.(control := FailedCheck(c, slot))
      else
        var spent := HashList(PartitionStale(b.txs, nonces.value, true));
        var (l, claimed) := ClaimPartial(w.ledger, b.syncHeight, b.postBatchHash, Landed(b.txs, spent, true));
        if claimed
        then w.(ledger := l, control := Disposing(PartialOps(b.txs, nonces.value), [], FailedCheck(c, slot)))
        else w.(control := FailedCheck(c, slot))
    case TakeFailed =>
      var (l, found) := TakeFailedForRecovery(w.ledger, w.control.c);
      w.(ledger := l, control := if found.Some? then FailedReads(found.value)
                                 else AfterRecovery(w.control.c, w.control.slot))
    case KeepFailed => w.(ledger := ReinsertFailed(w.ledger, w.control.failed), control := Idle)
    case FailedWasConfirmed => w.(control := Disposing([ReleaseAll(w.control.failed.txs)], [], Idle))
    case DisposeFailed(landed) =>
      var b := w.control.failed;
      w.(control := Disposing(DisposeOps(b.txs, landed, !b.slotSkipped), [], Idle))
    case PassGate =>
      w.(control := if BlockingHeight(w.ledger, w.control.c).Some? then Idle else Open(w.control.c))
    case EndSlot => w.(control := Idle)
    case Catchup => w.(control := Minimal(w.control.c))
    case Drain(max) =>
      var (pool, drained) := PopN(w.pool, max);
      w.(pool := pool, control := Composing(w.control.c, drained))
    case ComposeFails(minimal) =>
      w.(control := Disposing([Requeue(w.control.drained)], [], if minimal then Minimal(w.control.c) else Idle))
    case Classify(stale, poison, back, kept) =>
      w.(control := Disposing(DrainOps(stale, poison, back), [],
                              if kept == [] then Minimal(w.control.c) else Built(w.control.c, kept)))
    case PrepareFails(charge) =>
      var Built(c, survivors) := w.control;
      w.(control := Disposing(if charge then SettlementOps(survivors) else [Requeue(survivors)], [], Minimal(c)))
    case Eject(culprit) =>
      var Built(c, survivors) := w.control;
      w.(control := Disposing([Evict(culprit.Reserve())], [], Composing(c, Retrying(survivors, culprit))))
    case BeginRich(h, pb, parent) =>
      w.(ledger := Begin(w.ledger, h, pb, parent, w.control.survivors), control := Idle, begun := w.begun + 1)
    case BeginEmpty(h, pb, parent) =>
      w.(ledger := Begin(w.ledger, h, pb, parent, []), control := Idle, begun := w.begun + 1)
  }

  // ---- The invariant ---------------------------------------------------------------

  /** This pool call drops the reservation. */
  ghost predicate Drops(op: PoolOp, h: TxHash, r: Reservation) {
    match op
    case Evict(gap) => r.AtOrAbove(gap.Chain(), gap.nonce)
    case _ => h in Hashes(op.txs)
  }

  /** The slot thread answers for the reservation. */
  ghost predicate InHand(k: Control, h: TxHash, r: Reservation)
    decreases k
  {
    match k
    case Resolved(_, confirmed) => h in Hashes(confirmed)
    case FailedReads(b) => h in Hashes(b.txs)
    case Composing(_, drained) => h in Hashes(drained)
    case Built(_, survivors) => h in Hashes(survivors)
    case Disposing(ops, _, next) => (exists i :: 0 <= i < |ops| && Drops(ops[i], h, r)) || InHand(next, h, r)
    case _ => false
  }

  ghost predicate InLedger(l: Ledger, h: TxHash) {
    exists height :: height in l && !l[height].cursorConfirmed && h in Hashes(l[height].txs)
  }

  ghost predicate InTask(tasks: seq<Task>, h: TxHash) {
    exists i :: 0 <= i < |tasks| && h in Hashes(tasks[i].txs)
  }

  /** Somebody still has to release, re-queue or confirm this reservation. */
  ghost predicate Held(w: World, h: TxHash) {
    || InLedger(w.ledger, h)
    || InTask(w.tasks, h)
    || (h in w.pool.inFlight && InHand(w.control, h, w.pool.inFlight[h]))
  }

  ghost predicate NoneForgotten(w: World) {
    forall h :: h in w.pool.inFlight ==> Held(w, h)
  }

  ghost predicate Good(ids: TxHash -> Reservation, txs: seq<HeldTx>) {
    Known(ids, txs) && Bounded(txs)
  }

  ghost predicate OpSound(ids: TxHash -> Reservation, op: PoolOp) {
    match op
    case Evict(_) => true
    case Requeue(txs) => Good(ids, txs)
    case _ => Known(ids, op.txs)
  }

  ghost predicate OpsSound(ids: TxHash -> Reservation, ops: seq<PoolOp>) {
    forall i :: 0 <= i < |ops| ==> OpSound(ids, ops[i])
  }

  ghost predicate ControlSound(ids: TxHash -> Reservation, k: Control)
    decreases k
  {
    match k
    case Resolved(_, txs) => Known(ids, txs)
    case PartialReads(_, _, b) => Good(ids, b.txs)
    case FailedReads(b) => Good(ids, b.txs)
    case Composing(_, txs) => Good(ids, txs)
    case Built(_, txs) => Good(ids, txs)
    case Disposing(ops, _, next) => OpsSound(ids, ops) && ControlSound(ids, next)
    case _ => true
  }

  ghost predicate PoolSound(ids: TxHash -> Reservation, p: PoolState) {
    && Valid(p) && Good(ids, p.txs)
    && (forall h :: h in p.inFlight ==> p.inFlight[h] == ids(h))
  }

  ghost predicate LedgerSound(ids: TxHash -> Reservation, l: Ledger) {
    forall h :: h in l ==> Good(ids, l[h].txs)
  }

  ghost predicate TasksSound(ids: TxHash -> Reservation, tasks: seq<Task>) {
    forall i :: 0 <= i < |tasks| ==> Good(ids, tasks[i].txs)
  }

  /** Every transaction anywhere is one a hash identifies, with attempts left. */
  ghost predicate Sound(ids: TxHash -> Reservation, w: World) {
    PoolSound(ids, w.pool) && LedgerSound(ids, w.ledger) && TasksSound(ids, w.tasks) && ControlSound(ids, w.control)
  }

  /** No entry above `c`, and none unresolved. */
  ghost predicate Clean(l: Ledger, c: nat) {
    forall h :: h in l ==> h <= c && !l[h].resolution.Unresolved()
  }

  ghost predicate OneUnresolved(l: Ledger) {
    forall g, h :: g in l && h in l && l[g].resolution.Unresolved() && l[h].resolution.Unresolved() ==> g == h
  }

  /** Entries the slot's cursor read covers have been resolved. */
  ghost predicate ResolvedBelow(l: Ledger, c: nat) {
    forall h :: h in l && h <= c ==> !l[h].resolution.Unresolved()
  }

  /** What the slot thread knows about the ledger at each point. */
  ghost predicate Gated(l: Ledger, k: Control)
    decreases k
  {
    match k
    case Resolved(c, _) => ResolvedBelow(l, c)
    case PartialCheck(c, slot) => slot ==> ResolvedBelow(l, c)
    case PartialReads(c, slot, b) =>
      && (slot ==> ResolvedBelow(l, c))
      && (Names(l, b.syncHeight, b.postBatchHash) ==> l[b.syncHeight].txs == b.txs)
    case FailedCheck(c, slot) => slot ==> ResolvedBelow(l, c)
    case FailedReads(b) => b.syncHeight !in l && forall h :: h in l ==> !l[h].resolution.Unresolved()
    case Gate(c) => ResolvedBelow(l, c)
    case Open(c) => Clean(l, c)
    case Composing(c, _) => Clean(l, c)
    case Built(c, _) => Clean(l, c)
    case Minimal(c) => Clean(l, c)
    case Disposing(_, _, next) => !next.Resolved? && !next.PartialReads? && !next.FailedReads? && Gated(l, next)
    case Idle => true
  }

  /** At most one unresolved batch, the gate's facts, and at most one batch begun per slot. */
  ghost predicate GateInv(w: World) {
    && OneUnresolved(w.ledger) && Gated(w.ledger, w.control)
    && (w.begun == 0 || (w.begun == 1 && w.control.Idle?))
  }

  ghost predicate Inv(ids: TxHash -> Reservation, w: World) {
    && Sound(ids, w)
    && NoneForgotten(w)
    && GateInv(w)
  }

  // ---- Membership in the plans -------------------------------------------------------

  lemma {:induction false} InHashes(txs: seq<HeldTx>, h: TxHash) returns (tx: HeldTx)
    requires h in Hashes(txs)
    ensures tx in txs && tx.hash == h
  {
    tx :| tx in txs && tx.hash == h;
  }

  /** Some call of the plan drops the reservation. */
  ghost predicate Covers(ops: seq<PoolOp>, h: TxHash, r: Reservation) {
    exists i :: 0 <= i < |ops| && Drops(ops[i], h, r)
  }

  lemma {:induction false} CoversAt(ops: seq<PoolOp>, i: nat, h: TxHash, r: Reservation)
    requires i < |ops| && Drops(ops[i], h, r)
    ensures Covers(ops, h, r)
  {
  }

  lemma {:induction false} CoversAppend(a: seq<PoolOp>, b: seq<PoolOp>, h: TxHash, r: Reservation)
    ensures Covers(a + b, h, r) <==> Covers(a, h, r) || Covers(b, h, r)
  {
    if Covers(a, h, r) {
      var i :| 0 <= i < |a| && Drops(a[i], h, r);
      assert (a + b)[i] == a[i];
    }
    if Covers(b, h, r) {
      var i :| 0 <= i < |b| && Drops(b[i], h, r);
      assert (a + b)[|a| + i] == b[i];
    }
  }

  lemma {:induction false} CoversOne(op: PoolOp, h: TxHash, r: Reservation)
    requires Drops(op, h, r)
    ensures Covers([op], h, r)
  {
    assert [op][0] == op;
  }

  lemma {:induction false} SettlementCovers(txs: seq<HeldTx>, h: TxHash, r: Reservation)
    requires h in Hashes(txs)
    ensures Covers(SettlementOps(txs), h, r)
  {
    var tx := InHashes(txs, h);
    var gone, retry := Exhausted(txs), Retryable(txs);
    var gaps := Gaps(gone);
    var lost, keep := Stranded(retry, gaps), Clear(retry, gaps);
    ChargeMembers(txs, tx);
    GapMembers(retry, gaps);
    assert Charge(tx).hash == h;
    CoversAppend(EvictOps(gaps) + [ReleaseEvicted(gone + lost)], [Requeue(keep)], h, r);
    CoversAppend(EvictOps(gaps), [ReleaseEvicted(gone + lost)], h, r);
    if Charge(tx) in keep {
      CoversOne(Requeue(keep), h, r);
    } else {
      assert Charge(tx) in gone + lost;
      CoversOne(ReleaseEvicted(gone + lost), h, r);
    }
  }

  lemma {:induction false} DisposeCovers(txs: seq<HeldTx>, landed: seq<TxHash>, charge: bool, h: TxHash, r: Reservation)
    requires h in Hashes(txs)
    ensures Covers(DisposeOps(txs, landed, charge), h, r)
  {
    var tx := InHashes(txs, h);
    var keep := Landed(txs, landed, false);
    var plan := if charge then SettlementOps(keep) else [Requeue(keep)];
    CoversAppend([ReleaseAll(Landed(txs, landed, true))], plan, h, r);
    if tx.hash in landed {
      assert tx in Landed(txs, landed, true);
      CoversOne(ReleaseAll(Landed(txs, landed, true)), h, r);
    } else {
      assert tx in keep;
      if charge { SettlementCovers(keep, h, r); } else { CoversOne(Requeue(keep), h, r); }
    }
  }

  lemma {:induction false} PartialCovers(txs: seq<HeldTx>, nonces: map<NonceChain, nat>, h: TxHash, r: Reservation)
    requires h in Hashes(txs)
    ensures Covers(PartialOps(txs, nonces), h, r)
  {
    var tx := InHashes(txs, h);
    var spent, named := HashList(PartitionStale(txs, nonces, true)), Named(txs, nonces);
    var rest, charged := Landed(txs, named, false), Landed(txs, named, true);
    CoversAppend(DisposeOps(rest, spent, false), DisposeOps(charged, [], true), h, r);
    if tx.hash in named {
      assert tx in charged;
      DisposeCovers(charged, [], true, h, r);
    } else {
      assert tx in rest;
      DisposeCovers(rest, spent, false, h, r);
    }
  }

  /** A drained reservation is dropped by the drain's plan or stays with a survivor. */
  lemma {:induction false} DrainCovers(
    ids: TxHash -> Reservation, drained: seq<HeldTx>, stale: seq<HeldTx>, poison: seq<HeldTx>, back: seq<HeldTx>,
    kept: seq<HeldTx>, h: TxHash)
    requires Accounts(drained, stale, poison, back, kept) && Known(ids, poison) && h in Hashes(drained)
    ensures Covers(DrainOps(stale, poison, back), h, ids(h)) || h in Hashes(kept)
  {
    var gaps := Gaps(poison);
    var tail := [ReleaseAll(Stranded(back, gaps)), Requeue(Clear(back, gaps))];
    CoversAppend([ReleaseAll(stale)] + EvictOps(gaps), tail, h, ids(h));
    CoversAppend([ReleaseAll(stale)], EvictOps(gaps), h, ids(h));
    if h in Hashes(stale) {
      CoversOne(ReleaseAll(stale), h, ids(h));
    } else if h in Hashes(poison) {
      var tx := InHashes(poison, h);
      var i :| 0 <= i < |poison| && poison[i] == tx;
      CoversAt(EvictOps(gaps), i, h, ids(h));
    } else if h in Hashes(back) {
      var tx := InHashes(back, h);
      GapMembers(back, gaps);
      CoversAt(tail, if AboveGap(gaps, tx) then 0 else 1, h, ids(h));
    }
  }

  // ---- Soundness of the plans --------------------------------------------------------

  lemma {:induction false} KnownAppend(ids: TxHash -> Reservation, a: seq<HeldTx>, b: seq<HeldTx>)
    ensures Known(ids, a + b) <==> Known(ids, a) && Known(ids, b)
  {
    if Known(ids, a + b) {
      assert forall tx :: tx in a ==> tx in a + b;
      assert forall tx :: tx in b ==> tx in a + b;
    }
  }

  lemma {:induction false} SettlementSound(ids: TxHash -> Reservation, txs: seq<HeldTx>)
    requires Known(ids, txs)
    ensures OpsSound(ids, SettlementOps(txs))
  {
    var gone, retry := Exhausted(txs), Retryable(txs);
    var gaps := Gaps(gone);
    GapMembers(retry, gaps);
    forall c | c in gone
      ensures c.Reserve() == ids(c.hash)
    {
      var tx := ChargedFrom(txs, c);
    }
    forall c | c in retry
      ensures c.Reserve() == ids(c.hash) && c.attempts < MAX_BUNDLE_ATTEMPTS
    {
      var tx := ChargedFrom(txs, c);
      ChargeMembers(txs, tx);
    }
    KnownAppend(ids, gone, Stranded(retry, gaps));
  }

  lemma {:induction false} DisposeSound(ids: TxHash -> Reservation, txs: seq<HeldTx>, landed: seq<TxHash>, charge: bool)
    requires Known(ids, txs) && Bounded(txs)
    ensures OpsSound(ids, DisposeOps(txs, landed, charge))
  {
    SettlementSound(ids, Landed(txs, landed, false));
  }

  lemma {:induction false} PartialSound(ids: TxHash -> Reservation, txs: seq<HeldTx>, nonces: map<NonceChain, nat>)
    requires Known(ids, txs) && Bounded(txs)
    ensures OpsSound(ids, PartialOps(txs, nonces))
  {
    var spent, named := HashList(PartitionStale(txs, nonces, true)), Named(txs, nonces);
    DisposeSound(ids, Landed(txs, named, false), spent, false);
    DisposeSound(ids, Landed(txs, named, true), [], true);
  }

  lemma {:induction false} FromKnown(ids: TxHash -> Reservation, a: seq<HeldTx>, b: seq<HeldTx>)
    requires From(a, b) && Known(ids, b)
    ensures Known(ids, a)
  {
  }

  lemma {:induction false} DrainSound(
    ids: TxHash -> Reservation, drained: seq<HeldTx>, stale: seq<HeldTx>, poison: seq<HeldTx>, back: seq<HeldTx>,
    kept: seq<HeldTx>)
    requires Accounts(drained, stale, poison, back, kept) && Known(ids, drained)
    ensures OpsSound(ids, DrainOps(stale, poison, back)) && Known(ids, kept) && Known(ids, poison)
  {
    var gaps := Gaps(poison);
    FromKnown(ids, stale + poison + back + kept, drained);
    KnownAppend(ids, stale + poison + back, kept);
    KnownAppend(ids, stale + poison, back);
    KnownAppend(ids, stale, poison);
    RequeueSound(ids, back, gaps);
    EvictsSound(ids, gaps);
    var tail := [ReleaseAll(Stranded(back, gaps)), Requeue(Clear(back, gaps))];
    assert OpsSound(ids, [ReleaseAll(stale)]);
    OpsSoundAppend(ids, [ReleaseAll(stale)], EvictOps(gaps));
    OpsSoundAppend(ids, [ReleaseAll(stale)] + EvictOps(gaps), tail);
  }

  lemma {:induction false} OpsSoundAppend(ids: TxHash -> Reservation, a: seq<PoolOp>, b: seq<PoolOp>)
    requires OpsSound(ids, a) && OpsSound(ids, b)
    ensures OpsSound(ids, a + b)
  {
  }

  lemma {:induction false} EvictsSound(ids: TxHash -> Reservation, gaps: seq<Reservation>)
    ensures OpsSound(ids, EvictOps(gaps))
  {
  }

  lemma {:induction false} RequeueSound(ids: TxHash -> Reservation, back: seq<HeldTx>, gaps: seq<Reservation>)
    requires Known(ids, back) && Bounded(back)
    ensures OpsSound(ids, [ReleaseAll(Stranded(back, gaps)), Requeue(Clear(back, gaps))])
  {
    GapMembers(back, gaps);
  }

  /** A pool call drops exactly what it answers for and adds no reservation. */
  lemma {:induction false} CallDrops(ids: TxHash -> Reservation, p: PoolState, log: seq<HeldTx>, op: PoolOp)
    requires Valid(p) && OpSound(ids, op) && Known(ids, p.txs) && Bounded(p.txs)
    ensures
      var q := ExecOp(p, log, op).0;
      && Valid(q) && Known(ids, q.txs) && Bounded(q.txs)
      && (forall h :: h in q.inFlight ==> h in p.inFlight && q.inFlight[h] == p.inFlight[h])
      && (forall h :: h in q.inFlight ==> !Drops(op, h, q.inFlight[h]))
  {
    OpValid(p, log, op);
    match op
    case ReleaseAll(txs) =>
    case Evict(gap) =>
    case ReleaseEvicted(txs) => HashesAppend(txs, log);
    case Requeue(txs) => PushFrontBatchValid(p, txs);
  }

  // ---- The ledger side ---------------------------------------------------------------

  /** Entries may vanish or settle; none appears, changes batch, or becomes unresolved again. */
  ghost predicate Settles(l: Ledger, l': Ledger) {
    forall h :: h in l' ==>
      && h in l && l'[h].postBatchHash == l[h].postBatchHash && l'[h].txs == l[h].txs
      && l[h].resolution.Rank() <= l'[h].resolution.Rank()
  }

  lemma {:induction false} SettlesKeepsGate(l: Ledger, l': Ledger, k: Control)
    requires Settles(l, l') && Gated(l, k)
    ensures Gated(l', k)
    decreases k
  {
    if k.Disposing? { SettlesKeepsGate(l, l', k.next); }
  }

  lemma {:induction false} SettlesKeepsOne(l: Ledger, l': Ledger)
    requires Settles(l, l') && OneUnresolved(l)
    ensures OneUnresolved(l')
  {
  }

  lemma {:induction false} ResolveSettles(l: Ledger, c: nat)
    ensures Settles(l, ResolveBelowCursor(l, c).0) && ResolvedBelow(ResolveBelowCursor(l, c).0, c)
  {
    CursorResolvesEverythingBelow(l, c);
  }

  /** An entry newly at `h` is the only unresolved one if there was none before. */
  lemma {:induction false} InsertKeepsOne(l: Ledger, h: nat, e: InFlight)
    requires forall g :: g in l ==> !l[g].resolution.Unresolved()
    ensures OneUnresolved(l[h := e])
  {
  }

  lemma {:induction false} TakeFailedFacts(l: Ledger, c: nat)
    requires OneUnresolved(l)
    ensures
      var (l', found) := TakeFailedForRecovery(l, c);
      && Settles(l, l')
      && (found.Some? ==> found.value.syncHeight !in l' && forall h :: h in l' ==> !l'[h].resolution.Unresolved())
      && (found.None? ==> l' == l && forall h :: h in l && l[h].resolution.Failed? ==> h <= c)
  {
    var (l', found) := TakeFailedForRecovery(l, c);
    if found.None? {
      forall h | h in l && l[h].resolution.Failed?
        ensures h <= c
      {
        assert h > c ==> h in FailedAbove(l, c);
      }
    }
  }

  /** Steps of other threads: they never touch what the slot thread holds. */
  predicate Outside(s: Step) {
    s.Admit? || s.MoveCursor? || s.VerdictSettled? || s.VerdictPartial? || s.VerdictFailed? || s.Reorg? || s.Finality?
    || s.RunTask?
  }

  lemma {:induction false} OutsideSettles(ids: TxHash -> Reservation, w: World, s: Step)
    requires Enabled(ids, w, s) && Outside(s)
    ensures
      var w' := Exec(ids, w, s);
      Settles(w.ledger, w'.ledger) && w'.control == w.control && w'.begun == w.begun
  {
  }

  /** Slot-thread steps that write the ledger. */
  predicate Writes(s: Step) {
    s.StartSlot? || s.DisposePartial? || s.TakeFailed? || s.KeepFailed? || s.BeginRich? || s.BeginEmpty?
  }

  lemma {:induction false} StartKeepsGate(ids: TxHash -> Reservation, w: World)
    requires GateInv(w) && w.control.Idle?
    ensures GateInv(Exec(ids, w, StartSlot))
  {
    ResolveSettles(w.ledger, w.cursor);
    SettlesKeepsOne(w.ledger, ResolveBelowCursor(w.ledger, w.cursor).0);
  }

  lemma {:induction false} ClaimSettles(l: Ledger, h: nat, postBatchHash: nat, spent: seq<HeldTx>)
    ensures
      var l' := ClaimPartial(l, h, postBatchHash, spent).0;
      && (OneUnresolved(l) ==> OneUnresolved(l'))
      && (forall c :: ResolvedBelow(l, c) ==> ResolvedBelow(l', c))
  {
  }

  lemma {:induction false} ClaimKeepsGate(ids: TxHash -> Reservation, w: World, nonces: Option<map<NonceChain, nat>>)
    requires GateInv(w) && w.control.PartialReads?
    ensures GateInv(Exec(ids, w, DisposePartial(nonces)))
  {
    if nonces.Some? {
      var b := w.control.partial;
      var spent := HashList(PartitionStale(b.txs, nonces.value, true));
      ClaimSettles(w.ledger, b.syncHeight, b.postBatchHash, Landed(b.txs, spent, true));
    }
  }

  lemma {:induction false} TakeKeepsGate(ids: TxHash -> Reservation, w: World)
    requires GateInv(w) && w.control.FailedCheck?
    ensures GateInv(Exec(ids, w, TakeFailed))
  {
    TakeFailedFacts(w.ledger, w.control.c);
    SettlesKeepsOne(w.ledger, TakeFailedForRecovery(w.ledger, w.control.c).0);
  }

  lemma {:induction false} InsertKeepsGate(ids: TxHash -> Reservation, w: World, s: Step)
    requires GateInv(w) && Enabled(ids, w, s) && (s.KeepFailed? || s.BeginRich? || s.BeginEmpty?)
    ensures GateInv(Exec(ids, w, s))
  {
    match s
    case KeepFailed =>
      var b := w.control.failed;
      InsertKeepsOne(w.ledger, b.syncHeight, InFlight(b.txs, b.postBatchHash, b.parent, Failed, false, b.slotSkipped));
    case BeginRich(h, pb, parent) =>
      InsertKeepsOne(w.ledger, h, InFlight(w.control.survivors, pb, parent, Pending, false, false));
    case BeginEmpty(h, pb, parent) =>
      InsertKeepsOne(w.ledger, h, InFlight([], pb, parent, Pending, false, false));
  }

  lemma {:induction false} WriteKeepsGate(ids: TxHash -> Reservation, w: World, s: Step)
    requires GateInv(w) && Enabled(ids, w, s) && Writes(s)
    ensures GateInv(Exec(ids, w, s))
  {
    match s
    case StartSlot => StartKeepsGate(ids, w);
    case DisposePartial(nonces) => ClaimKeepsGate(ids, w, nonces);
    case TakeFailed => TakeKeepsGate(ids, w);
    case _ => InsertKeepsGate(ids, w, s);
  }

  lemma {:induction false} MoveKeepsGate(ids: TxHash -> Reservation, w: World, s: Step)
    requires GateInv(w) && Enabled(ids, w, s) && !Outside(s) && !Writes(s)
    ensures GateInv(Exec(ids, w, s)) && Exec(ids, w, s).ledger == w.ledger
  {
    if s.PassGate? {
      assert BlockingHeight(w.ledger, w.control.c).None? ==> Clean(w.ledger, w.control.c);
    } else if s.PoolCall? {
      PoolCallKeepsGate(ids, w);
    }
  }

  lemma {:induction false} PoolCallKeepsGate(ids: TxHash -> Reservation, w: World)
    requires GateInv(w) && w.control.Disposing?
    ensures GateInv(Exec(ids, w, PoolCall)) && Exec(ids, w, PoolCall).ledger == w.ledger
  {
  }

  /** Gate and counter facts survive every step. */
  lemma {:induction false} StepKeepsGate(ids: TxHash -> Reservation, w: World, s: Step)
    requires GateInv(w) && Enabled(ids, w, s)
    ensures GateInv(Exec(ids, w, s))
  {
    if Outside(s) {
      OutsideSettles(ids, w, s);
      SettlesKeepsOne(w.ledger, Exec(ids, w, s).ledger);
      SettlesKeepsGate(w.ledger, Exec(ids, w, s).ledger, w.control);
    } else if Writes(s) {
      WriteKeepsGate(ids, w, s);
    } else {
      MoveKeepsGate(ids, w, s);
    }
  }

  // ---- Every transaction stays identified and bounded ----------------------------------

  lemma {:induction false} FlattenGood(ids: TxHash -> Reservation, l: Ledger, hs: seq<nat>)
    requires LedgerSound(ids, l) && Holds(l, hs)
    ensures Good(ids, Flatten(l, hs)) && Good(ids, NewlyConfirmed(l, hs))
  {
    FlattenHashes(l, hs);
    NewlyConfirmedTxs(l, hs);
  }

  lemma {:induction false} SettlesSound(ids: TxHash -> Reservation, l: Ledger, l': Ledger)
    requires LedgerSound(ids, l) && Settles(l, l')
    ensures LedgerSound(ids, l')
  {
  }

  lemma {:induction false} TaskSound(ids: TxHash -> Reservation, p: PoolState, txs: seq<HeldTx>, requeue: bool)
    requires PoolSound(ids, p) && Good(ids, txs)
    ensures PoolSound(ids, if requeue then PushFrontBatch(p, txs) else Release(p, txs))
  {
    CallDrops(ids, p, [], if requeue then Requeue(txs) else ReleaseAll(txs));
  }

  lemma {:induction false} OutsideSound(ids: TxHash -> Reservation, w: World, s: Step)
    requires Sound(ids, w) && Enabled(ids, w, s) && Outside(s)
    ensures Sound(ids, Exec(ids, w, s))
  {
    OutsideSettles(ids, w, s);
    SettlesSound(ids, w.ledger, Exec(ids, w, s).ledger);
    match s
    case Admit(tx, onChain) => PushContiguousValid(w.pool, tx, onChain);
    case Reorg(newCursor) => FlattenGood(ids, w.ledger, Heights(RolledOut(w.ledger, newCursor)));
    case RunTask(i, requeue) => TaskSound(ids, w.pool, w.tasks[i].txs, requeue);
    case _ =>
  }

  lemma {:induction false} DrainedSound(ids: TxHash -> Reservation, p: PoolState, max: nat)
    requires PoolSound(ids, p)
    ensures PoolSound(ids, PopN(p, max).0) && Good(ids, PopN(p, max).1)
    ensures Hashes(PopN(p, max).1) <= PopN(p, max).0.inFlight.Keys
    ensures PopN(p, max).0.inFlight.Keys == p.inFlight.Keys + Hashes(PopN(p, max).1)
  {
    var (q, drained) := PopN(p, max);
    PopNValid(p, max);
    assert p.txs == drained + q.txs;
    HashesAppend(drained, q.txs);
    MarkMatches(p.inFlight, drained);
    forall h | h in q.inFlight
      ensures q.inFlight[h] == ids(h)
    {
      if h !in p.inFlight { var tx := InHashes(drained, h); }
    }
  }

  lemma {:induction false} PoolCallSound(ids: TxHash -> Reservation, w: World)
    requires Sound(ids, w) && w.control.Disposing?
    ensures Sound(ids, Exec(ids, w, PoolCall))
  {
    var Disposing(ops, log, next) := w.control;
    if ops != [] {
      CallDrops(ids, w.pool, log, ops[0]);
    }
  }

  lemma {:induction false} StartSound(ids: TxHash -> Reservation, w: World)
    requires Sound(ids, w) && w.control.Idle?
    ensures Sound(ids, Exec(ids, w, StartSlot))
  {
    ResolveSettles(w.ledger, w.cursor);
    SettlesSound(ids, w.ledger, ResolveBelowCursor(w.ledger, w.cursor).0);
    FlattenGood(ids, w.ledger, Heights(Covered(w.ledger, w.cursor)));
  }

  lemma {:induction false} PartialStepSound(ids: TxHash -> Reservation, w: World, nonces: Option<map<NonceChain, nat>>)
    requires Sound(ids, w) && w.control.PartialReads?
    ensures Sound(ids, Exec(ids, w, DisposePartial(nonces)))
  {
    if nonces.Some? {
      var b := w.control.partial;
      var spent := HashList(PartitionStale(b.txs, nonces.value, true));
      PartialSound(ids, b.txs, nonces.value);
      LandedGood(ids, b.txs, spent);
      ClaimSound(ids, w.ledger, b.syncHeight, b.postBatchHash, Landed(b.txs, spent, true));
      ClaimExec(ids, w, nonces.value);
    }
  }

  lemma {:induction false} LandedGood(ids: TxHash -> Reservation, txs: seq<HeldTx>, landed: seq<TxHash>)
    requires Good(ids, txs)
    ensures Good(ids, Landed(txs, landed, true))
  {
  }

  lemma {:induction false} ClaimExec(ids: TxHash -> Reservation, w: World, nonces: map<NonceChain, nat>)
    requires w.control.PartialReads?
    ensures
      var PartialReads(c, slot, b) := w.control;
      var spent := HashList(PartitionStale(b.txs, nonces, true));
      var w' := Exec(ids, w, DisposePartial(Some(nonces)));
      var next := FailedCheck(c, slot);
      && w'.pool == w.pool && w'.tasks == w.tasks
      && w'.ledger == ClaimPartial(w.ledger, b.syncHeight, b.postBatchHash, Landed(b.txs, spent, true)).0
      && w'.control == if Names(w.ledger, b.syncHeight, b.postBatchHash)
                       then Disposing(PartialOps(b.txs, nonces), [], next) else next
  {
  }

  lemma {:induction false} ClaimSound(
    ids: TxHash -> Reservation, l: Ledger, h: nat, postBatchHash: nat, spent: seq<HeldTx>)
    requires LedgerSound(ids, l) && Good(ids, spent)
    ensures LedgerSound(ids, ClaimPartial(l, h, postBatchHash, spent).0)
  {
  }

  lemma {:induction false} InsertSound(ids: TxHash -> Reservation, l: Ledger, h: nat, e: InFlight)
    requires LedgerSound(ids, l) && Good(ids, e.txs)
    ensures LedgerSound(ids, l[h := e])
  {
  }

  lemma {:induction false} WriteSound(ids: TxHash -> Reservation, w: World, s: Step)
    requires Sound(ids, w) && Enabled(ids, w, s) && (s.TakeFailed? || s.KeepFailed? || s.BeginRich? || s.BeginEmpty?)
    ensures Sound(ids, Exec(ids, w, s))
  {
    match s
    case TakeFailed =>
      SettlesSound(ids, w.ledger, TakeFailedForRecovery(w.ledger, w.control.c).0);
    case KeepFailed =>
      var b := w.control.failed;
      var back := InFlight(b.txs, b.postBatchHash, b.parent, Failed, false, b.slotSkipped);
      InsertSound(ids, w.ledger, b.syncHeight, back);
    case BeginRich(h, pb, parent) =>
      InsertSound(ids, w.ledger, h, InFlight(w.control.survivors, pb, parent, Pending, false, false));
    case BeginEmpty(h, pb, parent) =>
      InsertSound(ids, w.ledger, h, InFlight([], pb, parent, Pending, false, false));
  }

  lemma {:induction false} ReleaseSound(ids: TxHash -> Reservation, w: World)
    requires Sound(ids, w) && w.control.Resolved?
    ensures Sound(ids, Exec(ids, w, ReleaseConfirmed))
  {
    CallDrops(ids, w.pool, [], ReleaseAll(w.control.confirmed));
  }

  lemma {:induction false} DrainStepSound(ids: TxHash -> Reservation, w: World, max: nat)
    requires Sound(ids, w) && w.control.Open?
    ensures Sound(ids, Exec(ids, w, Drain(max)))
  {
    DrainedSound(ids, w.pool, max);
  }

  lemma {:induction false} ClassifySound(
    ids: TxHash -> Reservation, w: World, stale: seq<HeldTx>, poison: seq<HeldTx>, back: seq<HeldTx>, kept: seq<HeldTx>)
    requires Sound(ids, w) && Enabled(ids, w, Classify(stale, poison, back, kept))
    ensures Sound(ids, Exec(ids, w, Classify(stale, poison, back, kept)))
  {
    DrainSound(ids, w.control.drained, stale, poison, back, kept);
  }

  lemma {:induction false} FailSound(ids: TxHash -> Reservation, w: World, s: Step)
    requires Sound(ids, w) && Enabled(ids, w, s) && (s.DisposeFailed? || s.PrepareFails? || s.ComposeFails?)
    ensures Sound(ids, Exec(ids, w, s))
  {
    match s
    case DisposeFailed(landed) => DisposeSound(ids, w.control.failed.txs, landed, !w.control.failed.slotSkipped);
    case PrepareFails(_) => SettlementSound(ids, w.control.survivors);
    case ComposeFails(_) =>
  }

  /** Steps that only move the slot thread along. */
  predicate Moves(s: Step) {
    s.StartTick? || s.LookForPartial? || s.FailedWasConfirmed? || s.PassGate? || s.EndSlot? || s.Catchup? || s.Eject?
  }

  lemma {:induction false} MoveSound(ids: TxHash -> Reservation, w: World, s: Step)
    requires Sound(ids, w) && Enabled(ids, w, s) && Moves(s)
    ensures Sound(ids, Exec(ids, w, s))
  {
  }

  lemma {:induction false} StepSound(ids: TxHash -> Reservation, w: World, s: Step)
    requires Sound(ids, w) && Enabled(ids, w, s)
    ensures Sound(ids, Exec(ids, w, s))
  {
    if Outside(s) {
      OutsideSound(ids, w, s);
    } else if Moves(s) {
      MoveSound(ids, w, s);
    } else {
      match s
      case StartSlot => StartSound(ids, w);
      case DisposePartial(nonces) => PartialStepSound(ids, w, nonces);
      case PoolCall => PoolCallSound(ids, w);
      case ReleaseConfirmed => ReleaseSound(ids, w);
      case Drain(max) => DrainStepSound(ids, w, max);
      case Classify(stale, poison, back, kept) => ClassifySound(ids, w, stale, poison, back, kept);
      case DisposeFailed(_) => FailSound(ids, w, s);
      case PrepareFails(_) => FailSound(ids, w, s);
      case ComposeFails(_) => FailSound(ids, w, s);
      case _ => WriteSound(ids, w, s);
    }
  }

  // ---- No reservation is forgotten -----------------------------------------------------

  /** Entries keep their transactions and stay unconfirmed. */
  lemma {:induction false} LedgerKeeps(l: Ledger, l': Ledger, h: TxHash)
    requires InLedger(l, h)
    requires forall height :: height in l ==>
      height in l' && l'[height].txs == l[height].txs && l'[height].cursorConfirmed == l[height].cursorConfirmed
    ensures InLedger(l', h)
  {
    var height :| height in l && !l[height].cursorConfirmed && h in Hashes(l[height].txs);
    assert !l'[height].cursorConfirmed && h in Hashes(l'[height].txs);
  }

  lemma {:induction false} RemovalKeeps(l: Ledger, gone: set<nat>, h: TxHash) returns (height: nat)
    requires InLedger(l, h)
    ensures InLedger(l - gone, h) || (height in gone && height in l && h in Hashes(l[height].txs))
  {
    height :| height in l && !l[height].cursorConfirmed && h in Hashes(l[height].txs);
    if height !in gone {
      assert height in l - gone && (l - gone)[height] == l[height];
    }
  }

  lemma {:induction false} FlattenHas(l: Ledger, hs: seq<nat>, height: nat, h: TxHash)
    requires Holds(l, hs) && height in hs && h in Hashes(l[height].txs)
    ensures h in Hashes(Flatten(l, hs))
  {
    FlattenHashes(l, hs);
    var tx := InHashes(l[height].txs, h);
    assert tx in Flatten(l, hs);
  }

  lemma {:induction false} InTaskAt(tasks: seq<Task>, i: nat, h: TxHash)
    requires i < |tasks| && h in Hashes(tasks[i].txs)
    ensures InTask(tasks, h)
  {
  }

  lemma {:induction false} TasksGrow(tasks: seq<Task>, more: seq<Task>, h: TxHash)
    ensures InTask(tasks, h) ==> InTask(tasks + more, h)
    ensures InTask(more, h) ==> InTask(tasks + more, h)
  {
    if InTask(tasks, h) {
      var i :| 0 <= i < |tasks| && h in Hashes(tasks[i].txs);
      InTaskAt(tasks + more, i, h);
    }
    if InTask(more, h) {
      var i :| 0 <= i < |more| && h in Hashes(more[i].txs);
      InTaskAt(tasks + more, |tasks| + i, h);
    }
  }

  lemma {:induction false} ReorgForgetsNothing(ids: TxHash -> Reservation, w: World, newCursor: nat)
    requires NoneForgotten(w)
    ensures NoneForgotten(Exec(ids, w, Reorg(newCursor)))
  {
    var w' := Exec(ids, w, Reorg(newCursor));
    var gone := RolledOut(w.ledger, newCursor);
    forall h | h in w'.pool.inFlight
      ensures Held(w', h)
    {
      TasksGrow(w.tasks, [Task(Flatten(w.ledger, Heights(gone)), true)], h);
      if InLedger(w.ledger, h) {
        var height := RemovalKeeps(w.ledger, gone, h);
        if !InLedger(w'.ledger, h) {
          FlattenHas(w.ledger, Heights(gone), height, h);
          InTaskAt([Task(Flatten(w.ledger, Heights(gone)), true)], 0, h);
        }
      }
    }
  }

  lemma {:induction false} FinalityForgetsNothing(ids: TxHash -> Reservation, w: World, finalized: nat)
    requires NoneForgotten(w)
    ensures NoneForgotten(Exec(ids, w, Finality(finalized)))
  {
    var w' := Exec(ids, w, Finality(finalized));
    var gone := FinalizedHeights(w.ledger, finalized);
    var hs := Heights(gone);
    forall h | h in w'.pool.inFlight
      ensures Held(w', h)
    {
      var tasks := AuditTasks(Audits(w.ledger, hs));
      TasksGrow(w.tasks, tasks, h);
      if InLedger(w.ledger, h) {
        var height := RemovalKeeps(w.ledger, gone, h);
        if !InLedger(w'.ledger, h) {
          var i :| 0 <= i < |hs| && hs[i] == height;
          InTaskAt(tasks, i, h);
        }
      }
    }
  }

  lemma {:induction false} RunTaskForgetsNothing(ids: TxHash -> Reservation, w: World, i: nat, requeue: bool)
    requires Sound(ids, w) && NoneForgotten(w) && i < |w.tasks| && (w.tasks[i].rolledOut ==> requeue)
    ensures NoneForgotten(Exec(ids, w, RunTask(i, requeue)))
  {
    var w' := Exec(ids, w, RunTask(i, requeue));
    var txs := w.tasks[i].txs;
    CallDrops(ids, w.pool, [], if requeue then Requeue(txs) else ReleaseAll(txs));
    forall h | h in w'.pool.inFlight
      ensures Held(w', h)
    {
      assert h in w.pool.inFlight && w'.pool.inFlight[h] == w.pool.inFlight[h] && h !in Hashes(txs);
      OtherTask(w.tasks, i, h);
    }
  }

  lemma {:induction false} OtherTask(tasks: seq<Task>, i: nat, h: TxHash)
    requires i < |tasks| && h !in Hashes(tasks[i].txs)
    ensures InTask(tasks, h) ==> InTask(tasks[..i] + tasks[i + 1..], h)
  {
    if InTask(tasks, h) {
      var j :| 0 <= j < |tasks| && h in Hashes(tasks[j].txs);
      InTaskAt(tasks[..i] + tasks[i + 1..], if j < i then j else j - 1, h);
    }
  }

  lemma {:induction false} VerdictForgetsNothing(ids: TxHash -> Reservation, w: World, s: Step)
    requires NoneForgotten(w) && (s.VerdictSettled? || s.VerdictPartial? || s.VerdictFailed?)
    ensures NoneForgotten(Exec(ids, w, s))
  {
    var w' := Exec(ids, w, s);
    forall h | h in w'.pool.inFlight
      ensures Held(w', h)
    {
      if InLedger(w.ledger, h) { LedgerKeeps(w.ledger, w'.ledger, h); }
    }
  }

  lemma {:induction false} OutsideForgetsNothing(ids: TxHash -> Reservation, w: World, s: Step)
    requires Sound(ids, w) && NoneForgotten(w) && Enabled(ids, w, s) && Outside(s)
    ensures NoneForgotten(Exec(ids, w, s))
  {
    match s
    case Admit(tx, onChain) => PushContiguousValid(w.pool, tx, onChain);
    case MoveCursor(_) =>
    case Reorg(newCursor) => ReorgForgetsNothing(ids, w, newCursor);
    case Finality(finalized) => FinalityForgetsNothing(ids, w, finalized);
    case RunTask(i, requeue) => RunTaskForgetsNothing(ids, w, i, requeue);
    case _ => VerdictForgetsNothing(ids, w, s);
  }

  /** The slot thread takes what the cursor newly confirms. */
  lemma {:induction false} StartForgetsNothing(ids: TxHash -> Reservation, w: World)
    requires NoneForgotten(w) && w.control.Idle?
    ensures NoneForgotten(Exec(ids, w, StartSlot))
  {
    var w' := Exec(ids, w, StartSlot);
    CursorResolvesEverythingBelow(w.ledger, w.cursor);
    forall h | h in w'.pool.inFlight
      ensures Held(w', h)
    {
      if InLedger(w.ledger, h) {
        var height :| height in w.ledger && !w.ledger[height].cursorConfirmed && h in Hashes(w.ledger[height].txs);
        if w'.ledger[height].cursorConfirmed {
          var tx := InHashes(w.ledger[height].txs, h);
          ConfirmedAreReleased(w.ledger, w.cursor, height, tx);
          assert tx in w'.control.confirmed;
        } else {
          assert h in Hashes(w'.ledger[height].txs);
        }
      }
    }
  }

  /** A claimed entry gives its reservations to the partial plan; every other entry keeps its own. */
  lemma {:induction false} ClaimCovers(
    l: Ledger, b: FailedBatch, spent: seq<HeldTx>, nonces: map<NonceChain, nat>, h: TxHash, r: Reservation)
    requires InLedger(l, h) && (Names(l, b.syncHeight, b.postBatchHash) ==> l[b.syncHeight].txs == b.txs)
    ensures
      || InLedger(ClaimPartial(l, b.syncHeight, b.postBatchHash, spent).0, h)
      || (Names(l, b.syncHeight, b.postBatchHash) && Covers(PartialOps(b.txs, nonces), h, r))
  {
    var l' := ClaimPartial(l, b.syncHeight, b.postBatchHash, spent).0;
    var height :| height in l && !l[height].cursorConfirmed && h in Hashes(l[height].txs);
    if height == b.syncHeight && Names(l, b.syncHeight, b.postBatchHash) {
      PartialCovers(b.txs, nonces, h, r);
    } else {
      assert height in l' && l'[height] == l[height];
    }
  }

  lemma {:induction false} ClaimHeld(w: World, w': World, spent: seq<HeldTx>, nonces: map<NonceChain, nat>, h: TxHash)
    requires w.control.PartialReads? && w'.pool == w.pool && w'.tasks == w.tasks && h in w.pool.inFlight && Held(w, h)
    requires
      var b := w.control.partial;
      && (Names(w.ledger, b.syncHeight, b.postBatchHash) ==> w.ledger[b.syncHeight].txs == b.txs)
      && w'.ledger == ClaimPartial(w.ledger, b.syncHeight, b.postBatchHash, spent).0
      && (Names(w.ledger, b.syncHeight, b.postBatchHash) ==>
            w'.control.Disposing? && w'.control.ops == PartialOps(b.txs, nonces))
    ensures Held(w', h)
  {
    hide ClaimPartial, PartialOps, InLedger, InTask, Drops;
    if InLedger(w.ledger, h) {
      ClaimCovers(w.ledger, w.control.partial, spent, nonces, h, w.pool.inFlight[h]);
    }
  }

  lemma {:induction false} ClaimForgetsNothing(ids: TxHash -> Reservation, w: World, nonces: map<NonceChain, nat>)
    requires NoneForgotten(w) && w.control.PartialReads? && Gated(w.ledger, w.control)
    ensures NoneForgotten(Exec(ids, w, DisposePartial(Some(nonces))))
  {
    var w' := Exec(ids, w, DisposePartial(Some(nonces)));
    var b := w.control.partial;
    var spent := Landed(b.txs, HashList(PartitionStale(b.txs, nonces, true)), true);
    ClaimExec(ids, w, nonces);
    forall h | h in w'.pool.inFlight
      ensures Held(w', h)
    {
      ClaimHeld(w, w', spent, nonces, h);
    }
  }

  lemma {:induction false} TakeForgetsNothing(ids: TxHash -> Reservation, w: World)
    requires NoneForgotten(w) && w.control.FailedCheck?
    ensures NoneForgotten(Exec(ids, w, TakeFailed))
  {
    var w' := Exec(ids, w, TakeFailed);
    var (l, found) := TakeFailedForRecovery(w.ledger, w.control.c);
    forall h | h in w'.pool.inFlight
      ensures Held(w', h)
    {
      if InLedger(w.ledger, h) && found.Some? {
        var _ := RemovalKeeps(w.ledger, {found.value.syncHeight}, h);
      }
    }
  }

  lemma {:induction false} InsertForgetsNothing(l: Ledger, height: nat, e: InFlight, h: TxHash)
    requires height !in l
    ensures InLedger(l, h) ==> InLedger(l[height := e], h)
    ensures !e.cursorConfirmed && h in Hashes(e.txs) ==> InLedger(l[height := e], h)
  {
    if InLedger(l, h) {
      var g :| g in l && !l[g].cursorConfirmed && h in Hashes(l[g].txs);
      assert l[height := e][g] == l[g];
    }
    if !e.cursorConfirmed && h in Hashes(e.txs) {
      assert l[height := e][height] == e;
    }
  }

  lemma {:induction false} BeginForgetsNothing(ids: TxHash -> Reservation, w: World, s: Step)
    requires NoneForgotten(w) && Enabled(ids, w, s) && Gated(w.ledger, w.control)
    requires s.KeepFailed? || s.BeginRich? || s.BeginEmpty?
    ensures NoneForgotten(Exec(ids, w, s))
  {
    var w' := Exec(ids, w, s);
    forall h | h in w'.pool.inFlight
      ensures Held(w', h)
    {
      match s
      case KeepFailed =>
        var b := w.control.failed;
        InsertForgetsNothing(w.ledger, b.syncHeight,
          InFlight(b.txs, b.postBatchHash, b.parent, Failed, false, b.slotSkipped), h);
      case BeginRich(height, pb, parent) =>
        InsertForgetsNothing(w.ledger, height, InFlight(w.control.survivors, pb, parent, Pending, false, false), h);
      case BeginEmpty(height, pb, parent) =>
        InsertForgetsNothing(w.ledger, height, InFlight([], pb, parent, Pending, false, false), h);
    }
  }

  lemma {:induction false} PoolCallForgetsNothing(ids: TxHash -> Reservation, w: World)
    requires Sound(ids, w) && NoneForgotten(w) && w.control.Disposing?
    ensures NoneForgotten(Exec(ids, w, PoolCall))
  {
    var Disposing(ops, log, next) := w.control;
    var w' := Exec(ids, w, PoolCall);
    if ops != [] {
      CallDrops(ids, w.pool, log, ops[0]);
      forall h | h in w'.pool.inFlight
        ensures Held(w', h)
      {
        var r := w.pool.inFlight[h];
        hide Drops, Exec;
        if exists i :: 0 <= i < |ops| && Drops(ops[i], h, r) {
          var i :| 0 <= i < |ops| && Drops(ops[i], h, r);
          assert ops[1..][i - 1] == ops[i];
        }
      }
    }
  }

  lemma {:induction false} DrainForgetsNothing(ids: TxHash -> Reservation, w: World, max: nat)
    requires Sound(ids, w) && NoneForgotten(w) && w.control.Open?
    ensures NoneForgotten(Exec(ids, w, Drain(max)))
  {
    DrainedSound(ids, w.pool, max);
  }

  /** The plan of a step that hands transactions to the pool covers them. */
  lemma {:induction false} PlanForgetsNothing(w: World, ops: seq<PoolOp>, next: Control)
    requires NoneForgotten(w)
    requires forall h :: h in w.pool.inFlight && InHand(w.control, h, w.pool.inFlight[h])
               ==> Covers(ops, h, w.pool.inFlight[h]) || InHand(next, h, w.pool.inFlight[h])
    ensures NoneForgotten(w.(control := Disposing(ops, [], next)))
  {
  }

  lemma {:induction false} ClassifyForgetsNothing(
    ids: TxHash -> Reservation, w: World, stale: seq<HeldTx>, poison: seq<HeldTx>, back: seq<HeldTx>, kept: seq<HeldTx>)
    requires Sound(ids, w) && NoneForgotten(w) && Enabled(ids, w, Classify(stale, poison, back, kept))
    ensures NoneForgotten(Exec(ids, w, Classify(stale, poison, back, kept)))
  {
    var drained := w.control.drained;
    var next := if kept == [] then Minimal(w.control.c) else Built(w.control.c, kept);
    DrainSound(ids, drained, stale, poison, back, kept);
    forall h | h in w.pool.inFlight && h in Hashes(drained)
      ensures Covers(DrainOps(stale, poison, back), h, w.pool.inFlight[h]) || InHand(next, h, w.pool.inFlight[h])
    {
      DrainCovers(ids, drained, stale, poison, back, kept, h);
    }
    PlanForgetsNothing(w, DrainOps(stale, poison, back), next);
  }

  lemma {:induction false} EjectCovers(ids: TxHash -> Reservation, survivors: seq<HeldTx>, culprit: HeldTx, h: TxHash)
    requires Known(ids, survivors) && h in Hashes(survivors)
    ensures Covers([Evict(culprit.Reserve())], h, ids(h)) || h in Hashes(Retrying(survivors, culprit))
  {
    var tx := InHashes(survivors, h);
    if tx.Reserve().AtOrAbove(culprit.Chain(), culprit.nonce) {
      CoversOne(Evict(culprit.Reserve()), h, ids(h));
    } else {
      assert tx in Retrying(survivors, culprit);
    }
  }

  lemma {:induction false} EjectForgetsNothing(ids: TxHash -> Reservation, w: World, culprit: HeldTx)
    requires Sound(ids, w) && NoneForgotten(w) && w.control.Built? && culprit in w.control.survivors
    ensures NoneForgotten(Exec(ids, w, Eject(culprit)))
  {
    var Built(c, survivors) := w.control;
    var next := Composing(c, Retrying(survivors, culprit));
    forall h | h in w.pool.inFlight && h in Hashes(survivors)
      ensures Covers([Evict(culprit.Reserve())], h, w.pool.inFlight[h]) || InHand(next, h, w.pool.inFlight[h])
    {
      EjectCovers(ids, survivors, culprit, h);
    }
    PlanForgetsNothing(w, [Evict(culprit.Reserve())], next);
    assert Exec(ids, w, Eject(culprit)) == w.(control := Disposing([Evict(culprit.Reserve())], [], next));
  }

  lemma {:induction false} FailForgetsNothing(ids: TxHash -> Reservation, w: World, s: Step)
    requires NoneForgotten(w) && Enabled(ids, w, s)
    requires s.FailedWasConfirmed? || s.DisposeFailed? || s.ComposeFails? || s.PrepareFails?
    ensures NoneForgotten(Exec(ids, w, s))
  {
    var Disposing(ops, _, next) := Exec(ids, w, s).control;
    forall h | h in w.pool.inFlight && InHand(w.control, h, w.pool.inFlight[h])
      ensures Covers(ops, h, w.pool.inFlight[h])
    {
      match s
      case FailedWasConfirmed => CoversOne(ReleaseAll(w.control.failed.txs), h, w.pool.inFlight[h]);
      case DisposeFailed(landed) =>
        DisposeCovers(w.control.failed.txs, landed, !w.control.failed.slotSkipped, h, w.pool.inFlight[h]);
      case ComposeFails(_) => CoversOne(Requeue(w.control.drained), h, w.pool.inFlight[h]);
      case PrepareFails(charge) =>
        if charge { SettlementCovers(w.control.survivors, h, w.pool.inFlight[h]); }
        else { CoversOne(Requeue(w.control.survivors), h, w.pool.inFlight[h]); }
    }
    PlanForgetsNothing(w, ops, next);
  }

  lemma {:induction false} MoveForgetsNothing(ids: TxHash -> Reservation, w: World, s: Step)
    requires NoneForgotten(w) && Enabled(ids, w, s)
    requires s.StartTick? || s.LookForPartial? || s.PassGate? || s.EndSlot? || s.Catchup? || s.ReleaseConfirmed?
             || s == DisposePartial(None)
    ensures NoneForgotten(Exec(ids, w, s))
  {
    if s.ReleaseConfirmed? {
      assert forall h :: h in Exec(ids, w, s).pool.inFlight ==> h !in Hashes(w.control.confirmed);
    }
  }

  lemma {:induction false} StepForgetsNothing(ids: TxHash -> Reservation, w: World, s: Step)
    requires Inv(ids, w) && Enabled(ids, w, s)
    ensures NoneForgotten(Exec(ids, w, s))
  {
    if Outside(s) {
      OutsideForgetsNothing(ids, w, s);
    } else {
      match s
      case StartSlot => StartForgetsNothing(ids, w);
      case DisposePartial(nonces) =>
        if nonces.Some? { ClaimForgetsNothing(ids, w, nonces.value); } else { MoveForgetsNothing(ids, w, s); }
      case TakeFailed => TakeForgetsNothing(ids, w);
      case KeepFailed => BeginForgetsNothing(ids, w, s);
      case BeginRich(_, _, _) => BeginForgetsNothing(ids, w, s);
      case BeginEmpty(_, _, _) => BeginForgetsNothing(ids, w, s);
      case PoolCall => PoolCallForgetsNothing(ids, w);
      case Drain(max) => DrainForgetsNothing(ids, w, max);
      case Classify(stale, poison, back, kept) => ClassifyForgetsNothing(ids, w, stale, poison, back, kept);
      case Eject(culprit) => EjectForgetsNothing(ids, w, culprit);
      case FailedWasConfirmed => FailForgetsNothing(ids, w, s);
      case DisposeFailed(_) => FailForgetsNothing(ids, w, s);
      case ComposeFails(_) => FailForgetsNothing(ids, w, s);
      case PrepareFails(_) => FailForgetsNothing(ids, w, s);
      case _ => MoveForgetsNothing(ids, w, s);
    }
  }

  // ---- Whole runs ----------------------------------------------------------------------

  lemma {:induction false} StepKeepsInv(ids: TxHash -> Reservation, w: World, s: Step)
    requires Inv(ids, w) && Enabled(ids, w, s)
    ensures Inv(ids, Exec(ids, w, s))
  {
    StepSound(ids, w, s);
    StepForgetsNothing(ids, w, s);
    StepKeepsGate(ids, w, s);
  }

  ghost predicate Executable(ids: TxHash -> Reservation, w: World, steps: seq<Step>)
    decreases |steps|
  {
    steps == [] || (Enabled(ids, w, steps[0]) && Executable(ids, Exec(ids, w, steps[0]), steps[1..]))
  }

  ghost function ExecRun(ids: TxHash -> Reservation, w: World, steps: seq<Step>): World
    requires Executable(ids, w, steps)
    decreases |steps|
  {
    if steps == [] then w else ExecRun(ids, Exec(ids, w, steps[0]), steps[1..])
  }

  lemma {:induction false} RunKeepsInv(ids: TxHash -> Reservation, w: World, steps: seq<Step>)
    requires Inv(ids, w) && Executable(ids, w, steps)
    ensures Inv(ids, ExecRun(ids, w, steps))
    decreases |steps|
  {
    if steps != [] {
      StepKeepsInv(ids, w, steps[0]);
      RunKeepsInv(ids, Exec(ids, w, steps[0]), steps[1..]);
    }
  }

  lemma {:induction false} InitInv(ids: TxHash -> Reservation)
    ensures Inv(ids, INIT)
  {
    assert Hashes([]) == {};
  }

  /** In every interleaving, every in-flight reservation belongs to a ledger entry the cursor has
      not confirmed, to the slot thread, or to a pending reorg or audit task; at most one entry is
      unresolved; a slot begins at most one batch; and every transaction has attempts left. */
  lemma {:induction false} EveryRunIsSafe(ids: TxHash -> Reservation, steps: seq<Step>)
    requires Executable(ids, INIT, steps)
    ensures
      var w := ExecRun(ids, INIT, steps);
      && Valid(w.pool)
      && (forall h :: h in w.pool.inFlight ==>
            InLedger(w.ledger, h) || InTask(w.tasks, h) || InHand(w.control, h, w.pool.inFlight[h]))
      && OneUnresolved(w.ledger)
      && w.begun <= 1
      && Bounded(w.pool.txs) && (forall h :: h in w.ledger ==> Bounded(w.ledger[h].txs))
  {
    InitInv(ids);
    RunKeepsInv(ids, INIT, steps);
    var w := ExecRun(ids, INIT, steps);
    assert forall h :: h in w.pool.inFlight ==> Held(w, h);
  }

  /** An idle composer with no pending task holds reservations for unconfirmed batches only. */
  lemma {:induction false} IdleRunHoldsOnlyLedger(ids: TxHash -> Reservation, steps: seq<Step>, h: TxHash)
    requires Executable(ids, INIT, steps)
    requires
      var w := ExecRun(ids, INIT, steps);
      w.control.Idle? && w.tasks == [] && h in w.pool.inFlight
    ensures InLedger(ExecRun(ids, INIT, steps).ledger, h)
  {
    EveryRunIsSafe(ids, steps);
  }

  /** No entry present before and after moves back. */
  ghost predicate Forward(l: Ledger, l': Ledger) {
    forall h :: h in l && h in l' ==>
      l[h].resolution.Rank() <= l'[h].resolution.Rank() && (l[h].cursorConfirmed ==> l'[h].cursorConfirmed)
  }

  lemma {:induction false} OutsideForward(ids: TxHash -> Reservation, w: World, s: Step)
    requires Enabled(ids, w, s) && Outside(s)
    ensures Forward(w.ledger, Exec(ids, w, s).ledger)
  {
  }

  lemma {:induction false} ClaimForward(l: Ledger, h: nat, postBatchHash: nat, spent: seq<HeldTx>)
    ensures Forward(l, ClaimPartial(l, h, postBatchHash, spent).0)
  {
  }

  lemma {:induction false} InsertForward(l: Ledger, h: nat, e: InFlight)
    requires h !in l
    ensures Forward(l, l[h := e])
  {
  }

  lemma {:induction false} WriteForward(ids: TxHash -> Reservation, w: World, s: Step)
    requires GateInv(w) && Enabled(ids, w, s) && Writes(s)
    ensures Forward(w.ledger, Exec(ids, w, s).ledger)
  {
    match s
    case StartSlot => CursorResolvesEverythingBelow(w.ledger, w.cursor);
    case DisposePartial(nonces) =>
      if nonces.Some? {
        var b := w.control.partial;
        var spent := HashList(PartitionStale(b.txs, nonces.value, true));
        ClaimForward(w.ledger, b.syncHeight, b.postBatchHash, Landed(b.txs, spent, true));
      }
    case TakeFailed => TakeFailedFacts(w.ledger, w.control.c);
    case KeepFailed =>
      var b := w.control.failed;
      InsertForward(w.ledger, b.syncHeight, InFlight(b.txs, b.postBatchHash, b.parent, Failed, false, b.slotSkipped));
    case BeginRich(h, pb, parent) =>
      InsertForward(w.ledger, h, InFlight(w.control.survivors, pb, parent, Pending, false, false));
    case BeginEmpty(h, pb, parent) => InsertForward(w.ledger, h, InFlight([], pb, parent, Pending, false, false));
  }

  /** No step moves an entry's resolution back or un-confirms it; in particular a settled or partly
      settled entry never becomes failed. */
  lemma {:induction false} ResolutionNeverMovesBack(ids: TxHash -> Reservation, w: World, s: Step, h: nat)
    requires Inv(ids, w) && Enabled(ids, w, s) && h in w.ledger && h in Exec(ids, w, s).ledger
    ensures
      var e, e' := w.ledger[h], Exec(ids, w, s).ledger[h];
      && e.resolution.Rank() <= e'.resolution.Rank()
      && (e.cursorConfirmed ==> e'.cursorConfirmed)
      && (!e.resolution.Unresolved() ==> !e'.resolution.Failed?)
  {
    var l' := Exec(ids, w, s).ledger;
    assert Forward(w.ledger, l') by {
      if Outside(s) {
        OutsideForward(ids, w, s);
      } else if Writes(s) {
        WriteForward(ids, w, s);
      } else {
        MoveKeepsGate(ids, w, s);
      }
    }
  }

  /** Past the gate a batch begins above the cursor the slot read, on an empty height, when every
      earlier batch is resolved. It is recorded as pending with the slot's survivors, if it carries any;
      no other entry and nothing in the pool changes. */
  lemma {:induction false} BeginIsFresh(ids: TxHash -> Reservation, w: World, s: Step)
    requires Inv(ids, w) && Enabled(ids, w, s) && (s.BeginRich? || s.BeginEmpty?)
    ensures w.control.c < s.h && s.h !in w.ledger
    ensures forall h :: h in w.ledger ==> h <= w.control.c && !w.ledger[h].resolution.Unresolved()
    ensures w.begun == 0 && Exec(ids, w, s).begun == 1
    ensures
      var w' := Exec(ids, w, s);
      && w'.pool == w.pool && w'.ledger.Keys == w.ledger.Keys + {s.h} && w'.control.Idle?
      && (forall h :: h in w.ledger ==> w'.ledger[h] == w.ledger[h])
      && var e := w'.ledger[s.h];
         && e.txs == (if s.BeginRich? then w.control.survivors else [])
         && e.postBatchHash == s.postBatchHash && e.parent == s.parent
         && e.resolution == Pending && !e.cursorConfirmed && !e.slotSkipped
  {
  }

  // ---- Recomposition -------------------------------------------------------------------

  /** How many transactions the slot thread may still compose. */
  function Weight(k: Control): nat
    decreases k
  {
    match k
    case Composing(_, drained) => |drained|
    case Built(_, survivors) => |survivors|
    case Disposing(_, _, next) => Weight(next)
    case _ => 0
  }

  lemma {:induction false} WithoutShrinks(txs: seq<HeldTx>, c: NonceChain, n: nat)
    ensures |Without(txs, c, n)| <= |txs|
    ensures (exists tx :: tx in txs && tx.Reserve().AtOrAbove(c, n)) ==> |Without(txs, c, n)| < |txs|
  {
    if txs != [] {
      var init, last := txs[..|txs| - 1], txs[|txs| - 1];
      assert txs == init + [last];
      WithoutShrinks(init, c, n);
    }
  }

  /** Only a fresh drain adds work, and an attributed prover failure strictly removes some. */
  lemma {:induction false} RecompositionShrinks(ids: TxHash -> Reservation, w: World, s: Step)
    requires Enabled(ids, w, s) && !s.Drain?
    ensures Weight(Exec(ids, w, s).control) <= Weight(w.control)
    ensures s.Eject? ==> Weight(Exec(ids, w, s).control) < Weight(w.control)
  {
    if s.Eject? { EjectShrinks(ids, w, s.culprit); }
  }

  lemma {:induction false} EjectShrinks(ids: TxHash -> Reservation, w: World, culprit: HeldTx)
    requires Enabled(ids, w, Eject(culprit))
    ensures Weight(Exec(ids, w, Eject(culprit)).control) < Weight(w.control)
  {
    assert culprit.Reserve().AtOrAbove(culprit.Chain(), culprit.nonce);
    WithoutShrinks(w.control.survivors, culprit.Chain(), culprit.nonce);
  }

  // ---- A second cursor read in one slot ----------------------------------------------------

  /** The controls a batch can begin from. */
  predicate Begins(k: Control) {
    k.Open? || k.Built? || k.Minimal?
  }

  /** What such a begin hands to the ledger. */
  function Carried(k: Control): seq<HeldTx> {
    if k.Built? then k.survivors else []
  }

  /** Every begin follows a second read of the cursor: preparing a batch refuses a height at or below
      it, and the prefix fallback of a minimal batch chooses one above it. */
  ghost function BeginAgain(w: World, h: nat, postBatchHash: nat, parent: nat): World {
    w.(ledger := Begin(w.ledger, h, postBatchHash, parent, Carried(w.control)), control := Idle, begun := w.begun + 1)
  }

  /** A world past the gate with control `k`, in which the second read lets a batch begin at `h`. */
  ghost predicate Chooses(ids: TxHash -> Reservation, w: World, k: Control, h: nat) {
    Inv(ids, w) && w.control == k && w.cursor < h
  }

  /** Whatever the batch carries: beginning at a height above the second read forgets no reservation in
      any state exactly when that height is above the cursor the gate read, and then it keeps the
      whole invariant. */
  lemma {:induction false} BeginForgetsNothingIff(
    ids: TxHash -> Reservation, k: Control, h: nat, postBatchHash: nat, parent: nat)
    requires Begins(k) && ControlSound(ids, k) && h > 0
    ensures (forall w :: Chooses(ids, w, k, h) ==> NoneForgotten(BeginAgain(w, h, postBatchHash, parent))) <==> k.c < h
    ensures k.c < h ==> forall w :: Chooses(ids, w, k, h) ==> Inv(ids, BeginAgain(w, h, postBatchHash, parent))
  {
    if k.c < h {
      forall w | Chooses(ids, w, k, h)
        ensures Inv(ids, BeginAgain(w, h, postBatchHash, parent))
      {
        BeginStepKeepsInv(ids, w, h, postBatchHash, parent);
      }
    } else {
      var tx := Holder(ids, Unused(Hashes(Carried(k))));
      OwedInv(ids, tx, k, h);
      BeginForgets(tx, 0, k, h, postBatchHash, parent);
      assert Chooses(ids, Owed(tx, 0, k, h), k, h);
    }
  }

  lemma {:induction false} BeginStepKeepsInv(
    ids: TxHash -> Reservation, w: World, h: nat, postBatchHash: nat, parent: nat)
    requires Inv(ids, w) && Begins(w.control) && w.control.c < h
    ensures Inv(ids, BeginAgain(w, h, postBatchHash, parent))
  {
    var s := if w.control.Built? then BeginRich(h, postBatchHash, parent) else BeginEmpty(h, postBatchHash, parent);
    assert Enabled(ids, w, s) && Exec(ids, w, s) == BeginAgain(w, h, postBatchHash, parent);
    hide Inv;
    StepKeepsInv(ids, w, s);
  }

  /** A hash outside the set. */
  ghost function Unused(s: set<TxHash>): (h: TxHash)
    ensures h !in s
  {
    if s == {} then 0 else Max(s) + 1
  }

  /** A transaction with the identity of the hash. */
  ghost function Holder(ids: TxHash -> Reservation, h: TxHash): HeldTx {
    HeldTx([], h, 0, ids(h).sender, ids(h).nonce, ids(h).direction, 0, 0)
  }

  /** Past the gate: the batch at `h` settled in part and still owes `tx`. */
  ghost function Owed(tx: HeldTx, cursor: nat, k: Control, h: nat): World {
    World(PoolState([], {}, map[tx.hash := tx.Reserve()]), map[h := InFlight([tx], 1, 0, SettledPartial, false, false)],
          cursor, k, [], 0)
  }

  lemma {:induction false} OwedInv(ids: TxHash -> Reservation, tx: HeldTx, k: Control, h: nat)
    requires Begins(k) && ControlSound(ids, k) && tx.Reserve() == ids(tx.hash) && tx.attempts == 0 && h <= k.c
    ensures Inv(ids, Owed(tx, 0, k, h))
  {
    var w := Owed(tx, 0, k, h);
    assert Hashes([tx]) == {tx.hash} && Hashes([]) == {};
    assert w.ledger[h].txs == [tx];
    assert InLedger(w.ledger, tx.hash);
  }

  lemma {:induction false} BeginForgets(tx: HeldTx, cursor: nat, k: Control, h: nat, postBatchHash: nat, parent: nat)
    requires tx.hash !in Hashes(Carried(k))
    ensures !NoneForgotten(BeginAgain(Owed(tx, cursor, k, h), h, postBatchHash, parent))
  {
    var w := BeginAgain(Owed(tx, cursor, k, h), h, postBatchHash, parent);
    assert forall g :: g in w.ledger ==> w.ledger[g].txs == Carried(k);
    assert tx.hash in w.pool.inFlight && !Held(w, tx.hash);
  }

  ghost predicate Reachable(ids: TxHash -> Reservation, w: World) {
    exists steps :: Executable(ids, INIT, steps) && ExecRun(ids, INIT, steps) == w
  }

  lemma {:induction false} RunSnoc(ids: TxHash -> Reservation, w: World, steps: seq<Step>, s: Step)
    requires Executable(ids, w, steps) && Enabled(ids, ExecRun(ids, w, steps), s)
    ensures Executable(ids, w, steps + [s]) && ExecRun(ids, w, steps + [s]) == Exec(ids, ExecRun(ids, w, steps), s)
    decreases |steps|
  {
    hide Exec, Enabled;
    var all := steps + [s];
    if steps == [] {
      assert all[1..] == [];
    } else {
      assert all[1..] == steps[1..] + [s];
      RunSnoc(ids, Exec(ids, w, steps[0]), steps[1..], s);
    }
  }

  lemma {:induction false} ReachStep(ids: TxHash -> Reservation, w: World, s: Step, w': World)
    requires Reachable(ids, w) && Enabled(ids, w, s) && Exec(ids, w, s) == w'
    ensures Reachable(ids, w')
  {
    hide Exec, Enabled;
    var steps :| Executable(ids, INIT, steps) && ExecRun(ids, INIT, steps) == w;
    RunSnoc(ids, INIT, steps, s);
  }

  /** Entries a confirmation turns into partly settled ones. */
  ghost function Turned(l: Ledger): Ledger {
    map h | h in l :: l[h].(resolution := SettledPartial)
  }

  lemma {:induction false} NothingConfirmed(l: Ledger, hs: seq<nat>)
    requires Holds(l, hs) && forall h :: h in l ==> l[h].resolution.Unresolved()
    ensures NewlyConfirmed(l, hs) == []
  {
    if hs != [] { NothingConfirmed(l, hs[..|hs| - 1]); }
  }

  /** A slot whose partial recovery cannot read the source nonces leaves the batch owed and passes. */
  lemma {:induction false} GateOpens(ids: TxHash -> Reservation, w: World)
    requires Reachable(ids, w) && w.control == Idle
    requires forall h :: h in w.ledger ==> h <= w.cursor && w.ledger[h].resolution.Unresolved()
    ensures Reachable(ids, w.(ledger := Turned(w.ledger), control := Open(w.cursor), begun := 0))
  {
    var c, l := w.cursor, Turned(w.ledger);
    var at := w.(ledger := l, begun := 0);
    SlotStarts(ids, w);
    PartialWaits(ids, at);
    GatePasses(ids, at);
  }

  lemma {:induction false} SlotStarts(ids: TxHash -> Reservation, w: World)
    requires Reachable(ids, w) && w.control == Idle
    requires forall h :: h in w.ledger ==> h <= w.cursor && w.ledger[h].resolution.Unresolved()
    ensures Reachable(ids, w.(ledger := Turned(w.ledger), control := PartialCheck(w.cursor, true), begun := 0))
  {
    var c, l := w.cursor, Turned(w.ledger);
    var resolved := w.(ledger := l, control := Resolved(c, []), begun := 0);
    StartStep(ids, w);
    ReleaseNothing(ids, resolved, c);
    hide Exec, Enabled, Reachable;
    ReachStep(ids, w, StartSlot, resolved);
    ReachStep(ids, resolved, ReleaseConfirmed, resolved.(control := PartialCheck(c, true)));
  }

  lemma {:induction false} StartStep(ids: TxHash -> Reservation, w: World)
    requires w.control == Idle
    requires forall h :: h in w.ledger ==> h <= w.cursor && w.ledger[h].resolution.Unresolved()
    ensures Enabled(ids, w, StartSlot)
    ensures Exec(ids, w, StartSlot) == w.(ledger := Turned(w.ledger), control := Resolved(w.cursor, []), begun := 0)
  {
    hide ResolveBelowCursor, Turned;
    TurnsAll(w.ledger, w.cursor);
  }

  lemma {:induction false} TurnsAll(l: Ledger, c: nat)
    requires forall h :: h in l ==> h <= c && l[h].resolution.Unresolved()
    ensures ResolveBelowCursor(l, c) == (Turned(l), [])
  {
    NothingConfirmed(l, Heights(Covered(l, c)));
    hide NewlyConfirmed, Heights, Covered;
    assert ResolveBelowCursor(l, c).0 == Turned(l);
  }

  lemma {:induction false} ReleaseNothing(ids: TxHash -> Reservation, w: World, c: nat)
    requires w.control == Resolved(c, [])
    ensures Enabled(ids, w, ReleaseConfirmed)
    ensures Exec(ids, w, ReleaseConfirmed) == w.(control := PartialCheck(c, true))
  {
    assert Release(w.pool, []) == w.pool by { assert Hashes([]) == {} && w.pool.inFlight - {} == w.pool.inFlight; }
  }

  lemma {:induction false} PartialWaits(ids: TxHash -> Reservation, w: World)
    requires Reachable(ids, w.(control := PartialCheck(w.cursor, true)))
    ensures Reachable(ids, w.(control := FailedCheck(w.cursor, true)))
  {
    var found, at := PartialToDispose(w.ledger, w.cursor), w.(control := PartialCheck(w.cursor, true));
    if found.Some? {
      var waiting := w.(control := PartialReads(w.cursor, true, found.value));
      ReachStep(ids, at, LookForPartial, waiting);
      ReachStep(ids, waiting, DisposePartial(None), w.(control := FailedCheck(w.cursor, true)));
    } else {
      ReachStep(ids, at, LookForPartial, w.(control := FailedCheck(w.cursor, true)));
    }
  }

  lemma {:induction false} GatePasses(ids: TxHash -> Reservation, w: World)
    requires Reachable(ids, w.(control := FailedCheck(w.cursor, true)))
    requires forall h :: h in w.ledger ==> h <= w.cursor
    ensures Reachable(ids, w.(control := Open(w.cursor)))
  {
    assert FailedAbove(w.ledger, w.cursor) == {};
    ReachStep(ids, w.(control := FailedCheck(w.cursor, true)), TakeFailed, w.(control := Gate(w.cursor)));
    ReachStep(ids, w.(control := Gate(w.cursor)), PassGate, w.(control := Open(w.cursor)));
  }

  /** The pool calls of a drain that gives nothing back. */
  lemma {:induction false} EmptyPlan(ids: TxHash -> Reservation, w: World, ops: seq<PoolOp>, next: Control)
    requires Reachable(ids, w.(control := Disposing(ops, [], next)))
    requires forall i :: 0 <= i < |ops| ==> ops[i] == ReleaseAll([]) || ops[i] == Requeue([])
    ensures Reachable(ids, w.(control := next))
    decreases |ops|
  {
    var at := w.(control := Disposing(ops, [], next));
    if ops == [] {
      ReachStep(ids, at, PoolCall, w.(control := next));
    } else {
      assert Release(w.pool, []) == w.pool by { assert Hashes([]) == {} && w.pool.inFlight - {} == w.pool.inFlight; }
      assert ExecOp(w.pool, [], ops[0]) == (w.pool, []);
      ReachStep(ids, at, PoolCall, w.(control := Disposing(ops[1..], [], next)));
      EmptyPlan(ids, w, ops[1..], next);
    }
  }

  /** One slot that posts a batch of one transaction at height 5. */
  lemma {:induction false} PostsAtFive(ids: TxHash -> Reservation)
    ensures
      var tx := Holder(ids, 0);
      Reachable(ids, World(PoolState([], {}, map[0 := ids(0)]), map[5 := InFlight([tx], 1, 0, Pending, false, false)],
                           0, Idle, [], 1))
  {
    hide Exec, Enabled, Reachable;
    var tx := Holder(ids, 0);
    var w := World(PoolState([], {}, map[0 := ids(0)]), map[], 0, Composing(0, [tx]), [], 0);
    var posted := w.(ledger := map[5 := InFlight([tx], 1, 0, Pending, false, false)], control := Idle, begun := 1);
    Composes(ids);
    ClassifyStep(ids, w, tx);
    BeginStep(ids, w, tx);
    ReachStep(ids, w, Classify([], [], [], [tx]), w.(control := Disposing(DrainOps([], [], []), [], Built(0, [tx]))));
    hide DrainOps;
    EmptyPlan(ids, w, DrainOps([], [], []), Built(0, [tx]));
    ReachStep(ids, w.(control := Built(0, [tx])), BeginRich(5, 1, 0), posted);
  }

  lemma {:induction false} Composes(ids: TxHash -> Reservation)
    ensures Reachable(ids, World(PoolState([], {}, map[0 := ids(0)]), map[], 0, Composing(0, [Holder(ids, 0)]), [], 0))
  {
    var tx := Holder(ids, 0);
    var queued := INIT.(pool := PoolState([tx], {0}, map[]));
    assert Reachable(ids, INIT) by { assert ExecRun(ids, INIT, []) == INIT; }
    hide Exec, Enabled, Reachable;
    AdmitStep(ids, tx);
    ReachStep(ids, INIT, Admit(tx, tx.nonce), queued);
    assert Turned(map[]) == map[];
    GateOpens(ids, queued);
    DrainStep(ids, tx);
    ReachStep(ids, queued.(control := Open(0)), Step.Drain(1),
              World(PoolState([], {}, map[0 := ids(0)]), map[], 0, Composing(0, [tx]), [], 0));
  }

  lemma {:induction false} AdmitStep(ids: TxHash -> Reservation, tx: HeldTx)
    requires tx == Holder(ids, 0)
    ensures Enabled(ids, INIT, Admit(tx, tx.nonce))
    ensures Exec(ids, INIT, Admit(tx, tx.nonce)) == INIT.(pool := PoolState([tx], {0}, map[]))
  {
    Admitted(tx);
  }

  lemma {:induction false} DrainStep(ids: TxHash -> Reservation, tx: HeldTx)
    requires tx == Holder(ids, 0)
    ensures
      var open := World(PoolState([tx], {0}, map[]), map[], 0, Open(0), [], 0);
      && Enabled(ids, open, Step.Drain(1))
      && Exec(ids, open, Step.Drain(1))
         == World(PoolState([], {}, map[0 := ids(0)]), map[], 0, Composing(0, [tx]), [], 0)
  {
    Popped(tx);
  }

  lemma {:induction false} ClassifyStep(ids: TxHash -> Reservation, w: World, tx: HeldTx)
    requires tx == Holder(ids, 0) && w.control == Composing(0, [tx])
    ensures Enabled(ids, w, Classify([], [], [], [tx]))
    ensures Exec(ids, w, Classify([], [], [], [tx]))
      == w.(control := Disposing(DrainOps([], [], []), [], Built(0, [tx])))
    ensures DrainOps([], [], []) == [ReleaseAll([]), ReleaseAll([]), Requeue([])]
  {
    KeepsOne(tx);
    NothingToDo();
    hide Accounts, DrainOps;
  }

  lemma {:induction false} BeginStep(ids: TxHash -> Reservation, w: World, tx: HeldTx)
    requires w.ledger == map[] && w.begun == 0
    ensures Enabled(ids, w.(control := Built(0, [tx])), BeginRich(5, 1, 0))
    ensures Exec(ids, w.(control := Built(0, [tx])), BeginRich(5, 1, 0))
      == w.(ledger := map[5 := InFlight([tx], 1, 0, Pending, false, false)], control := Idle, begun := 1)
  {
  }

  lemma {:induction false} CursorStep(ids: TxHash -> Reservation, w: World, to: nat)
    ensures Enabled(ids, w, MoveCursor(to)) && Exec(ids, w, MoveCursor(to)) == w.(cursor := to)
  {
  }

  lemma {:induction false} CatchupStep(ids: TxHash -> Reservation, w: World, c: nat)
    requires w.control == Open(c)
    ensures Enabled(ids, w, Catchup) && Exec(ids, w, Catchup) == w.(control := Minimal(c))
  {
  }

  lemma {:induction false} Admitted(tx: HeldTx)
    requires tx.hash == 0
    ensures PushContiguous(EMPTY, tx, tx.nonce).0 == PoolState([tx], {0}, map[])
  {
    assert Reserved(EMPTY, tx.Chain()) == {} && ReservedFrom(EMPTY, tx.Chain(), tx.nonce) == {};
    assert EMPTY.txs + [tx] == [tx] && EMPTY.byHash + {tx.hash} == {0};
  }

  lemma {:induction false} Popped(tx: HeldTx)
    requires tx.hash == 0
    ensures PopN(PoolState([tx], {0}, map[]), 1) == (PoolState([], {}, map[0 := tx.Reserve()]), [tx])
  {
    MarkSnoc(map[], [tx], 0);
    assert [tx][..1] == [tx] && [tx][..0] == [] && [tx][1..] == [] && Hashes([tx]) == {0};
    assert {0} - {0} == {};
  }

  lemma {:induction false} KeepsOne(tx: HeldTx)
    requires tx.attempts == 0
    ensures Accounts([tx], [], [], [], [tx])
  {
    var none: seq<HeldTx> := [];
    assert none + none + none + [tx] == [tx];
    assert Hashes(none) == {} && Hashes([tx]) == {} + {} + {} + Hashes([tx]);
    assert From([tx], [tx]) by { assert tx == tx.(attempts := tx.attempts); }
  }

  lemma {:induction false} NothingToDo()
    ensures DrainOps([], [], []) == [ReleaseAll([]), ReleaseAll([]), Requeue([])]
  {
    assert Gaps([]) == [] && EvictOps([]) == [];
  }

  /** A reachable state in which it happens: a batch at height 5 settles in part, the slot that would
      dispose of it cannot read the source nonces and passes the gate at cursor 5, a reorg takes the
      cursor back to 4, and the fallback begins on height 5. The reservation the batch still owed has
      no owner left. */
  lemma {:induction false} SecondCursorReadForgets(ids: TxHash -> Reservation)
    ensures
      var w := Owed(Holder(ids, 0), 4, Minimal(5), 5);
      Reachable(ids, w) && w.cursor < 5 && !NoneForgotten(BeginAgain(w, 5, 2, 0))
  {
    var tx := Holder(ids, 0);
    var posted := World(PoolState([], {}, map[0 := ids(0)]), map[5 := InFlight([tx], 1, 0, Pending, false, false)],
                        0, Idle, [], 1);
    PostsAtFive(ids);
    CursorStep(ids, posted, 5);
    CatchupStep(ids, Owed(tx, 5, Minimal(5), 5).(control := Open(5)), 5);
    CursorStep(ids, Owed(tx, 5, Minimal(5), 5), 4);
    hide Exec, Enabled, Reachable, NoneForgotten;
    ReachStep(ids, posted, MoveCursor(5), posted.(cursor := 5));
    GateOpens(ids, posted.(cursor := 5));
    assert Turned(posted.ledger) == Owed(tx, 5, Minimal(5), 5).ledger;
    ReachStep(ids, Owed(tx, 5, Minimal(5), 5).(control := Open(5)), Catchup, Owed(tx, 5, Minimal(5), 5));
    ReachStep(ids, Owed(tx, 5, Minimal(5), 5), MoveCursor(4), Owed(tx, 4, Minimal(5), 5));
    BeginForgets(tx, 4, Minimal(5), 5, 2, 0);
  }
}
