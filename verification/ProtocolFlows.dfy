/** What the slot thread's recoveries do to the pool from end to end, when nobody disturbs them. */
module ProtocolFlows {
  import opened Types
  import opened HeldPoolSpec
  import opened LedgerSpec
  import opened RecoverySpec
  import opened Protocol
  import Drain

  // ---- Running a plan -----------------------------------------------------------------------

  ghost function Calls(n: nat): (r: seq<Step>)
    ensures |r| == n && forall i :: 0 <= i < n ==> r[i] == PoolCall
  {
    seq(n, _ => PoolCall)
  }

  lemma {:induction false} Then(ids: TxHash -> Reservation, w: World, s: Step, w1: World, rest: seq<Step>)
    requires Enabled(ids, w, s) && Exec(ids, w, s) == w1 && Executable(ids, w1, rest)
    ensures Executable(ids, w, [s] + rest) && ExecRun(ids, w, [s] + rest) == ExecRun(ids, w1, rest)
  {
    hide Enabled, Exec;
    assert ([s] + rest)[1..] == rest;
  }

  lemma {:induction false} NoSteps(ids: TxHash -> Reservation, w: World)
    ensures Executable(ids, w, []) && ExecRun(ids, w, []) == w
  {
  }

  /** The slot thread, left alone, makes the planned pool calls one by one and goes on. */
  lemma {:induction false} PlanRuns(
    ids: TxHash -> Reservation, w: World, p: PoolState, made: seq<PoolOp>, ops: seq<PoolOp>, next: Control)
    requires w.pool == ExecAll(p, made).0 && w.control == Disposing(ops, ExecAll(p, made).1, next)
    ensures Executable(ids, w, Calls(|ops| + 1))
    ensures ExecRun(ids, w, Calls(|ops| + 1)) == w.(pool := ExecAll(p, made + ops).0, control := next)
    decreases |ops|
  {
    hide ExecAll, ExecOp;
    assert Calls(|ops| + 1) == [PoolCall] + Calls(|ops|);
    if ops == [] {
      assert made + ops == made;
      var w1 := w.(control := next);
      assert Calls(0) == [];
      NoSteps(ids, w1);
      Then(ids, w, PoolCall, w1, []);
    } else {
      var (pool, log) := ExecOp(w.pool, w.control.log, ops[0]);
      var w1 := w.(pool := pool, control := Disposing(ops[1..], log, next));
      ExecSnoc(p, made, ops[0]);
      PlanRuns(ids, w1, p, made + [ops[0]], ops[1..], next);
      assert (made + [ops[0]]) + ops[1..] == made + ops;
      Then(ids, w, PoolCall, w1, Calls(|ops|));
    }
  }

  /** The world once the planned calls are made. */
  ghost function Planned(w: World): (r: World)
    requires w.control.Disposing?
    ensures r == w.(pool := ExecAll(w.pool, w.control.ops).0, control := w.control.next)
  {
    w.(pool := ExecAll(w.pool, w.control.ops).0, control := w.control.next)
  }

  lemma {:induction false} InvPool(ids: TxHash -> Reservation, w: World)
    requires Inv(ids, w)
    ensures Valid(w.pool)
  {
    hide Valid, Known, NoneForgotten, GateInv, Bounded, LedgerSound, TasksSound;
  }

  lemma {:induction false} Undisturbed(ids: TxHash -> Reservation, w: World)
    requires w.control.Disposing? && w.control.log == []
    ensures Executable(ids, w, Calls(|w.control.ops| + 1))
    ensures ExecRun(ids, w, Calls(|w.control.ops| + 1)) == Planned(w)
  {
    var Disposing(ops, _, next) := w.control;
    assert ExecAll(w.pool, []) == (w.pool, []);
    PlanRuns(ids, w, w.pool, [], ops, next);
    assert [] + ops == ops;
  }

  lemma {:induction false} StepThenPlan(ids: TxHash -> Reservation, w: World, s: Step, w1: World)
    requires Enabled(ids, w, s) && Exec(ids, w, s) == w1 && w1.control.Disposing? && w1.control.log == []
    ensures Executable(ids, w, [s] + Calls(|w1.control.ops| + 1))
    ensures ExecRun(ids, w, [s] + Calls(|w1.control.ops| + 1)) == Planned(w1)
  {
    hide Enabled, Exec, Executable, ExecRun, ExecAll;
    Undisturbed(ids, w1);
    Then(ids, w, s, w1, Calls(|w1.control.ops| + 1));
  }

  // ---- What a return to the queue shows --------------------------------------------------------

  /** A newer queued transaction took the nonce of `tx`, or of one of the batch below it. */
  ghost predicate Outbid(queue: seq<HeldTx>, batch: seq<HeldTx>, tx: HeldTx) {
    exists r, q :: r in batch && q in queue && OutbidAt(q, r, tx)
  }

  ghost predicate OutbidAt(q: HeldTx, r: HeldTx, tx: HeldTx) {
    q.Chain() == r.Chain() == tx.Chain() && q.nonce == r.nonce <= tx.nonce && q.hash != r.hash
  }

  /** The batch is back and unchanged, and nothing else that is queued is touched. */
  ghost predicate Back(p: PoolState, p': PoolState, txs: seq<HeldTx>) {
    && (forall q :: q in p.txs ==> q in p'.txs)
    && (forall q :: q in p'.txs ==> q in p.txs || q in txs)
    && (forall tx :: tx in txs ==> tx.hash in p'.byHash || Outbid(p.txs, txs, tx))
  }

  /** Reservations go for the hashes of `txs` and for what stands above a spent one of `dead`; no others. */
  ghost predicate Unreserved(p: PoolState, p': PoolState, txs: seq<HeldTx>, dead: seq<HeldTx>) {
    && (forall h :: h in p'.inFlight <==> h in p.inFlight && h !in Hashes(txs) && !Spent(dead, p.inFlight[h]))
    && (forall h :: h in p'.inFlight ==> p'.inFlight[h] == p.inFlight[h])
  }

  lemma {:induction false} OutbidIs(queue: seq<HeldTx>, batch: seq<HeldTx>, tx: HeldTx)
    ensures Superseded(queue, batch, tx) <==> Outbid(queue, batch, tx)
  {
    if Superseded(queue, batch, tx) {
      var r :| r in batch && r.Chain() == tx.Chain() && r.nonce <= tx.nonce && Contested(queue, r);
      var q :| q in queue && q.Chain() == r.Chain() && q.nonce == r.nonce && q.hash != r.hash;
      assert OutbidAt(q, r, tx);
    }
    if Outbid(queue, batch, tx) {
      var r, q :| r in batch && q in queue && OutbidAt(q, r, tx);
      assert Contested(queue, r);
    }
  }

  lemma {:induction false} FrontShows(p: PoolState, queue: seq<HeldTx>, batch: seq<HeldTx>, todo: seq<HeldTx>)
    requires Valid(p)
    ensures
      var p' := PushFrontFrom(p, queue, batch, todo);
      && (forall q :: q in p.txs ==> q in p'.txs)
      && (forall tx :: tx in todo ==> tx.hash in p'.byHash || Superseded(queue, batch, tx))
      && p.byHash <= p'.byHash
  {
    if todo != [] {
      FrontShows(p, queue, batch, todo[1..]);
      assert todo == [todo[0]] + todo[1..];
    }
  }

  lemma {:induction false} RequeueShows(p: PoolState, txs: seq<HeldTx>)
    requires Valid(p)
    ensures Valid(PushFrontBatch(p, txs)) && Back(p, PushFrontBatch(p, txs), txs)
    ensures PushFrontBatch(p, txs).inFlight == p.inFlight - Hashes(txs)
  {
    hide Superseded, Outbid;
    PushFrontBatchValid(p, txs);
    FrontShows(p, p.txs, txs, txs);
    forall tx | tx in txs && Superseded(p.txs, txs, tx) ensures Outbid(p.txs, txs, tx) { OutbidIs(p.txs, txs, tx); }
  }

  // ---- A charged return --------------------------------------------------------------------

  /** At or above, in its own chain, a batch transaction that had two attempts behind it. */
  ghost predicate Spent(batch: seq<HeldTx>, slot: Reservation) {
    exists t :: t in batch && t.attempts >= 2 && t.Chain() == slot.Chain() && t.nonce <= slot.nonce
  }

  /** It had two attempts behind it, or stands above one of the batch that had. */
  ghost predicate Lost(batch: seq<HeldTx>, tx: HeldTx) {
    tx.attempts >= 2 || exists t :: t in batch && t.attempts >= 2 && t.Chain() == tx.Chain() && t.nonce < tx.nonce
  }

  /** The batch is back with one attempt more each, except where that was the third: those are gone
      from the queue, with all that stands above them. Nothing else that is queued is touched. */
  ghost predicate Punished(p: PoolState, p': PoolState, txs: seq<HeldTx>) {
    && (forall q :: q in p'.txs ==> (q in p.txs && !Spent(txs, q.Reserve())) || OneMore(txs, q))
    && (forall q :: q in p.txs && !Spent(txs, q.Reserve()) ==> q in p'.txs)
    && (forall tx :: tx in txs && !Lost(txs, tx) ==> tx.hash in p'.byHash || Outbid(p.txs, txs, tx))
  }

  ghost predicate OneMore(txs: seq<HeldTx>, q: HeldTx) {
    exists tx :: tx in txs && !Lost(txs, tx) && q == tx.(attempts := tx.attempts + 1)
  }

  /** If no two transactions of the batch share a nonce, nothing queued is left at or above a spent one. */
  lemma {:induction false} NothingAboveTheSpent(p: PoolState, p': PoolState, txs: seq<HeldTx>)
    requires Punished(p, p', txs)
    requires forall a, b :: a in txs && b in txs && a.Reserve() == b.Reserve() ==> a == b
    ensures forall q :: q in p'.txs ==> !Spent(txs, q.Reserve())
  {
    forall q | q in p'.txs && OneMore(txs, q) ensures !Spent(txs, q.Reserve()) {
      var tx :| tx in txs && !Lost(txs, tx) && q == tx.(attempts := tx.attempts + 1);
      forall t | t in txs && t.attempts >= 2 && t.Chain() == tx.Chain() ensures tx.nonce < t.nonce {
        assert t.nonce == tx.nonce ==> t.Reserve() == tx.Reserve();
      }
    }
  }

  lemma {:induction false} SpentIs(batch: seq<HeldTx>, slot: Reservation)
    ensures Dies(batch, slot) <==> Spent(batch, slot)
  {
    if Dies(batch, slot) {
      var t :| t in batch && Spends(t) && slot.AtOrAbove(t.Chain(), t.nonce);
      assert t.attempts >= 2;
    }
    if Spent(batch, slot) {
      var t :| t in batch && t.attempts >= 2 && t.Chain() == slot.Chain() && t.nonce <= slot.nonce;
      assert Spends(t);
    }
  }

  /** The pool after the evictions. */
  lemma {:induction false} ClearedShows(p: PoolState, txs: seq<HeldTx>, gone: seq<HeldTx>)
    requires Valid(p)
    ensures
      var q := Cleared(p, Gaps(Exhausted(txs)), gone);
      && Valid(q)
      && (forall x :: x in q.txs <==> x in p.txs && !Spent(txs, x.Reserve()))
      && Unreserved(p, q, gone, txs)
  {
    hide Exhausted, Dies, Spent, Doomed;
    var gaps := Gaps(Exhausted(txs));
    ClearedIsExec(p, gaps, gone);
    SparedMembers(p.txs, gaps);
    forall slot: Reservation ensures Doomed(gaps, slot) <==> Spent(txs, slot) {
      DiesIsDoomed(txs, slot);
      SpentIs(txs, slot);
    }
  }

  lemma {:induction false} LostIs(txs: seq<HeldTx>, tx: HeldTx)
    requires tx in txs
    ensures Charge(tx) in Clear(Retryable(txs), Gaps(Exhausted(txs))) <==> !Lost(txs, tx)
  {
    var gone, gaps := Exhausted(txs), Gaps(Exhausted(txs));
    GapMembers(Retryable(txs), gaps);
    ChargeMembers(txs, tx);
    if AboveGap(gaps, Charge(tx)) {
      var g :| g in gaps && g.Chain() == tx.Chain() && g.nonce < tx.nonce;
      var c := GapFrom(gone, g);
      var t := ChargedFrom(txs, c);
      ChargeMembers(txs, t);
      assert t.attempts >= 2;
    }
    if t :| t in txs && t.attempts >= 2 && t.Chain() == tx.Chain() && t.nonce < tx.nonce {
      ChargeMembers(txs, t);
      GapOf(gone, Charge(t));
      assert t.Reserve().Chain() == tx.Chain() && t.Reserve().nonce < tx.nonce;
    }
  }

  /** What goes back is exactly what is not lost, charged once. */
  lemma {:induction false} KeptShow(txs: seq<HeldTx>)
    ensures
      var keep := Clear(Retryable(txs), Gaps(Exhausted(txs)));
      && (forall tx :: tx in txs && !Lost(txs, tx) ==> Charge(tx) in keep)
      && (forall q :: q in keep ==> OneMore(txs, q))
  {
    hide Lost, Clear, Retryable, Exhausted;
    var gaps := Gaps(Exhausted(txs));
    var keep := Clear(Retryable(txs), gaps);
    forall tx | tx in txs && !Lost(txs, tx) ensures Charge(tx) in keep { LostIs(txs, tx); }
    forall q | q in keep ensures OneMore(txs, q) {
      assert q in Retryable(txs) by { GapMembers(Retryable(txs), gaps); }
      var tx := ChargedFrom(txs, q);
      LostIs(txs, tx);
    }
  }

  /** Every transaction of the batch is dropped or goes back. */
  lemma {:induction false} ChargeHashes(txs: seq<HeldTx>)
    ensures
      var gone, retry := Exhausted(txs), Retryable(txs);
      Hashes(gone + Stranded(retry, Gaps(gone))) + Hashes(Clear(retry, Gaps(gone))) == Hashes(txs)
  {
    hide Exhausted, Retryable, Stranded, Clear;
    var gone, retry := Exhausted(txs), Retryable(txs);
    var lost, keep := Stranded(retry, Gaps(gone)), Clear(retry, Gaps(gone));
    GapMembers(retry, Gaps(gone));
    forall h | h in Hashes(txs) ensures h in Hashes(gone + lost) + Hashes(keep) {
      var tx :| tx in txs && tx.hash == h;
      ChargeMembers(txs, tx);
      assert Charge(tx) in gone + lost || Charge(tx) in keep;
    }
    forall h | h in Hashes(gone + lost) + Hashes(keep) ensures h in Hashes(txs) {
      var c :| (c in gone + lost || c in keep) && c.hash == h;
      var tx := ChargedFrom(txs, c);
    }
  }

  lemma {:induction false} OutbidBefore(p: PoolState, q: PoolState, txs: seq<HeldTx>, keep: seq<HeldTx>, tx: HeldTx)
    requires forall x :: x in q.txs ==> x in p.txs
    requires forall x :: x in keep ==> OneMore(txs, x)
    requires Outbid(q.txs, keep, Charge(tx))
    ensures Outbid(p.txs, txs, tx)
  {
    hide Lost;
    var r, x :| r in keep && x in q.txs && OutbidAt(x, r, Charge(tx));
    var t :| t in txs && !Lost(txs, t) && r == t.(attempts := t.attempts + 1);
    assert OutbidAt(x, t, tx);
  }

  lemma {:induction false} SettlementShows(p: PoolState, txs: seq<HeldTx>)
    requires Valid(p)
    ensures Punished(p, ExecAll(p, SettlementOps(txs)).0, txs)
    ensures Unreserved(p, ExecAll(p, SettlementOps(txs)).0, txs, txs)
  {
    hide Exhausted, Retryable, Clear, Stranded, Cleared, Spent, Lost, Outbid, OneMore, ExecAll, SettlementOps;
    var gone, gaps := Exhausted(txs), Gaps(Exhausted(txs));
    var lost, keep := Stranded(Retryable(txs), gaps), Clear(Retryable(txs), gaps);
    var q := Cleared(p, gaps, gone + lost);
    SettlementSteps(p, txs);
    ClearedShows(p, txs, gone + lost);
    KeptShow(txs);
    RequeueShows(q, keep);
    ChargeHashes(txs);
    var p' := PushFrontBatch(q, keep);
    forall tx | tx in txs && !Lost(txs, tx) ensures tx.hash in p'.byHash || Outbid(p.txs, txs, tx) {
      assert Charge(tx) in keep && Charge(tx).hash == tx.hash;
      if Outbid(q.txs, keep, Charge(tx)) { OutbidBefore(p, q, txs, keep, tx); }
    }
  }

  // ---- A failed batch ---------------------------------------------------------------------------

  lemma {:induction false} DisposalShows(p: PoolState, txs: seq<HeldTx>, landed: seq<TxHash>, charge: bool)
    requires Valid(p)
    ensures
      var p', rest := ExecAll(p, DisposeOps(txs, landed, charge)).0, Landed(txs, landed, false);
      && Unreserved(p, p', txs, if charge then rest else [])
      && if charge then Punished(p, p', rest) else Back(p, p', rest)
  {
    hide ExecAll, DisposeOps, Unreserved, Punished, Back;
    var q, rest := Release(p, Landed(txs, landed, true)), Landed(txs, landed, false);
    DisposeSteps(p, txs, landed, charge);
    LandedHashes(txs, landed);
    if charge {
      SettlementShows(q, rest);
      AfterRelease(p, Landed(txs, landed, true), ExecAll(q, SettlementOps(rest)).0, rest, rest, txs);
    } else {
      RequeueShows(q, rest);
      RequeueUnreserves(q, rest);
      AfterRelease(p, Landed(txs, landed, true), PushFrontBatch(q, rest), rest, [], txs);
    }
  }

  /** Releasing first only takes more reservations away. */
  lemma {:induction false} AfterRelease(
    p: PoolState, released: seq<HeldTx>, p': PoolState, rest: seq<HeldTx>, dead: seq<HeldTx>, txs: seq<HeldTx>)
    requires Unreserved(Release(p, released), p', rest, dead) && Hashes(txs) == Hashes(released) + Hashes(rest)
    ensures Unreserved(p, p', txs, dead)
    ensures Punished(Release(p, released), p', rest) ==> Punished(p, p', rest)
    ensures Back(Release(p, released), p', rest) ==> Back(p, p', rest)
  {
    hide Spent, Lost, Outbid, OneMore;
  }

  lemma {:induction false} RequeueUnreserves(p: PoolState, txs: seq<HeldTx>)
    requires Valid(p)
    ensures Unreserved(p, PushFrontBatch(p, txs), txs, [])
  {
    hide Spent;
    RequeueShows(p, txs);
    NothingSpent();
  }

  lemma {:induction false} LandedHashes(txs: seq<HeldTx>, landed: seq<TxHash>)
    ensures Hashes(txs) == Hashes(Landed(txs, landed, true)) + Hashes(Landed(txs, landed, false))
  {
    forall h | h in Hashes(txs)
      ensures h in Hashes(Landed(txs, landed, true)) || h in Hashes(Landed(txs, landed, false))
    {
      var tx :| tx in txs && tx.hash == h;
      assert tx in Landed(txs, landed, true) || tx in Landed(txs, landed, false);
    }
  }

  lemma {:induction false} NothingSpent()
    ensures forall slot: Reservation :: !Spent([], slot)
  {
  }

  lemma {:induction false} InvGives(ids: TxHash -> Reservation, w: World, h: nat)
    requires Inv(ids, w) && h in w.ledger
    ensures Known(ids, w.ledger[h].txs) && Valid(w.pool) && GateInv(w)
  {
    hide Known, Valid, NoneForgotten, GateInv, Bounded, ControlSound, TasksSound;
  }

  lemma {:induction false} VerdictTaken(
    ids: TxHash -> Reservation, w: World, h: nat, postBatchHash: nat, skipped: bool)
    requires GateInv(w) && w.control.FailedCheck? && w.control.c < h
    requires h in w.ledger && w.ledger[h].postBatchHash == postBatchHash && w.ledger[h].resolution == Pending
    ensures
      var e := w.ledger[h];
      var w1 := Exec(ids, w, VerdictFailed(h, postBatchHash, skipped));
      && Enabled(ids, w, VerdictFailed(h, postBatchHash, skipped)) && Enabled(ids, w1, TakeFailed)
      && Exec(ids, w1, TakeFailed)
         == w.(ledger := w.ledger - {h},
               control := FailedReads(FailedBatch(h, postBatchHash, e.parent, e.txs, skipped)))
  {
    var e := w.ledger[h];
    var l := MarkFailed(w.ledger, h, postBatchHash, skipped);
    assert l == w.ledger[h := e.(resolution := Failed, slotSkipped := skipped)];
    var (taken, found) := TakeFailedForRecovery(l, w.control.c);
    assert found.Some? by { assert h in l && l[h].resolution == Failed; }
    assert found.value.syncHeight == h by {
      var g := found.value.syncHeight;
      if g != h { assert w.ledger[g].resolution.Unresolved(); }
    }
    assert l - {h} == w.ledger - {h};
  }

  /** From the verdict to the end of the recovery: a batch whose slot was skipped goes back uncharged;
      one that failed otherwise is charged an attempt, and what had two behind it is gone with its
      suffix. What landed is released either way. */
  lemma {:induction false} FailedBatchIsChargedUnlessSkipped(
    ids: TxHash -> Reservation, w: World, h: nat, postBatchHash: nat, skipped: bool, landed: seq<TxHash>)
    returns (calls: nat)
    requires Inv(ids, w) && w.control.FailedCheck? && w.control.c < h
    requires h in w.ledger && w.ledger[h].postBatchHash == postBatchHash && w.ledger[h].resolution == Pending
    ensures
      var run := [VerdictFailed(h, postBatchHash, skipped), TakeFailed, DisposeFailed(landed)] + Calls(calls);
      && Executable(ids, w, run)
      && var w' := ExecRun(ids, w, run);
         var rest := Landed(w.ledger[h].txs, landed, false);
         && w'.control.Idle? && w'.ledger == w.ledger - {h} && w'.tasks == w.tasks
         && Unreserved(w.pool, w'.pool, w.ledger[h].txs, if skipped then [] else rest)
         && if skipped then Back(w.pool, w'.pool, rest) else Punished(w.pool, w'.pool, rest)
  {
    hide *;
    var txs := w.ledger[h].txs;
    InvGives(ids, w, h);
    VerdictTaken(ids, w, h, postBatchHash, skipped);
    var verdict := VerdictFailed(h, postBatchHash, skipped);
    var w1 := Exec(ids, w, verdict);
    var w2 := Exec(ids, w1, TakeFailed);
    calls := FailedIsDisposed(ids, w2, landed);
    Then(ids, w1, TakeFailed, w2, [DisposeFailed(landed)] + Calls(calls));
    Then(ids, w, verdict, w1, [TakeFailed] + ([DisposeFailed(landed)] + Calls(calls)));
    assert [verdict] + ([TakeFailed] + ([DisposeFailed(landed)] + Calls(calls)))
        == [verdict, TakeFailed, DisposeFailed(landed)] + Calls(calls);
  }

  lemma {:induction false} FailedIsDisposed(ids: TxHash -> Reservation, w: World, landed: seq<TxHash>)
    returns (calls: nat)
    requires Valid(w.pool) && w.control.FailedReads?
    ensures
      var run := [DisposeFailed(landed)] + Calls(calls);
      && Executable(ids, w, run)
      && var w', txs := ExecRun(ids, w, run), w.control.failed.txs;
         var rest := Landed(txs, landed, false);
         && w' == w.(pool := w'.pool, control := Idle)
         && Unreserved(w.pool, w'.pool, txs, if w.control.failed.slotSkipped then [] else rest)
         && if w.control.failed.slotSkipped then Back(w.pool, w'.pool, rest) else Punished(w.pool, w'.pool, rest)
  {
    var b := w.control.failed;
    var ops := DisposeOps(b.txs, landed, !b.slotSkipped);
    var w1 := w.(control := Disposing(ops, [], Idle));
    calls := |ops| + 1;
    assert Enabled(ids, w, DisposeFailed(landed)) && Exec(ids, w, DisposeFailed(landed)) == w1;
    hide *;
    DisposalShows(w.pool, b.txs, landed, !b.slotSkipped);
    StepThenPlan(ids, w, DisposeFailed(landed), w1);
  }

  // ---- What the observer makes of a bundle ------------------------------------------------------

  /** How a bundle fared: it never reached the relay, was refused or dropped there, or was included and
      L1 ran some of its entries to some root. */
  datatype Sent = Unreached | Refused | Dropped | Included(finalRoot: Option<nat>, ran: nat)

  /** The verdict on a batch that claims the root `claimed`, sent with a timestamp pin or none; `seen` is
      the timestamp of the target block, if it can be read. */
  function Observed(
    h: nat, postBatchHash: nat, sent: Sent, claimed: nat, pin: Option<nat>, seen: Option<nat>): Step
  {
    if sent.Included? && sent.finalRoot == Some(claimed) then VerdictSettled(h, postBatchHash)
    else if sent.Included? && sent.ran > 0 then VerdictPartial(h, postBatchHash)
    else VerdictFailed(h, postBatchHash, sent.Unreached? || (pin.Some? && seen != pin))
  }

  /** A bundle of which L1 ran nothing is charged to its transactions exactly when it reached the relay
      and the pinned block, if any, carried the pinned timestamp. */
  lemma {:induction false} DropIsChargedIff(
    ids: TxHash -> Reservation, w: World, h: nat, postBatchHash: nat, sent: Sent, claimed: nat, pin: Option<nat>,
    seen: Option<nat>, landed: seq<TxHash>)
    returns (calls: nat)
    requires Inv(ids, w) && w.control.FailedCheck? && w.control.c < h
    requires h in w.ledger && w.ledger[h].postBatchHash == postBatchHash && w.ledger[h].resolution == Pending
    requires sent.Included? ==> sent.ran == 0 && sent.finalRoot != Some(claimed)
    ensures
      var verdict := Observed(h, postBatchHash, sent, claimed, pin, seen);
      var run := [verdict, TakeFailed, DisposeFailed(landed)] + Calls(calls);
      && Executable(ids, w, run)
      && var w', rest := ExecRun(ids, w, run), Landed(w.ledger[h].txs, landed, false);
         && w'.control.Idle? && h !in w'.ledger
         && if sent.Unreached? || (pin.Some? && seen != pin) then Back(w.pool, w'.pool, rest)
            else Punished(w.pool, w'.pool, rest)
  {
    hide *;
    var skipped := sent.Unreached? || (pin.Some? && seen != pin);
    ObservedDrop(h, postBatchHash, sent, claimed, pin, seen);
    calls := FailedBatchIsChargedUnlessSkipped(ids, w, h, postBatchHash, skipped, landed);
  }

  lemma {:induction false} ObservedDrop(
    h: nat, postBatchHash: nat, sent: Sent, claimed: nat, pin: Option<nat>, seen: Option<nat>)
    requires sent.Included? ==> sent.ran == 0 && sent.finalRoot != Some(claimed)
    ensures Observed(h, postBatchHash, sent, claimed, pin, seen)
      == VerdictFailed(h, postBatchHash, sent.Unreached? || (pin.Some? && seen != pin))
  {
  }

  /** Whatever L1 ran of a batch keeps its height: it ends settled if L1 reached the claimed root, and
      settled in part otherwise. */
  lemma {:induction false} InclusionKeepsTheHeight(
    ids: TxHash -> Reservation, w: World, h: nat, postBatchHash: nat, sent: Sent, claimed: nat, pin: Option<nat>,
    seen: Option<nat>)
    requires h in w.ledger && w.ledger[h].postBatchHash == postBatchHash && w.ledger[h].resolution == Pending
    requires sent.Included? && (sent.ran > 0 || sent.finalRoot == Some(claimed))
    ensures
      var s := Observed(h, postBatchHash, sent, claimed, pin, seen);
      && Enabled(ids, w, s)
      && Exec(ids, w, s) == w.(ledger := w.ledger[h := w.ledger[h].(
           resolution := if sent.finalRoot == Some(claimed) then Settled else SettledPartial)])
  {
    VerdictStepsAreHeard(ids, w, h, postBatchHash, false);
  }

  // ---- A partly settled batch -----------------------------------------------------------------

  /** The lists a partial settlement works on: who is charged, and who goes back as it was. */
  ghost predicate Split(
    txs: seq<HeldTx>, nonces: map<NonceChain, nat>, rest: seq<HeldTx>, charged: seq<HeldTx>)
  {
    && (forall tx :: tx in charged <==> Stopped(txs, nonces, tx))
    && (forall tx :: tx in rest <==> tx in txs && Unspent(tx, nonces) && tx !in charged)
  }

  /** L1 stopped at this transaction. */
  ghost predicate Stopped(txs: seq<HeldTx>, nonces: map<NonceChain, nat>, tx: HeldTx) {
    exists i: nat :: StopsAt(txs, nonces, i) && txs[i] == tx
  }

  lemma {:induction false} ChargedAre(txs: seq<HeldTx>, nonces: map<NonceChain, nat>)
    requires Distinct(txs)
    ensures
      var charged := Landed(txs, Named(txs, nonces), true);
      && |charged| <= 1
      && (forall tx :: tx in charged <==> Stopped(txs, nonces, tx))
  {
    hide Culprit, StopsAt;
    var named := Named(txs, nonces);
    if Culprit(txs, nonces).Some? {
      var k := CulpritStops(txs, nonces);
      assert k < |txs| by { StopsWithin(txs, nonces, k); }
      forall tx | tx in txs ensures tx.hash in named <==> tx == txs[k] {
        if tx.hash == txs[k].hash { SameHash(txs, tx, txs[k]); }
      }
      NamedAlone(txs, named, txs[k]);
      forall i: nat | StopsAt(txs, nonces, i) ensures i == k { OneStop(txs, nonces, i, k); }
    } else {
      LandedNone(txs);
      forall i: nat ensures !StopsAt(txs, nonces, i) {
        if StopsAt(txs, nonces, i) { StopIsNamed(txs, nonces, i); }
      }
    }
  }

  lemma {:induction false} StopsWithin(txs: seq<HeldTx>, nonces: map<NonceChain, nat>, i: nat)
    requires StopsAt(txs, nonces, i)
    ensures i < |txs|
  {
  }

  lemma {:induction false} OneStop(txs: seq<HeldTx>, nonces: map<NonceChain, nat>, i: nat, j: nat)
    requires StopsAt(txs, nonces, i) && StopsAt(txs, nonces, j)
    ensures i == j
  {
  }

  lemma {:induction false} PartialSplits(txs: seq<HeldTx>, nonces: map<NonceChain, nat>)
    requires Distinct(txs)
    ensures
      var spent, named := HashList(PartitionStale(txs, nonces, true)), Named(txs, nonces);
      && Split(txs, nonces, Landed(Landed(txs, named, false), spent, false), Landed(txs, named, true))
      && (forall tx :: tx in Landed(txs, spent, true) <==> tx in txs && !Unspent(tx, nonces))
  {
    hide Named, Stopped, PartitionStale, HashList, Unspent, Split;
    var spent, named := HashList(PartitionStale(txs, nonces, true)), Named(txs, nonces);
    ChargedAre(txs, nonces);
    forall tx | tx in txs ensures tx.hash in spent <==> !Unspent(tx, nonces) { SpentAre(txs, nonces, tx); }
    SplitBy(txs, nonces, spent, named);
  }

  lemma {:induction false} SpentAre(txs: seq<HeldTx>, nonces: map<NonceChain, nat>, tx: HeldTx)
    requires Distinct(txs) && tx in txs
    ensures tx.hash in HashList(PartitionStale(txs, nonces, true)) <==> !Unspent(tx, nonces)
  {
    hide PartitionStale, HashList;
    SpentIsStale(txs, nonces, tx);
  }

  lemma {:induction false} SplitBy(
    txs: seq<HeldTx>, nonces: map<NonceChain, nat>, spent: seq<TxHash>, named: seq<TxHash>)
    requires forall tx :: tx in txs ==> (tx.hash in spent <==> !Unspent(tx, nonces))
    requires forall tx :: tx in Landed(txs, named, true) <==> Stopped(txs, nonces, tx)
    ensures Split(txs, nonces, Landed(Landed(txs, named, false), spent, false), Landed(txs, named, true))
  {
    hide Stopped, Unspent;
  }

  lemma {:induction false} PartialShows(p: PoolState, txs: seq<HeldTx>, nonces: map<NonceChain, nat>)
    returns (mid: PoolState, rest: seq<HeldTx>, charged: seq<HeldTx>)
    requires Valid(p) && Distinct(txs)
    ensures Split(txs, nonces, rest, charged)
    ensures
      var p' := ExecAll(p, PartialOps(txs, nonces)).0;
      Back(p, mid, rest) && Punished(mid, p', charged) && forall tx :: tx in txs ==> tx.hash !in p'.inFlight
  {
    hide Culprit, StopsAt, PartitionStale, ExecAll, PartialOps, DisposeOps, SettlementOps, Back, Punished, Split;
    var spent, named := HashList(PartitionStale(txs, nonces, true)), Named(txs, nonces);
    var others := Landed(txs, named, false);
    mid, rest, charged := Halfway(p, txs, nonces), Landed(others, spent, false), Landed(txs, named, true);
    PartialSplits(txs, nonces);
    PartialSteps(p, txs, nonces);
    assert Valid(mid) by { OpsValid(p, DisposeOps(others, spent, false)); }
    DisposalShows(p, others, spent, false);
    SettlementShows(mid, charged);
    forall tx | tx in txs ensures tx.hash in Hashes(others) || tx.hash in Hashes(charged) {
      assert tx in others || tx in charged;
    }
  }

  /** From the look-up to the end of the disposal: the ledger keeps exactly what was spent, settled for
      good; of the rest only the transaction L1 stopped at is charged, and goes in front last. */
  lemma {:induction false} PartialBatchChargesTheCulprit(
    ids: TxHash -> Reservation, w: World, h: nat, nonces: map<NonceChain, nat>)
    returns (calls: nat, mid: PoolState, rest: seq<HeldTx>, charged: seq<HeldTx>)
    requires Inv(ids, w) && w.control.PartialCheck? && h <= w.control.c
    requires h in w.ledger && w.ledger[h].resolution == SettledPartial && Distinct(w.ledger[h].txs)
    requires forall g :: g in w.ledger && g < h ==> w.ledger[g].resolution != SettledPartial
    ensures Split(w.ledger[h].txs, nonces, rest, charged)
    ensures
      var run := [LookForPartial, DisposePartial(Some(nonces))] + Calls(calls);
      && Executable(ids, w, run)
      && var w', e := ExecRun(ids, w, run), w.ledger[h];
         && w'.control == FailedCheck(w.control.c, w.control.slot)
         && KeepsSpent(w.ledger, w'.ledger, h, nonces)
         && Back(w.pool, mid, rest) && Punished(mid, w'.pool, charged)
         && (forall tx :: tx in e.txs ==> tx.hash !in w'.pool.inFlight)
  {
    hide *;
    var txs := w.ledger[h].txs;
    InvGives(ids, w, h);
    var w1, w2 := PartialClaimed(ids, w, h, nonces);
    PartialKeepsSpent(w.ledger, h, nonces);
    mid, rest, charged := PartialShows(w.pool, txs, nonces);
    calls := |w2.control.ops| + 1;
    StepThenPlan(ids, w1, DisposePartial(Some(nonces)), w2);
    Then(ids, w, LookForPartial, w1, [DisposePartial(Some(nonces))] + Calls(calls));
    assert [LookForPartial] + ([DisposePartial(Some(nonces))] + Calls(calls))
        == [LookForPartial, DisposePartial(Some(nonces))] + Calls(calls);
  }

  /** The entry is settled for good with exactly its spent transactions; no other entry changes. */
  ghost predicate KeepsSpent(l: Ledger, l': Ledger, h: nat, nonces: map<NonceChain, nat>)
    requires h in l
  {
    && h in l' && l' == l[h := l'[h]]
    && l'[h] == l[h].(txs := l'[h].txs, resolution := Settled, cursorConfirmed := true)
    && (forall tx :: tx in l'[h].txs <==> tx in l[h].txs && !Unspent(tx, nonces))
  }

  lemma {:induction false} PartialKeepsSpent(l: Ledger, h: nat, nonces: map<NonceChain, nat>)
    requires h in l && Distinct(l[h].txs)
    ensures
      var spent := HashList(PartitionStale(l[h].txs, nonces, true));
      KeepsSpent(l, l[h := ClaimedEntry(l[h], Landed(l[h].txs, spent, true))], h, nonces)
  {
    hide Split, PartitionStale, HashList, Landed, Unspent;
    PartialSplits(l[h].txs, nonces);
  }

  ghost function ClaimedEntry(e: InFlight, txs: seq<HeldTx>): InFlight {
    e.(txs := txs, resolution := Settled, cursorConfirmed := true)
  }

  lemma {:induction false} PartialClaimed(
    ids: TxHash -> Reservation, w: World, h: nat, nonces: map<NonceChain, nat>)
    returns (w1: World, w2: World)
    requires w.control.PartialCheck? && h <= w.control.c
    requires h in w.ledger && w.ledger[h].resolution == SettledPartial
    requires forall g :: g in w.ledger && g < h ==> w.ledger[g].resolution != SettledPartial
    ensures Enabled(ids, w, LookForPartial) && Exec(ids, w, LookForPartial) == w1
    ensures Enabled(ids, w1, DisposePartial(Some(nonces))) && Exec(ids, w1, DisposePartial(Some(nonces))) == w2
    ensures
      var e, spent := w.ledger[h], HashList(PartitionStale(w.ledger[h].txs, nonces, true));
      w2 == w.(ledger := w.ledger[h := ClaimedEntry(e, Landed(e.txs, spent, true))],
               control := Disposing(PartialOps(e.txs, nonces), [], FailedCheck(w.control.c, w.control.slot)))
  {
    hide PartitionStale, PartialOps, HashList, Landed;
    var b := PartialToDispose(w.ledger, w.control.c).value;
    assert b.syncHeight == h;
    w1 := Exec(ids, w, LookForPartial);
    w2 := Exec(ids, w1, DisposePartial(Some(nonces)));
  }

  // ---- What a slot gives back --------------------------------------------------------------------

  /** A build that fails after the drain gives its transactions back, charged or not as it says. */
  lemma {:induction false} FailedBuildGivesBack(ids: TxHash -> Reservation, w: World, charge: bool)
    returns (calls: nat)
    requires Inv(ids, w) && w.control.Built?
    ensures
      var run, txs := [PrepareFails(charge)] + Calls(calls), w.control.survivors;
      && Executable(ids, w, run)
      && var w' := ExecRun(ids, w, run);
         && w' == w.(pool := w'.pool, control := Minimal(w.control.c))
         && Unreserved(w.pool, w'.pool, txs, if charge then txs else [])
         && if charge then Punished(w.pool, w'.pool, txs) else Back(w.pool, w'.pool, txs)
  {
    hide *;
    var txs := w.control.survivors;
    var ops := if charge then SettlementOps(txs) else [Requeue(txs)];
    var w1 := w.(control := Disposing(ops, [], Minimal(w.control.c)));
    calls := |ops| + 1;
    InvPool(ids, w);
    PreparePlans(ids, w, charge, w1);
    StepThenPlan(ids, w, PrepareFails(charge), w1);
    if charge {
      SettlementShows(w.pool, txs);
    } else {
      OneRequeue(w.pool, txs);
    }
  }

  lemma {:induction false} PreparePlans(ids: TxHash -> Reservation, w: World, charge: bool, w1: World)
    requires w.control.Built?
    requires
      var txs := w.control.survivors;
      var ops := if charge then SettlementOps(txs) else [Requeue(txs)];
      w1 == w.(control := Disposing(ops, [], Minimal(w.control.c)))
    ensures Enabled(ids, w, PrepareFails(charge)) && Exec(ids, w, PrepareFails(charge)) == w1
  {
    hide SettlementOps;
  }

  lemma {:induction false} OneRequeue(p: PoolState, txs: seq<HeldTx>)
    requires Valid(p)
    ensures
      var p' := ExecAll(p, [Requeue(txs)]).0;
      Back(p, p', txs) && Unreserved(p, p', txs, [])
  {
    hide Back, Unreserved, PushFrontBatch;
    ExecSnoc(p, [], Requeue(txs));
    assert [] + [Requeue(txs)] == [Requeue(txs)];
    RequeueShows(p, txs);
    RequeueUnreserves(p, txs);
  }

  /** A composition that fails gives back all it drained, as it was. */
  lemma {:induction false} FailedCompositionGivesBack(ids: TxHash -> Reservation, w: World, minimal: bool)
    requires Inv(ids, w) && w.control.Composing?
    ensures
      var run, txs := [ComposeFails(minimal)] + Calls(2), w.control.drained;
      && Executable(ids, w, run)
      && var w' := ExecRun(ids, w, run);
         && w' == w.(pool := w'.pool, control := if minimal then Minimal(w.control.c) else Idle)
         && Back(w.pool, w'.pool, txs) && Unreserved(w.pool, w'.pool, txs, [])
  {
    var txs := w.control.drained;
    var w1 := w.(control := Disposing([Requeue(txs)], [], if minimal then Minimal(w.control.c) else Idle));
    assert Enabled(ids, w, ComposeFails(minimal)) && Exec(ids, w, ComposeFails(minimal)) == w1 by { hide Inv; }
    hide *;
    InvPool(ids, w);
    StepThenPlan(ids, w, ComposeFails(minimal), w1);
    OneRequeue(w.pool, txs);
  }

  /** At or above an evicted transaction of its chain. */
  ghost predicate Ruled(poison: seq<HeldTx>, slot: Reservation) {
    exists x :: x in poison && x.Chain() == slot.Chain() && x.nonce <= slot.nonce
  }

  /** Above one. */
  ghost predicate Overruled(poison: seq<HeldTx>, tx: HeldTx) {
    exists x :: x in poison && x.Chain() == tx.Chain() && x.nonce < tx.nonce
  }

  /** The drain's pool calls: whoever stands at or above an evicted transaction leaves the queue, what
      goes back and is above none is back as it was, and the stale, the evicted and the returned hold
      no reservation. */
  ghost predicate Swept(
    p: PoolState, p': PoolState, stale: seq<HeldTx>, poison: seq<HeldTx>, back: seq<HeldTx>)
  {
    && (forall q :: q in p'.txs ==>
          (q in p.txs && !Ruled(poison, q.Reserve())) || (q in back && !Overruled(poison, q)))
    && (forall q :: q in p.txs && !Ruled(poison, q.Reserve()) ==> q in p'.txs)
    && (forall tx :: tx in back && !Overruled(poison, tx) ==> tx.hash in p'.byHash || Outbid(p.txs, back, tx))
    && (forall h :: h in p'.inFlight <==>
          h in p.inFlight && h !in Hashes(stale) && h !in Hashes(back) && !Ruled(poison, p.inFlight[h]))
  }

  lemma {:induction false} RuledIs(poison: seq<HeldTx>, slot: Reservation)
    ensures Doomed(Gaps(poison), slot) <==> Ruled(poison, slot)
  {
    if Doomed(Gaps(poison), slot) {
      var g :| g in Gaps(poison) && slot.AtOrAbove(g.Chain(), g.nonce);
      var x := GapFrom(poison, g);
    }
    if Ruled(poison, slot) {
      var x :| x in poison && x.Chain() == slot.Chain() && x.nonce <= slot.nonce;
      GapOf(poison, x);
      assert slot.AtOrAbove(x.Reserve().Chain(), x.Reserve().nonce);
    }
  }

  lemma {:induction false} OverruledIs(poison: seq<HeldTx>, tx: HeldTx)
    ensures AboveGap(Gaps(poison), tx) <==> Overruled(poison, tx)
  {
    if AboveGap(Gaps(poison), tx) {
      var g :| g in Gaps(poison) && g.Chain() == tx.Chain() && g.nonce < tx.nonce;
      var x := GapFrom(poison, g);
    }
    if Overruled(poison, tx) {
      var x :| x in poison && x.Chain() == tx.Chain() && x.nonce < tx.nonce;
      GapOf(poison, x);
      assert x.Reserve().Chain() == tx.Chain() && x.Reserve().nonce < tx.nonce;
    }
  }

  /** The pool once the evictions are done. */
  lemma {:induction false} EvictionsShow(p: PoolState, poison: seq<HeldTx>)
    requires Valid(p)
    ensures
      var q := ExecAll(p, EvictOps(Gaps(poison))).0;
      && Valid(q)
      && (forall x :: x in q.txs <==> x in p.txs && !Ruled(poison, x.Reserve()))
      && (forall h :: h in q.inFlight <==> h in p.inFlight && !Ruled(poison, p.inFlight[h]))
  {
    hide Ruled, Doomed, ExecAll;
    var gaps := Gaps(poison);
    OpsValid(p, EvictOps(gaps));
    EvictOpsClosed(p, gaps);
    SparedMembers(p.txs, gaps);
    forall slot: Reservation ensures Doomed(gaps, slot) <==> Ruled(poison, slot) { RuledIs(poison, slot); }
  }

  lemma {:induction false} ReturnedAre(poison: seq<HeldTx>, back: seq<HeldTx>)
    ensures
      var lost, keep := Stranded(back, Gaps(poison)), Clear(back, Gaps(poison));
      && (forall tx :: tx in keep <==> tx in back && !Overruled(poison, tx))
      && Hashes(back) == Hashes(lost) + Hashes(keep)
  {
    hide Overruled, AboveGap, Stranded, Clear;
    var lost, keep := Stranded(back, Gaps(poison)), Clear(back, Gaps(poison));
    GapMembers(back, Gaps(poison));
    forall tx ensures AboveGap(Gaps(poison), tx) <==> Overruled(poison, tx) { OverruledIs(poison, tx); }
    forall h | h in Hashes(back) ensures h in Hashes(lost) || h in Hashes(keep) {
      var tx :| tx in back && tx.hash == h;
      assert tx in lost || tx in keep;
    }
  }

  lemma {:induction false} OutbidWider(a: seq<HeldTx>, b: seq<HeldTx>, x: seq<HeldTx>, y: seq<HeldTx>, tx: HeldTx)
    requires Outbid(a, x, tx) && (forall q :: q in a ==> q in b) && (forall r :: r in x ==> r in y)
    ensures Outbid(b, y, tx)
  {
    var r, q :| r in x && q in a && OutbidAt(q, r, tx);
    assert r in y && q in b;
  }

  lemma {:induction false} DrainSweeps(p: PoolState, stale: seq<HeldTx>, poison: seq<HeldTx>, back: seq<HeldTx>)
    requires Valid(p)
    ensures Swept(p, ExecAll(p, DrainOps(stale, poison, back)).0, stale, poison, back)
  {
    hide Ruled, Overruled, Outbid, ExecAll, Stranded, Clear, PushFrontBatch, DrainOps;
    var gaps := Gaps(poison);
    var lost, keep := Stranded(back, gaps), Clear(back, gaps);
    var swept := ExecAll(Release(p, stale), EvictOps(gaps)).0;
    var q := Release(swept, lost);
    Drain.DrainCalls(p, stale, poison, back);
    EvictionsShow(Release(p, stale), poison);
    ReturnedAre(poison, back);
    RequeueShows(q, keep);
    var p' := PushFrontBatch(q, keep);
    forall tx | tx in keep && Outbid(q.txs, keep, tx) ensures Outbid(p.txs, back, tx) {
      OutbidWider(q.txs, p.txs, keep, back, tx);
    }
  }

  lemma {:induction false} ClassifyPlans(
    ids: TxHash -> Reservation, w: World, stale: seq<HeldTx>, poison: seq<HeldTx>, back: seq<HeldTx>,
    kept: seq<HeldTx>, w1: World)
    requires w.control.Composing? && Accounts(w.control.drained, stale, poison, back, kept)
    requires
      var next := if kept == [] then Minimal(w.control.c) else Built(w.control.c, kept);
      w1 == w.(control := Disposing(DrainOps(stale, poison, back), [], next))
    ensures Enabled(ids, w, Classify(stale, poison, back, kept))
    ensures Exec(ids, w, Classify(stale, poison, back, kept)) == w1
  {
    hide Accounts, DrainOps;
  }

  /** After a drain has classified what it took, the pool is swept and the survivors stay with the slot. */
  lemma {:induction false} DrainGivesBack(
    ids: TxHash -> Reservation, w: World, stale: seq<HeldTx>, poison: seq<HeldTx>, back: seq<HeldTx>,
    kept: seq<HeldTx>)
    returns (calls: nat)
    requires Inv(ids, w) && w.control.Composing? && Accounts(w.control.drained, stale, poison, back, kept)
    ensures
      var run := [Classify(stale, poison, back, kept)] + Calls(calls);
      && Executable(ids, w, run)
      && var w' := ExecRun(ids, w, run);
         && w' == w.(pool := w'.pool,
                     control := if kept == [] then Minimal(w.control.c) else Built(w.control.c, kept))
         && Swept(w.pool, w'.pool, stale, poison, back)
  {
    hide *;
    var s, ops := Classify(stale, poison, back, kept), DrainOps(stale, poison, back);
    var next := if kept == [] then Minimal(w.control.c) else Built(w.control.c, kept);
    var w1 := w.(control := Disposing(ops, [], next));
    calls := |ops| + 1;
    InvPool(ids, w);
    ClassifyPlans(ids, w, stale, poison, back, kept, w1);
    StepThenPlan(ids, w, s, w1);
    DrainSweeps(w.pool, stale, poison, back);
  }

  /** A transaction the prover blames is ejected with all of its chain above it, from the pool and from
      the survivors; the others are recomposed. */
  lemma {:induction false} CulpritIsEjected(ids: TxHash -> Reservation, w: World, culprit: HeldTx)
    requires Inv(ids, w) && w.control.Built? && culprit in w.control.survivors
    ensures
      var run := [Eject(culprit)] + Calls(2);
      && Executable(ids, w, run)
      && var w' := ExecRun(ids, w, run);
         && w' == w.(pool := w'.pool, control := w'.control)
         && w'.control.Composing? && w'.control.c == w.control.c
         && (forall tx :: tx in w'.control.drained <==>
               tx in w.control.survivors && !Ruled([culprit], tx.Reserve()))
         && Swept(w.pool, w'.pool, [], [culprit], [])
  {
    hide *;
    var retry := Retrying(w.control.survivors, culprit);
    var w1 := w.(control := Disposing([Evict(culprit.Reserve())], [], Composing(w.control.c, retry)));
    InvPool(ids, w);
    EjectPlans(ids, w, culprit, w1);
    StepThenPlan(ids, w, Eject(culprit), w1);
    EjectSweeps(w.pool, culprit);
    RetryingAre(w.control.survivors, culprit);
  }

  lemma {:induction false} EjectPlans(ids: TxHash -> Reservation, w: World, culprit: HeldTx, w1: World)
    requires w.control.Built? && culprit in w.control.survivors
    requires
      var next := Composing(w.control.c, Retrying(w.control.survivors, culprit));
      w1 == w.(control := Disposing([Evict(culprit.Reserve())], [], next))
    ensures Enabled(ids, w, Eject(culprit)) && Exec(ids, w, Eject(culprit)) == w1
  {
    hide Retrying;
  }

  lemma {:induction false} RetryingAre(survivors: seq<HeldTx>, culprit: HeldTx)
    ensures forall tx :: tx in Retrying(survivors, culprit) <==> tx in survivors && !Ruled([culprit], tx.Reserve())
  {
    forall slot: Reservation
      ensures Ruled([culprit], slot) <==> culprit.Chain() == slot.Chain() && culprit.nonce <= slot.nonce
    {
      if culprit.Chain() == slot.Chain() && culprit.nonce <= slot.nonce { assert culprit in [culprit]; }
    }
  }

  lemma {:induction false} EjectSweeps(p: PoolState, culprit: HeldTx)
    requires Valid(p)
    ensures Swept(p, ExecAll(p, [Evict(culprit.Reserve())]).0, [], [culprit], [])
  {
    hide ExecAll, Ruled, Overruled, Outbid;
    assert EvictOps(Gaps([culprit])) == [Evict(culprit.Reserve())];
    EvictionsShow(p, [culprit]);
    assert Hashes([]) == {};
  }

  // ---- The way of a slot -------------------------------------------------------------------------

  /** A tick of an idle composer goes straight to recovery; a slot does once every batch its cursor covers
      is settled for good or in part, and what is newly settled for good holds no reservation. Both go
      by the cursor read at the start. */
  lemma {:induction false} RecoveryComesFirst(ids: TxHash -> Reservation, w: World, slot: bool)
    requires w.control.Idle?
    ensures
      var run := if slot then [StartSlot, ReleaseConfirmed] else [StartTick];
      && Executable(ids, w, run)
      && var w' := ExecRun(ids, w, run);
         && w'.control == PartialCheck(w.cursor, slot) && w'.begun == 0 && w'.pool.txs == w.pool.txs
         && (if slot then Resolves(w, w') else w'.ledger == w.ledger && w'.pool == w.pool)
  {
    if slot {
      var w2 := SlotResolves(ids, w);
      hide *;
      var w1 := Exec(ids, w, StartSlot);
      NoSteps(ids, w2);
      Then(ids, w1, ReleaseConfirmed, w2, []);
      Then(ids, w, StartSlot, w1, [ReleaseConfirmed] + []);
      assert [StartSlot, ReleaseConfirmed] == [StartSlot] + ([ReleaseConfirmed] + []);
    } else {
      var w1 := w.(control := PartialCheck(w.cursor, false), begun := 0);
      assert Enabled(ids, w, StartTick) && Exec(ids, w, StartTick) == w1;
      hide *;
      NoSteps(ids, w1);
      Then(ids, w, StartTick, w1, []);
      assert [StartTick] == [StartTick] + [];
    }
  }

  /** The cursor settles what it covers, and what is newly settled for good holds no reservation. */
  ghost predicate Resolves(w: World, w': World) {
    && w'.ledger.Keys == w.ledger.Keys
    && (forall h :: h in w.ledger && w.cursor < h ==> w'.ledger[h] == w.ledger[h])
    && (forall h :: h in w.ledger && h <= w.cursor ==>
          if w.ledger[h].resolution == Settled then w'.ledger[h] == w.ledger[h].(cursorConfirmed := true)
          else w'.ledger[h] == w.ledger[h].(resolution := SettledPartial))
    && FreesConfirmed(w, w')
  }

  /** A batch newly confirmed for good holds no reservation. */
  ghost predicate FreesConfirmed(w: World, w': World) {
    forall h :: h in w.ledger && h in w'.ledger && !w.ledger[h].cursorConfirmed && w'.ledger[h].cursorConfirmed ==>
      forall tx :: tx in w.ledger[h].txs ==> tx.hash !in w'.pool.inFlight
  }

  lemma {:induction false} SlotResolves(ids: TxHash -> Reservation, w: World) returns (w2: World)
    requires w.control.Idle?
    ensures Enabled(ids, w, StartSlot) && Enabled(ids, Exec(ids, w, StartSlot), ReleaseConfirmed)
    ensures Exec(ids, Exec(ids, w, StartSlot), ReleaseConfirmed) == w2
    ensures w2.control == PartialCheck(w.cursor, true) && w2.begun == 0 && w2.pool.txs == w.pool.txs
    ensures Resolves(w, w2)
  {
    hide *;
    var (l, confirmed) := ResolveBelowCursor(w.ledger, w.cursor);
    w2 := w.(pool := Release(w.pool, confirmed), ledger := l, control := PartialCheck(w.cursor, true), begun := 0);
    SlotReleases(ids, w, w2);
    ResolvedFrees(w, w2);
  }

  lemma {:induction false} SlotReleases(ids: TxHash -> Reservation, w: World, w2: World)
    requires w.control.Idle?
    requires
      var (l, confirmed) := ResolveBelowCursor(w.ledger, w.cursor);
      w2 == w.(pool := Release(w.pool, confirmed), ledger := l, control := PartialCheck(w.cursor, true), begun := 0)
    ensures Enabled(ids, w, StartSlot) && Enabled(ids, Exec(ids, w, StartSlot), ReleaseConfirmed)
    ensures Exec(ids, Exec(ids, w, StartSlot), ReleaseConfirmed) == w2 && w2.pool.txs == w.pool.txs
  {
    hide ResolveBelowCursor;
  }

  lemma {:induction false} ResolvedFrees(w: World, w2: World)
    requires
      var (l, confirmed) := ResolveBelowCursor(w.ledger, w.cursor);
      w2.ledger == l && w2.pool == Release(w.pool, confirmed)
    ensures Resolves(w, w2)
  {
    hide ResolveBelowCursor;
    var (l, confirmed) := ResolveBelowCursor(w.ledger, w.cursor);
    LedgerResolves(w.ledger, w.cursor);
    forall h | h in w.ledger && !w.ledger[h].cursorConfirmed && l[h].cursorConfirmed
      ensures forall tx :: tx in w.ledger[h].txs ==> tx.hash !in w2.pool.inFlight
    {
      forall tx | tx in w.ledger[h].txs ensures tx.hash in Hashes(confirmed) {
        ConfirmedAreReleased(w.ledger, w.cursor, h, tx);
      }
    }
  }

  lemma {:induction false} LedgerResolves(l: Ledger, cursor: nat)
    ensures
      var l' := ResolveBelowCursor(l, cursor).0;
      && l'.Keys == l.Keys && (forall h :: h in l && cursor < h ==> l'[h] == l[h])
      && (forall h :: h in l && h <= cursor ==>
            if l[h].resolution == Settled then l'[h] == l[h].(cursorConfirmed := true)
            else l'[h] == l[h].(resolution := SettledPartial))
  {
  }

  /** With no partly settled batch under the cursor, recovery turns to the failed ones. */
  lemma {:induction false} NoPartialFound(ids: TxHash -> Reservation, w: World)
    requires w.control.PartialCheck?
    requires forall h :: h in w.ledger && h <= w.control.c ==> w.ledger[h].resolution != SettledPartial
    ensures Executable(ids, w, [LookForPartial])
    ensures ExecRun(ids, w, [LookForPartial]) == w.(control := FailedCheck(w.control.c, w.control.slot))
  {
    var w1 := w.(control := FailedCheck(w.control.c, w.control.slot));
    assert PartialToDispose(w.ledger, w.control.c).None?;
    assert Enabled(ids, w, LookForPartial) && Exec(ids, w, LookForPartial) == w1;
    hide *;
    NoSteps(ids, w1);
    Then(ids, w, LookForPartial, w1, []);
    assert [LookForPartial] + [] == [LookForPartial];
  }

  /** With no failed batch to recover, a tick is over and a slot comes to the gate, which lets it compose
      exactly when nothing stands above its cursor. */
  lemma {:induction false} GateOpensIff(ids: TxHash -> Reservation, w: World)
    requires w.control.FailedCheck?
    requires forall h :: h in w.ledger && w.control.c < h ==> w.ledger[h].resolution != Failed
    ensures
      var run := if w.control.slot then [TakeFailed, PassGate] else [TakeFailed];
      && Executable(ids, w, run)
      && var w' := ExecRun(ids, w, run);
         && w' == w.(control := w'.control)
         && (w'.control == Open(w.control.c) || w'.control == Idle)
         && (w'.control.Open? <==> w.control.slot && forall h :: h in w.ledger ==> h <= w.control.c)
  {
    var c, slot := w.control.c, w.control.slot;
    var w1 := w.(control := if slot then Gate(c) else Idle);
    var w2 := w.(control := if BlockingHeight(w.ledger, c).Some? then Idle else Open(c));
    assert Enabled(ids, w, TakeFailed) && Exec(ids, w, TakeFailed) == w1;
    if slot {
      assert Enabled(ids, w1, PassGate) && Exec(ids, w1, PassGate) == w2;
      hide *;
      NoSteps(ids, w2);
      Then(ids, w1, PassGate, w2, []);
      Then(ids, w, TakeFailed, w1, [PassGate] + []);
      assert [TakeFailed] + ([PassGate] + []) == [TakeFailed, PassGate];
    } else {
      hide *;
      NoSteps(ids, w1);
      Then(ids, w, TakeFailed, w1, []);
      assert [TakeFailed] + [] == [TakeFailed];
    }
  }

  // ---- Verdicts, reorgs and finality ---------------------------------------------------------------

  /** What the observers of a pending batch say is what the ledger holds. */
  lemma {:induction false} VerdictStepsAreHeard(
    ids: TxHash -> Reservation, w: World, h: nat, postBatchHash: nat, skipped: bool)
    requires h in w.ledger && w.ledger[h].postBatchHash == postBatchHash && w.ledger[h].resolution == Pending
    ensures
      var e := w.ledger[h];
      && Exec(ids, w, VerdictSettled(h, postBatchHash)) == w.(ledger := w.ledger[h := e.(resolution := Settled)])
      && Exec(ids, w, VerdictPartial(h, postBatchHash)) == w.(ledger := w.ledger[h := e.(resolution := SettledPartial)])
      && Exec(ids, w, VerdictFailed(h, postBatchHash, skipped))
         == w.(ledger := w.ledger[h := e.(resolution := Failed, slotSkipped := skipped)])
  {
  }

  /** A reorg below resolved batches brings all their transactions back to the queue as they were. */
  lemma {:induction false} RolledOutComeBack(ids: TxHash -> Reservation, w: World, newCursor: nat)
    returns (txs: seq<HeldTx>)
    requires Inv(ids, w)
    ensures
      var run := [Reorg(newCursor), RunTask(|w.tasks|, true)];
      && Executable(ids, w, run)
      && var w' := ExecRun(ids, w, run);
         && w' == w.(pool := w'.pool, ledger := w'.ledger)
         && (forall h :: h in w'.ledger <==> h in w.ledger && (h <= newCursor || w.ledger[h].resolution.Unresolved()))
         && (forall h :: h in w'.ledger ==> w'.ledger[h] == w.ledger[h])
         && (forall tx :: tx in txs <==> exists h :: h in w.ledger && h !in w'.ledger && tx in w.ledger[h].txs)
         && Back(w.pool, w'.pool, txs) && Unreserved(w.pool, w'.pool, txs, [])
  {
    hide *;
    var (l, gone) := TakeRolledOut(w.ledger, newCursor);
    txs := gone;
    var w1 := w.(ledger := l, tasks := w.tasks + [Task(txs, true)]);
    InvPool(ids, w);
    ReorgTakes(ids, w, newCursor, w1);
    RolledOutAre(w.ledger, newCursor);
    UnresolvedAre();
    TaskRuns(ids, w1, |w.tasks|, true);
    assert w1.tasks[..|w.tasks|] + w1.tasks[|w.tasks| + 1..] == w.tasks;
    Then(ids, w, Reorg(newCursor), w1, [RunTask(|w.tasks|, true)]);
    assert [Reorg(newCursor)] + [RunTask(|w.tasks|, true)] == [Reorg(newCursor), RunTask(|w.tasks|, true)];
  }

  lemma {:induction false} ReorgTakes(ids: TxHash -> Reservation, w: World, newCursor: nat, w1: World)
    requires
      var (l, txs) := TakeRolledOut(w.ledger, newCursor);
      w1 == w.(ledger := l, tasks := w.tasks + [Task(txs, true)])
    ensures Enabled(ids, w, Reorg(newCursor)) && Exec(ids, w, Reorg(newCursor)) == w1
  {
    hide TakeRolledOut;
  }

  lemma {:induction false} UnresolvedAre()
    ensures forall r: Resolution :: r.Unresolved() <==> r == Pending || r == Failed
  {
  }

  lemma {:induction false} TaskRuns(ids: TxHash -> Reservation, w: World, i: nat, requeue: bool)
    requires Valid(w.pool) && i < |w.tasks| && (w.tasks[i].rolledOut ==> requeue)
    ensures
      var run, txs := [RunTask(i, requeue)], w.tasks[i].txs;
      && Executable(ids, w, run)
      && var w' := ExecRun(ids, w, run);
         && w' == w.(pool := w'.pool, tasks := w.tasks[..i] + w.tasks[i + 1..])
         && Unreserved(w.pool, w'.pool, txs, [])
         && if requeue then Back(w.pool, w'.pool, txs) else w'.pool.txs == w.pool.txs
  {
    var s, txs := RunTask(i, requeue), w.tasks[i].txs;
    var w1 := Exec(ids, w, s);
    assert Enabled(ids, w, s);
    assert w1.pool == if requeue then PushFrontBatch(w.pool, txs) else Release(w.pool, txs);
    hide Exec, Enabled, Executable, ExecRun, PushFrontBatch, Back;
    NoSteps(ids, w1);
    Then(ids, w, s, w1, []);
    assert [s] + [] == [s];
    if requeue {
      RequeueShows(w.pool, txs);
      RequeueUnreserves(w.pool, txs);
    } else {
      NothingSpent();
    }
  }

  /** A settled batch that becomes final leaves the ledger, and the audit decides: its transactions are
      back in the queue as they were, or only their reservations are dropped. */
  lemma {:induction false} FinalBatchIsAudited(
    ids: TxHash -> Reservation, w: World, finalized: nat, h: nat, requeue: bool)
    returns (i: nat)
    requires Inv(ids, w) && h in w.ledger && h <= finalized && w.ledger[h].resolution == Settled
    ensures
      var run, txs := [Finality(finalized), RunTask(i, requeue)], w.ledger[h].txs;
      && Executable(ids, w, run)
      && var w' := ExecRun(ids, w, run);
         && h !in w'.ledger && w'.control == w.control
         && Unreserved(w.pool, w'.pool, txs, [])
         && if requeue then Back(w.pool, w'.pool, txs) else w'.pool.txs == w.pool.txs
  {
    hide *;
    InvPool(ids, w);
    var w1: World;
    w1, i := AuditOf(ids, w, finalized, h);
    TaskRuns(ids, w1, i, requeue);
    Then(ids, w, Finality(finalized), w1, [RunTask(i, requeue)]);
    assert [Finality(finalized)] + [RunTask(i, requeue)] == [Finality(finalized), RunTask(i, requeue)];
  }

  lemma {:induction false} AuditOf(ids: TxHash -> Reservation, w: World, finalized: nat, h: nat)
    returns (w1: World, i: nat)
    requires h in w.ledger && h <= finalized && w.ledger[h].resolution == Settled
    ensures Enabled(ids, w, Finality(finalized)) && Exec(ids, w, Finality(finalized)) == w1
    ensures w1 == w.(ledger := w1.ledger, tasks := w1.tasks) && h !in w1.ledger
    ensures i < |w1.tasks| && w1.tasks[i] == Task(w.ledger[h].txs, false)
  {
    var (l, audits) := TakeFinalized(w.ledger, finalized);
    w1 := w.(ledger := l, tasks := w.tasks + AuditTasks(audits));
    assert Enabled(ids, w, Finality(finalized)) && Exec(ids, w, Finality(finalized)) == w1 by { hide TakeFinalized; }
    hide *;
    FinalizedAre(w.ledger, finalized);
    var k :| 0 <= k < |audits| && audits[k].syncHeight == h;
    i := |w.tasks| + k;
  }
}
