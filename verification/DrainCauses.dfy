/** Why the drain treats a transaction as it does: each verdict has exactly one kind of cause, told
    from what the simulations answer and how far the block has come. */
module DrainCauses {
  import opened Types
  import opened SystemTx
  import opened GasBudget
  import opened HeldPoolSpec
  import opened RecoverySpec
  import opened Drain

  // ---- Causes ----------------------------------------------------------------------------------

  ghost predicate Outward(s: Slot) { s.tx.direction == Outbound }

  /** It declares more gas than its direction allows. */
  ghost predicate OverCap(env: Env, s: Slot) {
    var cap := if Outward(s) then env.outCap else env.inCap;
    cap.Some? && env.declared(s.tx.raw) > cap.value
  }

  ghost predicate Simulated(env: Env, s: Slot) { !OverCap(env, s) && env.oracle(s.idx).contexts }

  ghost predicate SimFails(env: Env, s: Slot) { Simulated(env, s) && env.oracle(s.idx).sim.SimFailed? }

  /** The simulation found an outbound call short of funds. */
  ghost predicate SimShort(env: Env, s: Slot) {
    SimFails(env, s) && Outward(s) && env.oracle(s.idx).sim.insufficient
  }

  ghost predicate SimPoisons(env: Env, s: Slot) {
    SimFails(env, s) && !SimShort(env, s) && env.oracle(s.idx).sim.poison
  }

  /** The simulation could not be done this time. */
  ghost predicate SimStalls(env: Env, s: Slot) {
    SimFails(env, s) && !SimShort(env, s) && !env.oracle(s.idx).sim.poison
  }

  ghost predicate Representable(env: Env, s: Slot)
    requires env.oracle(s.idx).sim.Composed?
  {
    var o := env.oracle(s.idx);
    if Outward(s) then |o.sim.entries| == 1 && o.etherOut.Some?
    else !o.nestedSource && forall e :: e in o.sim.entries ==> Plain(e)
  }

  ghost predicate SimComposed(env: Env, s: Slot) { Simulated(env, s) && env.oracle(s.idx).sim.Composed? }

  ghost predicate Malformed(env: Env, s: Slot) { SimComposed(env, s) && !Representable(env, s) }

  /** An outbound call withdraws more than the escrow is known to hold. */
  ghost predicate Overdrawn(env: Env, w: Work, s: Slot) {
    && SimComposed(env, s) && Representable(env, s) && Outward(s)
    && var o := env.oracle(s.idx);
       var held := if w.escrow.Some? then w.escrow else o.escrowRead;
       held.Some? && o.etherOut.value > held.value
  }

  ghost predicate Ready(env: Env, w: Work, s: Slot) {
    SimComposed(env, s) && Representable(env, s) && !Overdrawn(env, w, s)
  }

  /** The block gas its transactions may take. */
  ghost function BlockGas(env: Env, s: Slot): nat {
    if Outward(s) then 2_000_000 + env.declared(s.tx.raw)
    else
      var o := env.oracle(s.idx);
      if o.sim.Composed? then 2_000_000 * |o.sim.entries| else 0
  }

  ghost predicate NeverFits(env: Env, w: Work, s: Slot) {
    Ready(env, w, s) && BlockGas(env, s) > 30_000_000
  }

  ghost predicate BlockFull(env: Env, w: Work, s: Slot) {
    Ready(env, w, s) && BlockGas(env, s) <= 30_000_000 < env.gasUsed(w.draft) + BlockGas(env, s)
  }

  ghost predicate FitsBlock(env: Env, w: Work, s: Slot) {
    Ready(env, w, s) && env.gasUsed(w.draft) + BlockGas(env, s) <= 30_000_000
  }

  ghost predicate OverBudget(env: Env, w: Work, s: Slot) {
    FitsBlock(env, w, s) && w.projected + env.oracle(s.idx).cost.Total() > Cap(env.maxGas)
  }

  ghost predicate Affordable(env: Env, w: Work, s: Slot) {
    FitsBlock(env, w, s) && w.projected + env.oracle(s.idx).cost.Total() <= Cap(env.maxGas)
  }

  /** Its system transactions can be signed from the block's next nonce on. */
  ghost predicate Buildable(env: Env, w: Work, s: Slot)
    requires Affordable(env, w, s)
  {
    var entries, nonce := env.oracle(s.idx).sim.entries, env.nonce + w.appended;
    if Outward(s)
    then Plain(entries[0]) && |entries[0].calls| == 1 && entries[0].lowers && NoncesLast(env.cfg, nonce, 1)
    else
      && (forall e :: e in entries ==> e.sidecar)
      && Deliverable(entries, env.cfg, nonce)
      && (entries != [] ==> exists e :: e in entries && e.rollup == env.cfg.rollup)
  }

  ghost predicate Unbuildable(env: Env, w: Work, s: Slot) {
    Affordable(env, w, s) && !Buildable(env, w, s)
  }

  /** The draft ran it and refused it. */
  ghost predicate Rejected(env: Env, w: Work, s: Slot) {
    && Affordable(env, w, s) && Buildable(env, w, s)
    && var o := env.oracle(s.idx);
       o.append.Reverts? || (o.append.Ran? && Outward(s) && !o.authorized)
  }

  /** The draft or its session broke while running it. */
  ghost predicate Interrupted(env: Env, w: Work, s: Slot) {
    && Affordable(env, w, s) && Buildable(env, w, s)
    && var o := env.oracle(s.idx);
       o.append.StoreFails? || (o.append.Ran? && Outward(s) && o.authorized && !o.session)
  }

  ghost predicate Accepted(env: Env, w: Work, s: Slot) {
    && Affordable(env, w, s) && Buildable(env, w, s)
    && var o := env.oracle(s.idx);
       o.append.Ran? && (Outward(s) ==> o.authorized && o.session)
  }

  /** The transaction itself is at fault. */
  ghost predicate AtFault(env: Env, w: Work, s: Slot) {
    || OverCap(env, s) || SimPoisons(env, s) || Malformed(env, s)
    || NeverFits(env, w, s) || Unbuildable(env, w, s) || Rejected(env, w, s)
  }

  ghost predicate Underfunded(env: Env, w: Work, s: Slot) {
    SimShort(env, s) || Overdrawn(env, w, s)
  }

  /** Something around the transaction failed. */
  ghost predicate Disturbed(env: Env, w: Work, s: Slot) {
    (!OverCap(env, s) && !env.oracle(s.idx).contexts) || SimStalls(env, s) || Interrupted(env, w, s)
  }

  // ---- One cause per verdict --------------------------------------------------------------------

  /** No tried transaction of its chain below it is missing from the block. */
  ghost predicate Unchained(t: Tally, s: Slot) {
    !AboveGap(t.poisonGaps, s.tx) && (Outward(s) ==> !AboveGap(t.fundingGaps, s.tx))
  }

  ghost predicate Explains(env: Env, w: Work, s: Slot, v: Verdict) {
    && (v.Root? || v.RootThenAbort? <==> AtFault(env, w, s))
    && (v.RootThenAbort? <==> Rejected(env, w, s) && !env.oracle(s.idx).reopens)
    && (v.Retry? <==> Underfunded(env, w, s))
    && (v.AbortHere? <==> Disturbed(env, w, s))
    && (v == CutHere(true) <==> BlockFull(env, w, s))
    && (v == CutHere(false) <==> OverBudget(env, w, s))
    && (v.Keep? <==> Accepted(env, w, s))
  }

  lemma {:induction false} OutAppended(env: Env, w: Work, s: Slot, paid: Work)
    requires Outward(s) && Affordable(env, w, s) && paid.appended == w.appended
    ensures
      var o := env.oracle(s.idx);
      Explains(env, w, s, OutAppend(env, paid, s, o, o.sim.entries[0], o.etherOut.value).0)
  {
    hide Interleave, AboveGap;
  }

  lemma {:induction false} OutAdmitted(env: Env, w: Work, s: Slot, seen: Work)
    requires Outward(s) && Ready(env, w, s)
    requires seen.appended == w.appended && seen.draft == w.draft && seen.projected == w.projected
    ensures
      var o := env.oracle(s.idx);
      Explains(env, w, s, OutAdmit(env, seen, s, o, o.sim.entries[0], o.etherOut.value).0)
  {
    hide OutAppend, TryAccept, AboveGap;
    var o := env.oracle(s.idx);
    ChargeIsExact(env.maxGas, w.projected, o.cost);
    if Affordable(env, w, s) {
      var next := w.projected + o.cost.Total();
      OutAppended(env, w, s, seen.(projected := next, charges := seen.charges + [o.cost]));
    }
  }

  lemma {:induction false} OutExplained(env: Env, t: Tally, w: Work, s: Slot)
    requires Outward(s) && Unchained(t, s)
    ensures Explains(env, w, s, OutDecide(env, t, w, s).0)
  {
    hide OutAdmit, AboveGap;
    if Ready(env, w, s) {
      var o := env.oracle(s.idx);
      OutAdmitted(env, w, s, ReadEscrow(w, o, o.etherOut.value));
    }
  }

  lemma {:induction false} InAppended(env: Env, w: Work, s: Slot, paid: Work)
    requires !Outward(s) && Affordable(env, w, s) && paid.appended == w.appended
    ensures
      var o := env.oracle(s.idx);
      Explains(env, w, s, InAppend(env, paid, s, o, o.sim.entries).0)
  {
    hide BuildInbound, AboveGap, Own;
    var entries, nonce := env.oracle(s.idx).sim.entries, env.nonce + w.appended;
    InboundIs(entries, env.cfg, nonce);
    var own := Own(entries, env.cfg.rollup);
    if own != [] { assert own[0] in own; }
    assert Sidecars(entries) <==> forall e :: e in entries ==> e.sidecar;
  }

  lemma {:induction false} PlainIsShape(entries: seq<Entry>)
    ensures Shapes(entries) <==> forall e :: e in entries ==> Plain(e)
  {
    if forall e :: e in entries ==> Plain(e) {
      forall i | 0 <= i < |entries| ensures CheckShape(entries[i]) { assert Plain(entries[i]); }
    }
  }

  lemma {:induction false} InExplained(env: Env, t: Tally, w: Work, s: Slot)
    requires !Outward(s) && Unchained(t, s)
    ensures Explains(env, w, s, InDecide(env, t, w, s).0)
  {
    hide InAppend, TryAccept, AboveGap, Shapes;
    var o := env.oracle(s.idx);
    ChargeIsExact(env.maxGas, w.projected, o.cost);
    if o.sim.Composed? { PlainIsShape(o.sim.entries); }
    if Affordable(env, w, s) {
      var next := w.projected + o.cost.Total();
      InAppended(env, w, s, w.(projected := next, charges := w.charges + [o.cost]));
    }
  }

  lemma {:induction false} Explained(env: Env, t: Tally, w: Work, s: Slot)
    requires Unchained(t, s)
    ensures Explains(env, w, s, Decide(env, t, w, s).0)
  {
    hide OutDecide, InDecide, Explains, Unchained;
    if Outward(s) { OutExplained(env, t, w, s); } else { InExplained(env, t, w, s); }
  }

  // ---- Over the whole drain ----------------------------------------------------------------------

  /** What trying `s` makes of the lists, told by its cause alone. */
  ghost predicate Judged(env: Env, t: Tally, w: Work, s: Slot, rest: seq<Slot>, t': Tally) {
    if AboveGap(t.poisonGaps, s.tx) then t' == t.(poison := t.poison + [s.tx])
    else if Outward(s) && AboveGap(t.fundingGaps, s.tx) then t' == t.(funding := t.funding + [s])
    else JudgedAlone(env, t, w, s, rest, t')
  }

  ghost predicate JudgedAlone(env: Env, t: Tally, w: Work, s: Slot, rest: seq<Slot>, t': Tally) {
    var charged := s.tx.(attempts := s.tx.attempts + 1);
    if AtFault(env, w, s) then
      && t' == t.(poison := t.poison + [s.tx], poisonGaps := t'.poisonGaps, stop := t'.stop)
      && t'.stop == if Rejected(env, w, s) && !env.oracle(s.idx).reopens then Aborted(rest) else Going
    else if Underfunded(env, w, s) then
      if s.tx.attempts >= 2 then t' == t.(poison := t.poison + [charged], poisonGaps := t'.poisonGaps)
      else t' == t.(funding := t.funding + [Slot(s.idx, charged)], fundingGaps := t'.fundingGaps)
    else if Disturbed(env, w, s) then t' == t.(stop := Aborted([s] + rest))
    else if BlockFull(env, w, s) then t' == t.(stop := Cut([s] + rest, true))
    else if OverBudget(env, w, s) then t' == t.(stop := Cut([s] + rest, false))
    else Accepted(env, w, s) && t' == t.(survivors := t.survivors + [s])
  }

  lemma {:induction false} AppliedAlone(env: Env, t: Tally, w: Work, s: Slot, rest: seq<Slot>, v: Verdict)
    requires t.stop.Going? && Explains(env, w, s, v) && !v.Chained? && !v.FundingChained?
    ensures JudgedAlone(env, t, w, s, rest, Apply(t, s, rest, v))
  {
    hide AtFault, Underfunded, Disturbed, BlockFull, OverBudget, Accepted, Rejected;
  }

  lemma {:induction false} ChainedOnlyAbove(env: Env, t: Tally, w: Work, s: Slot)
    ensures
      var v := Decide(env, t, w, s).0;
      && (v.Chained? <==> AboveGap(t.poisonGaps, s.tx))
      && (v.FundingChained? <==> !AboveGap(t.poisonGaps, s.tx) && Outward(s) && AboveGap(t.fundingGaps, s.tx))
  {
    hide AboveGap, Interleave, BuildInbound;
  }

  /** Every transaction the drain reaches is treated by its cause, and has one. */
  lemma {:induction false} EachIsJudged(env: Env, all: seq<Slot>, k: nat)
    requires k < |all| && Run(env, all, k).0.stop.Going?
    ensures
      var (t, w) := Run(env, all, k);
      Judged(env, t, w, all[k], all[k + 1..], Run(env, all, k + 1).0)
  {
    hide Decide, AboveGap, Explains, JudgedAlone;
    var (t, w) := Run(env, all, k);
    var s, v := all[k], Decide(env, t, w, all[k]).0;
    ChainedOnlyAbove(env, t, w, s);
    if Unchained(t, s) {
      Explained(env, t, w, s);
      AppliedAlone(env, t, w, s, all[k + 1..], v);
    }
  }

  /** A simulation that fails for good evicts its own transaction and the drain goes on; one that
      fails for now stops the drain and gives it back; an outbound one short of funds waits with one
      more attempt, or is evicted on the third. */
  lemma {:induction false} SimulationFailureIsJudged(env: Env, live: seq<HeldTx>, k: nat)
    requires k < |Phases(live)| && Run(env, Phases(live), k).0.stop.Going?
    requires
      var (t, s) := (Run(env, Phases(live), k).0, Phases(live)[k]);
      !AboveGap(t.poisonGaps, s.tx) && (s.tx.direction == Outbound ==> !AboveGap(t.fundingGaps, s.tx))
    requires
      var s := Phases(live)[k];
      var cap := if s.tx.direction == Outbound then env.outCap else env.inCap;
      && (cap.Some? ==> env.declared(s.tx.raw) <= cap.value)
      && env.oracle(s.idx).contexts && env.oracle(s.idx).sim.SimFailed?
    ensures
      var t, t', s := Run(env, Phases(live), k).0, Run(env, Phases(live), k + 1).0, Phases(live)[k];
      var sim, charged := env.oracle(s.idx).sim, s.tx.(attempts := s.tx.attempts + 1);
      && t'.survivors == t.survivors
      && if s.tx.direction == Outbound && sim.insufficient then
           && t'.stop.Going?
           && (charged.attempts >= 3 ==> t'.poison == t.poison + [charged] && t'.funding == t.funding)
           && (charged.attempts < 3 ==> t'.poison == t.poison && t'.funding == t.funding + [Slot(s.idx, charged)])
         else if sim.poison then
           t'.stop.Going? && t'.poison == t.poison + [s.tx] && t'.funding == t.funding
         else
           && t'.stop == Aborted([s] + Phases(live)[k + 1..])
           && t'.poison == t.poison && t'.funding == t.funding
  {
    hide AboveGap, Run, Phases;
    EachIsJudged(env, Phases(live), k);
  }

  /** The drain reached the transaction in position `j`, and evicted it for a reason of its own: it is
      at fault, it ran out of attempts waiting for funds, or nothing was accepted and it did not fit. */
  ghost predicate Caused(env: Env, all: seq<Slot>, j: nat) {
    && j < |all| && Run(env, all, j).0.stop.Going?
    && var (t, w) := Run(env, all, j);
       && Unchained(t, all[j])
       && (|| AtFault(env, w, all[j])
           || (Underfunded(env, w, all[j]) && all[j].tx.attempts >= 2)
           || ((OverBudget(env, w, all[j]) || BlockFull(env, w, all[j])) && t.survivors == []))
  }

  ghost predicate GapCaused(env: Env, all: seq<Slot>, k: nat, g: Reservation) {
    exists j :: 0 <= j < k && Caused(env, all, j) && all[j].tx.Reserve() == g
  }

  ghost predicate GapsCaused(env: Env, all: seq<Slot>, k: nat, gaps: seq<Reservation>) {
    forall g :: g in gaps ==> GapCaused(env, all, k, g)
  }

  /** A verdict only ever adds the gap of the transaction tried. */
  lemma {:induction false} OneGapMore(t: Tally, s: Slot, rest: seq<Slot>, v: Verdict)
    ensures
      var t' := Apply(t, s, rest, v);
      && (forall g :: g in t'.poisonGaps ==> g in t.poisonGaps || g == s.tx.Reserve())
      && (!v.Root? && !v.RootThenAbort? && !(v.Retry? && Spends(s.tx)) ==> t'.poisonGaps == t.poisonGaps)
  {
  }

  lemma {:induction false} StepCauses(env: Env, all: seq<Slot>, k: nat)
    requires k < |all| && Run(env, all, k).0.stop.Going?
    ensures
      var t, t' := Run(env, all, k).0, Run(env, all, k + 1).0;
      forall g :: g in t'.poisonGaps ==> g in t.poisonGaps || (Caused(env, all, k) && g == all[k].tx.Reserve())
  {
    hide Decide, AboveGap, AtFault, Underfunded, OverBudget, BlockFull, Disturbed, Accepted, Rejected;
    var (t, w) := Run(env, all, k);
    var s, v := all[k], Decide(env, t, w, all[k]).0;
    ChainedOnlyAbove(env, t, w, s);
    OneGapMore(t, s, all[k + 1..], v);
    if Unchained(t, s) { Explained(env, t, w, s); }
  }

  lemma {:induction false} RunCauses(env: Env, all: seq<Slot>, k: nat)
    requires k <= |all|
    ensures GapsCaused(env, all, k, Run(env, all, k).0.poisonGaps)
  {
    hide Caused, TryOne;
    if k > 0 {
      RunCauses(env, all, k - 1);
      if Run(env, all, k - 1).0.stop.Going? { StepCauses(env, all, k - 1); }
      forall g | g in Run(env, all, k).0.poisonGaps ensures GapCaused(env, all, k, g) {
        if g in Run(env, all, k - 1).0.poisonGaps { assert GapCaused(env, all, k - 1, g); }
      }
    }
  }

  /** A cut is due to the last transaction tried. */
  lemma {:induction false} CutAt(env: Env, all: seq<Slot>, k: nat) returns (j: nat)
    requires k <= |all| && Run(env, all, k).0.stop.Cut?
    ensures j < k && Run(env, all, j).0.stop.Going? && Run(env, all, j + 1) == Run(env, all, k)
  {
    hide TryOne;
    if Run(env, all, k - 1).0.stop.Going? {
      j := k - 1;
    } else {
      j := CutAt(env, all, k - 1);
    }
  }

  lemma {:induction false} CutCaused(env: Env, all: seq<Slot>, j: nat)
    requires j < |all| && Run(env, all, j).0.stop.Going? && Run(env, all, j + 1).0.stop.Cut?
    ensures
      var t, t' := Run(env, all, j).0, Run(env, all, j + 1).0;
      && t'.stop.rest != [] && t'.stop.rest[0] == all[j] && t'.survivors == t.survivors
      && (t.survivors == [] ==> Caused(env, all, j))
  {
    hide Run, AboveGap, AtFault, Underfunded, OverBudget, BlockFull, Disturbed, Accepted, Rejected;
    EachIsJudged(env, all, j);
  }

  lemma {:induction false} SettleCauses(env: Env, all: seq<Slot>, t: Tally)
    requires t == Run(env, all, |all|).0
    ensures GapsCaused(env, all, |all|, Settle(t).gaps)
  {
    hide Run, Caused;
    RunCauses(env, all, |all|);
    if t.stop.Cut? && t.survivors == [] {
      var j := CutAt(env, all, |all|);
      CutCaused(env, all, j);
      forall g | g in Settle(t).gaps ensures GapCaused(env, all, |all|, g) {
        if g !in t.poisonGaps { assert g == all[j].tx.Reserve(); }
      }
    }
  }

  /** Nothing is evicted without a cause: at or below every evicted transaction stands one of its
      chain, tried before it, that was evicted for a reason of its own. */
  lemma {:induction false} EvictionsHaveACause(env: Env, live: seq<HeldTx>, p: HeldTx)
    requires p in Settle(End(env, live).0).poison
    ensures exists j ::
      && 0 <= j < |Phases(live)| && Caused(env, Phases(live), j)
      && Phases(live)[j].tx.Chain() == p.Chain() && Phases(live)[j].tx.nonce <= p.nonce
  {
    var (t, w) := End(env, live);
    EndInv(env, live, t, w);
    hide ListInv, Run, Caused, Phases, WorkInv;
    GappedLists(Phases(live), |Phases(live)|, t);
    SettleGapped(t);
    SettleCauses(env, Phases(live), t);
    var g :| g in Settle(t).gaps && g.Chain() == p.Chain() && g.nonce <= p.nonce;
    assert GapCaused(env, Phases(live), |Phases(live)|, g);
  }

  lemma {:induction false} GappedLists(all: seq<Slot>, k: nat, t: Tally)
    requires k <= |all| && ListInv(all, k, t)
    ensures RootsListed(t) && PoisonGapped(t.poisonGaps, t.poison)
  {
    hide Conserved, Origins, Closed, Finished;
  }

  // ---- And every cause evicts ----------------------------------------------------------------------

  lemma {:induction false} PoisonStays(env: Env, all: seq<Slot>, k: nat, n: nat)
    requires k <= n <= |all|
    ensures Run(env, all, k).0.poison <= Run(env, all, n).0.poison
  {
    hide TryOne;
    if k < n {
      PoisonStays(env, all, k, n - 1);
      if Run(env, all, n - 1).0.stop.Going? { PoisonGrows(env, all, n - 1); }
    }
  }

  lemma {:induction false} PoisonGrows(env: Env, all: seq<Slot>, k: nat)
    requires k < |all| && Run(env, all, k).0.stop.Going?
    ensures Run(env, all, k).0.poison <= Run(env, all, k + 1).0.poison
  {
    hide Run, AboveGap, AtFault, Underfunded, OverBudget, BlockFull, Disturbed, Accepted, Rejected;
    EachIsJudged(env, all, k);
  }

  lemma {:induction false} SettleKeepsPoison(t: Tally)
    ensures t.poison <= Settle(t).poison
  {
  }

  lemma {:induction false} CutsAlone(env: Env, w: Work, s: Slot)
    requires OverBudget(env, w, s) || BlockFull(env, w, s)
    ensures !AtFault(env, w, s) && !Underfunded(env, w, s) && !Disturbed(env, w, s)
  {
  }

  lemma {:induction false} CauseSteps(env: Env, all: seq<Slot>, j: nat)
    requires Caused(env, all, j)
    ensures
      var s, t := all[j], Run(env, all, j + 1).0;
      || (t.poison != [] && t.poison[|t.poison| - 1].hash == s.tx.hash)
      || (t.stop.Cut? && t.survivors == [] && t.stop.rest != [] && t.stop.rest[0] == s)
  {
    hide Run, AboveGap, AtFault, Underfunded, OverBudget, BlockFull, Disturbed, Accepted, Rejected;
    EachIsJudged(env, all, j);
    var (t, w) := Run(env, all, j);
    if OverBudget(env, w, all[j]) || BlockFull(env, w, all[j]) { CutsAlone(env, w, all[j]); }
  }

  /** Whoever the drain reaches with a cause of its own is evicted. */
  lemma {:induction false} CausesEvict(env: Env, live: seq<HeldTx>, j: nat)
    requires Caused(env, Phases(live), j)
    ensures exists p :: p in Settle(End(env, live).0).poison && p.hash == Phases(live)[j].tx.hash
  {
    assert j < |Phases(live)|;
    hide Run, Caused, Phases;
    CauseEnds(env, Phases(live), j);
  }

  lemma {:induction false} CauseEnds(env: Env, all: seq<Slot>, j: nat)
    requires j < |all| && Caused(env, all, j)
    ensures exists p :: p in Settle(Run(env, all, |all|).0).poison && p.hash == all[j].tx.hash
  {
    hide Run, Caused, Settle;
    CauseSteps(env, all, j);
    var s, t, t' := all[j], Run(env, all, |all|).0, Run(env, all, j + 1).0;
    if t'.poison != [] && t'.poison[|t'.poison| - 1].hash == s.tx.hash {
      SettleKeepsPoison(t);
      PoisonStays(env, all, j + 1, |all|);
      assert Settle(t).poison[|t'.poison| - 1].hash == s.tx.hash;
    } else {
      RunStays(env, all, j + 1, |all|);
      HeadEvicted(t, s);
    }
  }

  lemma {:induction false} HeadEvicted(t: Tally, s: Slot)
    requires t.stop.Cut? && t.survivors == [] && t.stop.rest != [] && t.stop.rest[0] == s
    ensures s.tx in Settle(t).poison
  {
    var evicted := PushPoisonRoot(t, s.tx).poison;
    assert evicted[|t.poison|] == s.tx;
  }
}
