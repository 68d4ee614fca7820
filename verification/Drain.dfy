/** L1 and L2 gas projections the drain stops on. */
module GasBudget {
  import opened Types

  const SYSTEM_TX_GAS_LIMIT: nat := 2_000_000
  const BUILDER_GAS_LIMIT: nat := 30_000_000
  const POSTBATCH_BASE_GAS_PIN: nat := 160_000
  const POSTBATCH_ENTRY_GAS_PIN: nat := 370_000
  const POSTBATCH_DRAIN_MARGIN: nat := 600_000

  /** What one accepted transaction adds to the postBatch, per term. */
  datatype Cost = Cost(entries: u64, calldata: u64, target: u64)
  {
    /** The same in one number, without saturation. */
    function Total(): nat { POSTBATCH_ENTRY_GAS_PIN * entries + calldata + target }
  }

  function ProjectedPostBatchGas(c: Cost): nat {
    var fixed := SatAdd(SatAdd(21_000, POSTBATCH_BASE_GAS_PIN), SatMul(POSTBATCH_ENTRY_GAS_PIN, c.entries));
    SatAdd(SatAdd(fixed, c.calldata), c.target)
  }

  function Cap(maxGas: u64): nat { SatSub(maxGas, POSTBATCH_DRAIN_MARGIN) }

  /** The projection of the leading immediate entry every postBatch carries. */
  function Base(): nat { ProjectedPostBatchGas(Cost(1, 0, 0)) }

  function TryAccept(cap: nat, projected: nat, c: Cost): Option<nat> {
    var next := SatAdd(SatAdd(SatAdd(projected, SatMul(POSTBATCH_ENTRY_GAS_PIN, c.entries)), c.calldata), c.target);
    if next > cap then None else Some(next)
  }

  function Sum(costs: seq<Cost>): nat {
    if costs == [] then 0 else Sum(costs[..|costs| - 1]) + costs[|costs| - 1].Total()
  }

  /** Under a real cap an accepted charge is exact: nothing saturated. */
  lemma {:induction false} ChargeIsExact(maxGas: u64, projected: nat, c: Cost)
    ensures TryAccept(Cap(maxGas), projected, c)
      == if projected + c.Total() <= Cap(maxGas) then Some(projected + c.Total()) else None
  {
  }

  /** The budget in plain numbers: the transaction, the base, 370,000 an entry with one for the leading
      one, calldata, target calls and a margin of 600,000 must fit the batch's gas. */
  lemma {:induction false} BudgetIs(maxGas: u64, charged: nat, c: Cost)
    ensures TryAccept(Cap(maxGas), Base() + charged, c).Some? <==>
      21_000 + 160_000 + 370_000 * (1 + c.entries) + c.calldata + c.target + charged + 600_000 <= maxGas
  {
    ChargeIsExact(maxGas, Base() + charged, c);
  }

  lemma {:induction false} SumSnoc(costs: seq<Cost>, c: Cost)
    ensures Sum(costs + [c]) == Sum(costs) + c.Total()
  {
    assert (costs + [c])[..|costs|] == costs;
  }

  /** Each term of a list of costs, summed. */
  function Entries(costs: seq<Cost>): nat {
    if costs == [] then 0 else Entries(costs[..|costs| - 1]) + costs[|costs| - 1].entries
  }

  function Calldata(costs: seq<Cost>): nat {
    if costs == [] then 0 else Calldata(costs[..|costs| - 1]) + costs[|costs| - 1].calldata
  }

  function Target(costs: seq<Cost>): nat {
    if costs == [] then 0 else Target(costs[..|costs| - 1]) + costs[|costs| - 1].target
  }

  lemma {:induction false} SumByTerm(costs: seq<Cost>)
    ensures Sum(costs) == POSTBATCH_ENTRY_GAS_PIN * Entries(costs) + Calldata(costs) + Target(costs)
  {
    if costs != [] { SumByTerm(costs[..|costs| - 1]); }
  }

  /** The running projection, charged cost by cost, is the saturating projection of the summed terms
      computed in one go: within a real cap no term overflows and nothing saturates. */
  lemma {:induction false} RunningIsClosed(maxGas: u64, costs: seq<Cost>)
    requires Base() + Sum(costs) <= Cap(maxGas)
    ensures 1 + Entries(costs) <= U64_MAX && Calldata(costs) <= U64_MAX && Target(costs) <= U64_MAX
    ensures ProjectedPostBatchGas(Cost(1 + Entries(costs), Calldata(costs), Target(costs))) == Base() + Sum(costs)
  {
    SumByTerm(costs);
  }

  /** A budget that already charged something refuses, besides what exceeds the cap alone, some cost
      that would fit alone: refusing is right for every cost exactly when nothing was charged before
      it (or nothing at all can fit). */
  lemma {:induction false} CutIsJustifiedIff(maxGas: u64, charged: nat)
    ensures
      var cap := Cap(maxGas);
      (forall c: Cost :: TryAccept(cap, Base() + charged, c).None? ==> TryAccept(cap, Base(), c).None?)
      <==> charged == 0 || Base() > Cap(maxGas)
  {
    var cap := Cap(maxGas);
    forall c: Cost
      ensures TryAccept(cap, Base() + charged, c).None? <==> Base() + charged + c.Total() > cap
      ensures TryAccept(cap, Base(), c).None? <==> Base() + c.Total() > cap
    {
      ChargeIsExact(maxGas, Base() + charged, c);
      ChargeIsExact(maxGas, Base(), c);
    }
    if charged > 0 && Base() <= cap {
      var c := Cost(0, if cap >= Base() + charged then cap - Base() - charged + 1 else 0, 0);
      assert TryAccept(cap, Base() + charged, c).None? && TryAccept(cap, Base(), c).Some?;
    }
  }

  /** What `n` deliveries declare together. */
  function DeliveryGas(n: nat): nat { 2_000_000 * n }

  lemma {:induction false} DeliveryGasSaturates(n: nat, used: nat)
    requires BlockGasFit(used, SatMul(SYSTEM_TX_GAS_LIMIT, n), BUILDER_GAS_LIMIT).Fits?
    ensures used + DeliveryGas(n) <= BUILDER_GAS_LIMIT
  {
  }

  datatype Fit = Fits | Defers | Unfittable

  function BlockGasFit(used: nat, declared: nat, limit: nat): Fit {
    if SatAdd(used, declared) <= limit then Fits else if declared > limit then Unfittable else Defers
  }
}

/** The drain: two direction phases over a live block draft, one verdict per transaction. Any
    simulation may answer anything. */
module Drain {
  import opened Types
  import opened SystemTx
  import opened GasBudget
  import opened HeldPoolSpec
  import opened HeldPools
  import opened RecoverySpec
  import Protocol

  datatype Slot = Slot(idx: nat, tx: HeldTx)

  datatype Sim = Composed(entries: seq<Entry>) | SimFailed(insufficient: bool, poison: bool)

  datatype Append = Ran | Reverts(at: nat) | StoreFails(at: nat)

  /** Everything outside the drain's control for one transaction. */
  datatype Outcome = Outcome(
    contexts: bool,
    sim: Sim,
    nestedSource: bool,
    etherOut: Option<nat>,
    escrowRead: Option<nat>,
    cost: Cost,
    append: Append,
    authorized: bool,
    reopens: bool,
    session: bool)

  datatype Env = Env(
    cfg: Context,
    nonce: u64,
    outCap: Option<u64>,
    inCap: Option<u64>,
    maxGas: u64,
    oracle: nat -> Outcome,
    declared: Bytes -> u64,
    gasUsed: seq<SyncTx> -> nat)
  {
    function Limit(t: SyncTx): nat {
      if t.User? then declared(t.raw) else SYSTEM_TX_GAS_LIMIT
    }
  }

  /** The block under construction and the budgets. `charges`, `escrowSeen` and `drawn` record
      what was charged and withdrawn. */
  datatype Work = Work(
    syncTxs: seq<SyncTx>,
    draft: seq<SyncTx>,
    appended: nat,
    pendingOut: seq<OutEntry>,
    pendingIn: seq<Entry>,
    escrow: Option<nat>,
    escrowSeen: nat,
    drawn: nat,
    projected: nat,
    charges: seq<Cost>)

  datatype Stop = Going | Aborted(rest: seq<Slot>) | Cut(rest: seq<Slot>, blockGas: bool)

  datatype Tally = Tally(
    survivors: seq<Slot>,
    poison: seq<HeldTx>,
    poisonGaps: seq<Reservation>,
    funding: seq<Slot>,
    fundingGaps: seq<Reservation>,
    stop: Stop)

  datatype Verdict =
    | Chained
    | FundingChained
    | Root
    | Retry
    | RootThenAbort
    | AbortHere
    | CutHere(blockGas: bool)
    | Keep

  function AddGap(gaps: seq<Reservation>, tx: HeldTx): seq<Reservation> {
    if tx.Reserve() in gaps then gaps else gaps + [tx.Reserve()]
  }

  function PushPoisonRoot(t: Tally, tx: HeldTx): Tally {
    t.(poisonGaps := AddGap(t.poisonGaps, tx), poison := t.poison + [tx])
  }

  function PushDeferredRoot(t: Tally, s: Slot): Tally {
    t.(fundingGaps := AddGap(t.fundingGaps, s.tx), funding := t.funding + [s])
  }

  /** What a verdict does to the lists; `rest` is everything not yet tried. */
  function Apply(t: Tally, s: Slot, rest: seq<Slot>, v: Verdict): Tally {
    match v
    case Chained => t.(poison := t.poison + [s.tx])
    case FundingChained => t.(funding := t.funding + [s])
    case Root => PushPoisonRoot(t, s.tx)
    case Retry =>
      if Spends(s.tx) then PushPoisonRoot(t, Charge(s.tx)) else PushDeferredRoot(t, Slot(s.idx, Charge(s.tx)))
    case RootThenAbort => PushPoisonRoot(t, s.tx).(stop := Aborted(rest))
    case AbortHere => t.(stop := Aborted([s] + rest))
    case CutHere(blockGas) => t.(stop := Cut([s] + rest, blockGas))
    case Keep => t.(survivors := t.survivors + [s])
  }

  predicate Violates(declared: u64, cap: Option<u64>) {
    cap.Some? && declared > cap.value
  }

  /** A failed append leaves the draft half extended; only the accepted list can rebuild it. */
  function Reopen(w: Work, o: Outcome): (Verdict, Work) {
    if o.reopens then (Root, w.(draft := w.syncTxs)) else (RootThenAbort, w)
  }

  function Half(txs: seq<SyncTx>, at: nat): seq<SyncTx> {
    if at <= |txs| then txs[..at] else txs
  }

  // ---- Outbound --------------------------------------------------------------------------

  function OutAppend(env: Env, w: Work, s: Slot, o: Outcome, entry: Entry, need: nat): (Verdict, Work) {
    match BuildOutboundPair(entry, s.tx.raw, env.cfg, env.nonce + w.appended)
    case None => (Root, w)
    case Some(pairs) =>
      var txs := Interleave(pairs);
      match o.append
      case StoreFails(at) => (AbortHere, w.(draft := w.draft + Half(txs, at)))
      case Reverts(at) => Reopen(w.(draft := w.draft + Half(txs, at)), o)
      case Ran =>
        var ran := w.(draft := w.draft + txs);
        if !o.authorized then Reopen(ran, o)
        else
          var kept := ran.(
            syncTxs := w.syncTxs + txs,
            appended := w.appended + |pairs|,
            escrow := if w.escrow.Some? then Some(SatSub(w.escrow.value, need)) else None,
            drawn := if w.escrow.Some? then w.drawn + need else w.drawn);
          if !o.session then (AbortHere, kept)
          else (Keep, kept.(pendingOut := w.pendingOut + [OutEntry(entry, s.tx.raw)]))
  }

  function OutAdmit(env: Env, w: Work, s: Slot, o: Outcome, entry: Entry, need: nat): (Verdict, Work) {
    match BlockGasFit(env.gasUsed(w.draft), SatAdd(SYSTEM_TX_GAS_LIMIT, env.declared(s.tx.raw)), BUILDER_GAS_LIMIT)
    case Defers => (CutHere(true), w)
    case Unfittable => (Root, w)
    case Fits =>
      match TryAccept(Cap(env.maxGas), w.projected, o.cost)
      case None => (CutHere(false), w)
      case Some(next) => OutAppend(env, w.(projected := next, charges := w.charges + [o.cost]), s, o, entry, need)
  }

  /** Read the escrow once, when the first withdrawal needs it. */
  function ReadEscrow(w: Work, o: Outcome, need: nat): Work {
    if need > 0 && w.escrow.None? && o.escrowRead.Some?
    then w.(escrow := o.escrowRead, escrowSeen := o.escrowRead.value, drawn := 0)
    else w
  }

  function OutDecide(env: Env, t: Tally, w: Work, s: Slot): (Verdict, Work) {
    var o := env.oracle(s.idx);
    if AboveGap(t.poisonGaps, s.tx) then (Chained, w)
    else if AboveGap(t.fundingGaps, s.tx) then (FundingChained, w)
    else if Violates(env.declared(s.tx.raw), env.outCap) then (Root, w)
    else if !o.contexts then (AbortHere, w)
    else
      match o.sim
      case SimFailed(insufficient, poison) =>
        (if insufficient then Retry else if poison then Root else AbortHere, w)
      case Composed(entries) =>
        if |entries| != 1 || o.etherOut.None? then (Root, w)
        else
          var need := o.etherOut.value;
          var seen := ReadEscrow(w, o, need);
          if need > 0 && seen.escrow.Some? && need > seen.escrow.value then (Retry, seen)
          else OutAdmit(env, seen, s, o, entries[0], need)
  }

  // ---- Inbound ---------------------------------------------------------------------------

  function InAppend(env: Env, w: Work, s: Slot, o: Outcome, targets: seq<Entry>): (Verdict, Work) {
    var built := if Sidecars(targets) then BuildInbound(targets, env.cfg, env.nonce + w.appended) else None;
    match built
    case None => (Root, w)
    case Some(deliveries) =>
      if deliveries == [] && targets != [] then (Root, w)
      else
        match o.append
        case StoreFails(at) => (AbortHere, w.(draft := w.draft + Half(deliveries, at)))
        case Reverts(at) => Reopen(w.(draft := w.draft + Half(deliveries, at)), o)
        case Ran =>
          (Keep, w.(
             draft := w.draft + deliveries,
             syncTxs := w.syncTxs + deliveries,
             appended := w.appended + |deliveries|,
             pendingIn := w.pendingIn + targets))
  }

  function InDecide(env: Env, t: Tally, w: Work, s: Slot): (Verdict, Work) {
    var o := env.oracle(s.idx);
    if AboveGap(t.poisonGaps, s.tx) then (Chained, w)
    else if Violates(env.declared(s.tx.raw), env.inCap) then (Root, w)
    else if !o.contexts then (AbortHere, w)
    else
      match o.sim
      case SimFailed(_, poison) => (if poison then Root else AbortHere, w)
      case Composed(targets) =>
        if !Shapes(targets) || o.nestedSource then (Root, w)
        else
          match BlockGasFit(env.gasUsed(w.draft), SatMul(SYSTEM_TX_GAS_LIMIT, |targets|), BUILDER_GAS_LIMIT)
          case Defers => (CutHere(true), w)
          case Unfittable => (Root, w)
          case Fits =>
            match TryAccept(Cap(env.maxGas), w.projected, o.cost)
            case None => (CutHere(false), w)
            case Some(next) => InAppend(env, w.(projected := next, charges := w.charges + [o.cost]), s, o, targets)
  }

  function Decide(env: Env, t: Tally, w: Work, s: Slot): (Verdict, Work) {
    if s.tx.direction == Outbound then OutDecide(env, t, w, s) else InDecide(env, t, w, s)
  }

  const NOTHING := Tally([], [], [], [], [], Going)

  function Fresh(): Work {
    Work([], [], 0, [], [], None, 0, 0, Base(), [])
  }

  // ---- The block, the gas and the escrow ---------------------------------------------------

  ghost predicate Within(env: Env, txs: seq<SyncTx>, t: SyncTx) {
    env.gasUsed(txs + [t]) <= env.gasUsed(txs) + env.Limit(t)
  }

  /** Execution never charges a transaction more than it declares. */
  ghost predicate GasLaw(env: Env) {
    env.gasUsed([]) == 0 && forall txs: seq<SyncTx>, t: SyncTx :: Within(env, txs, t)
  }

  /** The draft executes `syncTxs`, and `syncTxs` is the canonical block of what is pending. */
  ghost predicate Keystone(env: Env, w: Work) {
    && w.draft == w.syncTxs
    && Shapes(w.pendingIn) && Sidecars(w.pendingIn)
    && BuildLoads(w.pendingOut, env.cfg, env.nonce).Some?
    && var loads := BuildLoads(w.pendingOut, env.cfg, env.nonce).value;
       && BuildInbound(w.pendingIn, env.cfg, env.nonce + |loads|).Some?
       && Laid(env, w, loads, BuildInbound(w.pendingIn, env.cfg, env.nonce + |loads|).value)
  }

  ghost predicate Laid(env: Env, w: Work, loads: seq<SyncPair>, deliveries: seq<SyncTx>) {
    && w.syncTxs == Interleave(loads) + deliveries
    && w.appended == |loads| + |deliveries|
    && env.nonce + w.appended <= U64_MAX
  }

  ghost predicate FitsAt(env: Env, txs: seq<SyncTx>, i: nat)
    requires i < |txs|
  {
    env.gasUsed(txs[..i]) + env.Limit(txs[i]) <= BUILDER_GAS_LIMIT
  }

  /** Every block transaction fits the gas the block had left when it was appended. */
  ghost predicate GasFits(env: Env, txs: seq<SyncTx>) {
    forall i :: 0 <= i < |txs| ==> FitsAt(env, txs, i)
  }

  ghost predicate Budgeted(env: Env, w: Work) {
    && w.projected == Base() + Sum(w.charges)
    && (w.charges == [] || w.projected <= Cap(env.maxGas))
    && (w.escrow.Some? ==> w.escrow.value + w.drawn == w.escrowSeen)
  }

  /** What the work state keeps while the drain goes on. */
  ghost predicate Sane(env: Env, w: Work) {
    Keystone(env, w) && Budgeted(env, w) && (GasLaw(env) ==> GasFits(env, w.syncTxs))
  }

  lemma {:induction false} OnePair(entry: Entry, raw: Bytes, cfg: Context, nonce: nat)
    requires Loads(entry, cfg, nonce)
    ensures BuildOutboundPair(entry, raw, cfg, nonce) == Some([SyncPair(Load(entry, nonce), Some(raw))])
    ensures Interleave([SyncPair(Load(entry, nonce), Some(raw))]) == [Load(entry, nonce), User(raw)]
  {
    var pair := SyncPair(Load(entry, nonce), Some(raw));
    assert [pair][..0] == [];
    assert Interleave([pair]) == [] + Txs(pair);
  }

  /** The work state after a load and its user transaction were accepted. */
  function WithPair(env: Env, w: Work, entry: Entry, raw: Bytes): Work {
    var txs := [Load(entry, env.nonce + w.appended), User(raw)];
    w.(draft := w.draft + txs, syncTxs := w.syncTxs + txs, appended := w.appended + 1,
       pendingOut := w.pendingOut + [OutEntry(entry, raw)])
  }

  lemma {:induction false} LoadExtends(env: Env, w: Work, entry: Entry, raw: Bytes)
    requires Keystone(env, w) && w.pendingIn == [] && Loads(entry, env.cfg, env.nonce + w.appended)
    ensures Keystone(env, WithPair(env, w, entry, raw))
  {
    var w' := WithPair(env, w, entry, raw);
    var loads := BuildLoads(w.pendingOut, env.cfg, env.nonce).value;
    var pair := SyncPair(Load(entry, env.nonce + w.appended), Some(raw));
    LoadsSnoc(w.pendingOut, OutEntry(entry, raw), env.cfg, env.nonce);
    OnePair(entry, raw, env.cfg, env.nonce + w.appended);
    InterleaveAppend(loads, [pair]);
    assert w.syncTxs == Interleave(loads);
    assert Interleave(loads + [pair]) + [] == w'.syncTxs;
    assert Laid(env, w', loads + [pair], []);
  }

  lemma {:induction false} InboundJoin(
    a: seq<Entry>, b: seq<Entry>, cfg: Context, nonce: nat, x: seq<SyncTx>, y: seq<SyncTx>)
    requires BuildInbound(a, cfg, nonce) == Some(x) && BuildInbound(b, cfg, nonce + |x|) == Some(y)
    ensures BuildInbound(a + b, cfg, nonce) == Some(x + y)
  {
    InboundSplit(a, b, cfg, nonce);
  }

  lemma {:induction false} DeliveriesExtend(env: Env, w: Work, targets: seq<Entry>, txs: seq<SyncTx>)
    requires Keystone(env, w) && Shapes(targets) && Sidecars(targets)
    requires BuildInbound(targets, env.cfg, env.nonce + w.appended) == Some(txs)
    ensures Keystone(env, WithDeliveries(w, targets, txs))
  {
    var loads := BuildLoads(w.pendingOut, env.cfg, env.nonce).value;
    var before := BuildInbound(w.pendingIn, env.cfg, env.nonce + |loads|).value;
    var w' := WithDeliveries(w, targets, txs);
    InboundJoin(w.pendingIn, targets, env.cfg, env.nonce + |loads|, before, txs);
    assert env.nonce + w'.appended <= U64_MAX by { InboundTop(targets, env.cfg, env.nonce + w.appended); }
    assert (Interleave(loads) + before) + txs == Interleave(loads) + (before + txs);
    assert Laid(env, w', loads, before + txs);
    assert Shapes(w'.pendingIn) && Sidecars(w'.pendingIn);
  }

  lemma {:induction false} InboundTop(targets: seq<Entry>, cfg: Context, nonce: nat)
    requires BuildInbound(targets, cfg, nonce).Some? && nonce <= U64_MAX
    ensures nonce + |BuildInbound(targets, cfg, nonce).value| <= U64_MAX
    ensures |BuildInbound(targets, cfg, nonce).value| <= |targets|
    ensures forall t :: t in BuildInbound(targets, cfg, nonce).value ==> t.Delivery?
  {
    if targets != [] {
      InboundTop(targets[..|targets| - 1], cfg, nonce);
    }
  }

  /** Appending system transactions one by one stays within their summed limits. */
  lemma {:induction false} SystemGas(env: Env, txs: seq<SyncTx>, more: seq<SyncTx>)
    requires GasLaw(env) && forall t :: t in more ==> !t.User?
    ensures env.gasUsed(txs + more) <= env.gasUsed(txs) + DeliveryGas(|more|)
  {
    if more == [] {
      assert txs + more == txs;
    } else {
      var init, last := more[..|more| - 1], more[|more| - 1];
      assert txs + more == (txs + init) + [last];
      SystemGas(env, txs, init);
      assert Within(env, txs + init, last);
    }
  }

  lemma {:induction false} DeliveryFits(env: Env, txs: seq<SyncTx>, more: seq<SyncTx>)
    requires GasLaw(env) && GasFits(env, txs) && forall t :: t in more ==> !t.User?
    requires env.gasUsed(txs) + DeliveryGas(|more|) <= BUILDER_GAS_LIMIT
    ensures GasFits(env, txs + more)
  {
    if more == [] {
      assert txs + more == txs;
    } else {
      var init, last := more[..|more| - 1], more[|more| - 1];
      assert txs + more == (txs + init) + [last];
      DeliveryFits(env, txs, init);
      SystemGas(env, txs, init);
      FitsSnoc(env, txs + init, last);
    }
  }

  lemma {:induction false} FitsSnoc(env: Env, txs: seq<SyncTx>, t: SyncTx)
    requires GasFits(env, txs) && env.gasUsed(txs) + env.Limit(t) <= BUILDER_GAS_LIMIT
    ensures GasFits(env, txs + [t])
  {
    var all := txs + [t];
    forall i | 0 <= i < |all|
      ensures FitsAt(env, all, i)
    {
      if i < |txs| {
        assert FitsAt(env, txs, i) && all[..i] == txs[..i] && all[i] == txs[i];
      } else {
        assert all[..i] == txs;
      }
    }
  }

  lemma {:induction false} PairFits(env: Env, txs: seq<SyncTx>, load: SyncTx, user: SyncTx)
    requires GasLaw(env) && GasFits(env, txs) && !load.User?
    requires env.gasUsed(txs) + SYSTEM_TX_GAS_LIMIT + env.Limit(user) <= BUILDER_GAS_LIMIT
    ensures GasFits(env, txs + [load, user])
  {
    FitsSnoc(env, txs, load);
    assert Within(env, txs, load);
    FitsSnoc(env, txs + [load], user);
    assert txs + [load, user] == (txs + [load]) + [user];
  }

  /** A verdict that lets the drain go on leaves a sane work state. */
  ghost predicate GoesOn(v: Verdict) {
    !v.AbortHere? && !v.RootThenAbort?
  }

  lemma {:induction false} ChargedStaysSane(env: Env, w: Work, c: Cost)
    requires Sane(env, w) && TryAccept(Cap(env.maxGas), w.projected, c).Some?
    ensures Sane(env, w.(projected := TryAccept(Cap(env.maxGas), w.projected, c).value, charges := w.charges + [c]))
  {
    ChargeIsExact(env.maxGas, w.projected, c);
    SumSnoc(w.charges, c);
  }

  lemma {:induction false} PairStaysSane(env: Env, w: Work, entry: Entry, raw: Bytes)
    requires Sane(env, w) && w.pendingIn == [] && Loads(entry, env.cfg, env.nonce + w.appended)
    requires env.gasUsed(w.draft) + SYSTEM_TX_GAS_LIMIT + env.declared(raw) <= BUILDER_GAS_LIMIT
    ensures Sane(env, WithPair(env, w, entry, raw))
  {
    LoadExtends(env, w, entry, raw);
    if GasLaw(env) { PairFits(env, w.syncTxs, Load(entry, env.nonce + w.appended), User(raw)); }
  }

  lemma {:induction false} DebitStaysSane(env: Env, w: Work, need: nat)
    requires Sane(env, w) && (w.escrow.Some? ==> need <= w.escrow.value)
    ensures Sane(env, w.(escrow := if w.escrow.Some? then Some(SatSub(w.escrow.value, need)) else None,
                         drawn := if w.escrow.Some? then w.drawn + need else w.drawn))
  {
  }

  lemma {:induction false} OutAppendSane(env: Env, w: Work, s: Slot, o: Outcome, entry: Entry, need: nat)
    requires Sane(env, w) && w.pendingIn == []
    requires env.gasUsed(w.draft) + SYSTEM_TX_GAS_LIMIT + env.declared(s.tx.raw) <= BUILDER_GAS_LIMIT
    requires w.escrow.Some? ==> need <= w.escrow.value
    ensures
      var (v, w') := OutAppend(env, w, s, o, entry, need);
      (GoesOn(v) ==> Sane(env, w')) && w'.pendingIn == []
  {
    if Loads(entry, env.cfg, env.nonce + w.appended) {
      OnePair(entry, s.tx.raw, env.cfg, env.nonce + w.appended);
      if o.append.Ran? && o.authorized && o.session {
        PairStaysSane(env, w, entry, s.tx.raw);
        DebitStaysSane(env, WithPair(env, w, entry, s.tx.raw), need);
      } else {
        Reopened(env, w, o);
      }
    }
  }

  /** Reopening on the accepted list undoes a half append. */
  lemma {:induction false} Reopened(env: Env, w: Work, o: Outcome)
    requires Sane(env, w)
    ensures forall draft ::
      var (v, w') := Reopen(w.(draft := draft), o);
      GoesOn(v) ==> w' == w
  {
  }

  lemma {:induction false} OutAdmitSane(env: Env, w: Work, s: Slot, o: Outcome, entry: Entry, need: nat)
    requires Sane(env, w) && w.pendingIn == []
    requires w.escrow.Some? ==> need <= w.escrow.value
    ensures
      var (v, w') := OutAdmit(env, w, s, o, entry, need);
      (GoesOn(v) ==> Sane(env, w')) && w'.pendingIn == []
  {
    var next := TryAccept(Cap(env.maxGas), w.projected, o.cost);
    if BlockGasFit(env.gasUsed(w.draft), SatAdd(SYSTEM_TX_GAS_LIMIT, env.declared(s.tx.raw)), BUILDER_GAS_LIMIT).Fits?
       && next.Some? {
      ChargedStaysSane(env, w, o.cost);
      OutAppendSane(env, w.(projected := next.value, charges := w.charges + [o.cost]), s, o, entry, need);
    }
  }

  lemma {:induction false} OutSane(env: Env, t: Tally, w: Work, s: Slot)
    requires Sane(env, w) && w.pendingIn == []
    ensures
      var (v, w') := OutDecide(env, t, w, s);
      (GoesOn(v) ==> Sane(env, w')) && w'.pendingIn == []
  {
    var o := env.oracle(s.idx);
    if o.sim.Composed? && |o.sim.entries| == 1 && o.etherOut.Some? {
      var seen := ReadEscrow(w, o, o.etherOut.value);
      assert Sane(env, seen);
      if !(o.etherOut.value > 0 && seen.escrow.Some? && o.etherOut.value > seen.escrow.value) {
        OutAdmitSane(env, seen, s, o, o.sim.entries[0], o.etherOut.value);
      }
    }
  }

  /** The work state after deliveries were accepted. */
  function WithDeliveries(w: Work, targets: seq<Entry>, txs: seq<SyncTx>): Work {
    w.(draft := w.draft + txs, syncTxs := w.syncTxs + txs, appended := w.appended + |txs|,
       pendingIn := w.pendingIn + targets)
  }

  lemma {:induction false} DeliveriesStaySane(env: Env, w: Work, targets: seq<Entry>, txs: seq<SyncTx>)
    requires Sane(env, w) && Shapes(targets) && Sidecars(targets)
    requires BuildInbound(targets, env.cfg, env.nonce + w.appended) == Some(txs)
    requires env.gasUsed(w.draft) + DeliveryGas(|targets|) <= BUILDER_GAS_LIMIT
    ensures Sane(env, WithDeliveries(w, targets, txs))
  {
    NonceFits(env, w);
    if GasLaw(env) { DeliveriesFit(env, w.syncTxs, targets, env.nonce + w.appended, txs); }
    DeliveriesExtend(env, w, targets, txs);
    SaneParts(env, w, WithDeliveries(w, targets, txs));
  }

  lemma {:induction false} SaneParts(env: Env, w: Work, w': Work)
    requires Keystone(env, w') && Budgeted(env, w) && (GasLaw(env) ==> GasFits(env, w'.syncTxs))
    requires w'.projected == w.projected && w'.charges == w.charges && w'.escrow == w.escrow
    requires w'.drawn == w.drawn && w'.escrowSeen == w.escrowSeen
    ensures Sane(env, w')
  {
  }

  lemma {:induction false} NonceFits(env: Env, w: Work)
    requires Keystone(env, w)
    ensures env.nonce + w.appended <= U64_MAX
  {
  }

  lemma {:induction false} DeliveriesFit(env: Env, txs: seq<SyncTx>, targets: seq<Entry>, nonce: nat, more: seq<SyncTx>)
    requires GasLaw(env) && GasFits(env, txs) && nonce <= U64_MAX && BuildInbound(targets, env.cfg, nonce) == Some(more)
    requires env.gasUsed(txs) + DeliveryGas(|targets|) <= BUILDER_GAS_LIMIT
    ensures GasFits(env, txs + more)
  {
    InboundTop(targets, env.cfg, nonce);
    assert DeliveryGas(|more|) <= DeliveryGas(|targets|);
    DeliveryFits(env, txs, more);
  }

  lemma {:induction false} InAppendSane(env: Env, w: Work, s: Slot, o: Outcome, targets: seq<Entry>)
    requires Sane(env, w) && Shapes(targets)
    requires env.gasUsed(w.draft) + DeliveryGas(|targets|) <= BUILDER_GAS_LIMIT
    ensures
      var (v, w') := InAppend(env, w, s, o, targets);
      GoesOn(v) ==> Sane(env, w')
  {
    if Sidecars(targets) && BuildInbound(targets, env.cfg, env.nonce + w.appended).Some? {
      if o.append.Ran? {
        DeliveriesStaySane(env, w, targets, BuildInbound(targets, env.cfg, env.nonce + w.appended).value);
      } else {
        Reopened(env, w, o);
      }
    }
  }

  lemma {:induction false} InSane(env: Env, t: Tally, w: Work, s: Slot)
    requires Sane(env, w)
    ensures
      var (v, w') := InDecide(env, t, w, s);
      GoesOn(v) ==> Sane(env, w')
  {
    var o := env.oracle(s.idx);
    if o.sim.Composed? && Shapes(o.sim.entries) {
      var targets := o.sim.entries;
      var next := TryAccept(Cap(env.maxGas), w.projected, o.cost);
      if next.Some?
         && BlockGasFit(env.gasUsed(w.draft), SatMul(SYSTEM_TX_GAS_LIMIT, |targets|), BUILDER_GAS_LIMIT).Fits? {
        ChargedStaysSane(env, w, o.cost);
        DeliveryGasSaturates(|targets|, env.gasUsed(w.draft));
        InAppendSane(env, w.(projected := next.value, charges := w.charges + [o.cost]), s, o, targets);
      }
    }
  }

  /** Either direction: a verdict the drain goes on with leaves a sane work state, and outbound
      transactions never touch the inbound list. */
  lemma {:induction false} DecideSane(env: Env, t: Tally, w: Work, s: Slot)
    requires Sane(env, w) && (s.tx.direction == Outbound ==> w.pendingIn == [])
    ensures
      var (v, w') := Decide(env, t, w, s);
      && (GoesOn(v) ==> Sane(env, w'))
      && (s.tx.direction == Outbound ==> w'.pendingIn == [])
  {
    if s.tx.direction == Outbound { OutSane(env, t, w, s); } else { InSane(env, t, w, s); }
  }

  // ---- What the block holds is what was kept ---------------------------------------------------

  /** What an accepted slot adds to the block's lists. */
  function SlotOuts(env: Env, s: Slot): seq<OutEntry> {
    var sim := env.oracle(s.idx).sim;
    if s.tx.direction == Outbound && sim.Composed? && |sim.entries| == 1
    then [OutEntry(sim.entries[0], s.tx.raw)] else []
  }

  function SlotIns(env: Env, s: Slot): seq<Entry> {
    var sim := env.oracle(s.idx).sim;
    if s.tx.direction == Inbound && sim.Composed? then sim.entries else []
  }

  /** The ether a slot withdraws. */
  function Draws(env: Env, s: Slot): nat {
    var o := env.oracle(s.idx);
    if s.tx.direction == Outbound && o.etherOut.Some? then o.etherOut.value else 0
  }

  function OutsOf(env: Env, slots: seq<Slot>): seq<OutEntry> {
    if slots == [] then [] else OutsOf(env, slots[..|slots| - 1]) + SlotOuts(env, slots[|slots| - 1])
  }

  function InsOf(env: Env, slots: seq<Slot>): seq<Entry> {
    if slots == [] then [] else InsOf(env, slots[..|slots| - 1]) + SlotIns(env, slots[|slots| - 1])
  }

  function DrawsOf(env: Env, slots: seq<Slot>): nat {
    if slots == [] then 0 else DrawsOf(env, slots[..|slots| - 1]) + Draws(env, slots[|slots| - 1])
  }

  function CostsOf(env: Env, slots: seq<Slot>): seq<Cost> {
    if slots == [] then [] else CostsOf(env, slots[..|slots| - 1]) + [env.oracle(slots[|slots| - 1].idx).cost]
  }

  /** An accepted transaction was composed, an outbound one into exactly one entry. */
  predicate Composes(env: Env, s: Slot) {
    var sim := env.oracle(s.idx).sim;
    sim.Composed? && (s.tx.direction == Outbound ==> |sim.entries| == 1)
  }

  ghost predicate AllCompose(env: Env, slots: seq<Slot>) {
    forall s :: s in slots ==> Composes(env, s)
  }

  /** The lists are those of the accepted slots, in order; their costs are among the charges. */
  ghost predicate Tied(env: Env, kept: seq<Slot>, w: Work) {
    && AllCompose(env, kept)
    && w.pendingOut == OutsOf(env, kept) && w.pendingIn == InsOf(env, kept)
    && Sum(CostsOf(env, kept)) <= Sum(w.charges) && (kept != [] ==> w.charges != [])
    && Undrawn(w)
  }

  /** A withdrawal whose own read of the escrow failed, or nothing withdrawn at all. */
  predicate Unread(env: Env, s: Slot) {
    Draws(env, s) > 0 ==> env.oracle(s.idx).escrowRead.None?
  }

  ghost predicate Undrawn(w: Work) {
    w.escrow.None? ==> w.drawn == 0
  }

  /** What a verdict the drain goes on with does to the work state's books. */
  ghost predicate Booked(env: Env, w: Work, w': Work, s: Slot, v: Verdict) {
    && Undrawn(w')
    && (w'.charges == w.charges || w'.charges == w.charges + [env.oracle(s.idx).cost])
    && (v.Keep? ==> Composes(env, s) && w'.charges == w.charges + [env.oracle(s.idx).cost])
    && w'.pendingOut == w.pendingOut + (if v.Keep? then SlotOuts(env, s) else [])
    && w'.pendingIn == w.pendingIn + (if v.Keep? then SlotIns(env, s) else [])
    && (w.escrow.Some? ==> w'.escrow.Some?)
    && (w'.escrow.Some? ==> w'.drawn >= w.drawn + (if v.Keep? then Draws(env, s) else 0))
    && (w'.escrow.None? && v.Keep? ==> Unread(env, s))
  }

  lemma {:induction false} OutAppendBooks(env: Env, w: Work, s: Slot, o: Outcome, entry: Entry, need: nat)
    requires Undrawn(w)
    ensures
      var (v, w') := OutAppend(env, w, s, o, entry, need);
      GoesOn(v) ==>
        && Undrawn(w') && w'.charges == w.charges && w'.pendingIn == w.pendingIn
        && (w'.escrow.Some? <==> w.escrow.Some?)
        && w'.pendingOut == w.pendingOut + (if v.Keep? then [OutEntry(entry, s.tx.raw)] else [])
        && w'.drawn == w.drawn + (if v.Keep? && w.escrow.Some? then need else 0)
  {
  }

  lemma {:induction false} OutBooks(env: Env, t: Tally, w: Work, s: Slot)
    requires Undrawn(w) && s.tx.direction == Outbound
    ensures
      var (v, w') := OutDecide(env, t, w, s);
      GoesOn(v) ==> Booked(env, w, w', s, v)
  {
    var o := env.oracle(s.idx);
    if o.sim.Composed? && |o.sim.entries| == 1 && o.etherOut.Some? {
      var need := o.etherOut.value;
      var seen := ReadEscrow(w, o, need);
      var next := TryAccept(Cap(env.maxGas), seen.projected, o.cost);
      if next.Some? {
        var charged := seen.(projected := next.value, charges := seen.charges + [o.cost]);
        OutAppendBooks(env, charged, s, o, o.sim.entries[0], need);
      }
    }
  }

  lemma {:induction false} InBooks(env: Env, t: Tally, w: Work, s: Slot)
    requires Undrawn(w) && s.tx.direction == Inbound
    ensures
      var (v, w') := InDecide(env, t, w, s);
      GoesOn(v) ==> Booked(env, w, w', s, v)
  {
  }

  lemma {:induction false} DecideBooks(env: Env, t: Tally, w: Work, s: Slot)
    requires Undrawn(w)
    ensures
      var (v, w') := Decide(env, t, w, s);
      GoesOn(v) ==> Booked(env, w, w', s, v)
  {
    if s.tx.direction == Outbound { OutBooks(env, t, w, s); } else { InBooks(env, t, w, s); }
  }

  /** A refusal by the budget is a refusal of that very cost at the projection reached. */
  lemma {:induction false} CutRefuses(env: Env, t: Tally, w: Work, s: Slot)
    ensures
      var (v, w') := Decide(env, t, w, s);
      v == CutHere(false) ==> TryAccept(Cap(env.maxGas), w'.projected, env.oracle(s.idx).cost).None?
  {
  }

  lemma {:induction false} KeepTies(env: Env, kept: seq<Slot>, w: Work, w': Work, s: Slot)
    requires Tied(env, kept, w) && Booked(env, w, w', s, Keep)
    ensures Tied(env, kept + [s], w')
  {
    var all, cost := kept + [s], env.oracle(s.idx).cost;
    assert all[..|kept|] == kept;
    SumSnoc(CostsOf(env, kept), cost);
    SumSnoc(w.charges, cost);
  }

  lemma {:induction false} PassTies(env: Env, kept: seq<Slot>, w: Work, w': Work, s: Slot, v: Verdict)
    requires Tied(env, kept, w) && Booked(env, w, w', s, v) && !v.Keep?
    ensures Tied(env, kept, w')
  {
    SumSnoc(w.charges, env.oracle(s.idx).cost);
  }

  /** The books of a drain that did not abort, and the refusal behind a budget cut. */
  ghost predicate BookInv(env: Env, t: Tally, w: Work) {
    && (!t.stop.Aborted? ==> Tied(env, t.survivors, w))
    && (t.stop.Cut? && !t.stop.blockGas ==>
          t.stop.rest != [] && TryAccept(Cap(env.maxGas), w.projected, env.oracle(t.stop.rest[0].idx).cost).None?)
  }

  lemma {:induction false} StepKeepsBooks(env: Env, t: Tally, w: Work, s: Slot, rest: seq<Slot>)
    requires t.stop.Going? && BookInv(env, t, w)
    ensures
      var (v, w') := Decide(env, t, w, s);
      BookInv(env, Apply(t, s, rest, v), w')
  {
    var (v, w') := Decide(env, t, w, s);
    DecideBooks(env, t, w, s);
    CutRefuses(env, t, w, s);
    hide Decide, TryAccept, Booked, BookInv;
    AppliedBooks(env, t, w, s, rest, v, w');
  }

  lemma {:induction false} AppliedBooks(env: Env, t: Tally, w: Work, s: Slot, rest: seq<Slot>, v: Verdict, w': Work)
    requires t.stop.Going? && BookInv(env, t, w)
    requires GoesOn(v) ==> Booked(env, w, w', s, v)
    requires v == CutHere(false) ==> TryAccept(Cap(env.maxGas), w'.projected, env.oracle(s.idx).cost).None?
    ensures BookInv(env, Apply(t, s, rest, v), w')
  {
    hide TryAccept, Tied, Booked;
    if v.Keep? {
      KeepTies(env, t.survivors, w, w', s);
    } else if GoesOn(v) {
      PassTies(env, t.survivors, w, w', s, v);
    }
  }

  // ---- One class per transaction -------------------------------------------------------------

  function TxsOf(slots: seq<Slot>): (r: seq<HeldTx>)
    ensures |r| == |slots| && forall i :: 0 <= i < |r| ==> r[i] == slots[i].tx
  {
    seq(|slots|, i requires 0 <= i < |slots| => slots[i].tx)
  }

  /** How often each transaction hash occurs. */
  function Bag(txs: seq<HeldTx>): multiset<TxHash> {
    multiset(HashList(txs))
  }

  function SlotBag(slots: seq<Slot>): multiset<TxHash> {
    Bag(TxsOf(slots))
  }

  function StopRest(stop: Stop): seq<Slot> {
    if stop.Going? then [] else stop.rest
  }

  ghost function Placed(t: Tally): multiset<TxHash> {
    Bag(t.poison) + SlotBag(t.survivors) + SlotBag(t.funding) + SlotBag(StopRest(t.stop))
  }

  lemma {:induction false} BagAppend(a: seq<HeldTx>, b: seq<HeldTx>)
    ensures Bag(a + b) == Bag(a) + Bag(b)
  {
    assert HashList(a + b) == HashList(a) + HashList(b);
  }

  lemma {:induction false} BagOne(tx: HeldTx)
    ensures Bag([tx]) == multiset{tx.hash}
  {
    assert HashList([tx]) == [tx.hash];
  }

  lemma {:induction false} SlotBagAppend(a: seq<Slot>, b: seq<Slot>)
    ensures SlotBag(a + b) == SlotBag(a) + SlotBag(b)
  {
    assert TxsOf(a + b) == TxsOf(a) + TxsOf(b);
    BagAppend(TxsOf(a), TxsOf(b));
  }

  lemma {:induction false} SlotBagOne(s: Slot)
    ensures SlotBag([s]) == multiset{s.tx.hash}
  {
    assert TxsOf([s]) == [s.tx];
    BagOne(s.tx);
  }

  /** What has been placed is what has been tried, or everything once the drain stops. */
  ghost predicate Conserved(all: seq<Slot>, k: nat, t: Tally)
    requires k <= |all|
  {
    Placed(t) == SlotBag(if t.stop.Going? then all[..k] else all)
  }

  lemma {:induction false} BagSnoc(txs: seq<HeldTx>, tx: HeldTx)
    ensures Bag(txs + [tx]) == Bag(txs) + multiset{tx.hash}
  {
    BagAppend(txs, [tx]);
    BagOne(tx);
  }

  lemma {:induction false} SlotBagSnoc(slots: seq<Slot>, s: Slot)
    ensures SlotBag(slots + [s]) == SlotBag(slots) + multiset{s.tx.hash}
  {
    SlotBagAppend(slots, [s]);
    SlotBagOne(s);
  }

  lemma {:induction false} SlotBagCons(s: Slot, rest: seq<Slot>)
    ensures SlotBag([s] + rest) == multiset{s.tx.hash} + SlotBag(rest)
  {
    SlotBagAppend([s], rest);
    SlotBagOne(s);
  }

  lemma {:induction false} PoisonPlaces(t: Tally, t': Tally, tx: HeldTx, rest: seq<Slot>)
    requires t.stop.Going? && t'.poison == t.poison + [tx] && t'.survivors == t.survivors && t'.funding == t.funding
    requires StopRest(t'.stop) == rest
    ensures Placed(t') == Placed(t) + multiset{tx.hash} + SlotBag(rest)
  {
    BagSnoc(t.poison, tx);
    NoSlots();
  }

  lemma {:induction false} NoSlots()
    ensures SlotBag([]) == multiset{}
  {
    assert TxsOf([]) == [] && HashList([]) == [];
  }

  lemma {:induction false} FundingPlaces(t: Tally, t': Tally, f: Slot)
    requires t'.poison == t.poison && t'.survivors == t.survivors && t'.funding == t.funding + [f] && t'.stop == t.stop
    ensures Placed(t') == Placed(t) + multiset{f.tx.hash}
  {
    SlotBagSnoc(t.funding, f);
  }

  lemma {:induction false} KeepPlaces(t: Tally, s: Slot)
    ensures Placed(t.(survivors := t.survivors + [s])) == Placed(t) + multiset{s.tx.hash}
  {
    SlotBagSnoc(t.survivors, s);
  }

  lemma {:induction false} StopPlaces(t: Tally, stop: Stop, s: Slot, rest: seq<Slot>)
    requires t.stop.Going? && StopRest(stop) == [s] + rest
    ensures Placed(t.(stop := stop)) == Placed(t) + multiset{s.tx.hash} + SlotBag(rest)
  {
    SlotBagCons(s, rest);
    NoSlots();
  }

  /** A verdict places its transaction once, and everything left once the drain stops. */
  lemma {:induction false} ApplyPlaces(t: Tally, s: Slot, rest: seq<Slot>, v: Verdict)
    requires t.stop.Going?
    ensures
      var t' := Apply(t, s, rest, v);
      Placed(t') == Placed(t) + multiset{s.tx.hash} + SlotBag(if t'.stop.Going? then [] else rest)
  {
    var t' := Apply(t, s, rest, v);
    NoSlots();
    match v
    case Chained => PoisonPlaces(t, t', s.tx, []);
    case FundingChained => FundingPlaces(t, t', s);
    case Root => PoisonPlaces(t, t', s.tx, []);
    case Retry =>
      if Spends(s.tx) {
        PoisonPlaces(t, t', Charge(s.tx), []);
      } else {
        FundingPlaces(t, t', Slot(s.idx, Charge(s.tx)));
      }
    case RootThenAbort => PoisonPlaces(t, t', s.tx, rest);
    case AbortHere => StopPlaces(t, t'.stop, s, rest);
    case CutHere(_) => StopPlaces(t, t'.stop, s, rest);
    case Keep => KeepPlaces(t, s);
  }

  lemma {:induction false} ApplyConserves(all: seq<Slot>, k: nat, t: Tally, v: Verdict)
    requires k < |all| && t.stop.Going? && Conserved(all, k, t)
    ensures Conserved(all, k + 1, Apply(t, all[k], all[k + 1..], v))
  {
    ApplyPlaces(t, all[k], all[k + 1..], v);
    BagsSplit(all, k);
    NoSlots();
  }

  lemma {:induction false} BagsSplit(all: seq<Slot>, k: nat)
    requires k < |all|
    ensures SlotBag(all[..k + 1]) == SlotBag(all[..k]) + multiset{all[k].tx.hash}
    ensures SlotBag(all) == SlotBag(all[..k]) + multiset{all[k].tx.hash} + SlotBag(all[k + 1..])
  {
    assert all[..k + 1] == all[..k] + [all[k]];
    SlotBagSnoc(all[..k], all[k]);
    assert all == all[..k + 1] + all[k + 1..];
    SlotBagAppend(all[..k + 1], all[k + 1..]);
  }

  // ---- Accepted nonces are downward closed -----------------------------------------------------

  ghost predicate Ordered(all: seq<Slot>) {
    forall i, j :: 0 <= i < j < |all| && all[i].tx.Chain() == all[j].tx.Chain() ==> all[i].tx.nonce < all[j].tx.nonce
  }

  ghost predicate GapAtOrBelow(gaps: seq<Reservation>, tx: HeldTx) {
    exists g :: g in gaps && g.Chain() == tx.Chain() && g.nonce <= tx.nonce
  }

  ghost predicate Blocked(t: Tally, tx: HeldTx) {
    GapAtOrBelow(t.poisonGaps, tx) || GapAtOrBelow(t.fundingGaps, tx)
  }

  /** The gap is a transaction already tried. */
  ghost predicate Tried(all: seq<Slot>, k: nat, g: Reservation)
    requires k <= |all|
  {
    exists i :: 0 <= i < k && all[i].tx.Reserve() == g
  }

  /** Every survivor of the chain stands below the gap. */
  ghost predicate Clears(survivors: seq<Slot>, g: Reservation) {
    forall s :: s in survivors && s.tx.Chain() == g.Chain() ==> s.tx.nonce < g.nonce
  }

  ghost predicate Seen(all: seq<Slot>, k: nat, s: Slot)
    requires k <= |all|
  {
    exists i :: 0 <= i < k && all[i] == s
  }

  ghost predicate AllSeen(all: seq<Slot>, k: nat, slots: seq<Slot>)
    requires k <= |all|
  {
    forall s :: s in slots ==> Seen(all, k, s)
  }

  /** Whatever was tried survives or is blocked by a gap at or below it. */
  ghost predicate Decided(all: seq<Slot>, k: nat, t: Tally)
    requires k <= |all|
  {
    forall i :: 0 <= i < k ==> all[i] in t.survivors || Blocked(t, all[i].tx)
  }

  ghost predicate GapsSound(all: seq<Slot>, k: nat, gaps: seq<Reservation>, survivors: seq<Slot>)
    requires k <= |all|
  {
    forall g :: g in gaps ==> Tried(all, k, g) && Clears(survivors, g)
  }

  ghost predicate PoisonGapped(gaps: seq<Reservation>, poison: seq<HeldTx>) {
    forall p :: p in poison ==> GapAtOrBelow(gaps, p)
  }

  ghost predicate OutboundOnly(gaps: seq<Reservation>) {
    forall g :: g in gaps ==> g.direction == Outbound
  }

  ghost predicate Closed(all: seq<Slot>, k: nat, t: Tally)
    requires k <= |all|
  {
    && AllSeen(all, k, t.survivors)
    && Decided(all, k, t)
    && GapsSound(all, k, t.poisonGaps, t.survivors)
    && GapsSound(all, k, t.fundingGaps, t.survivors)
    && OutboundOnly(t.fundingGaps)
    && PoisonGapped(t.poisonGaps, t.poison)
  }

  /** What `Decide` promises about the gaps before it lets a transaction in. */
  ghost predicate Heeds(t: Tally, s: Slot, v: Verdict) {
    && (v.Chained? ==> AboveGap(t.poisonGaps, s.tx))
    && (v.FundingChained? ==> AboveGap(t.fundingGaps, s.tx))
    && (v.Keep? ==> !AboveGap(t.poisonGaps, s.tx) && (s.tx.direction == Outbound ==> !AboveGap(t.fundingGaps, s.tx)))
    && (v.Retry? ==> s.tx.direction == Outbound)
  }

  lemma {:induction false} DecideHeeds(env: Env, t: Tally, w: Work, s: Slot)
    ensures Heeds(t, s, Decide(env, t, w, s).0)
  {
  }

  lemma {:induction false} TriedLater(all: seq<Slot>, k: nat, g: Reservation)
    requires k < |all|
    ensures Tried(all, k, g) ==> Tried(all, k + 1, g)
    ensures Tried(all, k + 1, all[k].tx.Reserve())
  {
    assert all[k].tx.Reserve() == all[k].tx.Reserve();
  }

  /** A gap already tried on the chain of `all[k]` lies below it. */
  lemma {:induction false} TriedBelow(all: seq<Slot>, k: nat, g: Reservation)
    requires k < |all| && Ordered(all) && Tried(all, k, g) && g.Chain() == all[k].tx.Chain()
    ensures g.nonce < all[k].tx.nonce
  {
    var i :| 0 <= i < k && all[i].tx.Reserve() == g;
    assert all[i].tx.Chain() == all[k].tx.Chain();
  }

  /** Survivors were tried earlier, so a new gap at `all[k]` is above those of its chain. */
  lemma {:induction false} NewGapClears(all: seq<Slot>, k: nat, survivors: seq<Slot>)
    requires k < |all| && Ordered(all) && AllSeen(all, k, survivors)
    ensures Clears(survivors, all[k].tx.Reserve())
  {
    forall s | s in survivors && s.tx.Chain() == all[k].tx.Chain()
      ensures s.tx.nonce < all[k].tx.nonce
    {
      var i :| 0 <= i < k && all[i] == s;
    }
  }

  lemma {:induction false} SeenLater(all: seq<Slot>, k: nat, slots: seq<Slot>)
    requires k < |all| && AllSeen(all, k, slots)
    ensures AllSeen(all, k + 1, slots)
  {
    forall s | s in slots
      ensures Seen(all, k + 1, s)
    {
      var i :| 0 <= i < k && all[i] == s;
    }
  }

  lemma {:induction false} GapsLater(all: seq<Slot>, k: nat, gaps: seq<Reservation>, survivors: seq<Slot>)
    requires k < |all| && GapsSound(all, k, gaps, survivors)
    ensures GapsSound(all, k + 1, gaps, survivors)
  {
    forall g | g in gaps
      ensures Tried(all, k + 1, g)
    {
      TriedLater(all, k, g);
    }
  }

  lemma {:induction false} GapsAdd(all: seq<Slot>, k: nat, gaps: seq<Reservation>, survivors: seq<Slot>, tx: HeldTx)
    requires k < |all| && Ordered(all) && AllSeen(all, k, survivors) && GapsSound(all, k, gaps, survivors)
    requires tx.Reserve() == all[k].tx.Reserve()
    ensures GapsSound(all, k + 1, AddGap(gaps, tx), survivors)
  {
    GapsLater(all, k, gaps, survivors);
    NewGapClears(all, k, survivors);
    TriedLater(all, k, tx.Reserve());
    AddGapHas(gaps, tx);
  }

  lemma {:induction false} GapGrows(gaps: seq<Reservation>, root: HeldTx, tx: HeldTx)
    ensures GapAtOrBelow(gaps, tx) ==> GapAtOrBelow(AddGap(gaps, root), tx)
    ensures root.Reserve() == tx.Reserve() ==> GapAtOrBelow(AddGap(gaps, root), tx)
  {
    AddGapHas(gaps, root);
    if GapAtOrBelow(gaps, tx) {
      var g :| g in gaps && g.Chain() == tx.Chain() && g.nonce <= tx.nonce;
      assert g in AddGap(gaps, root);
    }
    if root.Reserve() == tx.Reserve() {
      var g := root.Reserve();
      assert g in AddGap(gaps, root) && g.Chain() == tx.Chain() && g.nonce <= tx.nonce;
    }
  }

  lemma {:induction false} AddGapHas(gaps: seq<Reservation>, tx: HeldTx)
    ensures forall g :: g in AddGap(gaps, tx) <==> g in gaps || g == tx.Reserve()
  {
  }

  lemma {:induction false} PoisonAdd(gaps: seq<Reservation>, poison: seq<HeldTx>, tx: HeldTx)
    requires PoisonGapped(gaps, poison)
    ensures PoisonGapped(AddGap(gaps, tx), poison + [tx])
  {
    forall p | p in poison + [tx]
      ensures GapAtOrBelow(AddGap(gaps, tx), p)
    {
      GapGrows(gaps, tx, p);
    }
  }

  lemma {:induction false} DecidedAdd(all: seq<Slot>, k: nat, t: Tally, t': Tally)
    requires k < |all| && Decided(all, k, t) && t'.survivors == t.survivors
    requires forall tx :: Blocked(t, tx) ==> Blocked(t', tx)
    requires Blocked(t', all[k].tx)
    ensures Decided(all, k + 1, t')
  {
  }

  /** A poison root and everything of its chain behind it are blocked. */
  lemma {:induction false} RootCloses(all: seq<Slot>, k: nat, t: Tally, tx: HeldTx)
    requires k < |all| && Ordered(all) && Closed(all, k, t) && tx.Reserve() == all[k].tx.Reserve()
    ensures Closed(all, k + 1, PushPoisonRoot(t, tx))
  {
    var t' := PushPoisonRoot(t, tx);
    SeenLater(all, k, t.survivors);
    GapsAdd(all, k, t.poisonGaps, t.survivors, tx);
    GapsLater(all, k, t.fundingGaps, t.survivors);
    PoisonAdd(t.poisonGaps, t.poison, tx);
    forall x: HeldTx | Blocked(t, x) || x == all[k].tx
      ensures Blocked(t', x)
    {
      GapGrows(t.poisonGaps, tx, x);
    }
    DecidedAdd(all, k, t, t');
  }

  lemma {:induction false} DeferCloses(all: seq<Slot>, k: nat, t: Tally, f: Slot)
    requires k < |all| && Ordered(all) && Closed(all, k, t) && f.tx.Reserve() == all[k].tx.Reserve()
    requires all[k].tx.direction == Outbound
    ensures Closed(all, k + 1, PushDeferredRoot(t, f))
  {
    var t' := PushDeferredRoot(t, f);
    SeenLater(all, k, t.survivors);
    GapsLater(all, k, t.poisonGaps, t.survivors);
    GapsAdd(all, k, t.fundingGaps, t.survivors, f.tx);
    AddGapHas(t.fundingGaps, f.tx);
    forall x: HeldTx | Blocked(t, x) || x == all[k].tx
      ensures Blocked(t', x)
    {
      GapGrows(t.fundingGaps, f.tx, x);
    }
    DecidedAdd(all, k, t, t');
  }

  lemma {:induction false} AboveIsBlocked(gaps: seq<Reservation>, tx: HeldTx)
    ensures AboveGap(gaps, tx) ==> GapAtOrBelow(gaps, tx)
  {
  }

  /** A transaction behind a gap adds nothing but itself. */
  lemma {:induction false} ChainCloses(all: seq<Slot>, k: nat, t: Tally, t': Tally)
    requires k < |all| && Closed(all, k, t) && t'.survivors == t.survivors
    requires t'.poisonGaps == t.poisonGaps && t'.fundingGaps == t.fundingGaps
    requires Blocked(t, all[k].tx) && PoisonGapped(t.poisonGaps, t'.poison)
    ensures Closed(all, k + 1, t')
  {
    SeenLater(all, k, t.survivors);
    GapsLater(all, k, t.poisonGaps, t.survivors);
    GapsLater(all, k, t.fundingGaps, t.survivors);
    DecidedAdd(all, k, t, t');
  }

  /** No gap of its chain exists when a transaction is let in. */
  lemma {:induction false} KeepClears(all: seq<Slot>, k: nat, gaps: seq<Reservation>, survivors: seq<Slot>)
    requires k < |all| && Ordered(all) && GapsSound(all, k, gaps, survivors)
    requires !AboveGap(gaps, all[k].tx) || forall g :: g in gaps ==> g.Chain() != all[k].tx.Chain()
    ensures GapsSound(all, k + 1, gaps, survivors + [all[k]])
  {
    GapsLater(all, k, gaps, survivors);
    forall g | g in gaps
      ensures Clears(survivors + [all[k]], g)
    {
      if g.Chain() == all[k].tx.Chain() { TriedBelow(all, k, g); }
    }
  }

  lemma {:induction false} KeepCloses(all: seq<Slot>, k: nat, t: Tally)
    requires k < |all| && Ordered(all) && Closed(all, k, t) && Heeds(t, all[k], Keep)
    ensures Closed(all, k + 1, t.(survivors := t.survivors + [all[k]]))
  {
    SeenLater(all, k, t.survivors);
    assert Seen(all, k + 1, all[k]);
    KeepClears(all, k, t.poisonGaps, t.survivors);
    KeepClears(all, k, t.fundingGaps, t.survivors);
    assert Decided(all, k + 1, t.(survivors := t.survivors + [all[k]]));
  }

  lemma {:induction false} ApplyCloses(all: seq<Slot>, k: nat, t: Tally, v: Verdict)
    requires k < |all| && Ordered(all) && Closed(all, k, t) && Heeds(t, all[k], v)
    ensures Closed(all, if v.AbortHere? || v.CutHere? then k else k + 1, Apply(t, all[k], all[k + 1..], v))
  {
    var s := all[k];
    var t' := Apply(t, s, all[k + 1..], v);
    match v
    case Chained =>
      AboveIsBlocked(t.poisonGaps, s.tx);
      ChainCloses(all, k, t, t');
    case FundingChained =>
      AboveIsBlocked(t.fundingGaps, s.tx);
      ChainCloses(all, k, t, t');
    case Root => RootCloses(all, k, t, s.tx);
    case Retry =>
      if Spends(s.tx) {
        RootCloses(all, k, t, Charge(s.tx));
      } else {
        DeferCloses(all, k, t, Slot(s.idx, Charge(s.tx)));
      }
    case RootThenAbort =>
      RootCloses(all, k, t, s.tx);
      SameLists(all, k + 1, PushPoisonRoot(t, s.tx), t');
    case AbortHere => SameLists(all, k, t, t');
    case CutHere(_) => SameLists(all, k, t, t');
    case Keep => KeepCloses(all, k, t);
  }

  /** Stopping changes none of the lists. */
  lemma {:induction false} SameLists(all: seq<Slot>, k: nat, t: Tally, t': Tally)
    requires k <= |all| && Closed(all, k, t) && t' == t.(stop := t'.stop)
    ensures Closed(all, k, t')
  {
    assert forall tx :: Blocked(t', tx) <==> Blocked(t, tx);
  }

  /** Every earlier nonce of a survivor's chain survives too, and the poison sweep stays above it. */
  lemma {:induction false} SurvivorsAreClosed(all: seq<Slot>, k: nat, t: Tally, s: Slot, r: Slot)
    requires k <= |all| && Ordered(all) && Closed(all, k, t)
    requires s in t.survivors && r in all && r.tx.Chain() == s.tx.Chain() && r.tx.nonce < s.tx.nonce
    ensures r in t.survivors
  {
    assert Seen(all, k, s);
    var j :| 0 <= j < k && all[j] == s;
    var i :| 0 <= i < |all| && all[i] == r;
    assert !(j < i) && i < k;
    assert !GapAtOrBelow(t.poisonGaps, r.tx) by { ClearedHasNoGap(t.poisonGaps, t.survivors, s, r.tx, all, k); }
    assert !GapAtOrBelow(t.fundingGaps, r.tx) by { ClearedHasNoGap(t.fundingGaps, t.survivors, s, r.tx, all, k); }
    assert Decided(all, k, t) && !Blocked(t, r.tx);
  }

  lemma {:induction false} ClearedHasNoGap(
    gaps: seq<Reservation>, survivors: seq<Slot>, s: Slot, tx: HeldTx, all: seq<Slot>, k: nat)
    requires k <= |all| && GapsSound(all, k, gaps, survivors) && s in survivors
    requires tx.Chain() == s.tx.Chain() && tx.nonce < s.tx.nonce
    ensures !GapAtOrBelow(gaps, tx)
  {
  }

  /** The poison sweep starts above every survivor of the chain. */
  lemma {:induction false} SweepSparesSurvivors(all: seq<Slot>, k: nat, t: Tally, s: Slot, p: HeldTx)
    requires k <= |all| && Closed(all, k, t) && s in t.survivors && p in t.poison && p.Chain() == s.tx.Chain()
    ensures s.tx.nonce < p.nonce
  {
    assert GapAtOrBelow(t.poisonGaps, p);
    var g :| g in t.poisonGaps && g.Chain() == p.Chain() && g.nonce <= p.nonce;
    assert Clears(t.survivors, g);
  }

  // ---- Where everything came from ---------------------------------------------------------------

  ghost predicate FromAll(all: seq<Slot>, tx: HeldTx) {
    exists i :: 0 <= i < |all| && tx == all[i].tx.(attempts := tx.attempts)
  }

  /** A held-back slot is one of the drain's, charged at most once and still within bounds. */
  ghost predicate BackSlot(all: seq<Slot>, f: Slot) {
    exists i :: 0 <= i < |all| && all[i].idx == f.idx
      && (f.tx == all[i].tx || (f.tx == Charge(all[i].tx) && !Spends(all[i].tx)))
  }

  ghost predicate Origins(all: seq<Slot>, t: Tally) {
    && (forall s :: s in t.survivors ==> s in all)
    && (forall s :: s in t.funding ==> BackSlot(all, s))
    && (forall s :: s in StopRest(t.stop) ==> s in all)
    && (forall p :: p in t.poison ==> FromAll(all, p))
  }

  lemma {:induction false} ApplyOrigins(all: seq<Slot>, k: nat, t: Tally, v: Verdict)
    requires k < |all| && t.stop.Going? && Origins(all, t)
    ensures Origins(all, Apply(t, all[k], all[k + 1..], v))
  {
    var s := all[k];
    assert s in all && s.tx == all[k].tx.(attempts := s.tx.attempts);
    assert FromAll(all, s.tx) && FromAll(all, Charge(s.tx)) by {
      assert Charge(s.tx) == all[k].tx.(attempts := Charge(s.tx).attempts);
    }
    assert BackSlot(all, s) by { assert all[k].idx == s.idx && s.tx == all[k].tx; }
    assert !Spends(s.tx) ==> BackSlot(all, Slot(s.idx, Charge(s.tx))) by {
      assert all[k].idx == s.idx;
    }
    assert forall r :: r in all[k + 1..] ==> r in all;
  }

  // ---- The whole drain --------------------------------------------------------------------------

  lemma {:induction false} CutNeedsGas(env: Env, t: Tally, w: Work, s: Slot)
    requires GasLaw(env) && Decide(env, t, w, s).0 == CutHere(true)
    ensures w.draft != []
  {
  }

  lemma {:induction false} OnlyKeepExtends(env: Env, t: Tally, w: Work, s: Slot)
    ensures
      var (v, w') := Decide(env, t, w, s);
      GoesOn(v) && !v.Keep? ==> w'.syncTxs == w.syncTxs
  {
  }

  ghost predicate Finished(all: seq<Slot>, t: Tally) {
    exists k :: 0 <= k <= |all| && Closed(all, k, t)
  }

  /** The lists after `k` transactions. */
  ghost predicate ListInv(all: seq<Slot>, k: nat, t: Tally)
    requires k <= |all|
  {
    && Conserved(all, k, t)
    && Origins(all, t)
    && (Ordered(all) ==> if t.stop.Going? then Closed(all, k, t) else Finished(all, t))
    && (t.stop.Cut? ==> t.stop.rest != [])
    && RootsListed(t)
    && PoisonGapped(t.poisonGaps, t.poison)
  }

  lemma {:induction false} ApplyGapped(t: Tally, s: Slot, rest: seq<Slot>, v: Verdict)
    requires PoisonGapped(t.poisonGaps, t.poison) && Heeds(t, s, v)
    ensures
      var t' := Apply(t, s, rest, v);
      PoisonGapped(t'.poisonGaps, t'.poison)
  {
    AboveIsBlocked(t.poisonGaps, s.tx);
    PoisonAdd(t.poisonGaps, t.poison, s.tx);
    PoisonAdd(t.poisonGaps, t.poison, Charge(s.tx));
  }

  /** Every poison gap is the nonce of an evicted transaction. */
  ghost predicate RootsListed(t: Tally) {
    forall g :: g in t.poisonGaps ==> g in Gaps(t.poison)
  }

  lemma {:induction false} ApplyLists(t: Tally, s: Slot, rest: seq<Slot>, v: Verdict)
    requires RootsListed(t)
    ensures RootsListed(Apply(t, s, rest, v))
  {
    var t' := Apply(t, s, rest, v);
    assert |t'.poison| >= |t.poison| && t'.poison[..|t.poison|] == t.poison;
    forall g | g in t'.poisonGaps
      ensures g in Gaps(t'.poison)
    {
      if g in t.poisonGaps {
        var i :| 0 <= i < |t.poison| && Gaps(t.poison)[i] == g;
        assert Gaps(t'.poison)[i] == g;
      } else {
        assert Gaps(t'.poison)[|t.poison|] == g;
      }
    }
  }

  /** The block after any number of transactions: unless the slot aborts it stays sane, and gas
      on the block means something was accepted. */
  ghost predicate WorkInv(env: Env, t: Tally, w: Work) {
    && (!t.stop.Aborted? ==> Sane(env, w) && (w.syncTxs != [] ==> t.survivors != []))
    && (GasLaw(env) && t.stop.Cut? && t.stop.blockGas ==> t.survivors != [])
  }

  ghost predicate DrainInv(env: Env, all: seq<Slot>, k: nat, t: Tally, w: Work)
    requires k <= |all|
  {
    ListInv(all, k, t) && WorkInv(env, t, w)
  }

  lemma {:induction false} ApplyFinishes(all: seq<Slot>, k: nat, t: Tally, v: Verdict)
    requires k < |all| && t.stop.Going? && Ordered(all) && Closed(all, k, t) && Heeds(t, all[k], v)
    ensures
      var t' := Apply(t, all[k], all[k + 1..], v);
      if t'.stop.Going? then Closed(all, k + 1, t') else Finished(all, t')
  {
    ApplyCloses(all, k, t, v);
  }

  lemma {:induction false} ApplyKeepsLists(all: seq<Slot>, k: nat, t: Tally, v: Verdict, t': Tally)
    requires k < |all| && t.stop.Going? && ListInv(all, k, t) && Heeds(t, all[k], v)
    requires t' == Apply(t, all[k], all[k + 1..], v)
    ensures ListInv(all, k + 1, t')
  {
    ApplyConserves(all, k, t, v);
    ApplyOrigins(all, k, t, v);
    ApplyLists(t, all[k], all[k + 1..], v);
    ApplyGapped(t, all[k], all[k + 1..], v);
    if Ordered(all) { ApplyFinishes(all, k, t, v); }
  }

  lemma {:induction false} StepKeepsLists(env: Env, all: seq<Slot>, k: nat, t: Tally, w: Work)
    requires k < |all| && t.stop.Going? && ListInv(all, k, t)
    ensures ListInv(all, k + 1, Apply(t, all[k], all[k + 1..], Decide(env, t, w, all[k]).0))
  {
    var v := Decide(env, t, w, all[k]).0;
    DecideHeeds(env, t, w, all[k]);
    ApplyKeepsLists(all, k, t, v, Apply(t, all[k], all[k + 1..], v));
  }

  lemma {:induction false} StepKeepsWork(env: Env, t: Tally, w: Work, s: Slot, rest: seq<Slot>)
    requires t.stop.Going? && WorkInv(env, t, w) && (s.tx.direction == Outbound ==> w.pendingIn == [])
    ensures
      var (v, w') := Decide(env, t, w, s);
      && WorkInv(env, Apply(t, s, rest, v), w')
      && (s.tx.direction == Outbound ==> w'.pendingIn == [])
  {
    var (v, w') := Decide(env, t, w, s);
    DecideSane(env, t, w, s);
    OnlyKeepExtends(env, t, w, s);
    if GasLaw(env) && v == CutHere(true) { CutNeedsGas(env, t, w, s); }
    AppliedWork(env, t, w, s, rest, v, w');
  }

  lemma {:induction false} AppliedWork(env: Env, t: Tally, w: Work, s: Slot, rest: seq<Slot>, v: Verdict, w': Work)
    requires t.stop.Going? && WorkInv(env, t, w)
    requires GoesOn(v) ==> Sane(env, w')
    requires GoesOn(v) && !v.Keep? ==> w'.syncTxs == w.syncTxs
    requires GasLaw(env) && v == CutHere(true) ==> w.draft != []
    ensures WorkInv(env, Apply(t, s, rest, v), w')
  {
    assert w.draft == w.syncTxs;
  }

  /** One transaction of the drain. */
  function TryOne(env: Env, all: seq<Slot>, k: nat, t: Tally, w: Work): (Tally, Work)
    requires k < |all|
  {
    var (v, w') := Decide(env, t, w, all[k]);
    (Apply(t, all[k], all[k + 1..], v), w')
  }

  /** The first `k` transactions, or fewer if one of them stopped the drain. */
  function Run(env: Env, all: seq<Slot>, k: nat): (Tally, Work)
    requires k <= |all|
  {
    if k == 0 then (NOTHING, Fresh())
    else
      var (t, w) := Run(env, all, k - 1);
      if t.stop.Going? then TryOne(env, all, k - 1, t, w) else (t, w)
  }

  lemma {:induction false} TryOneKeeps(env: Env, all: seq<Slot>, k: nat, t: Tally, w: Work)
    requires k < |all| && t.stop.Going? && DrainInv(env, all, k, t, w)
    requires all[k].tx.direction == Outbound ==> w.pendingIn == []
    ensures
      var (t', w') := TryOne(env, all, k, t, w);
      DrainInv(env, all, k + 1, t', w') && (all[k].tx.direction == Outbound ==> w'.pendingIn == [])
  {
    StepKeepsLists(env, all, k, t, w);
    StepKeepsWork(env, t, w, all[k], all[k + 1..]);
  }

  /** Outbound transactions come first. */
  ghost predicate Phased(all: seq<Slot>, outs: nat) {
    && outs <= |all|
    && (forall i :: 0 <= i < outs ==> all[i].tx.direction == Outbound)
    && (forall i :: outs <= i < |all| ==> all[i].tx.direction == Inbound)
  }

  /** The invariant together with the phase fact. */
  ghost predicate PhaseInv(env: Env, all: seq<Slot>, outs: nat, k: nat, t: Tally, w: Work)
    requires k <= |all|
  {
    DrainInv(env, all, k, t, w) && (k <= outs ==> w.pendingIn == [])
  }

  lemma {:induction false} NextKeeps(
    env: Env, all: seq<Slot>, outs: nat, k: nat, t: Tally, w: Work, t': Tally, w': Work)
    requires k < |all| && Phased(all, outs) && PhaseInv(env, all, outs, k, t, w)
    requires (t', w') == if t.stop.Going? then TryOne(env, all, k, t, w) else (t, w)
    ensures PhaseInv(env, all, outs, k + 1, t', w')
  {
    if t.stop.Going? {
      TryOneKeeps(env, all, k, t, w);
    } else {
      StoppedHolds(all, k, k + 1, t);
    }
  }

  lemma {:induction false} RunKeeps(env: Env, all: seq<Slot>, outs: nat, k: nat, t: Tally, w: Work)
    requires k <= |all| && Phased(all, outs) && (t, w) == Run(env, all, k)
    ensures PhaseInv(env, all, outs, k, t, w)
  {
    if k == 0 {
      Starts(env, all);
    } else {
      var (t0, w0) := Run(env, all, k - 1);
      RunKeeps(env, all, outs, k - 1, t0, w0);
      NextKeeps(env, all, outs, k - 1, t0, w0, t, w);
    }
  }

  lemma {:induction false} RunKeepsBooks(env: Env, all: seq<Slot>, k: nat, t: Tally, w: Work)
    requires k <= |all| && (t, w) == Run(env, all, k)
    ensures BookInv(env, t, w)
  {
    if k > 0 {
      var (t0, w0) := Run(env, all, k - 1);
      RunKeepsBooks(env, all, k - 1, t0, w0);
      if t0.stop.Going? { StepKeepsBooks(env, t0, w0, all[k - 1], all[k..]); }
    }
  }

  /** How many of the first `k` transactions were tried before the escrow was known. */
  ghost function Blind(env: Env, all: seq<Slot>, k: nat): (b: nat)
    requires k <= |all|
    ensures b <= k
  {
    if k == 0 || Run(env, all, k).1.escrow.None? then k else Blind(env, all, k - 1)
  }

  /** `n` of the accepted withdrawals preceded the first successful read of the escrow, each after a
      read of its own that failed; all later ones together stay within what was drawn. */
  ghost predicate Checked(env: Env, kept: seq<Slot>, n: nat, drawn: nat) {
    && n <= |kept|
    && (forall i :: 0 <= i < n ==> Unread(env, kept[i]))
    && DrawsOf(env, kept[n..]) <= drawn
  }

  lemma {:induction false} RunChecks(env: Env, all: seq<Slot>, k: nat, t: Tally, w: Work)
    requires k <= |all| && (t, w) == Run(env, all, k) && !t.stop.Aborted?
    ensures
      var before := Run(env, all, Blind(env, all, k)).0.survivors;
      before <= t.survivors && Checked(env, t.survivors, |before|, w.drawn)
  {
    if k == 0 {
      ChecksNothing(env);
    } else {
      var (t0, w0) := Run(env, all, k - 1);
      var before := Run(env, all, Blind(env, all, k - 1)).0.survivors;
      BlindIs(env, all, k);
      BlindIs(env, all, k - 1);
      RunStep(env, all, k);
      hide Run, Decide, Blind, Checked, Booked, Apply;
      RunChecks(env, all, k - 1, t0, w0);
      if t0.stop.Going? {
        var v := Decide(env, t0, w0, all[k - 1]).0;
        RunBooked(env, all, k, t0, w0);
        CheckedStep(env, t0.survivors, t.survivors, w0, w, all[k - 1], v, before);
      }
    }
  }

  lemma {:induction false} ChecksNothing(env: Env)
    ensures Checked(env, [], 0, 0)
  {
  }

  lemma {:induction false} BlindIs(env: Env, all: seq<Slot>, k: nat)
    requires k <= |all|
    ensures k == 0 || Run(env, all, k).1.escrow.None? ==> Blind(env, all, k) == k
    ensures k > 0 && Run(env, all, k).1.escrow.Some? ==> Blind(env, all, k) == Blind(env, all, k - 1)
  {
  }

  lemma {:induction false} RunStep(env: Env, all: seq<Slot>, k: nat)
    requires 0 < k <= |all|
    ensures
      var (t0, w0) := Run(env, all, k - 1);
      var (t, w) := Run(env, all, k);
      var (v, w') := Decide(env, t0, w0, all[k - 1]);
      if t0.stop.Going?
      then w == w' && (t.stop.Aborted? <==> !GoesOn(v))
           && t.survivors == t0.survivors + (if v.Keep? then [all[k - 1]] else [])
      else (t, w) == (t0, w0)
  {
    hide Decide, Apply;
    var (t0, w0) := Run(env, all, k - 1);
    ApplySurvivors(t0, all[k - 1], all[k..], Decide(env, t0, w0, all[k - 1]).0);
  }

  lemma {:induction false} ApplySurvivors(t: Tally, s: Slot, rest: seq<Slot>, v: Verdict)
    ensures Apply(t, s, rest, v).survivors == t.survivors + (if v.Keep? then [s] else [])
    ensures t.stop.Going? ==> (Apply(t, s, rest, v).stop.Aborted? <==> !GoesOn(v))
  {
    assert t.survivors + [] == t.survivors;
  }

  lemma {:induction false} RunBooked(env: Env, all: seq<Slot>, k: nat, t0: Tally, w0: Work)
    requires 0 < k <= |all| && (t0, w0) == Run(env, all, k - 1) && t0.stop.Going?
    ensures
      var (v, w') := Decide(env, t0, w0, all[k - 1]);
      GoesOn(v) ==> Booked(env, w0, w', all[k - 1], v)
  {
    hide Run, Decide, Booked;
    RunKeepsBooks(env, all, k - 1, t0, w0);
    DecideBooks(env, t0, w0, all[k - 1]);
  }

  lemma {:induction false} CheckedStep(
    env: Env, kept: seq<Slot>, kept': seq<Slot>, w: Work, w': Work, s: Slot, v: Verdict, before: seq<Slot>)
    requires before <= kept && Checked(env, kept, |before|, w.drawn) && (w.escrow.None? ==> before == kept)
    requires Booked(env, w, w', s, v) && kept' == kept + (if v.Keep? then [s] else [])
    ensures w'.escrow.Some? ==> before <= kept' && Checked(env, kept', |before|, w'.drawn)
    ensures w'.escrow.None? ==> Checked(env, kept', |kept'|, w'.drawn)
  {
    var n := |before|;
    assert kept'[|kept'|..] == [];
    if v.Keep? {
      assert kept'[n..] == kept[n..] + [s];
      DrawsSnoc(env, kept[n..], s);
    } else {
      assert kept' == kept;
    }
  }

  lemma {:induction false} DrawsSnoc(env: Env, slots: seq<Slot>, s: Slot)
    ensures DrawsOf(env, slots + [s]) == DrawsOf(env, slots) + Draws(env, s)
  {
    assert (slots + [s])[..|slots|] == slots;
  }

  lemma {:induction false} RunStays(env: Env, all: seq<Slot>, k: nat, n: nat)
    requires k <= n <= |all| && !Run(env, all, k).0.stop.Going?
    ensures Run(env, all, n) == Run(env, all, k)
  {
    if k < n { RunStays(env, all, k, n - 1); }
  }

  /** Both phases: all outbound transactions, each against the draft its predecessors left, then
      all inbound ones unless the drain has stopped. */
  method Compose(env: Env, outs: seq<Slot>, ins: seq<Slot>) returns (t: Tally, w: Work)
    ensures (t, w) == Run(env, outs + ins, |outs + ins|)
  {
    var all := outs + ins;
    var k := 0;
    t, w := NOTHING, Fresh();
    while k < |outs| && t.stop.Going?
      invariant k <= |outs| && (t, w) == Run(env, all, k)
      decreases |outs| - k
    {
      var (t', w') := TryOne(env, all, k, t, w);
      t, w, k := t', w', k + 1;
    }
    while k < |all| && t.stop.Going?
      invariant k <= |all| && (t, w) == Run(env, all, k)
      decreases |all| - k
    {
      var (t', w') := TryOne(env, all, k, t, w);
      t, w, k := t', w', k + 1;
    }
    if !t.stop.Going? { RunStays(env, all, k, |all|); }
  }

  lemma {:induction false} Starts(env: Env, all: seq<Slot>)
    ensures DrainInv(env, all, 0, NOTHING, Fresh())
  {
    assert TxsOf([]) == [] && HashList([]) == [];
    assert all[..0] == [];
    assert Interleave([]) + [] == [];
    assert Keystone(env, Fresh());
  }

  /** Once stopped, the position no longer matters. */
  lemma {:induction false} StoppedHolds(all: seq<Slot>, k: nat, n: nat, t: Tally)
    requires k <= n <= |all| && ListInv(all, k, t) && !t.stop.Going?
    ensures ListInv(all, n, t)
  {
  }

  // ---- Pool order ----------------------------------------------------------------------------

  function Insert(sorted: seq<Slot>, s: Slot): seq<Slot> {
    if sorted == [] || sorted[|sorted| - 1].idx <= s.idx then sorted + [s]
    else Insert(sorted[..|sorted| - 1], s) + [sorted[|sorted| - 1]]
  }

  function SortByIdx(slots: seq<Slot>): seq<Slot> {
    if slots == [] then [] else Insert(SortByIdx(slots[..|slots| - 1]), slots[|slots| - 1])
  }

  /** `restore_pool_order`: back to the order the pool dealt the transactions in. */
  function RestorePoolOrder(slots: seq<Slot>): seq<HeldTx> {
    TxsOf(SortByIdx(slots))
  }

  ghost predicate Ascending(slots: seq<Slot>) {
    forall i, j :: 0 <= i < j < |slots| ==> slots[i].idx <= slots[j].idx
  }

  lemma {:induction false} InsertFacts(sorted: seq<Slot>, s: Slot)
    requires Ascending(sorted)
    ensures Ascending(Insert(sorted, s))
    ensures multiset(Insert(sorted, s)) == multiset(sorted) + multiset{s}
  {
    if sorted == [] || sorted[|sorted| - 1].idx <= s.idx {
      AscendingSnoc(sorted, s);
    } else {
      var init, last := sorted[..|sorted| - 1], sorted[|sorted| - 1];
      assert sorted == init + [last];
      InsertFacts(init, s);
      assert Insert(sorted, s) == Insert(init, s) + [last];
      forall x | x in Insert(init, s)
        ensures x.idx <= last.idx
      {
        assert x in multiset(Insert(init, s));
      }
      AscendingSnoc(Insert(init, s), last);
    }
  }

  lemma {:induction false} AscendingSnoc(slots: seq<Slot>, s: Slot)
    requires Ascending(slots)
    requires (slots != [] && slots[|slots| - 1].idx <= s.idx) || forall x :: x in slots ==> x.idx <= s.idx
    ensures Ascending(slots + [s])
  {
  }

  lemma {:induction false} SortFacts(slots: seq<Slot>)
    ensures Ascending(SortByIdx(slots))
    ensures multiset(SortByIdx(slots)) == multiset(slots)
  {
    if slots != [] {
      var init, last := slots[..|slots| - 1], slots[|slots| - 1];
      assert slots == init + [last];
      SortFacts(init);
      InsertFacts(SortByIdx(init), last);
    }
  }

  lemma {:induction false} SortMembers(slots: seq<Slot>)
    ensures forall s :: s in SortByIdx(slots) <==> s in slots
    ensures |SortByIdx(slots)| == |slots|
  {
    SortFacts(slots);
    assert |multiset(SortByIdx(slots))| == |multiset(slots)|;
    forall s
      ensures s in SortByIdx(slots) <==> s in slots
    {
      assert s in SortByIdx(slots) <==> s in multiset(SortByIdx(slots));
    }
  }

  lemma {:induction false} InsertBag(sorted: seq<Slot>, s: Slot)
    ensures SlotBag(Insert(sorted, s)) == SlotBag(sorted) + multiset{s.tx.hash}
  {
    if sorted == [] || sorted[|sorted| - 1].idx <= s.idx {
      SlotBagSnoc(sorted, s);
    } else {
      var init, last := sorted[..|sorted| - 1], sorted[|sorted| - 1];
      assert sorted == init + [last];
      InsertBag(init, s);
      SlotBagSnoc(init, last);
      SlotBagSnoc(Insert(init, s), last);
    }
  }

  lemma {:induction false} SortBag(slots: seq<Slot>)
    ensures SlotBag(SortByIdx(slots)) == SlotBag(slots)
  {
    if slots != [] {
      var init, last := slots[..|slots| - 1], slots[|slots| - 1];
      assert slots == init + [last];
      SortBag(init);
      InsertBag(SortByIdx(init), last);
      SlotBagSnoc(init, last);
    }
  }

  /** A slot of the drain, up to its attempt count. */
  ghost predicate Dealt(live: seq<HeldTx>, s: Slot) {
    s.idx < |live| && s.tx == live[s.idx].(attempts := s.tx.attempts)
  }

  lemma {:induction false} BagTwice(txs: seq<HeldTx>, i: nat, j: nat)
    requires i < j < |txs| && txs[i].hash == txs[j].hash
    ensures Bag(txs)[txs[i].hash] >= 2
  {
    var a, b := txs[..j], txs[j..];
    assert txs == a + b;
    BagAppend(a, b);
    assert HashList(a)[i] == txs[i].hash && HashList(b)[0] == txs[j].hash;
    assert txs[i].hash in multiset(HashList(a)) && txs[i].hash in multiset(HashList(b));
  }

  lemma {:induction false} DistinctBag(txs: seq<HeldTx>, h: TxHash)
    requires Distinct(txs)
    ensures Bag(txs)[h] <= 1
  {
    if txs == [] {
      assert HashList(txs) == [];
    } else {
      var init, last := txs[..|txs| - 1], txs[|txs| - 1];
      assert txs == init + [last];
      DistinctBag(init, h);
      BagSnoc(init, last);
      forall i | 0 <= i < |init|
        ensures HashList(init)[i] != last.hash
      {
        assert txs[i] == init[i] && txs[|init|] == last;
      }
      assert last.hash !in HashList(init);
    }
  }

  /** Slots dealt at most once return in the pool's own order. */
  lemma {:induction false} RestoredInOrder(live: seq<HeldTx>, slots: seq<Slot>)
    requires Distinct(live) && ChainOrdered(live) && SlotBag(slots) <= Bag(live)
    requires forall s :: s in slots ==> Dealt(live, s)
    ensures ChainOrdered(RestorePoolOrder(slots))
  {
    var sorted := SortByIdx(slots);
    SortFacts(slots);
    SortMembers(slots);
    SortBag(slots);
    forall i, j | 0 <= i < j < |sorted| && sorted[i].tx.Chain() == sorted[j].tx.Chain()
      ensures sorted[i].tx.nonce < sorted[j].tx.nonce
    {
      assert Dealt(live, sorted[i]) && Dealt(live, sorted[j]);
      if sorted[i].idx == sorted[j].idx {
        BagTwice(TxsOf(sorted), i, j);
        DistinctBag(live, sorted[i].tx.hash);
      }
    }
  }

  // ---- From the drained list to its classes ------------------------------------------------------

  function Enumerate(live: seq<HeldTx>): (r: seq<Slot>)
    ensures |r| == |live| && forall i :: 0 <= i < |r| ==> r[i] == Slot(i, live[i])
  {
    seq(|live|, i requires 0 <= i < |live| => Slot(i, live[i]))
  }

  function ByDirection(slots: seq<Slot>, d: Direction): seq<Slot> {
    if slots == [] then []
    else
      var last := slots[|slots| - 1];
      ByDirection(slots[..|slots| - 1], d) + (if last.tx.direction == d then [last] else [])
  }

  /** All outbound slots, then all inbound ones. */
  function Phases(live: seq<HeldTx>): seq<Slot> {
    ByDirection(Enumerate(live), Outbound) + ByDirection(Enumerate(live), Inbound)
  }

  ghost predicate SlotsOrdered(slots: seq<Slot>) {
    forall i, j :: 0 <= i < j < |slots| ==> slots[i].idx < slots[j].idx
  }

  lemma {:induction false} DirectionFacts(slots: seq<Slot>, d: Direction)
    requires SlotsOrdered(slots)
    ensures forall s :: s in ByDirection(slots, d) <==> s in slots && s.tx.direction == d
    ensures SlotsOrdered(ByDirection(slots, d))
  {
    if slots != [] {
      var init, last := slots[..|slots| - 1], slots[|slots| - 1];
      assert slots == init + [last];
      DirectionFacts(init, d);
      forall s | s in ByDirection(init, d)
        ensures s.idx < last.idx
      {
        var i :| 0 <= i < |init| && init[i] == s;
        assert slots[i] == s;
      }
      if last.tx.direction == d {
        SlotsSnoc(ByDirection(init, d), last);
      } else {
        assert ByDirection(slots, d) == ByDirection(init, d);
      }
    }
  }

  lemma {:induction false} SlotsSnoc(slots: seq<Slot>, s: Slot)
    requires SlotsOrdered(slots) && forall x :: x in slots ==> x.idx < s.idx
    ensures SlotsOrdered(slots + [s])
  {
  }

  lemma {:induction false} DirectionBag(slots: seq<Slot>)
    ensures SlotBag(slots) == SlotBag(ByDirection(slots, Outbound)) + SlotBag(ByDirection(slots, Inbound))
  {
    if slots != [] {
      var init, last := slots[..|slots| - 1], slots[|slots| - 1];
      assert slots == init + [last];
      DirectionBag(init);
      SlotBagSnoc(init, last);
      if last.tx.direction == Outbound {
        SlotBagSnoc(ByDirection(init, Outbound), last);
        assert ByDirection(slots, Inbound) == ByDirection(init, Inbound);
      } else {
        SlotBagSnoc(ByDirection(init, Inbound), last);
        assert ByDirection(slots, Outbound) == ByDirection(init, Outbound);
      }
    }
  }

  lemma {:induction false} PhasesBag(live: seq<HeldTx>)
    ensures SlotBag(Phases(live)) == Bag(live)
  {
    assert TxsOf(Enumerate(live)) == live;
    DirectionBag(Enumerate(live));
    SlotBagAppend(ByDirection(Enumerate(live), Outbound), ByDirection(Enumerate(live), Inbound));
  }

  /** Splitting by direction reorders no nonce chain. */
  lemma {:induction false} PhasesFacts(live: seq<HeldTx>)
    ensures Phased(Phases(live), |ByDirection(Enumerate(live), Outbound)|)
    ensures forall s :: s in Phases(live) <==> s.idx < |live| && s.tx == live[s.idx]
    ensures ChainOrdered(live) ==> Ordered(Phases(live))
  {
    var outs, ins := ByDirection(Enumerate(live), Outbound), ByDirection(Enumerate(live), Inbound);
    var all := Phases(live);
    DirectionFacts(Enumerate(live), Outbound);
    DirectionFacts(Enumerate(live), Inbound);
    forall i | 0 <= i < |all|
      ensures i < |outs| ==> all[i].tx.direction == Outbound
      ensures i >= |outs| ==> all[i].tx.direction == Inbound
    {
      if i < |outs| { assert outs[i] in outs; } else { assert ins[i - |outs|] in ins; }
    }
    forall s
      ensures s in all <==> s.idx < |live| && s.tx == live[s.idx]
    {
      if s.idx < |live| && s.tx == live[s.idx] { assert Enumerate(live)[s.idx] == s; }
    }
    if ChainOrdered(live) { PhasesOrdered(live); }
  }

  lemma {:induction false} PhasesOrdered(live: seq<HeldTx>)
    requires ChainOrdered(live)
    ensures Ordered(Phases(live))
  {
    var all := Phases(live);
    forall i, j | 0 <= i < j < |all| && all[i].tx.Chain() == all[j].tx.Chain()
      ensures all[i].tx.nonce < all[j].tx.nonce
    {
      SamePhase(live, i, j);
      assert live[all[i].idx].Chain() == live[all[j].idx].Chain();
    }
  }

  /** Within a direction the phases keep the dealt order. */
  lemma {:induction false} SamePhase(live: seq<HeldTx>, i: nat, j: nat)
    requires i < j < |Phases(live)| && Phases(live)[i].tx.direction == Phases(live)[j].tx.direction
    ensures
      var a, b := Phases(live)[i], Phases(live)[j];
      a.idx < b.idx < |live| && a.tx == live[a.idx] && b.tx == live[b.idx]
  {
    var outs, ins := ByDirection(Enumerate(live), Outbound), ByDirection(Enumerate(live), Inbound);
    var a, b := Phases(live)[i], Phases(live)[j];
    DirectionFacts(Enumerate(live), Outbound);
    DirectionFacts(Enumerate(live), Inbound);
    if j < |outs| {
      assert a == outs[i] && b == outs[j];
    } else if i >= |outs| {
      assert a == ins[i - |outs|] && b == ins[j - |outs|];
    }
  }

  /** How a drain ends: what is evicted, what goes back and what is kept. */
  datatype Outturn = Outturn(poison: seq<HeldTx>, gaps: seq<Reservation>, back: seq<Slot>, kept: seq<Slot>)

  /** A cut with nothing accepted evicts the transaction it was cut for; an abort keeps nothing. */
  function Settle(t: Tally): Outturn {
    match t.stop
    case Going => Outturn(t.poison, t.poisonGaps, t.funding, t.survivors)
    case Aborted(rest) => Outturn(t.poison, t.poisonGaps, t.funding + t.survivors + rest, [])
    case Cut(rest, _) =>
      if t.survivors == [] && rest != [] then
        var evicted := PushPoisonRoot(t, rest[0].tx);
        Outturn(evicted.poison, evicted.poisonGaps, t.funding + rest[1..], [])
      else Outturn(t.poison, t.poisonGaps, t.funding + rest, t.survivors)
  }

  lemma {:induction false} SettlePlaces(t: Tally)
    ensures
      var o := Settle(t);
      Bag(o.poison) + SlotBag(o.back) + SlotBag(o.kept) == Placed(t)
  {
    NoSlots();
    match t.stop
    case Going =>
    case Aborted(rest) => AbortPlaces(t.funding, t.survivors, rest);
    case Cut(rest, _) =>
      if t.survivors == [] && rest != [] {
        HeadPlaces(t.poison, t.funding, rest);
      } else {
        SlotBagAppend(t.funding, rest);
      }
  }

  lemma {:induction false} AbortPlaces(funding: seq<Slot>, survivors: seq<Slot>, rest: seq<Slot>)
    ensures SlotBag(funding + survivors + rest) == SlotBag(survivors) + SlotBag(funding) + SlotBag(rest)
  {
    SlotBagAppend(funding + survivors, rest);
    SlotBagAppend(funding, survivors);
  }

  lemma {:induction false} HeadPlaces(poison: seq<HeldTx>, funding: seq<Slot>, rest: seq<Slot>)
    requires rest != []
    ensures Bag(poison + [rest[0].tx]) + SlotBag(funding + rest[1..]) == Bag(poison) + SlotBag(funding) + SlotBag(rest)
  {
    CutHead(rest);
    SlotBagAppend(funding, rest[1..]);
    BagSnoc(poison, rest[0].tx);
  }

  lemma {:induction false} CutHead(rest: seq<Slot>)
    requires rest != []
    ensures SlotBag(rest) == multiset{rest[0].tx.hash} + SlotBag(rest[1..])
  {
    assert rest == [rest[0]] + rest[1..];
    SlotBagCons(rest[0], rest[1..]);
  }

  /** Every drained transaction that is not stale is evicted, re-queued or kept, exactly once. */
  lemma {:induction false} DrainConserves(env: Env, live: seq<HeldTx>)
    ensures
      var o := Settle(Run(env, Phases(live), |Phases(live)|).0);
      Bag(live) == Bag(o.poison) + SlotBag(o.back) + SlotBag(o.kept)
  {
    var all := Phases(live);
    var (t, w) := Run(env, all, |all|);
    PhasesFacts(live);
    PhasesBag(live);
    assert Conserved(all, |all|, t) by {
      RunKeeps(env, all, |ByDirection(Enumerate(live), Outbound)|, |all|, t, w);
    }
    assert all[..|all|] == all;
    hide Run, Settle, Placed, Phases;
    SettlePlaces(t);
  }

  /** The state the whole drain of `live` ends in. */
  ghost function End(env: Env, live: seq<HeldTx>): (Tally, Work) {
    Run(env, Phases(live), |Phases(live)|)
  }

  lemma {:induction false} EndInv(env: Env, live: seq<HeldTx>, t: Tally, w: Work)
    requires (t, w) == End(env, live)
    ensures ListInv(Phases(live), |Phases(live)|, t) && WorkInv(env, t, w)
  {
    PhasesFacts(live);
    RunKeeps(env, Phases(live), |ByDirection(Enumerate(live), Outbound)|, |Phases(live)|, t, w);
  }

  /** Survivors are downward closed in their chains and untouched by the poison sweep. */
  lemma {:induction false} DrainIsClosed(env: Env, live: seq<HeldTx>, s: Slot)
    requires ChainOrdered(live) && s in Settle(End(env, live).0).kept
    ensures
      var o := Settle(End(env, live).0);
      && (forall i :: 0 <= i < |live| && live[i].Chain() == s.tx.Chain() && live[i].nonce < s.tx.nonce
            ==> Slot(i, live[i]) in o.kept)
      && (forall p :: p in o.poison && p.Chain() == s.tx.Chain() ==> s.tx.nonce < p.nonce)
  {
    var all := Phases(live);
    var (t, w) := End(env, live);
    EndInv(env, live, t, w);
    PhasesFacts(live);
    var k := ClosedAt(all, t);
    assert s in t.survivors;
    forall i | 0 <= i < |live| && live[i].Chain() == s.tx.Chain() && live[i].nonce < s.tx.nonce
      ensures Slot(i, live[i]) in t.survivors
    {
      SurvivorsAreClosed(all, k, t, s, Slot(i, live[i]));
    }
    forall p | p in t.poison && p.Chain() == s.tx.Chain()
      ensures s.tx.nonce < p.nonce
    {
      SweepSparesSurvivors(all, k, t, s, p);
    }
  }

  lemma {:induction false} ClosedAt(all: seq<Slot>, t: Tally) returns (k: nat)
    requires ListInv(all, |all|, t) && Ordered(all)
    ensures k <= |all| && Closed(all, k, t)
  {
    if t.stop.Going? {
      k := |all|;
    } else {
      assert Finished(all, t);
      k :| 0 <= k <= |all| && Closed(all, k, t);
    }
  }

  /** What goes back was dealt by this drain, and only an underfunded root is charged. */
  lemma {:induction false} SettleOrigins(live: seq<HeldTx>, t: Tally)
    requires Origins(Phases(live), t)
    ensures
      var o := Settle(t);
      && (forall s :: s in o.kept ==> s.idx < |live| && s.tx == live[s.idx])
      && (forall s :: s in o.back ==> s.idx < |live|)
      && (forall s :: s in o.back ==>
            s.tx == live[s.idx] || (s.tx == Charge(live[s.idx]) && !Spends(live[s.idx])))
      && (forall p :: p in o.poison ==> exists tx :: tx in live && p == tx.(attempts := p.attempts))
  {
    var o, all := Settle(t), Phases(live);
    PhasesFacts(live);
    forall s | s in o.back
      ensures s.idx < |live| && (s.tx == live[s.idx] || (s.tx == Charge(live[s.idx]) && !Spends(live[s.idx])))
    {
      if s in t.funding && s !in all {
        assert BackSlot(all, s);
        var i :| 0 <= i < |all| && all[i].idx == s.idx
          && (s.tx == all[i].tx || (s.tx == Charge(all[i].tx) && !Spends(all[i].tx)));
        assert all[i] in all;
      } else {
        assert s in all;
      }
    }
    forall p | p in o.poison
      ensures exists tx :: tx in live && p == tx.(attempts := p.attempts)
    {
      if p in t.poison {
        assert FromAll(all, p);
        var i :| 0 <= i < |all| && p == all[i].tx.(attempts := p.attempts);
        assert all[i] in all && live[all[i].idx] in live;
      } else {
        assert t.stop.Cut? && t.stop.rest[0] in StopRest(t.stop);
        assert live[t.stop.rest[0].idx] in live;
      }
    }
  }

  /** Both lists leave the drain in the order the pool dealt them. */
  lemma {:induction false} DrainKeepsPoolOrder(env: Env, live: seq<HeldTx>)
    requires Distinct(live) && ChainOrdered(live)
    ensures
      var o := Settle(End(env, live).0);
      ChainOrdered(RestorePoolOrder(o.back)) && ChainOrdered(RestorePoolOrder(o.kept))
  {
    var (t, w) := End(env, live);
    var o := Settle(t);
    EndInv(env, live, t, w);
    DrainConserves(env, live);
    SettleOrigins(live, t);
    forall s | s in o.back || s in o.kept
      ensures Dealt(live, s)
    {
    }
    RestoredInOrder(live, o.back);
    RestoredInOrder(live, o.kept);
  }

  /** Keystone: whatever was evicted or deferred on the way, if anything is kept the appended block is
      the canonical rebuild of the kept transactions' own entries, in order; if execution obeys the
      gas law each of its transactions fitted the gas left; the running L1 projection is the closed
      form of all that was charged, kept or not, within the cap; and all withdrawals
      kept from the first successful escrow read on stay together within the escrow read, those kept
      before it each having seen its own read fail. */
  lemma {:induction false} DrainBlockIsCanonical(env: Env, live: seq<HeldTx>)
    requires Settle(End(env, live).0).kept != []
    ensures
      var kept, w := Settle(End(env, live).0).kept, End(env, live).1;
      && AllCompose(env, kept)
      && Block(OutsOf(env, kept), InsOf(env, kept), env.cfg, env.nonce) == Some(w.syncTxs)
      && (GasLaw(env) ==> GasFits(env, w.syncTxs))
      && w.projected == Projection(w.charges) <= Cap(env.maxGas)
      && Projection(CostsOf(env, kept)) <= w.projected
      && Checked(env, kept, BeforeRead(env, live), w.escrowSeen)
  {
    var (t, w) := End(env, live);
    var kept := t.survivors;
    EndKept(env, live, t, w);
    KeystoneIsBlock(env, w);
    hide End, Settle, Keystone, GasLaw, Block, OutsOf, InsOf, AllCompose, BeforeRead, Unread, DrawsOf, Projection;
    ProjectionIs(env.maxGas, w.charges);
    ProjectionIs(env.maxGas, CostsOf(env, kept));
  }

  lemma {:induction false} EndKept(env: Env, live: seq<HeldTx>, t: Tally, w: Work)
    requires (t, w) == End(env, live) && Settle(t).kept != []
    ensures Settle(t).kept == t.survivors && Sane(env, w) && Tied(env, t.survivors, w)
    ensures Checked(env, t.survivors, BeforeRead(env, live), w.drawn)
  {
    assert !t.stop.Aborted? && Settle(t).kept == t.survivors;
    hide Run, Settle, Sane, Tied, Checked, Phases;
    EndInv(env, live, t, w);
    RunKeepsBooks(env, Phases(live), |Phases(live)|, t, w);
    RunChecks(env, Phases(live), |Phases(live)|, t, w);
  }

  /** How many transactions the drain had accepted when the escrow became known, all if it never did. */
  ghost function BeforeRead(env: Env, live: seq<HeldTx>): nat {
    var all := Phases(live);
    |Run(env, all, Blind(env, all, |all|)).0.survivors|
  }

  /** What L1 is projected to spend on a postBatch carrying these costs, computed in one go. */
  function Projection(costs: seq<Cost>): nat {
    if 1 + Entries(costs) <= U64_MAX && Calldata(costs) <= U64_MAX && Target(costs) <= U64_MAX
    then ProjectedPostBatchGas(Cost(1 + Entries(costs), Calldata(costs), Target(costs))) else U64_MAX
  }

  lemma {:induction false} ProjectionIs(maxGas: u64, costs: seq<Cost>)
    requires Base() + Sum(costs) <= Cap(maxGas)
    ensures Projection(costs) == Base() + Sum(costs)
  {
    RunningIsClosed(maxGas, costs);
  }

  /** A budget cut is a true refusal: with what was charged before it the head exceeds the cap, and if
      nothing was charged it exceeds the cap alone, as the eviction that follows claims. */
  lemma {:induction false} BudgetCutIsJustified(env: Env, live: seq<HeldTx>)
    requires End(env, live).0.stop.Cut? && !End(env, live).0.stop.blockGas
    ensures
      var (t, w) := End(env, live);
      && t.stop.rest != []
      && var cost := env.oracle(t.stop.rest[0].idx).cost;
         && Base() + Sum(w.charges) + cost.Total() > Cap(env.maxGas)
         && (w.charges == [] ==> Base() + cost.Total() > Cap(env.maxGas))
  {
    var (t, w) := End(env, live);
    assert BookInv(env, t, w) by { RunKeepsBooks(env, Phases(live), |Phases(live)|, t, w); }
    assert Budgeted(env, w) by { EndInv(env, live, t, w); }
    hide Run, Tied;
    ChargeIsExact(env.maxGas, w.projected, env.oracle(t.stop.rest[0].idx).cost);
  }

  lemma {:induction false} KeystoneIsBlock(env: Env, w: Work)
    requires Keystone(env, w)
    ensures Block(w.pendingOut, w.pendingIn, env.cfg, env.nonce) == Some(w.syncTxs)
  {
    BlockIs(w.pendingOut, w.pendingIn, env.cfg, env.nonce);
  }

  /** A block-gas cut keeps something, so only the L1 budget can evict a cut transaction. */
  lemma {:induction false} BlockGasCutKeepsSomething(env: Env, live: seq<HeldTx>)
    requires GasLaw(env)
    ensures
      var t := End(env, live).0;
      t.stop.Cut? && t.stop.blockGas ==> Settle(t).kept != [] && Settle(t).poison == t.poison
  {
    var (t, w) := End(env, live);
    EndInv(env, live, t, w);
  }

  // ---- The drain as one step of the protocol ------------------------------------------------------

  lemma {:induction false} BagHashes(txs: seq<HeldTx>, h: TxHash)
    ensures h in Hashes(txs) <==> Bag(txs)[h] > 0
  {
    var hs := HashList(txs);
    assert h in hs <==> multiset(hs)[h] > 0;
    if h in Hashes(txs) {
      var tx :| tx in txs && tx.hash == h;
      var i :| 0 <= i < |txs| && txs[i] == tx;
      assert hs[i] == h;
    }
    if h in hs {
      var i :| 0 <= i < |hs| && hs[i] == h;
      assert txs[i] in txs;
    }
  }

  lemma {:induction false} StaleBag(txs: seq<HeldTx>, nonces: map<NonceChain, nat>)
    ensures Bag(txs) == Bag(PartitionStale(txs, nonces, true)) + Bag(PartitionStale(txs, nonces, false))
  {
    if txs != [] {
      var init, last := txs[..|txs| - 1], txs[|txs| - 1];
      assert txs == init + [last];
      StaleBag(init, nonces);
      BagSnoc(init, last);
      if Stale(last, nonces) {
        BagSnoc(PartitionStale(init, nonces, true), last);
        assert PartitionStale(txs, nonces, false) == PartitionStale(init, nonces, false);
      } else {
        BagSnoc(PartitionStale(init, nonces, false), last);
        assert PartitionStale(txs, nonces, true) == PartitionStale(init, nonces, true);
      }
    }
  }

  /** The four classes of a drain, as lists of transactions. */
  datatype Classes = Classes(stale: seq<HeldTx>, poison: seq<HeldTx>, back: seq<HeldTx>, kept: seq<HeldTx>)

  ghost function ClassesOf(env: Env, drained: seq<HeldTx>, nonces: map<NonceChain, nat>): Classes {
    var live := PartitionStale(drained, nonces, false);
    var o := Settle(End(env, live).0);
    Classes(PartitionStale(drained, nonces, true), o.poison, RestorePoolOrder(o.back), RestorePoolOrder(o.kept))
  }

  /** Stale, evicted, re-queued or kept: every drained transaction, exactly once. The stale ones are
      those whose source nonce has moved past them. */
  lemma {:induction false} DrainPartitions(env: Env, drained: seq<HeldTx>, nonces: map<NonceChain, nat>)
    ensures forall tx :: tx in ClassesOf(env, drained, nonces).stale <==> tx in drained && !Unspent(tx, nonces)
    ensures
      var c := ClassesOf(env, drained, nonces);
      Bag(drained) == Bag(c.stale) + Bag(c.poison) + Bag(c.back) + Bag(c.kept)
  {
    var live := PartitionStale(drained, nonces, false);
    var o := Settle(End(env, live).0);
    StaleBag(drained, nonces);
    DrainConserves(env, live);
    SortBag(o.back);
    SortBag(o.kept);
  }

  lemma {:induction false} PartitionHashes(
    a: seq<HeldTx>, b: seq<HeldTx>, c: seq<HeldTx>, d: seq<HeldTx>, all: seq<HeldTx>)
    requires Bag(all) == Bag(a) + Bag(b) + Bag(c) + Bag(d)
    ensures Hashes(all) == Hashes(a) + Hashes(b) + Hashes(c) + Hashes(d)
    ensures |d| <= |all|
  {
    forall h
      ensures h in Hashes(all) <==> h in Hashes(a) || h in Hashes(b) || h in Hashes(c) || h in Hashes(d)
    {
      BagHashes(all, h);
      BagHashes(a, h);
      BagHashes(b, h);
      BagHashes(c, h);
      BagHashes(d, h);
    }
    assert |Bag(all)| == |all| && |Bag(d)| == |d|;
  }

  /** The drain is a legal classification step of the protocol, whatever the simulations answer. */
  lemma {:induction false} DrainIsClassification(env: Env, drained: seq<HeldTx>, nonces: map<NonceChain, nat>)
    requires Protocol.Bounded(drained)
    ensures
      var c := ClassesOf(env, drained, nonces);
      Protocol.Accounts(drained, c.stale, c.poison, c.back, c.kept)
  {
    var live := PartitionStale(drained, nonces, false);
    var (t, w) := End(env, live);
    var o, c := Settle(t), ClassesOf(env, drained, nonces);
    EndInv(env, live, t, w);
    SettleOrigins(live, t);
    DrainPartitions(env, drained, nonces);
    PartitionHashes(c.stale, c.poison, c.back, c.kept, drained);
    forall x | x in c.back
      ensures x.attempts < MAX_BUNDLE_ATTEMPTS && exists y :: y in drained && x == y.(attempts := x.attempts)
    {
      var s := Restored(o.back, x);
      assert live[s.idx] in live && live[s.idx] in drained;
    }
    forall x | x in c.kept
      ensures x in drained
    {
      var s := Restored(o.kept, x);
      assert live[s.idx] in live;
    }
    AllFrom(drained, c);
  }

  lemma {:induction false} Restored(slots: seq<Slot>, tx: HeldTx) returns (s: Slot)
    requires tx in RestorePoolOrder(slots)
    ensures s in slots && s.tx == tx
  {
    SortMembers(slots);
    var i :| 0 <= i < |slots| && RestorePoolOrder(slots)[i] == tx;
    s := SortByIdx(slots)[i];
  }

  lemma {:induction false} AllFrom(drained: seq<HeldTx>, c: Classes)
    requires forall x :: x in c.stale || x in c.kept ==> x in drained
    requires forall x :: x in c.poison || x in c.back ==> exists y :: y in drained && x == y.(attempts := x.attempts)
    ensures Protocol.From(c.stale + c.poison + c.back + c.kept, drained)
  {
    forall x | x in c.stale + c.poison + c.back + c.kept
      ensures exists y :: y in drained && x == y.(attempts := x.attempts)
    {
      if x in c.stale || x in c.kept { assert x in drained && x == x.(attempts := x.attempts); }
    }
  }

  /** Dropping what lies above a recorded gap is dropping what lies above any evicted nonce. */
  lemma {:induction false} GapsAreEvictedNonces(gaps: seq<Reservation>, poison: seq<HeldTx>, tx: HeldTx)
    requires PoisonGapped(gaps, poison) && forall g :: g in gaps ==> g in Gaps(poison)
    ensures AboveGap(gaps, tx) <==> AboveGap(Gaps(poison), tx)
  {
    if AboveGap(Gaps(poison), tx) {
      var g :| g in Gaps(poison) && g.Chain() == tx.Chain() && g.nonce < tx.nonce;
      var p := GapFrom(poison, g);
      assert GapAtOrBelow(gaps, p);
      var root :| root in gaps && root.Chain() == p.Chain() && root.nonce <= p.nonce;
    }
  }

  lemma {:induction false} SameFilter(txs: seq<HeldTx>, gaps: seq<Reservation>, poison: seq<HeldTx>)
    requires PoisonGapped(gaps, poison) && forall g :: g in gaps ==> g in Gaps(poison)
    ensures Clear(txs, gaps) == Clear(txs, Gaps(poison)) && Stranded(txs, gaps) == Stranded(txs, Gaps(poison))
  {
    if txs != [] {
      SameFilter(txs[..|txs| - 1], gaps, poison);
      GapsAreEvictedNonces(gaps, poison, txs[|txs| - 1]);
    }
  }

  lemma {:induction false} SettleGapped(t: Tally)
    requires RootsListed(t) && PoisonGapped(t.poisonGaps, t.poison)
    ensures PoisonGapped(Settle(t).gaps, Settle(t).poison)
    ensures forall g :: g in Settle(t).gaps ==> g in Gaps(Settle(t).poison)
  {
    if t.stop.Cut? && t.survivors == [] && t.stop.rest != [] {
      var tx := t.stop.rest[0].tx;
      PoisonAdd(t.poisonGaps, t.poison, tx);
      ApplyLists(t, t.stop.rest[0], [], Root);
    }
  }

  /** The plan of pool calls depends on the evicted transactions alone. */
  lemma {:induction false} DrainGaps(env: Env, live: seq<HeldTx>, txs: seq<HeldTx>)
    ensures
      var o := Settle(End(env, live).0);
      Clear(txs, o.gaps) == Clear(txs, Gaps(o.poison)) && Stranded(txs, o.gaps) == Stranded(txs, Gaps(o.poison))
  {
    var (t, w) := End(env, live);
    EndInv(env, live, t, w);
    SettleGapped(t);
    SameFilter(txs, Settle(t).gaps, Settle(t).poison);
  }

  // ---- A cut blamed on the wrong transaction -------------------------------------------------------

  /** A charge is not refunded when its transaction is evicted after it, so a drain that accepts
      nothing may evict as unaffordable a transaction that fits the whole budget alone. */
  lemma {:induction false} ChargedEvictionCostsTheNext()
    ensures exists env: Env, live: seq<HeldTx> ::
      && GasLaw(env) && |live| == 2
      && Base() + env.oracle(1).cost.Total() <= Cap(env.maxGas)
      && Settle(End(env, live).0).poison == live
  {
    var entry := Entry([Call(false, 0, 0, 0)], 0, true, 0, true, true, 0);
    var dear := Outcome(
      true, Composed([entry]), false, Some(0), None, Cost(1, 0, 10_000_000), Reverts(0), true, true, true);
    var cheap := dear.(cost := Cost(1, 0, 8_000_000), append := Ran);
    var env := Env(Context(0, true), 0, None, None, 16_777_216,
                   (i: nat) => if i == 0 then dear else cheap, (raw: Bytes) => 21_000, (txs: seq<SyncTx>) => 0);
    var a, b := HeldTx([], 1, 0, 1, 0, Outbound, 0, 0), HeldTx([], 2, 0, 2, 0, Outbound, 0, 0);
    var live := [a, b];
    TwoOutbound(a, b);
    var all := [Slot(0, a), Slot(1, b)];
    assert Phases(live) == all;
    var w1 := Fresh().(projected := Base() + dear.cost.Total(), charges := [dear.cost]);
    var t1 := PushPoisonRoot(NOTHING, a);
    assert OutDecide(env, NOTHING, Fresh(), all[0]) == (Root, w1) by { CostlyEviction(env, all[0], entry); }
    assert Run(env, all, 0) == (NOTHING, Fresh());
    assert Run(env, all, 1) == (t1, w1);
    assert OutDecide(env, t1, w1, all[1]) == (CutHere(false), w1);
    var t2 := t1.(stop := Cut([all[1]], false));
    assert all[2..] == [] && [all[1]] + [] == [all[1]];
    assert Run(env, all, 2) == (t2, w1);
    assert Settle(t2).poison == [a] + [b];
    assert GasLaw(env);
    assert Base() + env.oracle(1).cost.Total() <= Cap(env.maxGas);
  }

  lemma {:induction false} TwoOutbound(a: HeldTx, b: HeldTx)
    requires a.direction == Outbound && b.direction == Outbound
    ensures Phases([a, b]) == [Slot(0, a), Slot(1, b)]
  {
    var x, y := Slot(0, a), Slot(1, b);
    assert Enumerate([a, b]) == [x, y];
    DirectionSnoc([], x, Outbound);
    DirectionSnoc([x], y, Outbound);
    DirectionSnoc([], x, Inbound);
    DirectionSnoc([x], y, Inbound);
    assert [] + [x] == [x] && [x] + [y] == [x, y];
  }

  lemma {:induction false} DirectionSnoc(slots: seq<Slot>, s: Slot, d: Direction)
    ensures ByDirection(slots + [s], d) == ByDirection(slots, d) + (if s.tx.direction == d then [s] else [])
  {
    assert (slots + [s])[..|slots|] == slots;
  }

  lemma {:induction false} CostlyEviction(env: Env, s: Slot, entry: Entry)
    requires
      var o := env.oracle(s.idx);
      && o.contexts && o.sim == Composed([entry]) && o.etherOut == Some(0) && o.append == Reverts(0) && o.reopens
      && env.outCap.None? && env.gasUsed([]) == 0 && env.declared(s.tx.raw) == 21_000
      && Base() + o.cost.Total() <= Cap(env.maxGas) && Loads(entry, env.cfg, env.nonce)
    ensures
      var o := env.oracle(s.idx);
      OutDecide(env, NOTHING, Fresh(), s) == (Root, Fresh().(projected := Base() + o.cost.Total(), charges := [o.cost]))
  {
    var o := env.oracle(s.idx);
    ChargeIsExact(env.maxGas, Base(), o.cost);
    OnePair(entry, s.tx.raw, env.cfg, env.nonce);
    assert Fresh().charges + [o.cost] == [o.cost];
    var w := Fresh().(projected := Base() + o.cost.Total(), charges := [o.cost]);
    assert OutAdmit(env, Fresh(), s, o, entry, 0) == OutAppend(env, w, s, o, entry, 0);
    assert OutAppend(env, w, s, o, entry, 0) == (Root, w);
  }

  // ---- The drain on the shared pool ----------------------------------------------------------------

  /** Evict every poison transaction with its nonce suffix. */
  method SweepPoison(pool: HeldPool, poison: seq<HeldTx>)
    modifies pool
    ensures pool.State() == ExecAll(old(pool.State()), EvictOps(Gaps(poison))).0
  {
    ghost var was := pool.State();
    ghost var log: seq<HeldTx> := [];
    assert EvictOps(Gaps(poison)[..0]) == [];
    for i := 0 to |poison|
      invariant (pool.State(), log) == ExecAll(was, EvictOps(Gaps(poison)[..i]))
    {
      assert EvictOps(Gaps(poison)[..i + 1]) == EvictOps(Gaps(poison)[..i]) + [Evict(Gaps(poison)[i])];
      ExecSnoc(was, EvictOps(Gaps(poison)[..i]), Evict(Gaps(poison)[i]));
      var evicted := pool.EvictChainAtOrAbove(poison[i].Chain(), poison[i].nonce);
      log := log + evicted;
    }
    assert Gaps(poison)[..|poison|] == Gaps(poison);
  }

  /** Back to the pool front in dealt order; what lies above an evicted nonce is dropped. */
  method RequeueUnprocessed(pool: HeldPool, gaps: seq<Reservation>, slots: seq<Slot>)
    modifies pool
    ensures
      var txs := RestorePoolOrder(slots);
      pool.State() == PushFrontBatch(Release(old(pool.State()), Stranded(txs, gaps)), Clear(txs, gaps))
  {
    var txs := RestorePoolOrder(slots);
    var requeue, cascade: seq<HeldTx> := [], [];
    for i := 0 to |txs|
      invariant requeue == Clear(txs[..i], gaps) && cascade == Stranded(txs[..i], gaps)
    {
      assert txs[..i + 1][..i] == txs[..i];
      if AboveGap(gaps, txs[i]) {
        cascade := cascade + [txs[i]];
      } else {
        requeue := requeue + [txs[i]];
      }
    }
    assert txs[..|txs|] == txs;
    pool.ReleaseInFlightBatch(cascade);
    pool.PushFrontBatch(requeue);
  }

  /** The pool calls of a drain, in order. */
  lemma {:induction false} DrainCalls(p: PoolState, stale: seq<HeldTx>, poison: seq<HeldTx>, back: seq<HeldTx>)
    ensures
      var gaps := Gaps(poison);
      var swept := ExecAll(Release(p, stale), EvictOps(gaps)).0;
      ExecAll(p, Protocol.DrainOps(stale, poison, back)).0
      == PushFrontBatch(Release(swept, Stranded(back, gaps)), Clear(back, gaps))
  {
    var gaps := Gaps(poison);
    var first := [ReleaseAll(stale)];
    ExecSnoc(p, [], ReleaseAll(stale));
    assert [] + first == first;
    ExecPrefix(p, first, EvictOps(gaps));
    ExecSnoc(p, first + EvictOps(gaps), ReleaseAll(Stranded(back, gaps)));
    ExecSnoc(p, first + EvictOps(gaps) + [ReleaseAll(Stranded(back, gaps))], Requeue(Clear(back, gaps)));
    assert Protocol.DrainOps(stale, poison, back)
      == first + EvictOps(gaps) + [ReleaseAll(Stranded(back, gaps))] + [Requeue(Clear(back, gaps))];
  }

  /** One drain of the pool: what it keeps, and the pool it leaves. */
  method DrainBatch(env: Env, pool: HeldPool, drained: seq<HeldTx>, nonces: map<NonceChain, nat>)
    returns (kept: seq<HeldTx>, w: Work)
    modifies pool
    ensures
      var c := ClassesOf(env, drained, nonces);
      && kept == c.kept
      && pool.State() == ExecAll(old(pool.State()), Protocol.DrainOps(c.stale, c.poison, c.back)).0
    ensures w == End(env, PartitionStale(drained, nonces, false)).1
  {
    var live, stale := PartitionStale(drained, nonces, false), PartitionStale(drained, nonces, true);
    pool.ReleaseInFlightBatch(stale);
    var slots := Enumerate(live);
    var t: Tally;
    t, w := Compose(env, ByDirection(slots, Outbound), ByDirection(slots, Inbound));
    var o := Settle(t);
    SweepPoison(pool, o.poison);
    RequeueUnprocessed(pool, o.gaps, o.back);
    kept := RestorePoolOrder(o.kept);
    DrainGaps(env, live, RestorePoolOrder(o.back));
    DrainCalls(old(pool.State()), stale, o.poison, RestorePoolOrder(o.back));
  }
}
