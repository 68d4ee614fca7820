/** Assembling a postBatch, stitching its root chain, what L1 does with it, and whom a proof
    failure at one of its entries is attributed to. */
module Settlement {
  import opened Types

  type Root = nat

  const I192_MAX: nat := 0x7FFF_FFFF_FFFF_FFFF_FFFF_FFFF_FFFF_FFFF_FFFF_FFFF_FFFF_FFFF

  datatype Update = Update(rollup: u64, currentRoot: Root, newRoot: Root, etherDelta: int)

  datatype BatchEntry = BatchEntry(
    /** Zero for an entry L1 runs inline. */
    proxy: nat,
    updates: seq<Update>,
    dest: u64,
    /** Ether an outbound entry withdraws; `None` if it cannot be told. */
    etherOut: Option<nat>,
    body: nat)

  /** One inbound survivor's entries and the held transaction they came from. */
  datatype Composition = Composition(entries: seq<BatchEntry>, hash: TxHash)

  // ---- Layout --------------------------------------------------------------------------------

  function Inbound(comps: seq<Composition>): seq<BatchEntry> {
    if comps == [] then [] else Inbound(comps[..|comps| - 1]) + comps[|comps| - 1].entries
  }

  function Redirected(outbound: seq<BatchEntry>, rollup: u64): (r: seq<BatchEntry>)
    ensures |r| == |outbound| && forall i :: 0 <= i < |r| ==> r[i] == outbound[i].(dest := rollup)
  {
    seq(|outbound|, i requires 0 <= i < |outbound| => outbound[i].(dest := rollup))
  }

  /** Merge the inbound compositions, insert the anchor in front and the outbound entries after it:
      the batch is anchor, outbound, inbound. */
  method Assemble(anchor: BatchEntry, outbound: seq<BatchEntry>, comps: seq<Composition>, rollup: u64)
    returns (entries: seq<BatchEntry>)
    ensures entries == [anchor] + Redirected(outbound, rollup) + Inbound(comps)
  {
    entries := [];
    for i := 0 to |comps|
      invariant entries == Inbound(comps[..i])
    {
      assert comps[..i + 1][..i] == comps[..i];
      entries := entries + comps[i].entries;
    }
    assert comps[..|comps|] == comps;
    entries := [anchor] + entries;
    for k := 0 to |outbound|
      invariant entries == [anchor] + Redirected(outbound, rollup)[..k] + Inbound(comps)
    {
      var entry := outbound[k].(dest := rollup);
      entries := entries[..1 + k] + [entry] + entries[1 + k..];
    }
  }

  // ---- One root per effect -------------------------------------------------------------------

  function EtherDelta(e: BatchEntry, deposits: map<nat, int>): Option<int> {
    if e.proxy == 0 then
      if e.etherOut.None? || e.etherOut.value > I192_MAX then None
      else var out: int := e.etherOut.value; Some(-out)
    else if e.proxy in deposits then Some(deposits[e.proxy])
    else Some(0)
  }

  /** How many entries still need a root. */
  function Effects(entries: seq<BatchEntry>): nat {
    if entries == [] then 0
    else Effects(entries[..|entries| - 1]) + (if entries[|entries| - 1].updates == [] then 1 else 0)
  }

  /** An outbound entry says what it withdraws, and L1 has a number for it. */
  predicate Expressible(e: BatchEntry) {
    e.proxy == 0 ==> e.etherOut.Some? && e.etherOut.value <= I192_MAX
  }

  predicate Attachable(entries: seq<BatchEntry>, roots: seq<Root>) {
    && Effects(entries) == |roots|
    && forall i :: 0 <= i < |entries| && entries[i].updates == [] ==> Expressible(entries[i])
  }

  /** An outbound entry's movement cancels what it withdraws; an inbound one's is its deposit. */
  ghost predicate Moves(e: BatchEntry, delta: int, deposits: map<nat, int>) {
    if e.proxy == 0 then e.etherOut.Some? && delta + e.etherOut.value == 0
    else delta == if e.proxy in deposits then deposits[e.proxy] else 0
  }

  /** The `k`-th effect entry settles at the `k`-th per-effect root and moves its own ether. */
  ghost predicate RootedAt(
    before: seq<BatchEntry>, after: BatchEntry, i: nat, deposits: map<nat, int>, roots: seq<Root>, rollup: u64)
    requires i < |before|
  {
    if before[i].updates != [] then after == before[i]
    else
      var k := Effects(before[..i]);
      && k < |roots| && |after.updates| == 1 && after == before[i].(updates := after.updates)
      && after.updates[0] == Update(rollup, 0, roots[k], after.updates[0].etherDelta)
      && Moves(before[i], after.updates[0].etherDelta, deposits)
  }

  ghost predicate Rooted(
    before: seq<BatchEntry>, after: seq<BatchEntry>, deposits: map<nat, int>, roots: seq<Root>, rollup: u64)
  {
    |after| == |before| && forall i :: 0 <= i < |before| ==> RootedAt(before, after[i], i, deposits, roots, rollup)
  }

  lemma {:induction false} EffectsSnoc(entries: seq<BatchEntry>, i: nat)
    requires i < |entries|
    ensures Effects(entries[..i + 1]) == Effects(entries[..i]) + (if entries[i].updates == [] then 1 else 0)
  {
    assert entries[..i + 1][..i] == entries[..i];
  }

  lemma {:induction false} EffectsGrow(entries: seq<BatchEntry>, i: nat)
    requires i <= |entries|
    ensures Effects(entries[..i]) <= Effects(entries)
  {
    if i == |entries| {
      assert entries[..i] == entries;
    } else {
      EffectsGrow(entries[..|entries| - 1], i);
      assert entries[..|entries| - 1][..i] == entries[..i];
    }
  }

  /** Give every effect entry its root and ether movement. Refused exactly when the roots and the
      effect entries do not line up or some outbound amount is unknown or too large for L1. */
  method Attach(entries: seq<BatchEntry>, deposits: map<nat, int>, roots: seq<Root>, rollup: u64)
    returns (r: Option<seq<BatchEntry>>)
    ensures r.Some? <==> Attachable(entries, roots)
    ensures r.Some? ==> Rooted(entries, r.value, deposits, roots, rollup)
    ensures r.Some? ==> Net(r.value) == Net(entries) + Deposited(entries, deposits) - Withdrawn(entries)
  {
    var done: seq<BatchEntry> := [];
    var effect := 0;
    for i := 0 to |entries|
      invariant |done| == i && effect == Effects(entries[..i]) && effect <= |roots|
      invariant forall j :: 0 <= j < i && entries[j].updates == [] ==> Expressible(entries[j])
      invariant forall j :: 0 <= j < i ==> RootedAt(entries, done[j], j, deposits, roots, rollup)
    {
      EffectsSnoc(entries, i);
      EffectsGrow(entries, i + 1);
      var entry := entries[i];
      if entry.updates != [] {
        done := done + [entry];
      } else {
        var delta := EtherDelta(entry, deposits);
        if delta.None? || effect >= |roots| { return None; }
        done := done + [entry.(updates := [Update(rollup, 0, roots[effect], delta.value)])];
        effect := effect + 1;
      }
    }
    assert entries[..|entries|] == entries;
    if effect != |roots| { return None; }
    AttachBalances(entries, done, deposits, roots, rollup);
    return Some(done);
  }

  // ---- Ether is conserved --------------------------------------------------------------------

  ghost function NetOf(us: seq<Update>): int {
    if us == [] then 0 else NetOf(us[..|us| - 1]) + us[|us| - 1].etherDelta
  }

  /** All ether the batch moves, into the rollup counted positive. */
  ghost function Net(entries: seq<BatchEntry>): int {
    if entries == [] then 0 else Net(entries[..|entries| - 1]) + NetOf(entries[|entries| - 1].updates)
  }

  /** What the inbound effects bring in. */
  ghost function Deposited(entries: seq<BatchEntry>, deposits: map<nat, int>): int {
    if entries == [] then 0
    else
      var e := entries[|entries| - 1];
      Deposited(entries[..|entries| - 1], deposits)
        + if e.updates == [] && e.proxy != 0 && e.proxy in deposits then deposits[e.proxy] else 0
  }

  /** What the outbound effects take out. */
  ghost function Withdrawn(entries: seq<BatchEntry>): int {
    if entries == [] then 0
    else
      var e := entries[|entries| - 1];
      Withdrawn(entries[..|entries| - 1])
        + if e.updates == [] && e.proxy == 0 && e.etherOut.Some? then e.etherOut.value else 0
  }

  lemma {:induction false} AttachBalances(
    before: seq<BatchEntry>, after: seq<BatchEntry>, deposits: map<nat, int>, roots: seq<Root>, rollup: u64)
    requires Rooted(before, after, deposits, roots, rollup)
    ensures Net(after) == Net(before) + Deposited(before, deposits) - Withdrawn(before)
  {
    if before != [] {
      var n := |before| - 1;
      forall i | 0 <= i < n ensures RootedAt(before[..n], after[..n][i], i, deposits, roots, rollup) {
        assert RootedAt(before, after[i], i, deposits, roots, rollup);
        assert before[..n][..i] == before[..i];
      }
      AttachBalances(before[..n], after[..n], deposits, roots, rollup);
      assert RootedAt(before, after[n], n, deposits, roots, rollup);
      if before[n].updates == [] { OneMovement(after[n].updates); }
    }
  }

  lemma {:induction false} OneMovement(us: seq<Update>)
    requires |us| == 1
    ensures NetOf(us) == us[0].etherDelta
  {
    assert us[..0] == [];
  }

  /** What one inbound entry's data-availability sidecar says of its first call. */
  datatype Sidecar = Sidecar(proxy: nat, value: Option<nat>)

  /** The deposits the batch knows of: a sidecar counts if it moves a value L1 has a number for. */
  function Deposits(sidecars: seq<Sidecar>): map<nat, int> {
    if sidecars == [] then map[]
    else
      var (before, s) := (Deposits(sidecars[..|sidecars| - 1]), sidecars[|sidecars| - 1]);
      if s.value.None? || s.value.value == 0 || s.value.value > I192_MAX then before
      else before[s.proxy := s.value.value]
  }

  method InboundEther(sidecars: seq<Sidecar>) returns (deposits: map<nat, int>)
    ensures deposits == Deposits(sidecars)
  {
    deposits := map[];
    for i := 0 to |sidecars|
      invariant deposits == Deposits(sidecars[..i])
    {
      assert sidecars[..i + 1][..i] == sidecars[..i];
      var s := sidecars[i];
      if s.value.Some? && s.value.value != 0 && s.value.value <= I192_MAX {
        deposits := deposits[s.proxy := s.value.value];
      }
    }
    assert sidecars[..|sidecars|] == sidecars;
  }

  /** The proxy hash commits to the value. */
  ghost predicate ValueBound(sidecars: seq<Sidecar>) {
    forall i, j :: 0 <= i < |sidecars| && 0 <= j < |sidecars| && sidecars[i].proxy == sidecars[j].proxy ==>
      sidecars[i].value == sidecars[j].value
  }

  ghost function Credit(deposits: map<nat, int>, proxy: nat): int {
    if proxy in deposits then deposits[proxy] else 0
  }

  /** Where the hash commits to the value, an inbound call is credited its whole value exactly when
      L1 has a number for it; a larger one is credited nothing, and no sidecar means no credit. */
  lemma {:induction false} CreditedInFullIff(sidecars: seq<Sidecar>, i: nat)
    requires ValueBound(sidecars) && i < |sidecars|
    ensures
      var v := if sidecars[i].value.Some? then sidecars[i].value.value else 0;
      && (Credit(Deposits(sidecars), sidecars[i].proxy) == v <==> v <= I192_MAX)
      && (v > I192_MAX ==> Credit(Deposits(sidecars), sidecars[i].proxy) == 0)
  {
    var n := |sidecars| - 1;
    var init := sidecars[..n];
    assert forall k :: 0 <= k < n ==> init[k] == sidecars[k];
    if i < n {
      CreditedInFullIff(init, i);
    } else if exists j :: 0 <= j < n && sidecars[j].proxy == sidecars[n].proxy {
      var j :| 0 <= j < n && sidecars[j].proxy == sidecars[n].proxy;
      CreditedInFullIff(init, j);
    } else {
      NoSidecarNoCredit(init, sidecars[n].proxy);
    }
  }

  /** At one inbound call whose value is one more than L1 has a number for: it is credited nothing. */
  lemma {:induction false} OversizedDepositVanishes()
    ensures Credit(Deposits([Sidecar(7, Some(I192_MAX + 1))]), 7) == 0
  {
    CreditedInFullIff([Sidecar(7, Some(I192_MAX + 1))], 0);
  }

  lemma {:induction false} NoSidecarNoCredit(sidecars: seq<Sidecar>, proxy: nat)
    requires forall i :: 0 <= i < |sidecars| ==> sidecars[i].proxy != proxy
    ensures proxy !in Deposits(sidecars)
  {
    if sidecars != [] { NoSidecarNoCredit(sidecars[..|sidecars| - 1], proxy); }
  }

  // ---- Stitching the chain -------------------------------------------------------------------

  /** Each update starts where its rollup's previous one ended. */
  function StitchUpdates(us: seq<Update>, roots: map<u64, Root>): (r: (seq<Update>, map<u64, Root>))
    ensures |r.0| == |us|
  {
    if us == [] then ([], roots)
    else
      var u := us[|us| - 1];
      var (before, running) := StitchUpdates(us[..|us| - 1], roots);
      var stitched := if u.rollup in running then u.(currentRoot := running[u.rollup]) else u;
      (before + [stitched], running[u.rollup := u.newRoot])
  }

  function Stitch(entries: seq<BatchEntry>, roots: map<u64, Root>): (r: (seq<BatchEntry>, map<u64, Root>))
    ensures |r.0| == |entries|
  {
    if entries == [] then ([], roots)
    else
      var e := entries[|entries| - 1];
      var (before, running) := Stitch(entries[..|entries| - 1], roots);
      var (updates, after) := StitchUpdates(e.updates, running);
      (before + [e.(updates := updates)], after)
  }

  method StitchEntry(updates: seq<Update>, roots: map<u64, Root>)
    returns (stitched: seq<Update>, running: map<u64, Root>)
    ensures (stitched, running) == StitchUpdates(updates, roots)
  {
    stitched, running := [], roots;
    for i := 0 to |updates|
      invariant (stitched, running) == StitchUpdates(updates[..i], roots)
    {
      assert updates[..i + 1][..i] == updates[..i];
      var update := updates[i];
      if update.rollup in running { update := update.(currentRoot := running[update.rollup]); }
      running := running[update.rollup := update.newRoot];
      stitched := stitched + [update];
    }
    assert updates[..|updates|] == updates;
  }

  method StitchBatch(entries: seq<BatchEntry>) returns (stitched: seq<BatchEntry>)
    ensures stitched == Stitch(entries, map[]).0
  {
    stitched := [];
    var running: map<u64, Root> := map[];
    for i := 0 to |entries|
      invariant (stitched, running) == Stitch(entries[..i], map[])
    {
      assert entries[..i + 1][..i] == entries[..i];
      var updates, after := StitchEntry(entries[i].updates, running);
      stitched, running := stitched + [entries[i].(updates := updates)], after;
    }
    assert entries[..|entries|] == entries;
  }

  // ---- What L1 does ----------------------------------------------------------------------------

  /** L1 checks each update against the stored root and then sets it; a mismatch stops the run. */
  function RunUpdates(state: map<u64, Root>, us: seq<Update>): Option<map<u64, Root>> {
    if us == [] then Some(state)
    else
      var u := us[|us| - 1];
      match RunUpdates(state, us[..|us| - 1])
      case None => None
      case Some(st) =>
        if u.rollup in st && st[u.rollup] == u.currentRoot then Some(st[u.rollup := u.newRoot]) else None
  }

  function RunEntries(state: map<u64, Root>, entries: seq<BatchEntry>): Option<map<u64, Root>> {
    if entries == [] then Some(state)
    else
      match RunEntries(state, entries[..|entries| - 1])
      case None => None
      case Some(st) => RunUpdates(st, entries[|entries| - 1].updates)
  }

  /** L1's roots with the running ones on top. */
  ghost function Overlay(state: map<u64, Root>, running: map<u64, Root>): map<u64, Root> {
    map r | r in state :: if r in running then running[r] else state[r]
  }

  /** Every rollup is known, and the first update of one not yet running starts at its stored root. */
  ghost predicate Grounded(state: map<u64, Root>, running: map<u64, Root>, us: seq<Update>) {
    && running.Keys <= state.Keys
    && forall i :: 0 <= i < |us| ==>
         && us[i].rollup in state
         && (us[i].rollup in running || us[i].currentRoot == state[us[i].rollup]
             || exists j :: 0 <= j < i && us[j].rollup == us[i].rollup)
  }

  lemma {:induction false} StitchKeeps(us: seq<Update>, roots: map<u64, Root>)
    ensures
      var (out, running) := StitchUpdates(us, roots);
      && |out| == |us|
      && (forall i :: 0 <= i < |us| ==> out[i] == us[i].(currentRoot := out[i].currentRoot))
      && running.Keys == roots.Keys + (set i | 0 <= i < |us| :: us[i].rollup)
  {
    if us != [] {
      StitchKeeps(us[..|us| - 1], roots);
    }
  }

  lemma {:induction false} OneUpdate(state: map<u64, Root>, running: map<u64, Root>, u: Update)
    requires running.Keys <= state.Keys && u.rollup in state
    requires u.rollup in running || u.currentRoot == state[u.rollup]
    ensures
      var start := if u.rollup in running then running[u.rollup] else u.currentRoot;
      && u.rollup in Overlay(state, running) && Overlay(state, running)[u.rollup] == start
      && Overlay(state, running)[u.rollup := u.newRoot] == Overlay(state, running[u.rollup := u.newRoot])
  {
  }

  /** An update without a running root starts at the stored one. */
  lemma {:induction false} LastGrounded(state: map<u64, Root>, running: map<u64, Root>, us: seq<Update>)
    requires us != [] && Grounded(state, running, us)
    ensures Grounded(state, running, us[..|us| - 1])
    ensures
      var u := us[|us| - 1];
      u.rollup in state && (u.rollup in StitchUpdates(us[..|us| - 1], running).1 || u.currentRoot == state[u.rollup])
  {
    var init, u := us[..|us| - 1], us[|us| - 1];
    StitchKeeps(init, running);
    assert forall j :: 0 <= j < |init| ==> us[j] == init[j];
    assert forall j :: 0 <= j < |init| ==> init[j].rollup in StitchUpdates(init, running).1;
  }

  /** A stitched run never mismatches. */
  lemma {:induction false} UpdatesRun(state: map<u64, Root>, running: map<u64, Root>, us: seq<Update>)
    requires Grounded(state, running, us)
    ensures
      var (out, after) := StitchUpdates(us, running);
      after.Keys <= state.Keys && RunUpdates(Overlay(state, running), out) == Some(Overlay(state, after))
  {
    if us != [] {
      var init, u := us[..|us| - 1], us[|us| - 1];
      LastGrounded(state, running, us);
      UpdatesRun(state, running, init);
      var (before, mid) := StitchUpdates(init, running);
      var (out, _) := StitchUpdates(us, running);
      assert out[..|us| - 1] == before;
      OneUpdate(state, mid, u);
    }
  }

  function Flat(entries: seq<BatchEntry>): seq<Update> {
    if entries == [] then [] else Flat(entries[..|entries| - 1]) + entries[|entries| - 1].updates
  }

  lemma {:induction false} StitchAppend(a: seq<Update>, b: seq<Update>, roots: map<u64, Root>)
    ensures
      var (x, mid) := StitchUpdates(a, roots);
      var (y, end) := StitchUpdates(b, mid);
      StitchUpdates(a + b, roots) == (x + y, end)
  {
    if b == [] {
      assert a + b == a;
      var (x, mid) := StitchUpdates(a, roots);
      assert x + [] == x;
    } else {
      var init := b[..|b| - 1];
      assert (a + b)[..|a + b| - 1] == a + init && (a + b)[|a + b| - 1] == b[|b| - 1];
      StitchAppend(a, init, roots);
      var (x, mid) := StitchUpdates(a, roots);
      var (y, _) := StitchUpdates(init, mid);
      var (z, _) := StitchUpdates(b, mid);
      assert z == y + [z[|y|]] && x + (y + [z[|y|]]) == (x + y) + [z[|y|]];
    }
  }

  lemma {:induction false} RunAppend(state: map<u64, Root>, a: seq<Update>, b: seq<Update>)
    ensures RunUpdates(state, a + b)
      == match RunUpdates(state, a) case None => None case Some(mid) => RunUpdates(mid, b)
  {
    if b == [] {
      assert a + b == a;
    } else {
      var init := b[..|b| - 1];
      assert (a + b)[..|a + b| - 1] == a + init;
      RunAppend(state, a, init);
    }
  }

  /** Stitching entry by entry is stitching the flat list of their updates. */
  lemma {:induction false} StitchIsFlat(entries: seq<BatchEntry>, roots: map<u64, Root>)
    ensures
      var (out, running) := Stitch(entries, roots);
      && |out| == |entries|
      && (Flat(out), running) == StitchUpdates(Flat(entries), roots)
  {
    if entries != [] {
      var init, e := entries[..|entries| - 1], entries[|entries| - 1];
      StitchIsFlat(init, roots);
      StitchAppend(Flat(init), e.updates, roots);
      var (before, _) := Stitch(init, roots);
      var (out, _) := Stitch(entries, roots);
      assert out[..|entries| - 1] == before;
    }
  }

  lemma {:induction false} RunIsFlat(state: map<u64, Root>, entries: seq<BatchEntry>)
    ensures RunEntries(state, entries) == RunUpdates(state, Flat(entries))
  {
    if entries != [] {
      var init, e := entries[..|entries| - 1], entries[|entries| - 1];
      RunIsFlat(state, init);
      RunAppend(state, Flat(init), e.updates);
    }
  }

  lemma {:induction false} RunSplit(state: map<u64, Root>, a: seq<BatchEntry>, b: seq<BatchEntry>)
    ensures RunEntries(state, a + b)
      == match RunEntries(state, a) case None => None case Some(mid) => RunEntries(mid, b)
  {
    if b == [] {
      assert a + b == a;
    } else {
      var init := b[..|b| - 1];
      assert (a + b)[..|a + b| - 1] == a + init;
      RunSplit(state, a, init);
    }
  }

  /** After the stitch L1 runs every entry, whatever rollups they touch; and from any intermediate
      state the remaining entries reach the same end. */
  lemma {:induction false} StitchedBatchSettles(state: map<u64, Root>, entries: seq<BatchEntry>, k: nat)
    requires k <= |entries| && Grounded(state, map[], Flat(entries))
    ensures
      var (batch, running) := Stitch(entries, map[]);
      var end := Overlay(state, running);
      && RunEntries(state, batch) == Some(end)
      && RunEntries(state, batch[..k]).Some?
      && RunEntries(RunEntries(state, batch[..k]).value, batch[k..]) == Some(end)
  {
    hide RunEntries, Stitch, Flat, Grounded;
    var (batch, running) := Stitch(entries, map[]);
    StitchIsFlat(entries, map[]);
    UpdatesRun(state, map[], Flat(entries));
    assert Overlay(state, map[]) == state;
    RunIsFlat(state, batch);
    assert batch == batch[..k] + batch[k..];
    RunSplit(state, batch[..k], batch[k..]);
  }

  /** The stitch rewrites where an update starts and nothing else. */
  lemma {:induction false} StitchKeepsNewRoots(entries: seq<BatchEntry>, roots: map<u64, Root>, i: nat)
    requires i < |entries|
    ensures
      var batch := Stitch(entries, roots).0;
      && |batch| == |entries|
      && batch[i] == entries[i].(updates := batch[i].updates)
      && |batch[i].updates| == |entries[i].updates|
      && forall j :: 0 <= j < |entries[i].updates| ==>
           batch[i].updates[j] == entries[i].updates[j].(currentRoot := batch[i].updates[j].currentRoot)
  {
    StitchIsFlat(entries, roots);
    var init, e := entries[..|entries| - 1], entries[|entries| - 1];
    if i == |entries| - 1 {
      StitchKeeps(e.updates, Stitch(init, roots).1);
      StitchIsFlat(init, roots);
    } else {
      StitchKeepsNewRoots(init, roots, i);
      StitchIsFlat(init, roots);
    }
  }

  // ---- One rollup: anchor, then effects -------------------------------------------------------

  /** Every entry carries one update of `rollup`; the first starts at `posted`. */
  ghost predicate OneChain(entries: seq<BatchEntry>, rollup: u64, posted: Root) {
    && entries != []
    && (forall i :: 0 <= i < |entries| ==> |entries[i].updates| == 1 && entries[i].updates[0].rollup == rollup)
    && entries[0].updates[0].currentRoot == posted
  }

  lemma {:induction false} FlatChain(entries: seq<BatchEntry>, rollup: u64)
    requires forall i :: 0 <= i < |entries| ==> |entries[i].updates| == 1 && entries[i].updates[0].rollup == rollup
    ensures |Flat(entries)| == |entries| && forall i :: 0 <= i < |entries| ==> Flat(entries)[i] == entries[i].updates[0]
  {
    if entries != [] {
      FlatChain(entries[..|entries| - 1], rollup);
    }
  }

  /** The running root of a single rollup is its last new root. */
  lemma {:induction false} LastRoot(us: seq<Update>, rollup: u64, roots: map<u64, Root>)
    requires us != [] && forall i :: 0 <= i < |us| ==> us[i].rollup == rollup
    ensures StitchUpdates(us, roots).1 == roots[rollup := us[|us| - 1].newRoot]
  {
    if |us| > 1 {
      LastRoot(us[..|us| - 1], rollup, roots);
    } else {
      assert us[..0] == [];
    }
  }

  /** The batch moves L1 from hash(posted) to the last per-effect root, or to the anchor's if there
      is no effect; stopped after any `k` entries it stands at that entry's new root, and the rest
      resumes from there to the same end. */
  lemma {:induction false} BatchSettlesAtLastRoot(entries: seq<BatchEntry>, rollup: u64, posted: Root, k: nat)
    requires OneChain(entries, rollup, posted) && k <= |entries|
    ensures
      var batch := Stitch(entries, map[]).0;
      var at := if k == 0 then posted else entries[k - 1].updates[0].newRoot;
      && RunEntries(map[rollup := posted], batch[..k]) == Some(map[rollup := at])
      && RunEntries(map[rollup := at], batch[k..])
         == Some(map[rollup := entries[|entries| - 1].updates[0].newRoot])
  {
    hide RunEntries, Stitch;
    var batch := Stitch(entries, map[]).0;
    ChainRuns(entries, rollup, posted);
    PrefixRuns(entries, rollup, posted, k);
    assert batch == batch[..k] + batch[k..];
    RunSplit(map[rollup := posted], batch[..k], batch[k..]);
  }

  lemma {:induction false} PrefixRuns(entries: seq<BatchEntry>, rollup: u64, posted: Root, k: nat)
    requires OneChain(entries, rollup, posted) && k <= |entries|
    ensures
      RunEntries(map[rollup := posted], Stitch(entries, map[]).0[..k])
      == Some(map[rollup := if k == 0 then posted else entries[k - 1].updates[0].newRoot])
  {
    if k == 0 {
      assert Stitch(entries, map[]).0[..0] == [];
    } else {
      PrefixStitch(entries, k);
      assert OneChain(entries[..k], rollup, posted);
      ChainRuns(entries[..k], rollup, posted);
    }
  }

  lemma {:induction false} ChainRuns(entries: seq<BatchEntry>, rollup: u64, posted: Root)
    requires OneChain(entries, rollup, posted)
    ensures RunEntries(map[rollup := posted], Stitch(entries, map[]).0)
      == Some(map[rollup := entries[|entries| - 1].updates[0].newRoot])
  {
    ChainIsGrounded(entries, rollup, posted);
    StitchedBatchSettles(map[rollup := posted], entries, 0);
    EndOfChain(entries, rollup, posted);
  }

  lemma {:induction false} ChainIsGrounded(entries: seq<BatchEntry>, rollup: u64, posted: Root)
    requires OneChain(entries, rollup, posted)
    ensures Grounded(map[rollup := posted], map[], Flat(entries))
  {
    FlatChain(entries, rollup);
    var us := Flat(entries);
    forall i | 0 <= i < |us|
      ensures us[i].rollup == rollup
      ensures us[i].currentRoot == posted || exists j :: 0 <= j < i && us[j].rollup == us[i].rollup
    {
      if i > 0 { assert us[0].rollup == us[i].rollup; }
    }
  }

  lemma {:induction false} EndOfChain(entries: seq<BatchEntry>, rollup: u64, posted: Root)
    requires OneChain(entries, rollup, posted)
    ensures Overlay(map[rollup := posted], Stitch(entries, map[]).1)
      == map[rollup := entries[|entries| - 1].updates[0].newRoot]
  {
    FlatChain(entries, rollup);
    StitchIsFlat(entries, map[]);
    var last: Root := entries[|entries| - 1].updates[0].newRoot;
    assert Stitch(entries, map[]).1 == map[rollup := last] by { LastRoot(Flat(entries), rollup, map[]); }
    assert Overlay(map[rollup := posted], map[rollup := last]) == map[rollup := last];
  }

  lemma {:induction false} PrefixStitch(entries: seq<BatchEntry>, k: nat)
    requires k <= |entries|
    ensures Stitch(entries, map[]).0[..k] == Stitch(entries[..k], map[]).0
  {
    if k == |entries| {
      assert entries[..k] == entries;
    } else {
      hide StitchUpdates;
      var init := entries[..|entries| - 1];
      PrefixStitch(init, k);
      assert init[..k] == entries[..k];
    }
  }

  /** An anchor with its own update, then effects that arrive without one. */
  ghost predicate Bare(entries: seq<BatchEntry>, rollup: u64, posted: Root, anchorRoot: Root) {
    && entries != []
    && entries[0].updates == [Update(rollup, posted, anchorRoot, 0)]
    && forall i :: 0 < i < |entries| ==> entries[i].updates == []
  }

  lemma {:induction false} BareEffects(entries: seq<BatchEntry>, rollup: u64, posted: Root, anchorRoot: Root, i: nat)
    requires Bare(entries, rollup, posted, anchorRoot) && 0 < i <= |entries|
    ensures Effects(entries[..i]) == i - 1
  {
    EffectsSnoc(entries, i - 1);
    if i > 1 {
      BareEffects(entries, rollup, posted, anchorRoot, i - 1);
    } else {
      assert entries[..0] == [];
    }
  }

  /** A bare batch with its roots attached and stitched takes L1 from hash(posted)
      through the anchor's root and every per-effect root in order, and can stop and resume at any
      of them. */
  lemma {:induction false} PostBatchSettles(
    entries: seq<BatchEntry>, attached: seq<BatchEntry>, deposits: map<nat, int>, roots: seq<Root>, rollup: u64,
    posted: Root, anchorRoot: Root, k: nat)
    requires Bare(entries, rollup, posted, anchorRoot) && Rooted(entries, attached, deposits, roots, rollup)
    requires Effects(entries) == |roots| && k <= |entries|
    ensures
      var batch := Stitch(attached, map[]).0;
      var path := [posted, anchorRoot] + roots;
      && |path| == |batch| + 1
      && RunEntries(map[rollup := posted], batch[..k]) == Some(map[rollup := path[k]])
      && RunEntries(map[rollup := path[k]], batch[k..]) == Some(map[rollup := path[|batch|]])
  {
    var path := [posted, anchorRoot] + roots;
    BareEffects(entries, rollup, posted, anchorRoot, |entries|);
    assert entries[..|entries|] == entries;
    forall i | 0 <= i < |attached|
      ensures |attached[i].updates| == 1 && attached[i].updates[0].rollup == rollup
      ensures attached[i].updates[0].newRoot == path[i + 1]
    {
      assert RootedAt(entries, attached[i], i, deposits, roots, rollup);
      if i > 0 { BareEffects(entries, rollup, posted, anchorRoot, i); }
    }
    assert attached[0] == entries[0] by { assert RootedAt(entries, attached[0], 0, deposits, roots, rollup); }
    BatchSettlesAtLastRoot(attached, rollup, posted, k);
  }

  ghost predicate Updateless(entries: seq<BatchEntry>) {
    forall i :: 0 <= i < |entries| ==> entries[i].updates == []
  }

  lemma {:induction false} InboundUpdateless(comps: seq<Composition>)
    requires forall i :: 0 <= i < |comps| ==> Updateless(comps[i].entries)
    ensures Updateless(Inbound(comps))
  {
    if comps != [] { InboundUpdateless(comps[..|comps| - 1]); }
  }

  /** Assembling update-free entries behind the anchor gives a bare batch, one effect per entry. */
  lemma {:induction false} AssembledIsBare(
    anchor: BatchEntry, outbound: seq<BatchEntry>, comps: seq<Composition>, rollup: u64, posted: Root, anchorRoot: Root)
    requires anchor.updates == [Update(rollup, posted, anchorRoot, 0)] && Updateless(outbound)
    requires forall i :: 0 <= i < |comps| ==> Updateless(comps[i].entries)
    ensures
      var entries := [anchor] + Redirected(outbound, rollup) + Inbound(comps);
      Bare(entries, rollup, posted, anchorRoot) && Effects(entries) == |outbound| + |Inbound(comps)|
    ensures Updateless(Redirected(outbound, rollup) + Inbound(comps))
  {
    var entries := [anchor] + Redirected(outbound, rollup) + Inbound(comps);
    InboundUpdateless(comps);
    BareEffects(entries, rollup, posted, anchorRoot, |entries|);
    assert entries[..|entries|] == entries;
  }

  /** The whole pipeline: assemble, attach, stitch. It is refused exactly when the roots do not number
      the entries or some outbound amount is unknown or too large for L1; otherwise L1 goes from
      hash(posted) through the anchor's root and every per-effect root in order, can stop and resume at
      any, and the ether moved is what the inbound entries deposit less what the outbound ones withdraw. */
  method PreparePostBatch(
    posted: Root, anchorRoot: Root, outbound: seq<BatchEntry>, comps: seq<Composition>, rollup: u64,
    sidecars: seq<Sidecar>, roots: seq<Root>)
    returns (r: Option<seq<BatchEntry>>)
    requires Updateless(outbound) && forall i :: 0 <= i < |comps| ==> Updateless(comps[i].entries)
    ensures r.Some? <==>
      && |roots| == |outbound| + |Inbound(comps)|
      && (forall e :: e in outbound + Inbound(comps) && e.proxy == 0 ==>
           e.etherOut.Some? && e.etherOut.value <= I192_MAX)
    ensures r.Some? ==>
      var path := [posted, anchorRoot] + roots;
      |path| == |r.value| + 1 && Walks(r.value, rollup, path)
    ensures r.Some? ==> Laid(r.value, outbound, Inbound(comps), rollup, Deposits(sidecars))
    ensures r.Some? ==>
      var rest := outbound + Inbound(comps);
      Net(r.value) == Deposited(rest, Deposits(sidecars)) - Withdrawn(rest)
  {
    var deposits := InboundEther(sidecars);
    var anchor := BatchEntry(0, [Update(rollup, posted, anchorRoot, 0)], rollup, Some(0), 0);
    var entries := Assemble(anchor, outbound, comps, rollup);
    AssembledIsBare(anchor, outbound, comps, rollup, posted, anchorRoot);
    var attached := Attach(entries, deposits, roots, rollup);
    AttachableIs(anchor, Redirected(outbound, rollup) + Inbound(comps), roots);
    RedirectedMoves(outbound, Inbound(comps), rollup, deposits);
    assert entries == [anchor] + (Redirected(outbound, rollup) + Inbound(comps));
    if attached.None? { return None; }
    var batch := StitchBatch(attached.value);
    forall k | 0 <= k <= |entries|
      ensures WalksAt(batch, rollup, [posted, anchorRoot] + roots, k)
    {
      PostBatchSettles(entries, attached.value, deposits, roots, rollup, posted, anchorRoot, k);
    }
    PostBatchSettles(entries, attached.value, deposits, roots, rollup, posted, anchorRoot, 0);
    StitchMovesNothing(attached.value, map[]);
    PreparedLayout(anchor, outbound, Inbound(comps), rollup, deposits, roots, attached.value, batch);
    AnchorMovesNothing(anchor, Redirected(outbound, rollup) + Inbound(comps), deposits);
    return Some(batch);
  }

  /** After `k` entries L1 stands at the `k`-th root, and the rest runs from there to the last. */
  ghost predicate WalksAt(batch: seq<BatchEntry>, rollup: u64, path: seq<Root>, k: nat) {
    && k <= |batch| < |path|
    && RunEntries(map[rollup := path[0]], batch[..k]) == Some(map[rollup := path[k]])
    && RunEntries(map[rollup := path[k]], batch[k..]) == Some(map[rollup := path[|batch|]])
  }

  ghost predicate Walks(batch: seq<BatchEntry>, rollup: u64, path: seq<Root>) {
    forall k :: 0 <= k <= |batch| ==> WalksAt(batch, rollup, path, k)
  }

  /** Behind the anchor stand the outbound entries and then the inbound ones, each changed only in
      where it settles, and each moving its own ether. */
  ghost predicate Laid(
    batch: seq<BatchEntry>, outbound: seq<BatchEntry>, inbound: seq<BatchEntry>, rollup: u64, deposits: map<nat, int>)
  {
    && |batch| == 1 + |outbound| + |inbound|
    && (forall i :: 0 <= i < |outbound| ==> LaidAt(batch[1 + i], outbound[i].(dest := rollup), deposits))
    && (forall i :: 0 <= i < |inbound| ==> LaidAt(batch[1 + |outbound| + i], inbound[i], deposits))
  }

  ghost predicate LaidAt(after: BatchEntry, e: BatchEntry, deposits: map<nat, int>) {
    |after.updates| == 1 && after == e.(updates := after.updates) && Moves(e, after.updates[0].etherDelta, deposits)
  }

  lemma {:induction false} StitchMovesNothing(entries: seq<BatchEntry>, roots: map<u64, Root>)
    ensures
      var out := Stitch(entries, roots).0;
      && Net(out) == Net(entries)
      && forall i :: 0 <= i < |entries| ==> SameEther(out[i], entries[i])
  {
    hide StitchUpdates, NetOf, SameEther;
    if entries != [] {
      var init, e := entries[..|entries| - 1], entries[|entries| - 1];
      StitchMovesNothing(init, roots);
      var (before, running) := Stitch(init, roots);
      OneEntryMovesNothing(e, running);
      assert Stitch(entries, roots).0[..|init|] == before;
    }
  }

  /** The same entry with the same ether movements. */
  ghost predicate SameEther(a: BatchEntry, b: BatchEntry) {
    && a == b.(updates := a.updates) && |a.updates| == |b.updates|
    && forall j :: 0 <= j < |a.updates| ==> a.updates[j].etherDelta == b.updates[j].etherDelta
  }

  lemma {:induction false} OneEntryMovesNothing(e: BatchEntry, running: map<u64, Root>)
    ensures
      var updates := StitchUpdates(e.updates, running).0;
      NetOf(updates) == NetOf(e.updates) && SameEther(e.(updates := updates), e)
  {
    hide StitchUpdates, NetOf;
    StitchKeeps(e.updates, running);
    SameNet(StitchUpdates(e.updates, running).0, e.updates);
  }

  lemma {:induction false} SameNet(a: seq<Update>, b: seq<Update>)
    requires |a| == |b| && forall i :: 0 <= i < |a| ==> a[i].etherDelta == b[i].etherDelta
    ensures NetOf(a) == NetOf(b)
  {
    if a != [] { SameNet(a[..|a| - 1], b[..|b| - 1]); }
  }

  lemma {:induction false} PreparedLayout(
    anchor: BatchEntry, outbound: seq<BatchEntry>, inbound: seq<BatchEntry>, rollup: u64, deposits: map<nat, int>,
    roots: seq<Root>, attached: seq<BatchEntry>, batch: seq<BatchEntry>)
    requires Updateless(Redirected(outbound, rollup) + inbound)
    requires Rooted([anchor] + Redirected(outbound, rollup) + inbound, attached, deposits, roots, rollup)
    requires batch == Stitch(attached, map[]).0
    ensures Laid(batch, outbound, inbound, rollup, deposits)
  {
    hide Stitch, SameEther, RootedAt, LaidAt, Net;
    var rest := Redirected(outbound, rollup) + inbound;
    var entries := [anchor] + Redirected(outbound, rollup) + inbound;
    StitchMovesNothing(attached, map[]);
    forall i | 0 <= i < |rest| ensures LaidAt(batch[1 + i], rest[i], deposits) {
      assert entries[1 + i] == rest[i];
      LaidOne(entries, attached[1 + i], batch[1 + i], 1 + i, deposits, roots, rollup);
    }
    forall i | 0 <= i < |outbound| ensures LaidAt(batch[1 + i], outbound[i].(dest := rollup), deposits) {
      assert rest[i] == outbound[i].(dest := rollup);
    }
    forall i | 0 <= i < |inbound| ensures LaidAt(batch[1 + |outbound| + i], inbound[i], deposits) {
      assert rest[|outbound| + i] == inbound[i];
    }
  }

  lemma {:induction false} LaidOne(
    entries: seq<BatchEntry>, attached: BatchEntry, stitched: BatchEntry, i: nat, deposits: map<nat, int>,
    roots: seq<Root>, rollup: u64)
    requires i < |entries| && entries[i].updates == [] && SameEther(stitched, attached)
    requires RootedAt(entries, attached, i, deposits, roots, rollup)
    ensures LaidAt(stitched, entries[i], deposits)
  {
    hide Effects;
  }

  /** Where an entry settles does not change what it moves. */
  lemma {:induction false} RedirectedMoves(
    outbound: seq<BatchEntry>, inbound: seq<BatchEntry>, rollup: u64, deposits: map<nat, int>)
    ensures
      var sent := Redirected(outbound, rollup) + inbound;
      && Deposited(sent, deposits) == Deposited(outbound + inbound, deposits)
      && Withdrawn(sent) == Withdrawn(outbound + inbound)
      && ((forall e :: e in sent ==> Expressible(e))
          <==> forall e :: e in outbound + inbound && e.proxy == 0 ==>
                 e.etherOut.Some? && e.etherOut.value <= I192_MAX)
  {
    var sent, rest := Redirected(outbound, rollup) + inbound, outbound + inbound;
    forall i | 0 <= i < |sent| ensures SameMoves(sent[i], rest[i]) {}
    SameTotals(sent, rest, deposits);
    if forall e :: e in sent ==> Expressible(e) {
      forall e | e in rest && e.proxy == 0 ensures e.etherOut.Some? && e.etherOut.value <= I192_MAX {
        var i :| 0 <= i < |rest| && rest[i] == e;
        assert SameMoves(sent[i], rest[i]) && sent[i] in sent;
      }
    }
    if forall e :: e in rest && e.proxy == 0 ==> e.etherOut.Some? && e.etherOut.value <= I192_MAX {
      forall e | e in sent ensures Expressible(e) {
        var i :| 0 <= i < |sent| && sent[i] == e;
        assert SameMoves(sent[i], rest[i]) && rest[i] in rest;
      }
    }
  }

  ghost predicate SameMoves(a: BatchEntry, b: BatchEntry) {
    a.updates == b.updates && a.proxy == b.proxy && a.etherOut == b.etherOut
  }

  lemma {:induction false} SameTotals(a: seq<BatchEntry>, b: seq<BatchEntry>, deposits: map<nat, int>)
    requires |a| == |b| && forall i :: 0 <= i < |a| ==> SameMoves(a[i], b[i])
    ensures Deposited(a, deposits) == Deposited(b, deposits) && Withdrawn(a) == Withdrawn(b)
  {
    if a != [] {
      var n := |a| - 1;
      assert SameMoves(a[n], b[n]);
      SameTotals(a[..n], b[..n], deposits);
    }
  }

  lemma {:induction false} AnchorMovesNothing(anchor: BatchEntry, rest: seq<BatchEntry>, deposits: map<nat, int>)
    requires |anchor.updates| == 1 && anchor.updates[0].etherDelta == 0 && Updateless(rest)
    ensures Net([anchor] + rest) == 0
    ensures Deposited([anchor] + rest, deposits) == Deposited(rest, deposits)
    ensures Withdrawn([anchor] + rest) == Withdrawn(rest)
  {
    var all := [anchor] + rest;
    if rest == [] {
      assert all[..0] == [];
      OneMovement(anchor.updates);
    } else {
      AnchorMovesNothing(anchor, rest[..|rest| - 1], deposits);
      assert all[..|rest|] == [anchor] + rest[..|rest| - 1];
    }
  }

  lemma {:induction false} AttachableIs(anchor: BatchEntry, rest: seq<BatchEntry>, roots: seq<Root>)
    requires anchor.updates != [] && Updateless(rest)
    ensures Attachable([anchor] + rest, roots)
      <==> Effects([anchor] + rest) == |roots| && forall e :: e in rest ==> Expressible(e)
  {
    var all := [anchor] + rest;
    if Attachable(all, roots) {
      forall e | e in rest
        ensures Expressible(e)
      {
        var i :| 0 <= i < |rest| && rest[i] == e;
        assert all[i + 1] == e;
      }
    }
  }

  // ---- Attribution ----------------------------------------------------------------------------

  datatype Failure = OutboundFailure(hash: TxHash) | InboundFailure(entryIndex: nat)

  function Copies(hash: TxHash, n: nat): (r: seq<TxHash>)
    ensures |r| == n && forall i :: 0 <= i < n ==> r[i] == hash
  {
    seq(n, _ => hash)
  }

  /** The hash behind each inbound entry, in batch order. */
  function Owners(comps: seq<Composition>): seq<TxHash> {
    if comps == [] then []
    else
      var last := comps[|comps| - 1];
      Owners(comps[..|comps| - 1]) + Copies(last.hash, |last.entries|)
  }

  lemma {:induction false} OwnersMatchLayout(comps: seq<Composition>)
    ensures |Owners(comps)| == |Inbound(comps)|
  {
    if comps != [] { OwnersMatchLayout(comps[..|comps| - 1]); }
  }

  /** The composition at `j` contributes its entries, in order, at its own offset. */
  lemma {:induction false} OwnerContributed(comps: seq<Composition>, j: nat, i: nat)
    requires j < |comps| && i < |comps[j].entries|
    ensures
      var at := |Inbound(comps[..j])| + i;
      && at < |Inbound(comps)| && at < |Owners(comps)|
      && Inbound(comps)[at] == comps[j].entries[i] && Owners(comps)[at] == comps[j].hash
  {
    var init, last := comps[..|comps| - 1], comps[|comps| - 1];
    OwnersMatchLayout(init);
    assert Inbound(comps) == Inbound(init) + last.entries;
    assert Owners(comps) == Owners(init) + Copies(last.hash, |last.entries|);
    if j < |comps| - 1 {
      OwnerContributed(init, j, i);
      assert init[..j] == comps[..j];
    } else {
      assert comps[..j] == init;
    }
  }

  /** The transaction that owns a failed entry, as the layout says. */
  function OwnerAt(entryIndex: nat, outbound: nat, comps: seq<Composition>): Option<TxHash> {
    if 1 + outbound <= entryIndex < 1 + outbound + |Owners(comps)|
    then Some(Owners(comps)[entryIndex - 1 - outbound]) else None
  }

  function FirstHeld(survivors: seq<HeldTx>, d: Direction, hash: TxHash): (r: Option<HeldTx>)
    ensures r.Some? ==> r.value in survivors && r.value.direction == d && r.value.hash == hash
    ensures r.None? ==> forall tx :: tx in survivors ==> tx.direction != d || tx.hash != hash
  {
    if survivors == [] then None
    else if survivors[0].direction == d && survivors[0].hash == hash then Some(survivors[0])
    else
      assert survivors == [survivors[0]] + survivors[1..];
      FirstHeld(survivors[1..], d, hash)
  }

  lemma {:induction false} OwnersSplit(comps: seq<Composition>, j: nat)
    requires j < |comps|
    ensures Owners(comps[..j + 1]) == Owners(comps[..j]) + Copies(comps[j].hash, |comps[j].entries|)
  {
    assert comps[..j + 1][..j] == comps[..j];
  }

  lemma {:induction false} OwnersPrefix(comps: seq<Composition>, j: nat)
    requires j <= |comps|
    ensures |Owners(comps[..j])| <= |Owners(comps)| && Owners(comps)[..|Owners(comps[..j])|] == Owners(comps[..j])
  {
    if j == |comps| {
      assert comps[..j] == comps;
    } else {
      OwnersPrefix(comps[..|comps| - 1], j);
      assert comps[..|comps| - 1][..j] == comps[..j];
    }
  }

  /** Running subtraction over the compositions finds the owner the flattened layout names, and
      every index outside the inbound entries finds none. */
  method ActionableHeldTx(failure: Failure, survivors: seq<HeldTx>, outbound: nat, comps: seq<Composition>)
    returns (r: Option<HeldTx>)
    ensures failure.OutboundFailure? ==> r == FirstHeld(survivors, Direction.Outbound, failure.hash)
    ensures failure.InboundFailure? ==>
      var owner := OwnerAt(failure.entryIndex, outbound, comps);
      r == if owner.Some? then FirstHeld(survivors, Direction.Inbound, owner.value) else None
  {
    match failure
    case OutboundFailure(hash) => r := FirstHeld(survivors, Direction.Outbound, hash);
    case InboundFailure(entryIndex) =>
      if entryIndex < 1 + outbound { return None; }
      var index := entryIndex - (1 + outbound);
      var owner: Option<TxHash> := None;
      var j := 0;
      while j < |comps| && owner.None?
        invariant j <= |comps| && index >= 0
        invariant owner.None? ==> entryIndex - 1 - outbound == |Owners(comps[..j])| + index
        invariant owner.Some? ==> owner == OwnerAt(entryIndex, outbound, comps)
        decreases |comps| - j
      {
        OwnersSplit(comps, j);
        OwnersPrefix(comps, j + 1);
        if index < |comps[j].entries| {
          owner := Some(comps[j].hash);
          assert Owners(comps)[..|Owners(comps[..j + 1])|][entryIndex - 1 - outbound] == comps[j].hash;
        } else {
          index := index - |comps[j].entries|;
        }
        j := j + 1;
      }
      assert comps[..|comps|] == comps;
      if owner.None? { return None; }
      r := FirstHeld(survivors, Direction.Inbound, owner.value);
  }
}
