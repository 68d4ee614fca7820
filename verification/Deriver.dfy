/** How a deriver rebuilds a Sync block from what L1 reports it ran, and appends the rest of a
    batch L1 resumed in the middle. */
module Deriver {
  import opened Types
  import opened SystemTx

  /** What an applied entry contributes, and where the data-availability payload carries it. */
  datatype Role = Anchor | OutboundAt(ordinal: nat) | InboundAt(ordinal: nat)

  datatype Slots = Slots(outs: seq<OutEntry>, ins: seq<Entry>)

  // ---- Entries from the published actions ----------------------------------------------------

  const MAINNET: u64 := 0

  /** One call as the data-availability payload publishes it. The last three fields decide whether the
      entry lowers, is a well-formed sidecar, and what it does. */
  datatype Action = Action(
    source: u64, target: u64, gas: u64, success: bool, lowers: bool, sidecar: bool, body: nat)
  {
    predicate Leaves(local: u64) { source == local && target == MAINNET }

    predicate Arrives(local: u64) { target == local }
  }

  function EntryFromAction(a: Action, local: u64): Option<Entry> {
    if !a.Leaves(local) && !a.Arrives(local) then None
    else Some(Entry([Call(false, 0, a.gas, a.body)], 0, a.success, local, a.lowers, a.sidecar, a.body))
  }

  /** What a batch claims, split by direction. */
  datatype Claimed = Claimed(outbound: seq<Entry>, inbound: seq<Entry>)

  /** The entries of all actions; one that belongs to no side of this rollup is a divergence. */
  function ClaimedBy(actions: seq<Action>, local: u64): Option<Claimed> {
    if actions == [] then Some(Claimed([], []))
    else
      var last := actions[|actions| - 1];
      match ClaimedBy(actions[..|actions| - 1], local)
      case None => None
      case Some(c) =>
        match EntryFromAction(last, local)
        case None => None
        case Some(e) =>
          if last.Leaves(local) then Some(c.(outbound := c.outbound + [e])) else Some(c.(inbound := c.inbound + [e]))
  }

  /** One call, nothing nested, for this very rollup. */
  predicate Ours(e: Entry, local: u64) {
    |e.calls| == 1 && e.nested == 0 && e.rollup == local
  }

  ghost predicate AllOurs(entries: seq<Entry>, local: u64) {
    forall i :: 0 <= i < |entries| ==> Ours(entries[i], local)
  }

  /** Every rebuilt entry carries one call for this rollup, none is dropped, and the batch is refused
      exactly when some action is neither a call of it to mainnet, which is rollup 0, nor a call to it. */
  lemma {:induction false} ClaimedAreOurs(actions: seq<Action>, local: u64)
    ensures ClaimedBy(actions, local).Some?
      <==> forall a :: a in actions ==> (a.source == local && a.target == 0) || a.target == local
    ensures
      var c := ClaimedBy(actions, local);
      c.Some? ==>
        && AllOurs(c.value.outbound, local) && AllOurs(c.value.inbound, local)
        && |c.value.outbound| + |c.value.inbound| == |actions|
  {
    if actions != [] {
      var init, last := actions[..|actions| - 1], actions[|actions| - 1];
      assert actions == init + [last];
      ClaimedAreOurs(init, local);
    }
  }

  /** How many of the actions leave this rollup. */
  ghost function Leaving(actions: seq<Action>, local: u64): nat {
    if actions == [] then 0
    else
      var a := actions[|actions| - 1];
      Leaving(actions[..|actions| - 1], local) + (if a.source == local && a.target == 0 then 1 else 0)
  }

  /** The entry says what the action said. */
  ghost predicate Conveys(e: Entry, a: Action, local: u64) {
    && |e.calls| == 1 && e.calls[0].gas == a.gas && e.calls[0].body == a.body
    && !e.calls[0].isStatic && e.calls[0].revertSpan == 0 && e.nested == 0 && e.rollup == local
    && e.body == a.body && e.success == a.success && e.lowers == a.lowers && e.sidecar == a.sidecar
  }

  /** Each direction keeps the order of the published actions: the action at `i` is the outbound entry
      numbered by the leaving actions before it, or the inbound one numbered by all the others. */
  lemma {:induction false} ClaimedInOrder(actions: seq<Action>, local: u64)
    requires ClaimedBy(actions, local).Some?
    ensures
      var c := ClaimedBy(actions, local).value;
      |c.outbound| == Leaving(actions, local) && |c.inbound| == |actions| - |c.outbound|
    ensures forall i :: 0 <= i < |actions| ==> NumberedAt(actions, local, i)
  {
    if actions != [] {
      var n := |actions| - 1;
      var init, last := actions[..n], actions[n];
      ClaimedInOrder(init, local);
      forall i | 0 <= i < |actions| ensures NumberedAt(actions, local, i) {
        if i < n {
          assert NumberedAt(init, local, i);
          assert init[..i] == actions[..i];
        }
      }
    }
  }

  ghost predicate NumberedAt(actions: seq<Action>, local: u64, i: nat)
    requires i < |actions| && ClaimedBy(actions, local).Some?
  {
    var c, k := ClaimedBy(actions, local).value, Leaving(actions[..i], local);
    if actions[i].source == local && actions[i].target == 0
    then k < |c.outbound| && Conveys(c.outbound[k], actions[i], local)
    else k <= i && i - k < |c.inbound| && Conveys(c.inbound[i - k], actions[i], local)
  }

  predicate Carried(role: Role, outbound: seq<Entry>, inbound: seq<Entry>, users: seq<Bytes>) {
    match role
    case Anchor => true
    case OutboundAt(i) => i < |outbound| && i < |users|
    case InboundAt(i) => i < |inbound|
  }

  predicate AllCarried(applied: seq<Role>, outbound: seq<Entry>, inbound: seq<Entry>, users: seq<Bytes>) {
    forall k :: 0 <= k < |applied| ==> Carried(applied[k], outbound, inbound, users)
  }

  /** The entries of the applied roles, each outbound one with the user transaction at its own
      ordinal, in application order. */
  function Selected(applied: seq<Role>, outbound: seq<Entry>, inbound: seq<Entry>, users: seq<Bytes>): Slots
    requires AllCarried(applied, outbound, inbound, users)
  {
    if applied == [] then Slots([], [])
    else
      var before := Selected(applied[..|applied| - 1], outbound, inbound, users);
      match applied[|applied| - 1]
      case Anchor => before
      case OutboundAt(i) => before.(outs := before.outs + [OutEntry(outbound[i], users[i])])
      case InboundAt(i) => before.(ins := before.ins + [inbound[i]])
  }

  method SelectAppliedSlots(applied: seq<Role>, outbound: seq<Entry>, inbound: seq<Entry>, users: seq<Bytes>)
    returns (r: Option<Slots>)
    ensures r.Some? <==> AllCarried(applied, outbound, inbound, users)
    ensures r.Some? ==> r.value == Selected(applied, outbound, inbound, users)
  {
    var outs, ins := [], [];
    for k := 0 to |applied|
      invariant AllCarried(applied[..k], outbound, inbound, users)
      invariant Slots(outs, ins) == Selected(applied[..k], outbound, inbound, users)
    {
      assert applied[..k + 1][..k] == applied[..k];
      assert Carried(applied[k], outbound, inbound, users) ==> AllCarried(applied[..k + 1], outbound, inbound, users);
      match applied[k]
      case Anchor =>
      case OutboundAt(i) =>
        if i >= |outbound| || i >= |users| { return None; }
        outs := outs + [OutEntry(outbound[i], users[i])];
      case InboundAt(i) =>
        if i >= |inbound| { return None; }
        ins := ins + [inbound[i]];
    }
    assert applied[..|applied|] == applied;
    return Some(Slots(outs, ins));
  }

  /** How many claimed entries stand before the first one L1 applied. */
  function Skipped(applied: seq<Role>, outbound: nat): (nat, nat) {
    if applied == [] then (0, 0)
    else
      match applied[0]
      case Anchor => (0, 0)
      case OutboundAt(i) => (i, 0)
      case InboundAt(i) => (outbound, i)
  }

  function Pair(outbound: seq<Entry>, users: seq<Bytes>, n: nat): (r: seq<OutEntry>)
    requires n <= |outbound| && n <= |users|
    ensures |r| == n && forall i :: 0 <= i < n ==> r[i] == OutEntry(outbound[i], users[i])
  {
    seq(n, i requires 0 <= i < n => OutEntry(outbound[i], users[i]))
  }

  /** The pairs of the applied entries, at the nonce a build of the skipped ones would leave. */
  function RebuildPairs(skipped: Slots, applied: Slots, cfg: Context, nonce: u64): Option<seq<SyncPair>> {
    match BuildPairs(skipped.outs, skipped.ins, cfg, nonce)
    case None => None
    case Some(prefix) =>
      if nonce + |prefix| > U64_MAX then None else BuildPairs(applied.outs, applied.ins, cfg, nonce + |prefix|)
  }

  /** The Sync block's transactions as the deriver rebuilds them; `None` is a divergence. User
      transactions beyond the outbound ones follow at the end. */
  function Rebuild(
    applied: seq<Role>, outbound: seq<Entry>, inbound: seq<Entry>, users: seq<Bytes>, cfg: Context, nonce: u64)
    : Option<seq<SyncTx>>
  {
    var (outSkip, inSkip) := Skipped(applied, |outbound|);
    if |users| < |outbound| || !AllCarried(applied, outbound, inbound, users) then None
    else if outSkip > |outbound| || inSkip > |inbound| then None
    else
      var skipped := Slots(Pair(outbound, users, outSkip), inbound[..inSkip]);
      match RebuildPairs(skipped, Selected(applied, outbound, inbound, users), cfg, nonce)
      case None => None
      case Some(pairs) => Some(Interleave(pairs) + Users(users[|outbound|..]))
  }

  function Users(raw: seq<Bytes>): (r: seq<SyncTx>)
    ensures |r| == |raw| && forall i :: 0 <= i < |r| ==> r[i] == User(raw[i])
  {
    seq(|raw|, i requires 0 <= i < |raw| => User(raw[i]))
  }

  /** Drop a copy of `content` the block already ends with, then append it. */
  function ResumeReplay<H(==), T(==)>(local: H, settled: Option<H>, existing: seq<T>, content: seq<T>): Option<seq<T>> {
    if settled == Some(local) then None
    else
      var base := if content != [] && |content| <= |existing| && existing[|existing| - |content|..] == content
                  then existing[..|existing| - |content|] else existing;
      Some(base + content)
  }

  // ---- Splitting the canonical block --------------------------------------------------------

  function OutRoles(m: nat, k: nat): (r: seq<Role>)
    requires m <= k
    ensures |r| == k - m && forall i :: 0 <= i < |r| ==> r[i] == OutboundAt(m + i)
  {
    seq(k - m, i requires 0 <= i < k - m => OutboundAt(m + i))
  }

  function InRoles(m: nat, k: nat): (r: seq<Role>)
    requires m <= k
    ensures |r| == k - m && forall i :: 0 <= i < |r| ==> r[i] == InboundAt(m + i)
  {
    seq(k - m, i requires 0 <= i < k - m => InboundAt(m + i))
  }

  /** The roles of the claimed entries from the `o`-th outbound and the `i`-th inbound one on. */
  function Rest(outbound: nat, inbound: nat, o: nat, i: nat): seq<Role>
    requires o <= outbound && i <= inbound
  {
    OutRoles(o, outbound) + InRoles(i, inbound)
  }

  lemma {:induction false} CarriedSnoc(
    roles: seq<Role>, role: Role, outbound: seq<Entry>, inbound: seq<Entry>, users: seq<Bytes>)
    requires AllCarried(roles, outbound, inbound, users) && Carried(role, outbound, inbound, users)
    ensures AllCarried(roles + [role], outbound, inbound, users)
    ensures (roles + [role])[..|roles|] == roles && (roles + [role])[|roles|] == role
  {
  }

  lemma {:induction false} SelectOutbound(
    roles: seq<Role>, i: nat, outbound: seq<Entry>, inbound: seq<Entry>, users: seq<Bytes>, before: Slots)
    requires AllCarried(roles, outbound, inbound, users) && i < |outbound| && i < |users|
    requires Selected(roles, outbound, inbound, users) == before
    ensures AllCarried(roles + [OutboundAt(i)], outbound, inbound, users)
    ensures Selected(roles + [OutboundAt(i)], outbound, inbound, users)
      == before.(outs := before.outs + [OutEntry(outbound[i], users[i])])
  {
    CarriedSnoc(roles, OutboundAt(i), outbound, inbound, users);
  }

  lemma {:induction false} SelectInbound(
    roles: seq<Role>, i: nat, outbound: seq<Entry>, inbound: seq<Entry>, users: seq<Bytes>, before: Slots)
    requires AllCarried(roles, outbound, inbound, users) && i < |inbound|
    requires Selected(roles, outbound, inbound, users) == before
    ensures AllCarried(roles + [InboundAt(i)], outbound, inbound, users)
    ensures Selected(roles + [InboundAt(i)], outbound, inbound, users) == before.(ins := before.ins + [inbound[i]])
  {
    CarriedSnoc(roles, InboundAt(i), outbound, inbound, users);
  }

  lemma {:induction false} SelectedOuts(
    outbound: seq<Entry>, inbound: seq<Entry>, users: seq<Bytes>, m: nat, k: nat)
    requires m <= k <= |outbound| && |outbound| <= |users|
    ensures AllCarried(OutRoles(m, k), outbound, inbound, users)
    ensures Selected(OutRoles(m, k), outbound, inbound, users) == Slots(Pair(outbound, users, |outbound|)[m..k], [])
  {
    var outs := Pair(outbound, users, |outbound|);
    if k > m {
      SelectedOuts(outbound, inbound, users, m, k - 1);
      SelectOutbound(OutRoles(m, k - 1), k - 1, outbound, inbound, users, Slots(outs[m..k - 1], []));
      assert OutRoles(m, k) == OutRoles(m, k - 1) + [OutboundAt(k - 1)];
      SliceSnoc(outs, m, k);
    }
  }

  lemma {:induction false} SelectedIns(
    roles: seq<Role>, outs: seq<OutEntry>, outbound: seq<Entry>, inbound: seq<Entry>, users: seq<Bytes>, m: nat, k: nat)
    requires m <= k <= |inbound| && AllCarried(roles, outbound, inbound, users)
    requires Selected(roles, outbound, inbound, users) == Slots(outs, [])
    ensures AllCarried(roles + InRoles(m, k), outbound, inbound, users)
    ensures Selected(roles + InRoles(m, k), outbound, inbound, users) == Slots(outs, inbound[m..k])
  {
    if k == m {
      assert roles + InRoles(m, k) == roles && inbound[m..k] == [];
    } else {
      SelectedIns(roles, outs, outbound, inbound, users, m, k - 1);
      SelectInbound(roles + InRoles(m, k - 1), k - 1, outbound, inbound, users, Slots(outs, inbound[m..k - 1]));
      InRolesSnoc(roles, m, k);
      SliceSnoc(inbound, m, k);
    }
  }

  lemma {:induction false} InRolesSnoc(roles: seq<Role>, m: nat, k: nat)
    requires m < k
    ensures roles + InRoles(m, k) == (roles + InRoles(m, k - 1)) + [InboundAt(k - 1)]
  {
  }

  lemma {:induction false} SliceSnoc<T>(xs: seq<T>, m: nat, k: nat)
    requires m < k <= |xs|
    ensures xs[m..k] == xs[m..k - 1] + [xs[k - 1]]
  {
  }

  /** Selecting by role picks out exactly the remaining entries, each with its own user tx. */
  lemma {:induction false} SelectedRest(outbound: seq<Entry>, inbound: seq<Entry>, users: seq<Bytes>, o: nat, i: nat)
    requires o <= |outbound| <= |users| && i <= |inbound|
    ensures
      var roles := Rest(|outbound|, |inbound|, o, i);
      && AllCarried(roles, outbound, inbound, users)
      && Selected(roles, outbound, inbound, users) == Slots(Pair(outbound, users, |outbound|)[o..], inbound[i..])
  {
    var outs := Pair(outbound, users, |outbound|);
    SelectedOuts(outbound, inbound, users, o, |outbound|);
    SelectedIns(OutRoles(o, |outbound|), outs[o..|outbound|], outbound, inbound, users, i, |inbound|);
    assert outs[o..|outbound|] == outs[o..] && inbound[i..|inbound|] == inbound[i..];
  }

  /** System transactions take consecutive nonces. */
  lemma {:induction false} PairNonces(outs: seq<OutEntry>, ins: seq<Entry>, cfg: Context, nonce: nat)
    requires BuildPairs(outs, ins, cfg, nonce).Some?
    ensures
      var pairs := BuildPairs(outs, ins, cfg, nonce).value;
      forall i :: 0 <= i < |pairs| ==> !pairs[i].system.User? && pairs[i].system.nonce == nonce + i
  {
    var loads := BuildLoads(outs, cfg, nonce).value;
    LoadNonces(outs, cfg, nonce);
    DeliveryNonces(ins, cfg, nonce + |loads|);
  }

  lemma {:induction false} DeliveryNonces(ins: seq<Entry>, cfg: Context, nonce: nat)
    requires BuildInbound(ins, cfg, nonce).Some?
    ensures
      var txs := BuildInbound(ins, cfg, nonce).value;
      forall i :: 0 <= i < |txs| ==> txs[i].Delivery? && txs[i].nonce == nonce + i
  {
    if ins != [] {
      DeliveryNonces(ins[..|ins| - 1], cfg, nonce);
    }
  }

  /** A system transaction of the block is one of its pairs'. */
  lemma {:induction false} InBlock(pairs: seq<SyncPair>, t: SyncTx) returns (i: nat)
    requires t in Interleave(pairs) && !t.User?
    ensures i < |pairs| && pairs[i].system == t
  {
    var init, last := pairs[..|pairs| - 1], pairs[|pairs| - 1];
    if t in Interleave(init) {
      i := InBlock(init, t);
    } else {
      i := |pairs| - 1;
    }
  }

  lemma {:induction false} BlockHead(pairs: seq<SyncPair>)
    requires pairs != []
    ensures Interleave(pairs) != [] && Interleave(pairs)[0] == pairs[0].system
  {
    if |pairs| > 1 {
      BlockHead(pairs[..|pairs| - 1]);
    } else {
      assert pairs[..0] == [];
    }
  }

  /** Building the claimed entries up to `m` and then the rest, from where the first part left the
      nonce, builds them all. */
  lemma {:induction false} BuildSplits(
    outs: seq<OutEntry>, ins: seq<Entry>, cfg: Context, nonce: nat, o: nat, i: nat)
    requires o <= |outs| && i <= |ins| && (o == |outs| || i == 0)
    requires BuildPairs(outs, ins, cfg, nonce).Some?
    ensures
      && BuildPairs(outs[..o], ins[..i], cfg, nonce).Some?
      && var prefix := BuildPairs(outs[..o], ins[..i], cfg, nonce).value;
         && BuildPairs(outs[o..], ins[i..], cfg, nonce + |prefix|).Some?
         && BuildPairs(outs, ins, cfg, nonce).value
            == prefix + BuildPairs(outs[o..], ins[i..], cfg, nonce + |prefix|).value
  {
    assert outs == outs[..o] + outs[o..] && ins == ins[..i] + ins[i..];
    LoadsSplit(outs[..o], outs[o..], cfg, nonce);
    if i == 0 {
      OutboundCut(outs, ins, cfg, nonce, o);
    } else {
      InboundCut(outs, ins, cfg, nonce, i);
    }
  }

  lemma {:induction false} PairsAre(
    outs: seq<OutEntry>, ins: seq<Entry>, cfg: Context, nonce: nat, loads: seq<SyncPair>, deliveries: seq<SyncTx>)
    requires Shapes(ins) && Sidecars(ins) && BuildLoads(outs, cfg, nonce) == Some(loads)
    requires BuildInbound(ins, cfg, nonce + |loads|) == Some(deliveries)
    ensures BuildPairs(outs, ins, cfg, nonce) == Some(loads + Deliveries(deliveries))
  {
  }

  lemma {:induction false} OutboundCut(outs: seq<OutEntry>, ins: seq<Entry>, cfg: Context, nonce: nat, o: nat)
    requires o <= |outs| && BuildPairs(outs, ins, cfg, nonce).Some?
    ensures
      && BuildPairs(outs[..o], ins[..0], cfg, nonce).Some?
      && var prefix := BuildPairs(outs[..o], ins[..0], cfg, nonce).value;
         && BuildPairs(outs[o..], ins[0..], cfg, nonce + |prefix|).Some?
         && BuildPairs(outs, ins, cfg, nonce).value
            == prefix + BuildPairs(outs[o..], ins[0..], cfg, nonce + |prefix|).value
  {
    assert outs == outs[..o] + outs[o..] && ins[0..] == ins && ins[..0] == [];
    LoadsSplit(outs[..o], outs[o..], cfg, nonce);
    var x := BuildLoads(outs[..o], cfg, nonce).value;
    var y := BuildLoads(outs[o..], cfg, nonce + |x|).value;
    CutAtLoads(outs[..o], outs[o..], ins, cfg, nonce, x, y, BuildInbound(ins, cfg, nonce + |x| + |y|).value);
  }

  lemma {:induction false} CutAtLoads(
    a: seq<OutEntry>, b: seq<OutEntry>, ins: seq<Entry>, cfg: Context, nonce: nat,
    x: seq<SyncPair>, y: seq<SyncPair>, z: seq<SyncTx>)
    requires Shapes(ins) && Sidecars(ins)
    requires BuildLoads(a, cfg, nonce) == Some(x) && BuildLoads(b, cfg, nonce + |x|) == Some(y)
    requires BuildLoads(a + b, cfg, nonce) == Some(x + y) && BuildInbound(ins, cfg, nonce + |x| + |y|) == Some(z)
    ensures BuildPairs(a, [], cfg, nonce) == Some(x)
    ensures BuildPairs(b, ins, cfg, nonce + |x|) == Some(y + Deliveries(z))
    ensures BuildPairs(a + b, ins, cfg, nonce) == Some(x + (y + Deliveries(z)))
  {
    assert Deliveries([]) == [] && x + [] == x;
    PairsAre(a, [], cfg, nonce, x, []);
    PairsAre(b, ins, cfg, nonce + |x|, y, z);
    PairsAre(a + b, ins, cfg, nonce, x + y, z);
    assert (x + y) + Deliveries(z) == x + (y + Deliveries(z));
  }

  lemma {:induction false} InboundCut(outs: seq<OutEntry>, ins: seq<Entry>, cfg: Context, nonce: nat, i: nat)
    requires i <= |ins| && BuildPairs(outs, ins, cfg, nonce).Some?
    ensures
      && BuildPairs(outs[..|outs|], ins[..i], cfg, nonce).Some?
      && var prefix := BuildPairs(outs[..|outs|], ins[..i], cfg, nonce).value;
         && BuildPairs(outs[|outs|..], ins[i..], cfg, nonce + |prefix|).Some?
         && BuildPairs(outs, ins, cfg, nonce).value
            == prefix + BuildPairs(outs[|outs|..], ins[i..], cfg, nonce + |prefix|).value
  {
    hide BuildInbound;
    assert outs[..|outs|] == outs && outs[|outs|..] == [] && ins == ins[..i] + ins[i..];
    var loads := BuildLoads(outs, cfg, nonce).value;
    InboundSplit(ins[..i], ins[i..], cfg, nonce + |loads|);
    var x := BuildInbound(ins[..i], cfg, nonce + |loads|).value;
    var y := BuildInbound(ins[i..], cfg, nonce + |loads| + |x|).value;
    PairsAre(outs, ins[..i], cfg, nonce, loads, x);
    PairsAre([], ins[i..], cfg, nonce + |loads| + |x|, [], y);
    PairsAre(outs, ins, cfg, nonce, loads, x + y);
    DeliveriesJoin(loads, x, y);
  }

  lemma {:induction false} DeliveriesJoin(loads: seq<SyncPair>, x: seq<SyncTx>, y: seq<SyncTx>)
    ensures loads + Deliveries(x + y) == (loads + Deliveries(x)) + ([] + Deliveries(y))
  {
    assert Deliveries(x + y) == Deliveries(x) + Deliveries(y);
  }

  // ---- Resuming -----------------------------------------------------------------------------

  /** The claimed entries an earlier batch may have applied: some outbound ones, or all of them
      and some inbound ones. */
  predicate CutPoint(outbound: seq<Entry>, inbound: seq<Entry>, o: nat, i: nat) {
    o <= |outbound| && i <= |inbound| && (o == |outbound| || i == 0) && (o < |outbound| || i < |inbound|)
  }

  lemma {:induction false} SkippedRest(outbound: nat, inbound: nat, o: nat, i: nat)
    requires o <= outbound && i <= inbound && (o == outbound || i == 0) && (o < outbound || i < inbound)
    ensures Skipped(Rest(outbound, inbound, o, i), outbound) == (o, i)
  {
    var roles := Rest(outbound, inbound, o, i);
    if o < outbound {
      assert roles[0] == OutboundAt(o);
    } else {
      assert roles[0] == InboundAt(i);
    }
  }

  lemma {:induction false} PairsTop(outs: seq<OutEntry>, ins: seq<Entry>, cfg: Context, nonce: u64)
    requires BuildPairs(outs, ins, cfg, nonce).Some?
    ensures nonce + |BuildPairs(outs, ins, cfg, nonce).value| <= U64_MAX
  {
    LoadsTop(outs, cfg, nonce);
    DeliveriesTop(ins, cfg, nonce + |BuildLoads(outs, cfg, nonce).value|);
  }

  lemma {:induction false} LoadsTop(outs: seq<OutEntry>, cfg: Context, nonce: nat)
    requires BuildLoads(outs, cfg, nonce).Some? && nonce <= U64_MAX
    ensures nonce + |BuildLoads(outs, cfg, nonce).value| <= U64_MAX
  {
    if outs != [] { LoadsTop(outs[..|outs| - 1], cfg, nonce); }
  }

  lemma {:induction false} DeliveriesTop(ins: seq<Entry>, cfg: Context, nonce: nat)
    requires BuildInbound(ins, cfg, nonce).Some? && nonce <= U64_MAX
    ensures nonce + |BuildInbound(ins, cfg, nonce).value| <= U64_MAX
  {
    if ins != [] { DeliveriesTop(ins[..|ins| - 1], cfg, nonce); }
  }

  /** What a resumed batch rebuilds is the canonical rest, at the nonce the applied part left, and
      then the batch's own trailing user transactions. */
  lemma {:induction false} RebuildRest(
    outbound: seq<Entry>, inbound: seq<Entry>, users: seq<Bytes>, cfg: Context, nonce: u64, o: nat, i: nat,
    prefix: seq<SyncPair>, rest: seq<SyncPair>)
    requires CutPoint(outbound, inbound, o, i) && |outbound| <= |users|
    requires
      var outs := Pair(outbound, users, |outbound|);
      && BuildPairs(outs[..o], inbound[..i], cfg, nonce) == Some(prefix)
      && BuildPairs(outs[o..], inbound[i..], cfg, nonce + |prefix|) == Some(rest)
    ensures Rebuild(Rest(|outbound|, |inbound|, o, i), outbound, inbound, users, cfg, nonce)
      == Some(Interleave(rest) + Users(users[|outbound|..]))
  {
    hide BuildLoads, BuildInbound, Interleave, BuildPairs;
    var outs := Pair(outbound, users, |outbound|);
    SelectedRest(outbound, inbound, users, o, i);
    SkippedRest(|outbound|, |inbound|, o, i);
    assert Pair(outbound, users, o) == outs[..o];
    PairsTop(outs[..o], inbound[..i], cfg, nonce);
  }

  /** The roles of a fresh batch that L1 ran up to the `o`-th outbound and the `i`-th inbound entry. */
  function Applied(o: nat, i: nat): seq<Role> {
    [Anchor] + OutRoles(0, o) + InRoles(0, i)
  }

  lemma {:induction false} SelectedApplied(
    outbound: seq<Entry>, inbound: seq<Entry>, users: seq<Bytes>, o: nat, i: nat)
    requires o <= |outbound| <= |users| && i <= |inbound|
    ensures AllCarried(Applied(o, i), outbound, inbound, users)
    ensures Selected(Applied(o, i), outbound, inbound, users)
      == Slots(Pair(outbound, users, |outbound|)[..o], inbound[..i])
  {
    var outs := Pair(outbound, users, |outbound|);
    SelectedAnchored(outbound, inbound, users, o);
    SelectedIns([Anchor] + OutRoles(0, o), outs[..o], outbound, inbound, users, 0, i);
    assert inbound[0..i] == inbound[..i];
  }

  lemma {:induction false} SelectedAnchored(outbound: seq<Entry>, inbound: seq<Entry>, users: seq<Bytes>, o: nat)
    requires o <= |outbound| <= |users|
    ensures AllCarried([Anchor] + OutRoles(0, o), outbound, inbound, users)
    ensures Selected([Anchor] + OutRoles(0, o), outbound, inbound, users)
      == Slots(Pair(outbound, users, |outbound|)[..o], [])
  {
    var outs := Pair(outbound, users, |outbound|);
    if o == 0 {
      assert [Anchor] + OutRoles(0, 0) == [Anchor] && [Anchor][..0] == [];
    } else {
      SelectedAnchored(outbound, inbound, users, o - 1);
      SelectOutbound([Anchor] + OutRoles(0, o - 1), o - 1, outbound, inbound, users, Slots(outs[..o - 1], []));
      assert [Anchor] + OutRoles(0, o) == ([Anchor] + OutRoles(0, o - 1)) + [OutboundAt(o - 1)];
      assert outs[..o] == outs[..o - 1] + [outs[o - 1]];
    }
  }

  /** A fresh batch of which L1 ran the first entries is rebuilt as the canonical block of just those,
      each outbound one with the user transaction at its own ordinal, and then the batch's trailing user
      transactions. It is refused exactly when an outbound entry has no user transaction or that block
      cannot be built. */
  lemma {:induction false} FreshBatchRebuildsWhatRan(
    outbound: seq<Entry>, inbound: seq<Entry>, users: seq<Bytes>, cfg: Context, nonce: u64, o: nat, i: nat)
    requires o <= |outbound| && i <= |inbound|
    ensures |users| < |outbound| ==> Rebuild(Applied(o, i), outbound, inbound, users, cfg, nonce).None?
    ensures |outbound| <= |users| ==>
      var block := Block(Pair(outbound, users, |outbound|)[..o], inbound[..i], cfg, nonce);
      Rebuild(Applied(o, i), outbound, inbound, users, cfg, nonce)
      == if block.Some? then Some(block.value + Users(users[|outbound|..])) else None
  {
    hide Interleave;
    if |outbound| <= |users| {
      SelectedApplied(outbound, inbound, users, o, i);
      assert Applied(o, i)[0] == Anchor;
      assert Pair(outbound, users, 0) == [] && inbound[..0] == [];
      NothingBuilt(cfg, nonce);
    }
  }

  lemma {:induction false} NothingBuilt(cfg: Context, nonce: nat)
    ensures BuildPairs([], [], cfg, nonce) == Some([])
  {
    var loads: seq<SyncPair>, deliveries: seq<SyncTx> := [], [];
    assert BuildLoads([], cfg, nonce) == Some(loads) && BuildInbound([], cfg, nonce + |loads|) == Some(deliveries);
    assert loads + Deliveries(deliveries) == [];
    assert Shapes([]) && Sidecars([]);
  }

  /** Whether a system transaction remains to be built past the cut. */
  predicate SystemRemains(outbound: seq<Entry>, inbound: seq<Entry>, cfg: Context, o: nat, i: nat)
    requires i <= |inbound|
  {
    o < |outbound| || exists e :: e in inbound[i..] && e.rollup == cfg.rollup
  }

  lemma {:induction false} NothingDelivered(ins: seq<Entry>, cfg: Context, nonce: nat)
    requires BuildInbound(ins, cfg, nonce).Some?
    ensures BuildInbound(ins, cfg, nonce).value == [] <==> forall e :: e in ins ==> e.rollup != cfg.rollup
  {
    if ins != [] {
      var init, last := ins[..|ins| - 1], ins[|ins| - 1];
      NothingDelivered(init, cfg, nonce);
      assert ins == init + [last];
    }
  }

  lemma {:induction false} RestBuilds(
    outbound: seq<Entry>, inbound: seq<Entry>, users: seq<Bytes>, cfg: Context, nonce: nat, o: nat, i: nat,
    rest: seq<SyncPair>)
    requires o <= |outbound| <= |users| && i <= |inbound|
    requires BuildPairs(Pair(outbound, users, |outbound|)[o..], inbound[i..], cfg, nonce) == Some(rest)
    ensures rest != [] <==> SystemRemains(outbound, inbound, cfg, o, i)
    ensures rest == [] ==> Interleave(rest) == []
  {
    var outs := Pair(outbound, users, |outbound|);
    LoadNonces(outs[o..], cfg, nonce);
    NothingDelivered(inbound[i..], cfg, nonce + |BuildLoads(outs[o..], cfg, nonce).value|);
  }

  /** Whether a replay would take the end of the block for a copy of the content. */
  predicate Ends<T(==)>(existing: seq<T>, content: seq<T>) {
    content != [] && |content| <= |existing| && existing[|existing| - |content|..] == content
  }

  /** A replay appends exactly when the block does not already end with the content, and a second
      replay never changes anything. */
  lemma {:induction false} ReplayAppendsIff<H(!new), T(!new)>(
    local: H, settled: Option<H>, base: seq<T>, content: seq<T>)
    requires settled != Some(local)
    ensures ResumeReplay(local, settled, base, content) == Some(base + content) <==> !Ends(base, content)
    ensures ResumeReplay(local, settled, base + content, content) == Some(base + content)
  {
    if content != [] {
      assert (base + content)[|base|..] == content && (base + content)[..|base|] == base;
      assert Ends(base, content) ==> |ResumeReplay(local, settled, base, content).value| == |base|;
    } else {
      assert base + content == base && base + content + content == base;
    }
  }

  /** A system transaction at or past the next nonce is not in what was built before, whatever user
      transactions follow. */
  lemma {:induction false} HeadIsNew(
    outs: seq<OutEntry>, ins: seq<Entry>, cfg: Context, nonce: nat, prefix: seq<SyncPair>, rival: seq<Bytes>, t: SyncTx)
    requires BuildPairs(outs, ins, cfg, nonce) == Some(prefix)
    requires !t.User? && t.nonce >= nonce + |prefix|
    ensures t !in Interleave(prefix) + Users(rival)
  {
    PairNonces(outs, ins, cfg, nonce);
    if t in Interleave(prefix) {
      var i := InBlock(prefix, t);
      assert false;
    }
  }

  lemma {:induction false} NewHeadNotAtEnd<T(!new)>(existing: seq<T>, content: seq<T>)
    requires content != [] && content[0] !in existing
    ensures !Ends(existing, content)
  {
    var n := |existing| - |content|;
    if n >= 0 { assert existing[n..][0] == existing[n]; }
  }

  /** The content of a resume that still owes a system transaction starts with one the rival's block
      cannot hold. */
  lemma {:induction false} ContentIsNew(
    outs: seq<OutEntry>, ins: seq<Entry>, cfg: Context, nonce: nat, o: nat, i: nat, prefix: seq<SyncPair>,
    rest: seq<SyncPair>, rival: seq<Bytes>, own: seq<Bytes>)
    requires o <= |outs| && i <= |ins| && BuildPairs(outs[..o], ins[..i], cfg, nonce) == Some(prefix)
    requires BuildPairs(outs[o..], ins[i..], cfg, nonce + |prefix|) == Some(rest) && rest != []
    ensures
      var content := Interleave(rest) + Users(own);
      content != [] && !content[0].User? && !Ends(Interleave(prefix) + Users(rival), content)
  {
    PairNonces(outs[o..], ins[i..], cfg, nonce + |prefix|);
    BlockHead(rest);
    HeadIsNew(outs[..o], ins[..i], cfg, nonce, prefix, rival, rest[0].system);
    NewHeadNotAtEnd(Interleave(prefix) + Users(rival), Interleave(rest) + Users(own));
  }

  /** The split for any entries: the replay appends it all exactly when a system transaction remains to
      be built or the applied part does not end with just the trailing user transactions. */
  lemma {:induction false} ReplayCompletesIff<H(!new)>(
    outbound: seq<Entry>, inbound: seq<Entry>, users: seq<Bytes>, cfg: Context, nonce: u64, o: nat, i: nat,
    local: H, settled: Option<H>)
    requires CutPoint(outbound, inbound, o, i) && |outbound| <= |users| && settled != Some(local)
    requires Block(Pair(outbound, users, |outbound|), inbound, cfg, nonce).Some?
    ensures
      var outs, own := Pair(outbound, users, |outbound|), Users(users[|outbound|..]);
      var whole := Block(outs, inbound, cfg, nonce).value + own;
      var applied := Block(outs[..o], inbound[..i], cfg, nonce);
      var resumed := Rebuild(Rest(|outbound|, |inbound|, o, i), outbound, inbound, users, cfg, nonce);
      && applied.Some? && resumed.Some?
      && applied.value + resumed.value == whole
      && ResumeReplay(local, settled, whole, resumed.value) == Some(whole)
      && (ResumeReplay(local, settled, applied.value, resumed.value) == Some(whole)
          <==> SystemRemains(outbound, inbound, cfg, o, i) || !Ends(applied.value, own))
  {
    hide BuildPairs, Rebuild, Interleave, ResumeReplay;
    var outs := Pair(outbound, users, |outbound|);
    BuildSplits(outs, inbound, cfg, nonce, o, i);
    var prefix := BuildPairs(outs[..o], inbound[..i], cfg, nonce).value;
    var rest := BuildPairs(outs[o..], inbound[i..], cfg, nonce + |prefix|).value;
    ResumedIs(outbound, inbound, users, cfg, nonce, o, i, prefix, rest);
    var base, content := Interleave(prefix), Interleave(rest) + Users(users[|outbound|..]);
    ReplayAppendsIff(local, settled, base, content);
    RestBuilds(outbound, inbound, users, cfg, nonce + |prefix|, o, i, rest);
    if rest != [] {
      ContentIsNew(outs, inbound, cfg, nonce, o, i, prefix, rest, [], users[|outbound|..]);
      assert base + Users([]) == base;
    } else {
      assert content == Users(users[|outbound|..]);
    }
  }

  /** The rebuild of the rest, and the whole block it completes. */
  lemma {:induction false} ResumedIs(
    outbound: seq<Entry>, inbound: seq<Entry>, users: seq<Bytes>, cfg: Context, nonce: u64, o: nat, i: nat,
    prefix: seq<SyncPair>, rest: seq<SyncPair>)
    requires CutPoint(outbound, inbound, o, i) && |outbound| <= |users|
    requires
      var outs := Pair(outbound, users, |outbound|);
      && BuildPairs(outs[..o], inbound[..i], cfg, nonce) == Some(prefix)
      && BuildPairs(outs[o..], inbound[i..], cfg, nonce + |prefix|) == Some(rest)
      && BuildPairs(outs, inbound, cfg, nonce) == Some(prefix + rest)
    ensures
      var outs, own := Pair(outbound, users, |outbound|), Users(users[|outbound|..]);
      && Block(outs[..o], inbound[..i], cfg, nonce) == Some(Interleave(prefix))
      && Rebuild(Rest(|outbound|, |inbound|, o, i), outbound, inbound, users, cfg, nonce)
         == Some(Interleave(rest) + own)
      && Block(outs, inbound, cfg, nonce) == Some(Interleave(prefix) + Interleave(rest))
      && Interleave(prefix) + (Interleave(rest) + own) == Interleave(prefix) + Interleave(rest) + own
  {
    hide BuildPairs, Rebuild, Interleave;
    RebuildRest(outbound, inbound, users, cfg, nonce, o, i, prefix, rest);
    InterleaveAppend(prefix, rest);
  }

  /** Replaying a resume is idempotent whatever the block holds. */
  lemma {:induction false} ResumeIsIdempotent<H(!new), T(!new)>(
    local: H, settled: Option<H>, existing: seq<T>, content: seq<T>)
    requires settled != Some(local)
    ensures
      var once := ResumeReplay(local, settled, existing, content).value;
      ResumeReplay(local, settled, once, content) == Some(once)
  {
    var once := ResumeReplay(local, settled, existing, content).value;
    if content != [] {
      var n := |once| - |content|;
      assert once[n..] == content && once[..n] + content == once;
    } else {
      assert once + content == once;
    }
  }

  lemma {:induction false} OursRemain(c: Claimed, cfg: Context, o: nat, i: nat)
    requires CutPoint(c.outbound, c.inbound, o, i) && AllOurs(c.inbound, cfg.rollup)
    ensures SystemRemains(c.outbound, c.inbound, cfg, o, i)
  {
    if o == |c.outbound| { assert c.inbound[i..][0] == c.inbound[i] && Ours(c.inbound[i], cfg.rollup); }
  }

  /** Resume is a split of the canonical block. For every batch of published actions and every cut, the
      block of the applied part followed by the deriver's rebuild of the rest is the block of all
      claimed entries and the batch's own trailing user transactions; replaying the resume on the
      applied part produces that block, and replaying it again changes nothing. */
  lemma {:induction false} ResumeCompletesTheBlock<H(!new)>(
    actions: seq<Action>, users: seq<Bytes>, cfg: Context, nonce: u64, o: nat, i: nat, local: H, settled: Option<H>)
    requires ClaimedBy(actions, cfg.rollup).Some? && settled != Some(local)
    requires
      var c := ClaimedBy(actions, cfg.rollup).value;
      && CutPoint(c.outbound, c.inbound, o, i) && |c.outbound| <= |users|
      && Block(Pair(c.outbound, users, |c.outbound|), c.inbound, cfg, nonce).Some?
    ensures
      var c := ClaimedBy(actions, cfg.rollup).value;
      var outs := Pair(c.outbound, users, |c.outbound|);
      var whole := Block(outs, c.inbound, cfg, nonce).value + Users(users[|c.outbound|..]);
      var applied := Block(outs[..o], c.inbound[..i], cfg, nonce);
      var resumed := Rebuild(Rest(|c.outbound|, |c.inbound|, o, i), c.outbound, c.inbound, users, cfg, nonce);
      && applied.Some? && resumed.Some?
      && applied.value + resumed.value == whole
      && ResumeReplay(local, settled, applied.value, resumed.value) == Some(whole)
      && ResumeReplay(local, settled, whole, resumed.value) == Some(whole)
  {
    hide Block, Rebuild, ResumeReplay, ClaimedBy;
    var c := ClaimedBy(actions, cfg.rollup).value;
    ClaimedAreOurs(actions, cfg.rollup);
    OursRemain(c, cfg, o, i);
    ReplayCompletesIff(c.outbound, c.inbound, users, cfg, nonce, o, i, local, settled);
  }

  /** User transactions a rival appended behind the applied part end up in front of what the resume
      brings: for every batch of published actions and every cut, the resumed block is the canonical
      one exactly when the rival appended none. The batch's own trailing user transactions are
      harmless. */
  lemma {:induction false} RivalUsersBreakResumeIff<H(!new)>(
    actions: seq<Action>, users: seq<Bytes>, cfg: Context, nonce: u64, o: nat, i: nat, local: H, settled: Option<H>,
    rival: seq<Bytes>)
    requires ClaimedBy(actions, cfg.rollup).Some? && settled != Some(local)
    requires
      var c := ClaimedBy(actions, cfg.rollup).value;
      && CutPoint(c.outbound, c.inbound, o, i) && |c.outbound| <= |users|
      && Block(Pair(c.outbound, users, |c.outbound|), c.inbound, cfg, nonce).Some?
    ensures
      var c := ClaimedBy(actions, cfg.rollup).value;
      var outs := Pair(c.outbound, users, |c.outbound|);
      var whole := Block(outs, c.inbound, cfg, nonce).value + Users(users[|c.outbound|..]);
      var applied := Block(outs[..o], c.inbound[..i], cfg, nonce);
      var resumed := Rebuild(Rest(|c.outbound|, |c.inbound|, o, i), c.outbound, c.inbound, users, cfg, nonce);
      && applied.Some? && resumed.Some?
      && (ResumeReplay(local, settled, applied.value + Users(rival), resumed.value) == Some(whole) <==> rival == [])
  {
    hide Block, Rebuild, ResumeReplay, ClaimedBy;
    var c := ClaimedBy(actions, cfg.rollup).value;
    ClaimedAreOurs(actions, cfg.rollup);
    OursRemain(c, cfg, o, i);
    RivalReplayIff(c.outbound, c.inbound, users, cfg, nonce, o, i, local, settled, rival);
  }

  lemma {:induction false} RivalReplayIff<H(!new)>(
    outbound: seq<Entry>, inbound: seq<Entry>, users: seq<Bytes>, cfg: Context, nonce: u64, o: nat, i: nat,
    local: H, settled: Option<H>, rival: seq<Bytes>)
    requires CutPoint(outbound, inbound, o, i) && |outbound| <= |users| && settled != Some(local)
    requires Block(Pair(outbound, users, |outbound|), inbound, cfg, nonce).Some?
    requires SystemRemains(outbound, inbound, cfg, o, i)
    ensures
      var outs := Pair(outbound, users, |outbound|);
      var whole := Block(outs, inbound, cfg, nonce).value + Users(users[|outbound|..]);
      var applied := Block(outs[..o], inbound[..i], cfg, nonce);
      var resumed := Rebuild(Rest(|outbound|, |inbound|, o, i), outbound, inbound, users, cfg, nonce);
      && applied.Some? && resumed.Some?
      && (ResumeReplay(local, settled, applied.value + Users(rival), resumed.value) == Some(whole) <==> rival == [])
  {
    hide BuildPairs, Rebuild, Interleave, ResumeReplay;
    var outs := Pair(outbound, users, |outbound|);
    BuildSplits(outs, inbound, cfg, nonce, o, i);
    var prefix := BuildPairs(outs[..o], inbound[..i], cfg, nonce).value;
    var rest := BuildPairs(outs[o..], inbound[i..], cfg, nonce + |prefix|).value;
    ResumedIs(outbound, inbound, users, cfg, nonce, o, i, prefix, rest);
    RestBuilds(outbound, inbound, users, cfg, nonce + |prefix|, o, i, rest);
    var base, content := Interleave(prefix), Interleave(rest) + Users(users[|outbound|..]);
    ContentIsNew(outs, inbound, cfg, nonce, o, i, prefix, rest, rival, users[|outbound|..]);
    ReplayAppendsIff(local, settled, base + Users(rival), content);
    MiddleShows(base, rival, content);
  }

  lemma {:induction false} MiddleShows(base: seq<SyncTx>, rival: seq<Bytes>, content: seq<SyncTx>)
    requires content != [] && !content[0].User?
    ensures base + Users(rival) + content == base + content <==> rival == []
  {
    if rival == [] {
      assert base + Users(rival) == base;
    } else {
      assert (base + Users(rival) + content)[|base|] == User(rival[0]);
      assert (base + content)[|base|] == content[0];
    }
  }

  /** At one block: two published calls into rollup 1, the first applied by a rival that then appended a
      user transaction. The resumed block has it in the middle. */
  lemma {:induction false} RivalUserInTheMiddle()
    ensures
      var cfg := Context(1, true);
      var a, b := Action(0, 1, 0, true, true, true, 8), Action(0, 1, 0, true, true, true, 9);
      var e, f := EntryFromAction(a, 1).value, EntryFromAction(b, 1).value;
      var resumed := Rebuild([InboundAt(1)], [], [e, f], [], cfg, 5);
      && ClaimedBy([a, b], 1) == Some(Claimed([], [e, f]))
      && Block([], [e, f], cfg, 5) == Some([Delivery(e, 5), Delivery(f, 6)])
      && resumed.Some?
      && ResumeReplay(0, None, [Delivery(e, 5), User([7])], resumed.value)
         == Some([Delivery(e, 5), User([7]), Delivery(f, 6)])
  {
    var cfg := Context(1, true);
    var a, b := Action(0, 1, 0, true, true, true, 8), Action(0, 1, 0, true, true, true, 9);
    var e, f := EntryFromAction(a, 1).value, EntryFromAction(b, 1).value;
    TwoArrive(a, b, 1);
    hide BuildInbound, BuildPairs, Rebuild, Block, Interleave, ResumeReplay, ClaimedBy;
    ResumesSecond(e, f, cfg, 5);
    ReplayAppends(Delivery(e, 5), User([7]), Delivery(f, 6));
  }

  lemma {:induction false} TwoArrive(a: Action, b: Action, local: u64)
    requires a.Arrives(local) && b.Arrives(local) && !a.Leaves(local) && !b.Leaves(local)
    ensures ClaimedBy([a, b], local)
      == Some(Claimed([], [EntryFromAction(a, local).value, EntryFromAction(b, local).value]))
  {
    var e, f := EntryFromAction(a, local).value, EntryFromAction(b, local).value;
    assert [a, b][..1] == [a] && [a][..0] == [];
    assert [] + [e] == [e] && [e] + [f] == [e, f];
    assert ClaimedBy([a], local) == Some(Claimed([], [e]));
  }

  lemma {:induction false} ReplayAppends(x: SyncTx, y: SyncTx, z: SyncTx)
    requires y != z
    ensures ResumeReplay(0, None, [x, y], [z]) == Some([x, y, z])
  {
    assert [x, y][1..] == [y] && [y][0] != [z][0];
    assert [x, y] + [z] == [x, y, z];
  }

  lemma {:induction false} ResumesSecond(e: Entry, f: Entry, cfg: Context, nonce: u64)
    requires Shapes([e, f]) && Sidecars([e, f]) && e.lowers && f.lowers && cfg.encodes && nonce + 1 < U64_MAX
    requires e.rollup == cfg.rollup && f.rollup == cfg.rollup
    ensures Block([], [e, f], cfg, nonce) == Some([Delivery(e, nonce), Delivery(f, nonce + 1)])
    ensures Rebuild([InboundAt(1)], [], [e, f], [], cfg, nonce) == Some([Delivery(f, nonce + 1)])
  {
    hide BuildInbound, BuildPairs, Rebuild, Block, Interleave;
    var x, y := Delivery(e, nonce), Delivery(f, nonce + 1);
    TwoDeliveries(e, f, cfg, nonce);
    assert [e, f][0] == e && [e, f][1] == f;
    DeliveriesBlock([e, f], cfg, nonce, [x, y]);
    DeliveriesBlock([e], cfg, nonce, [x]);
    DeliveriesBlock([f], cfg, nonce + 1, [y]);
    assert Rest(0, 2, 0, 1) == [InboundAt(1)];
    assert Pair([], [], 0)[..0] == [] && Pair([], [], 0)[0..] == [];
    assert [e, f][1..] == [f] && [e, f][..1] == [e];
    RebuildRest([], [e, f], [], cfg, nonce, 0, 1, Deliveries([x]), Deliveries([y]));
    assert [y] + Users([][0..]) == [y];
  }

  lemma {:induction false} TwoDeliveries(e: Entry, f: Entry, cfg: Context, nonce: nat)
    requires e.rollup == cfg.rollup && e.lowers && f.rollup == cfg.rollup && f.lowers
    requires cfg.encodes && nonce + 1 < U64_MAX
    ensures BuildInbound([e], cfg, nonce) == Some([Delivery(e, nonce)])
    ensures BuildInbound([f], cfg, nonce + 1) == Some([Delivery(f, nonce + 1)])
    ensures BuildInbound([e, f], cfg, nonce) == Some([Delivery(e, nonce), Delivery(f, nonce + 1)])
  {
    assert [] + [e] == [e] && [e] + [f] == [e, f] && [] + [f] == [f];
    OneDelivery([], e, cfg, nonce, []);
    assert [] + [Delivery(e, nonce)] == [Delivery(e, nonce)];
    OneDelivery([e], f, cfg, nonce, [Delivery(e, nonce)]);
    assert [Delivery(e, nonce)] + [Delivery(f, nonce + 1)] == [Delivery(e, nonce), Delivery(f, nonce + 1)];
    OneDelivery([], f, cfg, nonce + 1, []);
    assert [] + [Delivery(f, nonce + 1)] == [Delivery(f, nonce + 1)];
  }

  lemma {:induction false} OneDelivery(ins: seq<Entry>, e: Entry, cfg: Context, nonce: nat, before: seq<SyncTx>)
    requires BuildInbound(ins, cfg, nonce) == Some(before)
    requires e.rollup == cfg.rollup && e.lowers && cfg.encodes && nonce + |before| < U64_MAX
    ensures BuildInbound(ins + [e], cfg, nonce) == Some(before + [Delivery(e, nonce + |before|)])
  {
    InboundSnoc(ins, e, cfg, nonce);
  }

  lemma {:induction false} DeliveriesBlock(ins: seq<Entry>, cfg: Context, nonce: nat, txs: seq<SyncTx>)
    requires Shapes(ins) && Sidecars(ins) && BuildInbound(ins, cfg, nonce) == Some(txs)
    ensures BuildPairs([], ins, cfg, nonce) == Some(Deliveries(txs))
    ensures Block([], ins, cfg, nonce) == Some(txs) && Interleave(Deliveries(txs)) == txs
  {
    hide BuildInbound, Interleave;
    InterleaveDeliveries(txs);
    assert [] + Deliveries(txs) == Deliveries(txs);
  }
}
