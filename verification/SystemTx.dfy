/** The canonical Sync block: `[load, user]` pairs for outbound entries, then inbound deliveries,
    with the system account's nonce running through both. Encoded transactions are free
    constructors, so two are equal exactly when entry and nonce are. */
module SystemTx {
  import opened Types

  datatype Call = Call(isStatic: bool, revertSpan: nat, gas: nat, body: nat)

  datatype Entry = Entry(
    calls: seq<Call>,
    nested: nat,
    success: bool,
    rollup: u64,
    /** Whether the lean L2 form of the entry exists. */
    lowers: bool,
    /** Whether the entry is a well-formed inbound sidecar. */
    sidecar: bool,
    body: nat)

  datatype Context = Context(rollup: u64, encodes: bool)

  datatype SyncTx = Load(entry: Entry, nonce: nat) | Delivery(entry: Entry, nonce: nat) | User(raw: Bytes)

  datatype SyncPair = SyncPair(system: SyncTx, user: Option<Bytes>)

  datatype OutEntry = OutEntry(entry: Entry, raw: Bytes)

  /** Shapes the Sync-block lowering can represent. */
  predicate CheckShape(e: Entry) {
    && |e.calls| <= 1
    && e.nested == 0
    && e.success
    && forall i :: 0 <= i < |e.calls| ==>
         !e.calls[i].isStatic && e.calls[i].revertSpan == 0 && e.calls[i].gas == 0
  }

  /** A load that can be built at this nonce; the next nonce must exist too. */
  predicate Loads(e: Entry, cfg: Context, nonce: nat) {
    CheckShape(e) && e.calls != [] && e.lowers && cfg.encodes && nonce < U64_MAX
  }

  function BuildOutboundPair(e: Entry, raw: Bytes, cfg: Context, nonce: nat): Option<seq<SyncPair>> {
    if Loads(e, cfg, nonce) then Some([SyncPair(Load(e, nonce), Some(raw))]) else None
  }

  predicate Sidecars(entries: seq<Entry>) {
    forall i :: 0 <= i < |entries| ==> entries[i].sidecar
  }

  predicate Shapes(entries: seq<Entry>) {
    forall i :: 0 <= i < |entries| ==> CheckShape(entries[i])
  }

  /** Deliveries for this rollup's entries; foreign entries take no nonce. */
  function BuildInbound(entries: seq<Entry>, cfg: Context, nonce: nat): Option<seq<SyncTx>> {
    if entries == [] then Some([])
    else
      var last := entries[|entries| - 1];
      match BuildInbound(entries[..|entries| - 1], cfg, nonce)
      case None => None
      case Some(built) =>
        if last.rollup != cfg.rollup then Some(built)
        else if last.lowers && cfg.encodes && nonce + |built| < U64_MAX
        then Some(built + [Delivery(last, nonce + |built|)])
        else None
  }

  function BuildLoads(outs: seq<OutEntry>, cfg: Context, nonce: nat): Option<seq<SyncPair>> {
    if outs == [] then Some([])
    else
      var last := outs[|outs| - 1];
      match BuildLoads(outs[..|outs| - 1], cfg, nonce)
      case None => None
      case Some(pairs) =>
        match BuildOutboundPair(last.entry, last.raw, cfg, nonce + |pairs|)
        case None => None
        case Some(built) => Some(pairs + built)
  }

  function Deliveries(txs: seq<SyncTx>): (r: seq<SyncPair>)
    ensures |r| == |txs| && forall i :: 0 <= i < |r| ==> r[i] == SyncPair(txs[i], None)
  {
    seq(|txs|, i requires 0 <= i < |txs| => SyncPair(txs[i], None))
  }

  /** The one builder composer and deriver share. */
  function BuildPairs(outs: seq<OutEntry>, ins: seq<Entry>, cfg: Context, nonce: nat): Option<seq<SyncPair>> {
    if !Shapes(ins) || !Sidecars(ins) then None
    else
      match BuildLoads(outs, cfg, nonce)
      case None => None
      case Some(loads) =>
        match BuildInbound(ins, cfg, nonce + |loads|)
        case None => None
        case Some(deliveries) => Some(loads + Deliveries(deliveries))
  }

  function Txs(p: SyncPair): seq<SyncTx> {
    [p.system] + (if p.user.Some? then [User(p.user.value)] else [])
  }

  function Interleave(pairs: seq<SyncPair>): seq<SyncTx> {
    if pairs == [] then [] else Interleave(pairs[..|pairs| - 1]) + Txs(pairs[|pairs| - 1])
  }

  // ---- What is built, entry by entry -----------------------------------------------------

  /** One call at most, plain and without its own gas, that succeeded and nests nothing. */
  ghost predicate Plain(e: Entry) {
    && e.nested == 0 && e.success && |e.calls| <= 1
    && (|e.calls| == 1 ==> !e.calls[0].isStatic && e.calls[0].revertSpan == 0 && e.calls[0].gas == 0)
  }

  /** The entries addressed to this rollup, in order. */
  ghost function Own(entries: seq<Entry>, rollup: u64): (r: seq<Entry>)
    ensures forall e :: e in r <==> e in entries && e.rollup == rollup
  {
    if entries == [] then []
    else
      var last := entries[|entries| - 1];
      assert entries == entries[..|entries| - 1] + [last];
      Own(entries[..|entries| - 1], rollup) + (if last.rollup == rollup then [last] else [])
  }

  /** `n` system transactions can be signed from this nonce on. */
  ghost predicate NoncesLast(cfg: Context, nonce: nat, n: nat) {
    n == 0 || (cfg.encodes && nonce + n <= U64_MAX)
  }

  ghost predicate Deliverable(entries: seq<Entry>, cfg: Context, nonce: nat) {
    && (forall e :: e in entries && e.rollup == cfg.rollup ==> e.lowers)
    && NoncesLast(cfg, nonce, |Own(entries, cfg.rollup)|)
  }

  ghost predicate Loadable(outs: seq<OutEntry>, cfg: Context, nonce: nat) {
    && (forall o :: o in outs ==> Plain(o.entry) && |o.entry.calls| == 1 && o.entry.lowers)
    && NoncesLast(cfg, nonce, |outs|)
  }

  lemma {:induction false} InboundIs(entries: seq<Entry>, cfg: Context, nonce: nat)
    ensures BuildInbound(entries, cfg, nonce).Some? <==> Deliverable(entries, cfg, nonce)
    ensures BuildInbound(entries, cfg, nonce).Some? ==>
      var own, txs := Own(entries, cfg.rollup), BuildInbound(entries, cfg, nonce).value;
      |txs| == |own| && forall i :: 0 <= i < |own| ==> txs[i] == Delivery(own[i], nonce + i)
  {
    if entries != [] {
      hide Deliverable;
      var init, last := entries[..|entries| - 1], entries[|entries| - 1];
      InboundIs(init, cfg, nonce);
      DeliverableSnoc(init, last, cfg, nonce);
      assert entries == init + [last];
    } else {
      assert Deliverable([], cfg, nonce);
    }
  }

  lemma {:induction false} DeliverableSnoc(entries: seq<Entry>, e: Entry, cfg: Context, nonce: nat)
    ensures Deliverable(entries + [e], cfg, nonce) <==>
      && Deliverable(entries, cfg, nonce)
      && (e.rollup == cfg.rollup ==> e.lowers && NoncesLast(cfg, nonce, |Own(entries, cfg.rollup)| + 1))
  {
    var all := entries + [e];
    assert all[..|entries|] == entries;
    assert e in all && forall x :: x in entries ==> x in all;
    assert forall x :: x in all ==> x in entries || x == e;
  }

  lemma {:induction false} LoadsIs(outs: seq<OutEntry>, cfg: Context, nonce: nat)
    ensures BuildLoads(outs, cfg, nonce).Some? <==> Loadable(outs, cfg, nonce)
    ensures BuildLoads(outs, cfg, nonce).Some? ==>
      var pairs := BuildLoads(outs, cfg, nonce).value;
      && |pairs| == |outs|
      && forall i :: 0 <= i < |outs| ==> pairs[i] == SyncPair(Load(outs[i].entry, nonce + i), Some(outs[i].raw))
  {
    if outs != [] {
      hide Loadable;
      var init, last := outs[..|outs| - 1], outs[|outs| - 1];
      LoadsIs(init, cfg, nonce);
      LoadableSnoc(init, last, cfg, nonce);
      assert outs == init + [last];
    } else {
      assert Loadable([], cfg, nonce);
    }
  }

  lemma {:induction false} LoadableSnoc(outs: seq<OutEntry>, o: OutEntry, cfg: Context, nonce: nat)
    ensures Loadable(outs + [o], cfg, nonce) <==> Loadable(outs, cfg, nonce) && Loads(o.entry, cfg, nonce + |outs|)
  {
    var all := outs + [o];
    assert o in all && forall x :: x in outs ==> x in all;
    assert forall x :: x in all ==> x in outs || x == o;
  }

  /** The block can be built exactly when every entry is plain and lowers, every inbound one is a
      sidecar, and the system account has a nonce for each load and delivery. The loads then come in
      order, each with its user transaction, and the deliveries of the own entries follow, all at
      consecutive nonces. */
  lemma {:induction false} BuildsIff(outs: seq<OutEntry>, ins: seq<Entry>, cfg: Context, nonce: nat)
    ensures BuildPairs(outs, ins, cfg, nonce).Some? <==>
      && (forall o :: o in outs ==> Plain(o.entry) && |o.entry.calls| == 1 && o.entry.lowers)
      && (forall e :: e in ins ==> Plain(e) && e.sidecar && (e.rollup == cfg.rollup ==> e.lowers))
      && NoncesLast(cfg, nonce, |outs| + |Own(ins, cfg.rollup)|)
    ensures BuildPairs(outs, ins, cfg, nonce).Some? ==>
      var pairs, own := BuildPairs(outs, ins, cfg, nonce).value, Own(ins, cfg.rollup);
      && |pairs| == |outs| + |own|
      && (forall i :: 0 <= i < |outs| ==>
            pairs[i] == SyncPair(Load(outs[i].entry, nonce + i), Some(outs[i].raw)))
      && (forall i :: |outs| <= i < |pairs| ==> pairs[i] == SyncPair(Delivery(own[i - |outs|], nonce + i), None))
  {
    hide BuildLoads, BuildInbound, Own;
    LoadsIs(outs, cfg, nonce);
    InboundIs(ins, cfg, nonce + |outs|);
    if Shapes(ins) && Sidecars(ins) {
      forall e | e in ins ensures Plain(e) && e.sidecar { var i :| 0 <= i < |ins| && ins[i] == e; }
    }
    if forall e :: e in ins ==> Plain(e) && e.sidecar {
      forall i | 0 <= i < |ins| ensures CheckShape(ins[i]) && ins[i].sidecar { assert ins[i] in ins; }
    }
  }

  // ---- Builds compose ------------------------------------------------------------------

  lemma {:induction false} InterleaveAppend(a: seq<SyncPair>, b: seq<SyncPair>)
    ensures Interleave(a + b) == Interleave(a) + Interleave(b)
  {
    if b == [] {
      assert a + b == a;
    } else {
      var init, last := b[..|b| - 1], b[|b| - 1];
      assert (a + b)[..|a + b| - 1] == a + init;
      InterleaveAppend(a, init);
    }
  }

  lemma {:induction false} InterleaveDeliveries(txs: seq<SyncTx>)
    ensures Interleave(Deliveries(txs)) == txs
  {
    if txs != [] {
      var init, last := txs[..|txs| - 1], txs[|txs| - 1];
      assert Deliveries(txs)[..|txs| - 1] == Deliveries(init);
      InterleaveDeliveries(init);
      assert txs == init + [last];
    }
  }

  /** Building a concatenation is building both parts, the second from where the first stopped. */
  lemma {:induction false} InboundSplit(a: seq<Entry>, b: seq<Entry>, cfg: Context, nonce: nat)
    ensures BuildInbound(a + b, cfg, nonce)
      == match BuildInbound(a, cfg, nonce)
         case None => None
         case Some(x) =>
           match BuildInbound(b, cfg, nonce + |x|)
           case None => None
           case Some(y) => Some(x + y)
  {
    match BuildInbound(a, cfg, nonce) {
      case None => InboundFails(a, b, cfg, nonce);
      case Some(x) => InboundAfter(a, x, b, cfg, nonce);
    }
  }

  lemma {:induction false} InboundFails(a: seq<Entry>, b: seq<Entry>, cfg: Context, nonce: nat)
    requires BuildInbound(a, cfg, nonce).None?
    ensures BuildInbound(a + b, cfg, nonce).None?
  {
    if b == [] {
      assert a + b == a;
    } else {
      var init, last := b[..|b| - 1], b[|b| - 1];
      assert a + b == (a + init) + [last];
      InboundFails(a, init, cfg, nonce);
      InboundSnoc(a + init, last, cfg, nonce);
    }
  }

  lemma {:induction false} InboundAfter(a: seq<Entry>, x: seq<SyncTx>, b: seq<Entry>, cfg: Context, nonce: nat)
    requires BuildInbound(a, cfg, nonce) == Some(x)
    ensures BuildInbound(a + b, cfg, nonce)
      == match BuildInbound(b, cfg, nonce + |x|)
         case None => None
         case Some(y) => Some(x + y)
  {
    if b == [] {
      assert a + b == a && x + [] == x;
    } else {
      var init, last := b[..|b| - 1], b[|b| - 1];
      assert b == init + [last] && a + b == (a + init) + [last];
      InboundAfter(a, x, init, cfg, nonce);
      InboundStep(a + init, x, init, last, cfg, nonce);
    }
  }

  lemma {:induction false} InboundStep(
    all: seq<Entry>, x: seq<SyncTx>, init: seq<Entry>, last: Entry, cfg: Context, nonce: nat)
    requires BuildInbound(all, cfg, nonce)
      == match BuildInbound(init, cfg, nonce + |x|)
         case None => None
         case Some(y) => Some(x + y)
    ensures BuildInbound(all + [last], cfg, nonce)
      == match BuildInbound(init + [last], cfg, nonce + |x|)
         case None => None
         case Some(y) => Some(x + y)
  {
    hide BuildInbound;
    InboundSnoc(all, last, cfg, nonce);
    InboundSnoc(init, last, cfg, nonce + |x|);
    if BuildInbound(init, cfg, nonce + |x|).Some? {
      var y := BuildInbound(init, cfg, nonce + |x|).value;
      var d := Delivery(last, nonce + |x| + |y|);
      assert (x + y) + [d] == x + (y + [d]);
    }
  }

  lemma {:induction false} InboundSnoc(entries: seq<Entry>, e: Entry, cfg: Context, nonce: nat)
    ensures BuildInbound(entries + [e], cfg, nonce)
      == match BuildInbound(entries, cfg, nonce)
         case None => None
         case Some(x) =>
           if e.rollup != cfg.rollup then Some(x)
           else if e.lowers && cfg.encodes && nonce + |x| < U64_MAX then Some(x + [Delivery(e, nonce + |x|)])
           else None
  {
    assert (entries + [e])[..|entries|] == entries;
  }

  lemma {:induction false} LoadsSnoc(outs: seq<OutEntry>, o: OutEntry, cfg: Context, nonce: nat)
    ensures BuildLoads(outs + [o], cfg, nonce)
      == match BuildLoads(outs, cfg, nonce)
         case None => None
         case Some(x) =>
           if Loads(o.entry, cfg, nonce + |x|)
           then Some(x + [SyncPair(Load(o.entry, nonce + |x|), Some(o.raw))]) else None
  {
    assert (outs + [o])[..|outs|] == outs;
  }

  lemma {:induction false} LoadsSplit(a: seq<OutEntry>, b: seq<OutEntry>, cfg: Context, nonce: nat)
    ensures BuildLoads(a + b, cfg, nonce)
      == match BuildLoads(a, cfg, nonce)
         case None => None
         case Some(x) =>
           match BuildLoads(b, cfg, nonce + |x|)
           case None => None
           case Some(y) => Some(x + y)
  {
    match BuildLoads(a, cfg, nonce) {
      case None => LoadsFail(a, b, cfg, nonce);
      case Some(x) => LoadsAfter(a, x, b, cfg, nonce);
    }
  }

  lemma {:induction false} LoadsFail(a: seq<OutEntry>, b: seq<OutEntry>, cfg: Context, nonce: nat)
    requires BuildLoads(a, cfg, nonce).None?
    ensures BuildLoads(a + b, cfg, nonce).None?
  {
    if b == [] {
      assert a + b == a;
    } else {
      var init, last := b[..|b| - 1], b[|b| - 1];
      assert a + b == (a + init) + [last];
      LoadsFail(a, init, cfg, nonce);
      LoadsSnoc(a + init, last, cfg, nonce);
    }
  }

  lemma {:induction false} LoadsAfter(a: seq<OutEntry>, x: seq<SyncPair>, b: seq<OutEntry>, cfg: Context, nonce: nat)
    requires BuildLoads(a, cfg, nonce) == Some(x)
    ensures BuildLoads(a + b, cfg, nonce)
      == match BuildLoads(b, cfg, nonce + |x|)
         case None => None
         case Some(y) => Some(x + y)
  {
    if b == [] {
      assert a + b == a && x + [] == x;
    } else {
      var init, last := b[..|b| - 1], b[|b| - 1];
      assert b == init + [last] && a + b == (a + init) + [last];
      LoadsAfter(a, x, init, cfg, nonce);
      LoadsStep(a + init, x, init, last, cfg, nonce);
    }
  }

  lemma {:induction false} LoadsStep(
    all: seq<OutEntry>, x: seq<SyncPair>, init: seq<OutEntry>, last: OutEntry, cfg: Context, nonce: nat)
    requires BuildLoads(all, cfg, nonce)
      == match BuildLoads(init, cfg, nonce + |x|)
         case None => None
         case Some(y) => Some(x + y)
    ensures BuildLoads(all + [last], cfg, nonce)
      == match BuildLoads(init + [last], cfg, nonce + |x|)
         case None => None
         case Some(y) => Some(x + y)
  {
    hide BuildLoads, Loads;
    LoadsSnoc(all, last, cfg, nonce);
    LoadsSnoc(init, last, cfg, nonce + |x|);
    if BuildLoads(init, cfg, nonce + |x|).Some? {
      var y := BuildLoads(init, cfg, nonce + |x|).value;
      var p := SyncPair(Load(last.entry, nonce + |x| + |y|), Some(last.raw));
      assert (x + y) + [p] == x + (y + [p]);
    }
  }

  /** Loads take nonces N.. in order, one per outbound entry. */
  lemma {:induction false} LoadNonces(outs: seq<OutEntry>, cfg: Context, nonce: nat)
    requires BuildLoads(outs, cfg, nonce).Some?
    ensures
      var loads := BuildLoads(outs, cfg, nonce).value;
      && |loads| == |outs|
      && forall i :: 0 <= i < |outs| ==> loads[i] == SyncPair(Load(outs[i].entry, nonce + i), Some(outs[i].raw))
  {
    if outs != [] {
      LoadNonces(outs[..|outs| - 1], cfg, nonce);
    }
  }

  /** The block a builder result stands for. */
  function Block(outs: seq<OutEntry>, ins: seq<Entry>, cfg: Context, nonce: nat): Option<seq<SyncTx>> {
    match BuildPairs(outs, ins, cfg, nonce)
    case None => None
    case Some(pairs) => Some(Interleave(pairs))
  }

  /** The block is the interleaved loads followed by the deliveries. */
  lemma {:induction false} BlockIs(outs: seq<OutEntry>, ins: seq<Entry>, cfg: Context, nonce: nat)
    requires BuildPairs(outs, ins, cfg, nonce).Some?
    ensures
      var loads := BuildLoads(outs, cfg, nonce).value;
      Block(outs, ins, cfg, nonce) == Some(Interleave(loads) + BuildInbound(ins, cfg, nonce + |loads|).value)
  {
    hide BuildLoads, BuildInbound, Interleave, Deliveries, Shapes, Sidecars;
    var loads := BuildLoads(outs, cfg, nonce).value;
    var deliveries := BuildInbound(ins, cfg, nonce + |loads|).value;
    InterleaveAppend(loads, Deliveries(deliveries));
    InterleaveDeliveries(deliveries);
  }

  // ---- The builders as loops -------------------------------------------------------------

  method BuildInboundSystemTxs(entries: seq<Entry>, cfg: Context, startingNonce: u64) returns (r: Option<seq<SyncTx>>)
    ensures r == BuildInbound(entries, cfg, startingNonce)
  {
    var nonce, out := startingNonce, [];
    for i := 0 to |entries|
      invariant BuildInbound(entries[..i], cfg, startingNonce) == Some(out)
      invariant nonce == startingNonce + |out|
    {
      var entry := entries[i];
      assert entries[..i + 1][..i] == entries[..i];
      if entry.rollup == cfg.rollup {
        if !entry.lowers || !cfg.encodes || nonce == U64_MAX {
          FailsOn(entries, i + 1, cfg, startingNonce);
          return None;
        }
        out := out + [Delivery(entry, nonce)];
        nonce := nonce + 1;
      }
    }
    assert entries[..|entries|] == entries;
    return Some(out);
  }

  lemma {:induction false} FailsOn(entries: seq<Entry>, i: nat, cfg: Context, nonce: nat)
    requires i <= |entries| && BuildInbound(entries[..i], cfg, nonce).None?
    ensures BuildInbound(entries, cfg, nonce).None?
  {
    assert entries == entries[..i] + entries[i..];
    InboundSplit(entries[..i], entries[i..], cfg, nonce);
  }

  method BuildCrossChainSyncPairs(outs: seq<OutEntry>, ins: seq<Entry>, cfg: Context, startingNonce: u64)
    returns (r: Option<seq<SyncPair>>)
    ensures r == BuildPairs(outs, ins, cfg, startingNonce)
  {
    if !Shapes(ins) || !Sidecars(ins) { return None; }
    var nonce, pairs := startingNonce, [];
    for i := 0 to |outs|
      invariant BuildLoads(outs[..i], cfg, startingNonce) == Some(pairs)
      invariant nonce == startingNonce + |pairs|
    {
      assert outs[..i + 1][..i] == outs[..i];
      var built := BuildOutboundPair(outs[i].entry, outs[i].raw, cfg, nonce);
      if built.None? {
        assert outs == outs[..i + 1] + outs[i + 1..];
        LoadsSplit(outs[..i + 1], outs[i + 1..], cfg, startingNonce);
        return None;
      }
      nonce := nonce + |built.value|;
      pairs := pairs + built.value;
    }
    assert outs[..|outs|] == outs;
    var deliveries := BuildInboundSystemTxs(ins, cfg, nonce);
    if deliveries.None? { return None; }
    return Some(pairs + Deliveries(deliveries.value));
  }

  method InterleaveSyncBlockTxs(pairs: seq<SyncPair>) returns (out: seq<SyncTx>)
    ensures out == Interleave(pairs)
  {
    out := [];
    for i := 0 to |pairs|
      invariant out == Interleave(pairs[..i])
    {
      assert pairs[..i + 1][..i] == pairs[..i];
      out := out + [pairs[i].system];
      if pairs[i].user.Some? { out := out + [User(pairs[i].user.value)]; }
    }
    assert pairs[..|pairs|] == pairs;
  }
}
