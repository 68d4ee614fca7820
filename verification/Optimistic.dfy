/** The per-height ledger of Sync blocks committed before their L1 bundle settled. */
module LedgerSpec {
  import opened Types

  datatype Resolution = Pending | Settled | Failed | SettledPartial
  {
    /** Neither the observer nor the cursor has settled it. */
    predicate Unresolved() { Pending? || Failed? }

    function Rank(): nat {
      match this
      case Pending => 0
      case Failed => 1
      case SettledPartial => 2
      case Settled => 3
    }
  }

  datatype InFlight = InFlight(
    txs: seq<HeldTx>,
    postBatchHash: nat,
    parent: nat,
    resolution: Resolution,
    cursorConfirmed: bool,
    slotSkipped: bool)

  datatype FailedBatch = FailedBatch(
    syncHeight: nat,
    postBatchHash: nat,
    parent: nat,
    txs: seq<HeldTx>,
    slotSkipped: bool)

  datatype Finalized = Finalized(syncHeight: nat, postBatchHash: nat, txs: seq<HeldTx>)

  type Ledger = map<nat, InFlight>

  /** The members of `s` below `n`, ascending. */
  function HeightsBelow(s: set<nat>, n: nat): (r: seq<nat>)
    ensures forall h :: h in r <==> h in s && h < n
    ensures forall i :: 0 <= i < |r| ==> r[i] in s && r[i] < n
    ensures forall i, j :: 0 <= i < j < |r| ==> r[i] < r[j]
  {
    if n == 0 then []
    else HeightsBelow(s, n - 1) + (if n - 1 in s then [n - 1] else [])
  }

  /** The heights of a set, ascending: the iteration order of the ledger. */
  function Heights(s: set<nat>): (r: seq<nat>)
    ensures forall h :: h in r <==> h in s
    ensures forall i :: 0 <= i < |r| ==> r[i] in s
    ensures forall i, j :: 0 <= i < j < |r| ==> r[i] < r[j]
  {
    if s == {} then [] else HeightsBelow(s, Max(s) + 1)
  }

  ghost predicate Holds(l: Ledger, hs: seq<nat>) {
    forall i :: 0 <= i < |hs| ==> hs[i] in l
  }

  /** All transactions of the entries at `hs`, in that order. */
  function Flatten(l: Ledger, hs: seq<nat>): seq<HeldTx>
    requires Holds(l, hs)
  {
    if hs == [] then []
    else Flatten(l, hs[..|hs| - 1]) + l[hs[|hs| - 1]].txs
  }

  function Begin(l: Ledger, h: nat, postBatchHash: nat, parent: nat, txs: seq<HeldTx>): Ledger {
    l[h := InFlight(txs, postBatchHash, parent, Pending, false, false)]
  }

  function BlockingHeight(l: Ledger, cursor: nat): (r: Option<nat>)
    ensures r.None? <==> forall h :: h in l ==> h <= cursor
    ensures r.Some? ==> r.value in l && cursor < r.value && forall h :: h in l && cursor < h ==> r.value <= h
  {
    var above := set h | h in l && cursor < h;
    assert forall h :: h in l && cursor < h ==> h in above;
    if above == {} then None else Some(Min(above))
  }

  /** What the cursor reaching an entry does to it. */
  function Confirm(e: InFlight): InFlight {
    if e.resolution.Unresolved() then e.(resolution := SettledPartial)
    else if e.resolution == Settled then e.(cursorConfirmed := true)
    else e
  }

  function Covered(l: Ledger, cursor: nat): set<nat> {
    set h | h in l && h <= cursor
  }

  /** Transactions of the entries at `hs` that this confirmation settles for good. */
  function NewlyConfirmed(l: Ledger, hs: seq<nat>): seq<HeldTx>
    requires Holds(l, hs)
  {
    if hs == [] then []
    else
      var e := l[hs[|hs| - 1]];
      NewlyConfirmed(l, hs[..|hs| - 1])
      + (if e.resolution == Settled && !e.cursorConfirmed then e.txs else [])
  }

  function ResolveBelowCursor(l: Ledger, cursor: nat): (Ledger, seq<HeldTx>) {
    (map h | h in l :: if h <= cursor then Confirm(l[h]) else l[h],
     NewlyConfirmed(l, Heights(Covered(l, cursor))))
  }

  predicate Names(l: Ledger, h: nat, postBatchHash: nat) {
    h in l && l[h].postBatchHash == postBatchHash
  }

  function MarkSettled(l: Ledger, h: nat, postBatchHash: nat): Ledger {
    if Names(l, h, postBatchHash) then l[h := l[h].(resolution := Settled)] else l
  }

  function MarkSettledPartial(l: Ledger, h: nat, postBatchHash: nat): Ledger {
    if Names(l, h, postBatchHash) && l[h].resolution == Pending
    then l[h := l[h].(resolution := SettledPartial)] else l
  }

  function MarkFailed(l: Ledger, h: nat, postBatchHash: nat, slotSkipped: bool): Ledger {
    if Names(l, h, postBatchHash) && l[h].resolution == Pending
    then l[h := l[h].(resolution := Failed, slotSkipped := slotSkipped)] else l
  }

  function Partials(l: Ledger, cursor: nat): set<nat> {
    set h | h in l && h <= cursor && l[h].resolution == SettledPartial
  }

  /** The lowest partly settled batch the cursor has reached. */
  function PartialToDispose(l: Ledger, cursor: nat): (r: Option<FailedBatch>)
    ensures r.None? <==> forall h :: h in l && l[h].resolution == SettledPartial ==> cursor < h
    ensures r.Some? ==>
      var b := r.value;
      && b.syncHeight in l && b.syncHeight <= cursor
      && l[b.syncHeight].resolution == SettledPartial
      && b.txs == l[b.syncHeight].txs && b.postBatchHash == l[b.syncHeight].postBatchHash
      && forall h :: h in l && l[h].resolution == SettledPartial ==> b.syncHeight <= h
  {
    assert forall h :: h in l && l[h].resolution == SettledPartial ==> (h in Partials(l, cursor) <==> h <= cursor);
    if Partials(l, cursor) == {} then None
    else
      var h := Min(Partials(l, cursor));
      Some(FailedBatch(h, l[h].postBatchHash, l[h].parent, l[h].txs, false))
  }

  function ClaimPartial(l: Ledger, h: nat, postBatchHash: nat, spent: seq<HeldTx>): (Ledger, bool) {
    if Names(l, h, postBatchHash)
    then (l[h := l[h].(txs := spent, resolution := Settled, cursorConfirmed := true)], true)
    else (l, false)
  }

  function FailedAbove(l: Ledger, cursor: nat): set<nat> {
    set h | h in l && cursor < h && l[h].resolution == Failed
  }

  /** Take out the lowest failed batch the cursor has not reached. */
  function TakeFailedForRecovery(l: Ledger, cursor: nat): (r: (Ledger, Option<FailedBatch>))
    ensures r.1.None? ==> r.0 == l
    ensures r.1.None? <==> forall h :: h in l && l[h].resolution == Failed ==> h <= cursor
    ensures r.1.Some? ==>
      var b := r.1.value;
      && b.syncHeight in l && l[b.syncHeight].resolution == Failed && cursor < b.syncHeight
      && (forall h :: h in l && l[h].resolution == Failed && cursor < h ==> b.syncHeight <= h)
      && b == FailedBatch(b.syncHeight, l[b.syncHeight].postBatchHash, l[b.syncHeight].parent,
                          l[b.syncHeight].txs, l[b.syncHeight].slotSkipped)
      && r.0 == l - {b.syncHeight}
  {
    assert forall h :: h in l && l[h].resolution == Failed ==> (h in FailedAbove(l, cursor) <==> cursor < h);
    if FailedAbove(l, cursor) == {} then (l, None)
    else
      var h := Min(FailedAbove(l, cursor));
      var e := l[h];
      (l - {h}, Some(FailedBatch(h, e.postBatchHash, e.parent, e.txs, e.slotSkipped)))
  }

  function ReinsertFailed(l: Ledger, b: FailedBatch): Ledger {
    l[b.syncHeight := InFlight(b.txs, b.postBatchHash, b.parent, Failed, false, b.slotSkipped)]
  }

  function RolledOut(l: Ledger, cursor: nat): set<nat> {
    set h | h in l && cursor < h && !l[h].resolution.Unresolved()
  }

  function TakeRolledOut(l: Ledger, cursor: nat): (Ledger, seq<HeldTx>) {
    (l - RolledOut(l, cursor), Flatten(l, Heights(RolledOut(l, cursor))))
  }

  function FinalizedHeights(l: Ledger, finalized: nat): set<nat> {
    set h | h in l && h <= finalized && l[h].resolution == Settled
  }

  function Audits(l: Ledger, hs: seq<nat>): (r: seq<Finalized>)
    requires Holds(l, hs)
    ensures |r| == |hs|
    ensures forall i :: 0 <= i < |hs| ==> r[i] == Finalized(hs[i], l[hs[i]].postBatchHash, l[hs[i]].txs)
  {
    if hs == [] then []
    else
      var h := hs[|hs| - 1];
      Audits(l, hs[..|hs| - 1]) + [Finalized(h, l[h].postBatchHash, l[h].txs)]
  }

  function TakeFinalized(l: Ledger, finalized: nat): (Ledger, seq<Finalized>) {
    (l - FinalizedHeights(l, finalized), Audits(l, Heights(FinalizedHeights(l, finalized))))
  }

  // ---- What verdicts, claims and recoveries mean ------------------------------------------------

  datatype Verdict = SaysSettled | SaysPartial | SaysFailed(slotSkipped: bool)
  {
    function Resolves(): Resolution {
      match this
      case SaysSettled => Settled
      case SaysPartial => SettledPartial
      case SaysFailed(_) => Failed
    }
  }

  function Hear(l: Ledger, h: nat, postBatchHash: nat, v: Verdict): Ledger {
    match v
    case SaysSettled => MarkSettled(l, h, postBatchHash)
    case SaysPartial => MarkSettledPartial(l, h, postBatchHash)
    case SaysFailed(skipped) => MarkFailed(l, h, postBatchHash, skipped)
  }

  function HearAll(l: Ledger, h: nat, postBatchHash: nat, vs: seq<Verdict>): Ledger {
    if vs == [] then l else Hear(HearAll(l, h, postBatchHash, vs[..|vs| - 1]), h, postBatchHash, vs[|vs| - 1])
  }

  /** However often and in whatever order observers speak of one posted batch, `settled` wins if
      anyone says it, and otherwise the first to speak does; the batch keeps its transactions and
      identity, and no other entry is touched. Observers of a batch the height no longer holds change
      nothing. */
  lemma {:induction false} VerdictsConverge(l: Ledger, h: nat, postBatchHash: nat, vs: seq<Verdict>)
    ensures !Names(l, h, postBatchHash) ==> HearAll(l, h, postBatchHash, vs) == l
    ensures Names(l, h, postBatchHash) && l[h].resolution == Pending ==>
      var l' := HearAll(l, h, postBatchHash, vs);
      && l'.Keys == l.Keys && (forall g :: g in l && g != h ==> l'[g] == l[g])
      && Heard(l[h], l'[h], vs)
  {
    if vs != [] {
      hide Hear, Heard;
      var init, last := vs[..|vs| - 1], vs[|vs| - 1];
      VerdictsConverge(l, h, postBatchHash, init);
      var l' := HearAll(l, h, postBatchHash, init);
      HearOne(l', h, postBatchHash, last);
      if Names(l, h, postBatchHash) && l[h].resolution == Pending {
        HeardNext(l[h], l'[h], init, last);
        assert vs == init + [last];
      }
    }
  }

  ghost predicate Heard(e: InFlight, e': InFlight, vs: seq<Verdict>)
    requires e.resolution == Pending
  {
    && e' == e.(resolution := e'.resolution, slotSkipped := e'.slotSkipped)
    && e'.resolution == (if SaysSettled in vs then Settled else if vs == [] then Pending else vs[0].Resolves())
    && (vs == [] || !vs[0].SaysFailed? ==> e'.slotSkipped == e.slotSkipped)
    && (vs != [] && vs[0].SaysFailed? ==> e'.slotSkipped == vs[0].slotSkipped)
  }

  ghost function HearEntry(e: InFlight, v: Verdict): InFlight {
    match v
    case SaysSettled => e.(resolution := Settled)
    case SaysPartial => if e.resolution == Pending then e.(resolution := SettledPartial) else e
    case SaysFailed(skipped) =>
      if e.resolution == Pending then e.(resolution := Failed, slotSkipped := skipped) else e
  }

  lemma {:induction false} HearOne(l: Ledger, h: nat, postBatchHash: nat, v: Verdict)
    ensures Hear(l, h, postBatchHash, v)
      == if Names(l, h, postBatchHash) then l[h := HearEntry(l[h], v)] else l
  {
    if Names(l, h, postBatchHash) { assert l[h := l[h]] == l; }
  }

  lemma {:induction false} HeardNext(e: InFlight, e': InFlight, vs: seq<Verdict>, v: Verdict)
    requires e.resolution == Pending && Heard(e, e', vs)
    ensures Heard(e, HearEntry(e', v), vs + [v])
  {
    if vs != [] { assert (vs + [v])[0] == vs[0]; }
    assert SaysSettled in vs + [v] <==> SaysSettled in vs || v == SaysSettled;
  }

  /** A failed batch taken for recovery and put back leaves the ledger as it was, exactly when the
      cursor had not confirmed it; if the height was begun anew in between, it is overwritten. */
  lemma {:induction false} ReinsertUndoesTakeIff(l: Ledger, cursor: nat, anew: InFlight)
    requires TakeFailedForRecovery(l, cursor).1.Some?
    ensures
      var (taken, b) := TakeFailedForRecovery(l, cursor);
      && (ReinsertFailed(taken, b.value) == l <==> !l[b.value.syncHeight].cursorConfirmed)
      && ReinsertFailed(taken[b.value.syncHeight := anew], b.value) == ReinsertFailed(taken, b.value)
  {
    var (taken, found) := TakeFailedForRecovery(l, cursor);
    var b := found.value;
    var back := ReinsertFailed(taken, b);
    assert back.Keys == l.Keys;
    assert forall h :: h in l && h != b.syncHeight ==> back[h] == l[h];
    assert back[b.syncHeight] == l[b.syncHeight].(cursorConfirmed := false);
    if !l[b.syncHeight].cursorConfirmed { assert back == l; }
  }

  /** A batch offered for disposal can be claimed as long as its height still holds it. A claim that a
      reorg below it or a rebuild at its height beat changes nothing; one that succeeds settles the
      batch for good with exactly its spent transactions, whatever verdict came meanwhile, so it is
      never offered again. */
  lemma {:induction false} ClaimIsExclusive(
    l: Ledger, cursor: nat, spent: seq<HeldTx>, reorgTo: nat, rebuilt: InFlight, vs: seq<Verdict>)
    requires PartialToDispose(l, cursor).Some?
    ensures
      var b := PartialToDispose(l, cursor).value;
      var h, pb := b.syncHeight, b.postBatchHash;
      && (reorgTo < h ==>
            ClaimPartial(TakeRolledOut(l, reorgTo).0, h, pb, spent) == (TakeRolledOut(l, reorgTo).0, false))
      && (rebuilt.postBatchHash != pb ==> ClaimPartial(l[h := rebuilt], h, pb, spent) == (l[h := rebuilt], false))
      && var (l', claimed) := ClaimPartial(HearAll(l, h, pb, vs), h, pb, spent);
         && claimed && l'[h].txs == spent && l'[h].resolution == Settled && l'[h].cursorConfirmed
         && (forall g :: g in l && g != h ==> g in l' && l'[g] == l[g])
         && (forall c :: PartialToDispose(l', c).Some? ==> PartialToDispose(l', c).value.syncHeight != h)
  {
    var b := PartialToDispose(l, cursor).value;
    StillNamed(l, b.syncHeight, b.postBatchHash, vs);
  }

  lemma {:induction false} StillNamed(l: Ledger, h: nat, postBatchHash: nat, vs: seq<Verdict>)
    requires Names(l, h, postBatchHash)
    ensures
      var l' := HearAll(l, h, postBatchHash, vs);
      Names(l', h, postBatchHash) && l'.Keys == l.Keys && forall g :: g in l && g != h ==> l'[g] == l[g]
  {
    if vs != [] { StillNamed(l, h, postBatchHash, vs[..|vs| - 1]); }
  }

  lemma {:induction false} FlattenHashes(l: Ledger, hs: seq<nat>)
    requires Holds(l, hs)
    ensures forall tx :: tx in Flatten(l, hs) <==> exists h :: h in hs && tx in l[h].txs
  {
    if hs != [] {
      var init, last := hs[..|hs| - 1], hs[|hs| - 1];
      assert hs == init + [last];
      FlattenHashes(l, init);
    }
  }

  lemma {:induction false} NewlyConfirmedTxs(l: Ledger, hs: seq<nat>)
    requires Holds(l, hs)
    ensures forall h, tx ::
      h in hs && l[h].resolution == Settled && !l[h].cursorConfirmed && tx in l[h].txs ==> tx in NewlyConfirmed(l, hs)
    ensures forall tx :: tx in NewlyConfirmed(l, hs) ==> exists h :: h in hs && tx in l[h].txs
  {
    if hs != [] {
      var init, last := hs[..|hs| - 1], hs[|hs| - 1];
      assert hs == init + [last];
      NewlyConfirmedTxs(l, init);
    }
  }

  /** Every entry the cursor covers ends up settled one way or the other: a settled one for good, one
      without a verdict or with a failed one in part, until it is disposed of. */
  lemma {:induction false} CursorResolvesEverythingBelow(l: Ledger, cursor: nat)
    ensures
      var l' := ResolveBelowCursor(l, cursor).0;
      && l'.Keys == l.Keys
      && (forall h :: h in l' && h <= cursor ==> !l'[h].resolution.Unresolved())
      && (forall h :: h in l && cursor < h ==> l'[h] == l[h])
      && (forall h :: h in l && h <= cursor ==>
            && (l'[h].resolution == Settled <==> l[h].resolution == Settled)
            && (l'[h].cursorConfirmed <==> l[h].cursorConfirmed || l[h].resolution == Settled))
      && (forall h :: h in l' ==>
            && l'[h].txs == l[h].txs && l'[h].postBatchHash == l[h].postBatchHash
            && l[h].resolution.Rank() <= l'[h].resolution.Rank() && (l[h].cursorConfirmed ==> l'[h].cursorConfirmed))
  {
  }

  /** What a confirmation newly settles for good is handed back for release. */
  lemma {:induction false} ConfirmedAreReleased(l: Ledger, cursor: nat, h: nat, tx: HeldTx)
    requires h in l && !l[h].cursorConfirmed && ResolveBelowCursor(l, cursor).0[h].cursorConfirmed && tx in l[h].txs
    ensures tx in ResolveBelowCursor(l, cursor).1
  {
    NewlyConfirmedTxs(l, Heights(Covered(l, cursor)));
    assert h in Heights(Covered(l, cursor));
  }

  lemma {:induction false} NewlyConfirmedFrom(l: Ledger, hs: seq<nat>, tx: HeldTx) returns (h: nat)
    requires Holds(l, hs) && tx in NewlyConfirmed(l, hs)
    ensures h in hs && h in l && l[h].resolution == Settled && !l[h].cursorConfirmed && tx in l[h].txs
  {
    var init, last := hs[..|hs| - 1], hs[|hs| - 1];
    assert hs == init + [last];
    if tx in NewlyConfirmed(l, init) { h := NewlyConfirmedFrom(l, init, tx); } else { h := last; }
  }

  /** Nothing else is: a released transaction belongs to a settled batch the cursor has just reached. */
  lemma {:induction false} ReleasedWereConfirmed(l: Ledger, cursor: nat, tx: HeldTx) returns (h: nat)
    requires tx in ResolveBelowCursor(l, cursor).1
    ensures h in l && h <= cursor && l[h].resolution == Settled && !l[h].cursorConfirmed && tx in l[h].txs
  {
    h := NewlyConfirmedFrom(l, Heights(Covered(l, cursor)), tx);
  }

  /** A reorg takes out exactly the resolved batches above the new cursor, and hands back exactly their
      transactions. */
  lemma {:induction false} RolledOutAre(l: Ledger, cursor: nat)
    ensures
      var (l', txs) := TakeRolledOut(l, cursor);
      && (forall h :: h in l' <==> h in l && (h <= cursor || l[h].resolution == Pending || l[h].resolution == Failed))
      && (forall h :: h in l' ==> l'[h] == l[h])
      && (forall tx :: tx in txs <==> exists h :: h in l && h !in l' && tx in l[h].txs)
  {
    var hs := Heights(RolledOut(l, cursor));
    FlattenHashes(l, hs);
    assert forall h :: h in l && h !in TakeRolledOut(l, cursor).0 ==> h in hs;
  }

  /** Finality takes out exactly the settled batches up to it, each once, with its transactions. */
  lemma {:induction false} FinalizedAre(l: Ledger, finalized: nat)
    ensures
      var (l', audits) := TakeFinalized(l, finalized);
      && (forall h :: h in l' <==> h in l && (finalized < h || l[h].resolution != Settled))
      && (forall h :: h in l' ==> l'[h] == l[h])
      && (forall i :: 0 <= i < |audits| ==>
            && audits[i].syncHeight in l && audits[i].syncHeight !in l'
            && audits[i].txs == l[audits[i].syncHeight].txs
            && audits[i].postBatchHash == l[audits[i].syncHeight].postBatchHash)
      && (forall i, j :: 0 <= i < j < |audits| ==> audits[i].syncHeight < audits[j].syncHeight)
      && (forall h :: h in l && h !in l' ==> exists i :: 0 <= i < |audits| && audits[i].syncHeight == h)
  {
    hide Heights, Audits;
    var gone := FinalizedHeights(l, finalized);
    var hs := Heights(gone);
    var (l', audits) := TakeFinalized(l, finalized);
    assert forall h :: h in gone <==> h in l && h <= finalized && l[h].resolution == Settled;
    forall i | 0 <= i < |audits|
      ensures audits[i] == Finalized(hs[i], l[hs[i]].postBatchHash, l[hs[i]].txs) && hs[i] in gone
    {
    }
    forall h | h in l && h !in l' ensures exists i :: 0 <= i < |audits| && audits[i].syncHeight == h {
      assert h in hs;
      var i :| 0 <= i < |hs| && hs[i] == h;
      assert audits[i].syncHeight == h;
    }
  }
}

/** The ledger as the composer holds it: one map under one lock. */
module OptimisticLedger {
  import opened Types
  import opened LedgerSpec

  function Matching(l: Ledger, cursor: nat, above: bool, state: Resolution): set<nat> {
    set h | h in l && (h > cursor <==> above) && l[h].resolution == state
  }

  function Least(s: set<nat>): Option<nat> {
    if s == {} then None else Some(Min(s))
  }

  function ConfirmAll(l: Ledger, hs: seq<nat>): (r: Ledger)
    requires Holds(l, hs)
    ensures r.Keys == l.Keys
  {
    if hs == [] then l
    else
      var before := ConfirmAll(l, hs[..|hs| - 1]);
      var h := hs[|hs| - 1];
      before[h := Confirm(before[h])]
  }

  lemma {:induction false} ConfirmAllClosed(l: Ledger, hs: seq<nat>)
    requires Holds(l, hs)
    requires forall a, b :: 0 <= a < b < |hs| ==> hs[a] < hs[b]
    ensures forall h :: h in l ==> ConfirmAll(l, hs)[h] == if h in hs then Confirm(l[h]) else l[h]
  {
    if hs != [] {
      var init, last := hs[..|hs| - 1], hs[|hs| - 1];
      assert hs == init + [last];
      ConfirmAllClosed(l, init);
    }
  }

  /** One more height of the ascending walk. */
  lemma {:induction false} ConfirmedSoFar(l: Ledger, hs: seq<nat>, i: nat)
    requires i < |hs| && Holds(l, hs)
    requires forall a, b :: 0 <= a < b < |hs| ==> hs[a] < hs[b]
    ensures hs[i] in l && ConfirmAll(l, hs[..i])[hs[i]] == l[hs[i]]
    ensures ConfirmAll(l, hs[..i + 1]) == ConfirmAll(l, hs[..i])[hs[i] := Confirm(l[hs[i]])]
    ensures NewlyConfirmed(l, hs[..i + 1])
      == NewlyConfirmed(l, hs[..i])
         + (if l[hs[i]].resolution == Settled && !l[hs[i]].cursorConfirmed then l[hs[i]].txs else [])
  {
    ConfirmAllClosed(l, hs[..i]);
    assert hs[i] in hs && hs[i] !in hs[..i];
    assert hs[..i + 1][..i] == hs[..i];
  }

  function Drop(l: Ledger, hs: seq<nat>): Ledger {
    if hs == [] then l else Drop(l, hs[..|hs| - 1]) - {hs[|hs| - 1]}
  }

  lemma {:induction false} DropClosed(l: Ledger, hs: seq<nat>)
    ensures Drop(l, hs) == l - (set h | h in hs)
  {
    if hs != [] {
      var init, last := hs[..|hs| - 1], hs[|hs| - 1];
      assert hs == init + [last];
      DropClosed(l, init);
      assert (set h | h in hs) == (set h | h in init) + {last};
    }
  }

  lemma {:induction false} DroppedSoFar(l: Ledger, hs: seq<nat>, i: nat)
    requires i < |hs| && Holds(l, hs)
    requires forall a, b :: 0 <= a < b < |hs| ==> hs[a] < hs[b]
    ensures hs[i] in Drop(l, hs[..i]) && Drop(l, hs[..i])[hs[i]] == l[hs[i]]
    ensures Drop(l, hs[..i + 1]) == Drop(l, hs[..i]) - {hs[i]}
  {
    DropClosed(l, hs[..i]);
    assert hs[..i + 1][..i] == hs[..i];
    assert hs[i] in hs && hs[i] !in hs[..i];
  }

  lemma {:induction false} ResolveIsConfirmAll(l: Ledger, cursor: nat)
    ensures LedgerSpec.ResolveBelowCursor(l, cursor).0 == ConfirmAll(l, Heights(Covered(l, cursor)))
  {
    ConfirmAllClosed(l, Heights(Covered(l, cursor)));
  }

  lemma {:induction false} DropIsRemoval(l: Ledger, gone: set<nat>)
    ensures Drop(l, Heights(gone)) == l - gone
  {
    DropClosed(l, Heights(gone));
    assert (set h | h in Heights(gone)) == gone;
  }

  lemma {:induction false} FirstIsLeast(hs: seq<nat>, i: nat, hits: set<nat>)
    requires i < |hs| && hs[i] in hits && forall h :: h in hits ==> h in hs
    requires forall a, b :: 0 <= a < b < |hs| ==> hs[a] < hs[b]
    requires forall k :: 0 <= k < i ==> hs[k] !in hits
    ensures Least(hits) == Some(hs[i])
  {
    var m := Min(hits);
    var k :| 0 <= k < |hs| && hs[k] == m;
  }

  function Join(es: seq<InFlight>): seq<HeldTx> {
    if es == [] then [] else Join(es[..|es| - 1]) + es[|es| - 1].txs
  }

  lemma {:induction false} JoinIsFlatten(l: Ledger, hs: seq<nat>, es: seq<InFlight>)
    requires Holds(l, hs)
    requires |es| == |hs| && forall i :: 0 <= i < |hs| ==> es[i] == l[hs[i]]
    ensures Join(es) == Flatten(l, hs)
  {
    if hs != [] {
      JoinIsFlatten(l, hs[..|hs| - 1], es[..|es| - 1]);
    }
  }

  method JoinTxs(es: seq<InFlight>) returns (txs: seq<HeldTx>)
    ensures txs == Join(es)
  {
    txs := [];
    for i := 0 to |es|
      invariant txs == Join(es[..i])
    {
      assert es[..i + 1][..i] == es[..i];
      txs := txs + es[i].txs;
    }
    assert es[..|es|] == es;
  }

  class OptimisticallyIncluded {
    var bySyncHeight: Ledger

    constructor ()
      ensures bySyncHeight == map[]
    {
      bySyncHeight := map[];
    }

    method Begin(h: nat, postBatchHash: nat, parent: nat, txs: seq<HeldTx>)
      modifies this
      ensures bySyncHeight == LedgerSpec.Begin(old(bySyncHeight), h, postBatchHash, parent, txs)
    {
      bySyncHeight := bySyncHeight[h := InFlight(txs, postBatchHash, parent, Pending, false, false)];
    }

    /** Confirm the entries at `hs`, in order. */
    method ConfirmAt(hs: seq<nat>) returns (newlyConfirmed: seq<HeldTx>)
      requires Holds(bySyncHeight, hs)
      requires forall a, b :: 0 <= a < b < |hs| ==> hs[a] < hs[b]
      modifies this
      ensures bySyncHeight == ConfirmAll(old(bySyncHeight), hs)
      ensures newlyConfirmed == NewlyConfirmed(old(bySyncHeight), hs)
    {
      newlyConfirmed := [];
      ghost var was := bySyncHeight;
      for i := 0 to |hs|
        invariant bySyncHeight == ConfirmAll(was, hs[..i])
        invariant newlyConfirmed == NewlyConfirmed(was, hs[..i])
      {
        ConfirmedSoFar(was, hs, i);
        var entry := bySyncHeight[hs[i]];
        if entry.resolution == Pending || entry.resolution == Failed {
          entry := entry.(resolution := SettledPartial);
        }
        if entry.resolution == Settled && !entry.cursorConfirmed {
          newlyConfirmed := newlyConfirmed + entry.txs;
          entry := entry.(cursorConfirmed := true);
        }
        bySyncHeight := bySyncHeight[hs[i] := entry];
      }
      assert hs[..|hs|] == hs;
    }

    method ResolveBelowCursor(cursor: nat) returns (newlyConfirmed: seq<HeldTx>)
      modifies this
      ensures (bySyncHeight, newlyConfirmed) == LedgerSpec.ResolveBelowCursor(old(bySyncHeight), cursor)
    {
      newlyConfirmed := ConfirmAt(Heights(Covered(bySyncHeight, cursor)));
      ResolveIsConfirmAll(old(bySyncHeight), cursor);
    }

    method MarkSettledPartial(h: nat, postBatchHash: nat)
      modifies this
      ensures bySyncHeight == LedgerSpec.MarkSettledPartial(old(bySyncHeight), h, postBatchHash)
    {
      if h in bySyncHeight && bySyncHeight[h].postBatchHash == postBatchHash && bySyncHeight[h].resolution == Pending {
        bySyncHeight := bySyncHeight[h := bySyncHeight[h].(resolution := SettledPartial)];
      }
    }

    method MarkSettled(h: nat, postBatchHash: nat)
      modifies this
      ensures bySyncHeight == LedgerSpec.MarkSettled(old(bySyncHeight), h, postBatchHash)
    {
      if h in bySyncHeight && bySyncHeight[h].postBatchHash == postBatchHash {
        bySyncHeight := bySyncHeight[h := bySyncHeight[h].(resolution := Settled)];
      }
    }

    method MarkFailed(h: nat, postBatchHash: nat, slotSkipped: bool)
      modifies this
      ensures bySyncHeight == LedgerSpec.MarkFailed(old(bySyncHeight), h, postBatchHash, slotSkipped)
    {
      if h in bySyncHeight && bySyncHeight[h].postBatchHash == postBatchHash && bySyncHeight[h].resolution == Pending {
        bySyncHeight := bySyncHeight[h := bySyncHeight[h].(resolution := Failed, slotSkipped := slotSkipped)];
      }
    }

    /** The first height, ascending, in the given state and on the given side of `cursor`. */
    method Find(cursor: nat, above: bool, state: Resolution) returns (found: Option<nat>)
      ensures found == Least(Matching(bySyncHeight, cursor, above, state))
    {
      var hs := Heights(bySyncHeight.Keys);
      for i := 0 to |hs|
        invariant forall k :: 0 <= k < i ==> hs[k] !in Matching(bySyncHeight, cursor, above, state)
      {
        var h := hs[i];
        assert h in hs;
        if (h > cursor <==> above) && bySyncHeight[h].resolution == state {
          FirstIsLeast(hs, i, Matching(bySyncHeight, cursor, above, state));
          return Some(h);
        }
      }
      assert Matching(bySyncHeight, cursor, above, state) <= bySyncHeight.Keys;
      return None;
    }

    method PartialToDispose(cursor: nat) returns (r: Option<FailedBatch>)
      ensures r == LedgerSpec.PartialToDispose(bySyncHeight, cursor)
    {
      var found := Find(cursor, false, SettledPartial);
      assert Partials(bySyncHeight, cursor) == Matching(bySyncHeight, cursor, false, SettledPartial);
      if found.None? { return None; }
      var e := bySyncHeight[found.value];
      return Some(FailedBatch(found.value, e.postBatchHash, e.parent, e.txs, false));
    }

    method ClaimPartial(h: nat, postBatchHash: nat, spent: seq<HeldTx>) returns (claimed: bool)
      modifies this
      ensures (bySyncHeight, claimed) == LedgerSpec.ClaimPartial(old(bySyncHeight), h, postBatchHash, spent)
    {
      if h !in bySyncHeight || bySyncHeight[h].postBatchHash != postBatchHash { return false; }
      bySyncHeight :=
        bySyncHeight[h := bySyncHeight[h].(txs := spent, resolution := Settled, cursorConfirmed := true)];
      return true;
    }

    method TakeFailedForRecovery(cursor: nat) returns (r: Option<FailedBatch>)
      modifies this
      ensures (bySyncHeight, r) == LedgerSpec.TakeFailedForRecovery(old(bySyncHeight), cursor)
    {
      var found := Find(cursor, true, Failed);
      assert FailedAbove(bySyncHeight, cursor) == Matching(bySyncHeight, cursor, true, Failed);
      if found.None? { return None; }
      var h := found.value;
      var e := bySyncHeight[h];
      bySyncHeight := bySyncHeight - {h};
      return Some(FailedBatch(h, e.postBatchHash, e.parent, e.txs, e.slotSkipped));
    }

    method ReinsertFailed(b: FailedBatch)
      modifies this
      ensures bySyncHeight == LedgerSpec.ReinsertFailed(old(bySyncHeight), b)
    {
      bySyncHeight :=
        bySyncHeight[b.syncHeight := InFlight(b.txs, b.postBatchHash, b.parent, Failed, false, b.slotSkipped)];
    }

    /** Remove the entries at `hs`, in order. */
    method RemoveAt(hs: seq<nat>) returns (gone: seq<InFlight>)
      requires Holds(bySyncHeight, hs)
      requires forall a, b :: 0 <= a < b < |hs| ==> hs[a] < hs[b]
      modifies this
      ensures bySyncHeight == Drop(old(bySyncHeight), hs)
      ensures |gone| == |hs| && forall i :: 0 <= i < |hs| ==> gone[i] == old(bySyncHeight)[hs[i]]
    {
      gone := [];
      ghost var was := bySyncHeight;
      for i := 0 to |hs|
        invariant bySyncHeight == Drop(was, hs[..i])
        invariant |gone| == i && forall k :: 0 <= k < i ==> gone[k] == was[hs[k]]
      {
        DroppedSoFar(was, hs, i);
        gone := gone + [bySyncHeight[hs[i]]];
        bySyncHeight := bySyncHeight - {hs[i]};
      }
      assert hs[..|hs|] == hs;
    }

    method TakeRolledOut(newCursor: nat) returns (txs: seq<HeldTx>)
      modifies this
      ensures (bySyncHeight, txs) == LedgerSpec.TakeRolledOut(old(bySyncHeight), newCursor)
    {
      var hs := Heights(RolledOut(bySyncHeight, newCursor));
      var gone := RemoveAt(hs);
      txs := JoinTxs(gone);
      DropIsRemoval(old(bySyncHeight), RolledOut(old(bySyncHeight), newCursor));
      JoinIsFlatten(old(bySyncHeight), hs, gone);
    }

    method TakeFinalized(finalized: nat) returns (audits: seq<Finalized>)
      modifies this
      ensures (bySyncHeight, audits) == LedgerSpec.TakeFinalized(old(bySyncHeight), finalized)
    {
      var hs := Heights(FinalizedHeights(bySyncHeight, finalized));
      var gone := RemoveAt(hs);
      audits := seq(|gone|, i requires 0 <= i < |gone| => Finalized(hs[i], gone[i].postBatchHash, gone[i].txs));
      DropIsRemoval(old(bySyncHeight), FinalizedHeights(old(bySyncHeight), finalized));
      assert audits == Audits(old(bySyncHeight), hs);
    }
  }
}
