/** Reconciling local blocks with a decoded batch: skip what is already derived, replay the rest.
    A block hash is a free constructor over everything the header seals. */
module Reconcile {
  import opened Types

  datatype Inputs = Inputs(beneficiary: Address, extraData: Bytes)

  datatype Hash = Genesis | Sealed(parent: Hash, txs: seq<Bytes>, inputs: Inputs, timestamp: nat)

  datatype Block = Block(parent: Hash, txs: seq<Bytes>, inputs: Inputs, timestamp: nat)
  {
    function Hash(): Hash { Sealed(parent, txs, inputs, timestamp) }
  }

  /** What the payload says about one block of the range. */
  datatype Claim = Claim(txs: seq<Bytes>, inputs: Inputs)

  predicate Follows(parent: Block, child: Block, pace: nat) {
    child.parent == parent.Hash() && child.timestamp == parent.timestamp + pace
  }

  ghost predicate Linked(blocks: seq<Block>, pace: nat) {
    forall i :: 0 < i < |blocks| ==> Follows(blocks[i - 1], blocks[i], pace)
  }

  function Build(parent: Block, c: Claim, pace: nat): Block {
    Block(parent.Hash(), c.txs, c.inputs, parent.timestamp + pace)
  }

  /** Committing a block at `h` switches the chain to it: nothing above `h` stays canonical. */
  function Replay(chain: seq<Block>, h: nat, c: Claim, pace: nat): seq<Block>
    requires 0 < h <= |chain|
  {
    chain[..h] + [Build(chain[h - 1], c, pace)]
  }

  /** Replay every block of the range unconditionally. */
  function ReplayAll(chain: seq<Block>, from: nat, claims: seq<Claim>, pace: nat): (r: seq<Block>)
    requires 0 < from <= |chain|
    ensures |r| == from + |claims|
  {
    if claims == [] then chain[..from]
    else
      var before := ReplayAll(chain, from, claims[..|claims| - 1], pace);
      Replay(before, from + |claims| - 1, claims[|claims| - 1], pace)
  }

  predicate LocalMatches(chain: seq<Block>, h: nat, c: Claim) {
    h < |chain| && chain[h].txs == c.txs && chain[h].inputs == c.inputs
  }

  /** The first block of the range is missing or sits on other ancestry. */
  predicate StaleBoundary(chain: seq<Block>, from: nat)
    requires 0 < from <= |chain|
  {
    from == |chain| || chain[from].parent != chain[from - 1].Hash()
  }

  /** The first block of the range names the block before it as its parent. */
  ghost predicate OnAncestry(chain: seq<Block>, from: nat) {
    0 < from < |chain| && chain[from].parent == chain[from - 1].Hash()
  }

  function RangeAlreadyDerived(stale: bool, terminal: Option<Hash>, settled: Option<Hash>): bool {
    !stale && terminal.Some? && terminal == settled
  }

  /** Once one block must be replayed, so must every later one of the batch. */
  class SuffixReplay {
    var active: bool

    constructor (staleBoundary: bool)
      ensures active == staleBoundary
    {
      active := staleBoundary;
    }

    method Required(localMatches: bool) returns (r: bool)
      modifies this
      ensures active == (old(active) || !localMatches) && r == active
    {
      active := active || !localMatches;
      return active;
    }
  }

  /** The range is linked from its first block on, and every sealed block is paced on the parent
      it names. */
  ghost predicate Settled(chain: seq<Block>, from: nat, pace: nat)
    requires 0 < from <= |chain|
  {
    && Linked(chain[from..], pace)
    && (OnAncestry(chain, from) ==> Follows(chain[from - 1], chain[from], pace))
  }

  lemma {:induction false} ReplayAllSnoc(chain: seq<Block>, from: nat, claims: seq<Claim>, i: nat, pace: nat)
    requires 0 < from <= |chain| && i < |claims|
    ensures ReplayAll(chain, from, claims[..i + 1], pace)
      == Replay(ReplayAll(chain, from, claims[..i], pace), from + i, claims[i], pace)
  {
    assert claims[..i + 1][..i] == claims[..i];
  }

  lemma {:induction false} InRange(chain: seq<Block>, from: nat, h: nat, pace: nat)
    requires 0 < from <= h < |chain| && Settled(chain, from, pace) && (h == from ==> !StaleBoundary(chain, from))
    ensures Follows(chain[h - 1], chain[h], pace)
  {
    if h > from {
      assert chain[from..][h - from] == chain[h] && chain[from..][h - from - 1] == chain[h - 1];
    }
  }

  /** How many leading blocks of the range already match their claims. */
  function Matching(local: seq<Block>, from: nat, claims: seq<Claim>): (n: nat)
    ensures n <= |claims|
    ensures forall i :: 0 <= i < n ==> LocalMatches(local, from + i, claims[i])
    ensures n < |claims| ==> !LocalMatches(local, from + n, claims[n])
    decreases |claims|
  {
    if claims == [] || !LocalMatches(local, from, claims[0]) then 0
    else
      assert forall i :: 0 < i < |claims| ==> claims[i] == claims[1..][i - 1];
      1 + Matching(local, from + 1, claims[1..])
  }

  /** The blocks of the range that a pass keeps are paced and linked onto their parents. */
  ghost predicate KeptFollow(local: seq<Block>, from: nat, n: nat, pace: nat)
    requires 0 < from && from + n <= |local|
  {
    forall h :: from <= h < from + n ==> Follows(local[h - 1], local[h], pace)
  }

  ghost function Kept(local: seq<Block>, from: nat, claims: seq<Claim>): (n: nat)
    requires 0 < from <= |local|
    ensures n <= |claims| && from + n <= |local|
  {
    if !OnAncestry(local, from) then 0 else MatchingFits(local, from, claims); Matching(local, from, claims)
  }

  lemma {:induction false} MatchingFits(local: seq<Block>, from: nat, claims: seq<Claim>)
    requires from <= |local|
    ensures from + Matching(local, from, claims) <= |local|
  {
    var n := Matching(local, from, claims);
    if n > 0 { assert LocalMatches(local, from + (n - 1), claims[n - 1]); }
  }

  /** Reconcile the range block by block. Afterwards every block of the range matches its claim on
      sound ancestry. Exactly the blocks from the first that did not match on are replayed, all of
      them if the boundary was stale. Up to its end the chain is the one unconditional replay leaves
      exactly when the blocks kept were linked and paced, as in the node's own chain they are. */
  method ReconcileRange(local: seq<Block>, from: nat, claims: seq<Claim>, pace: nat)
    returns (chain: seq<Block>, replayed: nat)
    requires 0 < from <= |local|
    ensures replayed == |claims| - Kept(local, from, claims)
    ensures |chain| >= from + |claims|
    ensures (replayed == 0 ==> chain == local) && (replayed > 0 ==> |chain| == from + |claims|)
    ensures claims != [] ==> OnAncestry(chain, from)
    ensures forall i :: 0 <= i < |claims| ==> LocalMatches(chain, from + i, claims[i])
    ensures chain[..from + |claims|] == ReplayAll(local, from, claims, pace)
      <==> KeptFollow(local, from, Kept(local, from, claims), pace)
  {
    StartsUnreplayed(local, from, pace);
    chain, replayed := local, 0;
    var suffix := new SuffixReplay(StaleBoundary(local, from));
    hide Replay, ReplayAll, Done, Kept, LocalMatches;
    for i := 0 to |claims|
      invariant Done(local, chain, from, claims, i, pace)
      invariant replayed == SatSub(i, Kept(local, from, claims))
      invariant replayed == 0 ==> chain == local
      invariant suffix.active <==> StaleBoundary(local, from) || replayed > 0
    {
      var h, c := from + i, claims[i];
      DoneHeight(local, chain, from, claims, i, pace);
      KeptIs(local, from, claims, i);
      var matches := LocalMatches(chain, h, c);
      var required := suffix.Required(matches);
      if required {
        ReplayDone(local, chain, from, claims, i, pace);
        chain := Replay(chain, h, c, pace);
        replayed := replayed + 1;
      } else {
        KeepDone(local, from, claims, i, pace);
      }
    }
    Finish(local, chain, from, claims, pace);
  }

  /** What holds after `i` heights of the range. */
  ghost predicate Done(local: seq<Block>, chain: seq<Block>, from: nat, claims: seq<Claim>, i: nat, pace: nat)
    requires 0 < from <= |local| && i <= |claims|
  {
    var kept := Kept(local, from, claims);
    && |chain| >= from + i && (if i <= kept then chain == local else |chain| == from + i)
    && (i > 0 ==> OnAncestry(chain, from))
    && (forall j :: 0 <= j < i ==> LocalMatches(chain, from + j, claims[j]))
    && (chain[..from + i] == ReplayAll(local, from, claims[..i], pace)
        <==> KeptFollow(local, from, if i <= kept then i else kept, pace))
  }

  lemma {:induction false} DoneHeight(
    local: seq<Block>, chain: seq<Block>, from: nat, claims: seq<Claim>, i: nat, pace: nat)
    requires 0 < from <= |local| && i <= |claims| && Done(local, chain, from, claims, i, pace)
    ensures |chain| >= from + i && (i <= Kept(local, from, claims) ==> chain == local)
  {
  }

  /** A height is kept exactly if it matches and no earlier one was replayed. */
  lemma {:induction false} KeptIs(local: seq<Block>, from: nat, claims: seq<Claim>, i: nat)
    requires 0 < from <= |local| && i < |claims|
    ensures i < Kept(local, from, claims) ==> LocalMatches(local, from + i, claims[i]) && !StaleBoundary(local, from)
    ensures i == Kept(local, from, claims) ==> StaleBoundary(local, from) || !LocalMatches(local, from + i, claims[i])
  {
  }

  lemma {:induction false} ReplayDone(
    local: seq<Block>, chain: seq<Block>, from: nat, claims: seq<Claim>, i: nat, pace: nat)
    requires 0 < from <= |local| && i < |claims| && Done(local, chain, from, claims, i, pace)
    requires i >= Kept(local, from, claims)
    ensures Done(local, Replay(chain, from + i, claims[i], pace), from, claims, i + 1, pace)
  {
    hide ReplayAll, Kept;
    StepIff(local, chain, from, claims, i, pace);
    ReplayShape(chain, from + i, claims[i], pace);
    var next := Replay(chain, from + i, claims[i], pace);
    assert i > 0 ==> next[from] == next[..from + i][from];
    hide Replay;
    forall j | 0 <= j < i
      ensures LocalMatches(next, from + j, claims[j])
    {
      assert LocalMatches(chain, from + j, claims[j]) && next[..from + i][from + j] == chain[..from + i][from + j];
    }
    assert next[from - 1] == next[..from + i][from - 1] == chain[..from + i][from - 1];
  }

  lemma {:induction false} KeepDone(local: seq<Block>, from: nat, claims: seq<Claim>, i: nat, pace: nat)
    requires 0 < from <= |local| && i < Kept(local, from, claims) && Done(local, local, from, claims, i, pace)
    ensures Done(local, local, from, claims, i + 1, pace)
  {
    KeptIs(local, from, claims, i);
    StepIff(local, local, from, claims, i, pace);
    hide ReplayAll, Kept, Follows;
    assert KeptFollow(local, from, i + 1, pace) <==>
      KeptFollow(local, from, i, pace) && Follows(local[from + i - 1], local[from + i], pace);
  }

  lemma {:induction false} Finish(local: seq<Block>, chain: seq<Block>, from: nat, claims: seq<Claim>, pace: nat)
    requires 0 < from <= |local| && Done(local, chain, from, claims, |claims|, pace)
    ensures |chain| >= from + |claims|
    ensures |claims| > Kept(local, from, claims) ==> |chain| == from + |claims|
    ensures claims != [] ==> OnAncestry(chain, from)
    ensures forall i :: 0 <= i < |claims| ==> LocalMatches(chain, from + i, claims[i])
    ensures chain[..from + |claims|] == ReplayAll(local, from, claims, pace)
      <==> KeptFollow(local, from, Kept(local, from, claims), pace)
  {
    assert claims[..|claims|] == claims;
  }

  lemma {:induction false} ReplayShape(chain: seq<Block>, h: nat, c: Claim, pace: nat)
    requires 0 < h <= |chain|
    ensures
      var next := Replay(chain, h, c, pace);
      && |next| == h + 1 && next[..h] == chain[..h] && next[..h + 1] == next
      && LocalMatches(next, h, c) && Follows(next[h - 1], next[h], pace)
  {
  }

  /** One more height: replaying it continues the unconditional replay exactly if the chain so far was
      one, and keeping it does so exactly if moreover it follows its parent. */
  lemma {:induction false} StepIff(
    local: seq<Block>, chain: seq<Block>, from: nat, claims: seq<Claim>, i: nat, pace: nat)
    requires 0 < from <= |local| && i < |claims| && from + i <= |chain|
    ensures
      var h, c := from + i, claims[i];
      var all := ReplayAll(local, from, claims[..i + 1], pace);
      && (Replay(chain, h, c, pace) == all <==> chain[..h] == ReplayAll(local, from, claims[..i], pace))
      && (LocalMatches(chain, h, c) ==>
            (chain[..h + 1] == all <==>
               chain[..h] == ReplayAll(local, from, claims[..i], pace) && Follows(chain[h - 1], chain[h], pace)))
  {
    var h, c := from + i, claims[i];
    var before := ReplayAll(local, from, claims[..i], pace);
    ReplayAllSnoc(local, from, claims, i, pace);
    assert Replay(before, h, c, pace)[..h] == before && Replay(chain, h, c, pace)[..h] == chain[..h];
    assert h < |chain| ==> chain[..h + 1] == chain[..h] + [chain[h]];
    assert h < |chain| ==> chain[..h + 1][..h] == chain[..h] && chain[..h + 1][h] == chain[h];
  }

  lemma {:induction false} StartsUnreplayed(local: seq<Block>, from: nat, pace: nat)
    requires 0 < from <= |local|
    ensures ReplayAll(local, from, [], pace) == local[..from]
  {
  }

  /** The replayed range carries the claims, linked onto the untouched prefix. */
  lemma {:induction false} ReplayAllFacts(chain: seq<Block>, from: nat, claims: seq<Claim>, pace: nat)
    requires 0 < from <= |chain|
    ensures
      var r := ReplayAll(chain, from, claims, pace);
      && r[..from] == chain[..from]
      && (forall i :: 0 <= i < |claims| ==> LocalMatches(r, from + i, claims[i]))
      && (forall h :: from <= h < |r| ==> Follows(r[h - 1], r[h], pace))
  {
    if claims != [] {
      var init, last := claims[..|claims| - 1], claims[|claims| - 1];
      var before, r := ReplayAll(chain, from, init, pace), ReplayAll(chain, from, claims, pace);
      ReplayAllFacts(chain, from, init, pace);
      assert r[..|before|] == before;
      assert forall h :: 0 <= h < |before| ==> r[h] == before[h];
      assert r[from + |claims| - 1] == Build(before[|before| - 1], last, pace);
      assert r[..from] == before[..from];
    }
  }

  /** A second pass over the reconciled chain finds every block in place and replays nothing. */
  lemma {:induction false} SecondPassIsIdle(
    local: seq<Block>, chain: seq<Block>, from: nat, claims: seq<Claim>, pace: nat)
    requires 0 < from <= |local| && from <= |chain| && claims != [] && |chain| >= from + |claims|
    requires chain[..from + |claims|] == ReplayAll(local, from, claims, pace)
    ensures OnAncestry(chain, from)
    ensures forall i :: 0 <= i < |claims| ==> LocalMatches(chain, from + i, claims[i])
    ensures ReplayAll(chain, from, claims, pace) == ReplayAll(local, from, claims, pace)
  {
    var r := ReplayAll(local, from, claims, pace);
    ReplayAllFacts(local, from, claims, pace);
    assert forall h :: 0 <= h < |r| ==> chain[h] == r[h];
    forall i | 0 <= i < |claims|
      ensures LocalMatches(chain, from + i, claims[i])
    {
      assert LocalMatches(r, from + i, claims[i]);
    }
    assert Follows(r[from - 1], r[from], pace);
    assert chain[..from] == local[..from];
    SamePrefix(local, chain, from, claims, pace);
  }

  lemma {:induction false} SamePrefix(a: seq<Block>, b: seq<Block>, from: nat, claims: seq<Claim>, pace: nat)
    requires 0 < from <= |a| && from <= |b| && a[..from] == b[..from]
    ensures ReplayAll(a, from, claims, pace) == ReplayAll(b, from, claims, pace)
  {
    if claims != [] {
      SamePrefix(a, b, from, claims[..|claims| - 1], pace);
    }
  }

  /** A block hash contains its parent's: two linked ranges of one length that end in the same
      hash are the same block by block. */
  lemma {:induction false} TerminalHashFixesTheRange(a: seq<Block>, b: seq<Block>, pace: nat)
    requires |a| == |b| > 0 && Linked(a, pace) && Linked(b, pace)
    requires a[|a| - 1].Hash() == b[|b| - 1].Hash()
    ensures a == b
  {
    var n := |a| - 1;
    if n > 0 {
      assert Follows(a[n - 1], a[n], pace) && Follows(b[n - 1], b[n], pace);
      TerminalHashFixesTheRange(a[..n], b[..n], pace);
      assert a == a[..n] + [a[n]] && b == b[..n] + [b[n]];
    }
  }

  /** A range is skipped by its terminal hash exactly when replaying it would leave what is there. */
  lemma {:induction false} RangeSkippedIff(
    chain: seq<Block>, from: nat, claims: seq<Claim>, pace: nat, settled: Option<Hash>)
    requires 0 < from && claims != [] && from + |claims| <= |chain| && Settled(chain, from, pace)
    requires settled == Some(ReplayAll(chain, from, claims, pace)[from + |claims| - 1].Hash())
    ensures RangeAlreadyDerived(StaleBoundary(chain, from), Some(chain[from + |claims| - 1].Hash()), settled)
      <==> chain[..from + |claims|] == ReplayAll(chain, from, claims, pace)
  {
    var n, r := from + |claims|, ReplayAll(chain, from, claims, pace);
    if RangeAlreadyDerived(StaleBoundary(chain, from), Some(chain[n - 1].Hash()), settled) {
      RangeSkipIsSound(chain, from, claims, pace, settled);
    }
    if chain[..n] == r {
      SecondPassIsIdle(chain, chain, from, claims, pace);
      assert chain[n - 1] == r[n - 1];
    }
  }

  /** Whatever L1 reports as settled, a range that is not on the local ancestry is never skipped. */
  lemma {:induction false} SkipNeedsAncestry(
    chain: seq<Block>, from: nat, terminal: Option<Hash>, settled: Option<Hash>)
    requires 0 < from <= |chain|
    ensures RangeAlreadyDerived(StaleBoundary(chain, from), terminal, settled)
      <==> OnAncestry(chain, from) && terminal.Some? && settled == terminal
  {
  }

  lemma {:induction false} RangeSkipIsSound(
    chain: seq<Block>, from: nat, claims: seq<Claim>, pace: nat, settled: Option<Hash>)
    requires 0 < from && claims != [] && from + |claims| <= |chain| && Settled(chain, from, pace)
    requires settled == Some(ReplayAll(chain, from, claims, pace)[from + |claims| - 1].Hash())
    requires RangeAlreadyDerived(StaleBoundary(chain, from), Some(chain[from + |claims| - 1].Hash()), settled)
    ensures chain[..from + |claims|] == ReplayAll(chain, from, claims, pace)
  {
    var n, r := from + |claims|, ReplayAll(chain, from, claims, pace);
    ReplayAllFacts(chain, from, claims, pace);
    var a, b := chain[from..n], r[from..n];
    assert Linked(a, pace) by {
      forall i | 0 < i < |a|
        ensures Follows(a[i - 1], a[i], pace)
      {
        InRange(chain, from, from + i, pace);
      }
    }
    assert Linked(b, pace) by {
      forall i | 0 < i < |b|
        ensures Follows(b[i - 1], b[i], pace)
      {
        assert Follows(r[from + i - 1], r[from + i], pace);
      }
    }
    TerminalHashFixesTheRange(a, b, pace);
    assert chain[..n] == chain[..from] + a && r == r[..from] + b;
  }

  /** The two passes composed: the second replays nothing and changes nothing. */
  method ReconcileTwice(local: seq<Block>, from: nat, claims: seq<Claim>, pace: nat)
    returns (first: seq<Block>, second: seq<Block>, replayed: nat)
    requires 0 < from <= |local| && claims != []
    ensures replayed == 0 && second == first
    ensures |first| >= from + |claims|
    ensures first[..from + |claims|] == ReplayAll(local, from, claims, pace)
      <==> KeptFollow(local, from, Kept(local, from, claims), pace)
  {
    var n;
    first, n := ReconcileRange(local, from, claims, pace);
    second, replayed := ReconcileRange(first, from, claims, pace);
    assert Matching(first, from, claims) == |claims|;
  }

  // ---- Heights a batch covers -------------------------------------------------------------------

  /** A resumed batch reuses the Sync block at its anchor; any other covers fresh heights. */
  function BatchRange(anchor: nat, resumed: bool, claimed: nat): (nat, nat) {
    if resumed then (anchor, anchor) else (anchor + 1, anchor + claimed)
  }

  function InSettleableRange(found: Option<nat>, low: nat, high: nat): Option<nat> {
    if found.Some? && low <= found.value <= high then found else None
  }

  /** The new cursor is where the settled root was found, if that lies between the anchor and the end of
      the batch, and the end otherwise. A resumed batch covers its anchor alone, any other exactly the
      claimed heights after it. */
  lemma {:induction false} CursorAdvances(anchor: nat, resumed: bool, claimed: nat, found: Option<nat>)
    requires claimed > 0
    ensures
      var (first, last) := BatchRange(anchor, resumed, claimed);
      var low := if resumed then first else first - 1;
      var end := InSettleableRange(found, low, last);
      var next := if end.Some? then end.value else last;
      && anchor <= next <= last
      && (next == if found.Some? && anchor <= found.value <= last then found.value else last)
      && (if resumed then first == last == anchor else first == anchor + 1 && last - anchor == claimed)
  {
  }
}
