/** The sync-slot burst: blocks committed one by one on a head other tasks may move at any read. */
module Sequencer {
  import opened Types
  import opened Timing

  const MAX_BLOCKS_PER_CATCHUP: nat := 300

  datatype Header = Header(number: nat, timestamp: nat, id: nat)

  /** The shared committer. Before its `n`-th access other tasks may have moved the head. */
  class Committer {
    var head: Header
    var accesses: nat
    /** The parents of the blocks committed here, in order. */
    ghost var parents: seq<Header>
    const touch: nat -> Option<Header>
    const genesis: nat
    const pace: nat

    /** Every block is paced on its parent, whoever committed it. */
    ghost predicate Paced(h: Header) {
      h.timestamp == genesis + h.number * pace
    }

    ghost predicate Valid()
      reads this
    {
      Paced(head) && forall n :: touch(n).Some? ==> Paced(touch(n).value)
    }

    /** Nobody else moves the head during accesses `from` to `to`. */
    ghost predicate Quiet(from: nat, to: nat) {
      forall n :: from <= n < to ==> touch(n).None?
    }

    constructor (genesis: nat, pace: nat, touch: nat -> Option<Header>)
      requires forall n :: touch(n).Some? ==> touch(n).value.timestamp == genesis + touch(n).value.number * pace
      ensures Valid() && head == Header(0, genesis, 0)
      ensures this.genesis == genesis && this.pace == pace && this.touch == touch && accesses == 0 && parents == []
    {
      this.genesis, this.pace, this.touch := genesis, pace, touch;
      head, accesses := Header(0, genesis, 0), 0;
      parents := [];
    }

    method LastHeader() returns (h: Header)
      requires Valid()
      modifies this
      ensures Valid() && h == head && accesses == old(accesses) + 1 && parents == old(parents)
      ensures h == if touch(old(accesses)).Some? then touch(old(accesses)).value else old(head)
    {
      if touch(accesses).Some? { head := touch(accesses).value; }
      accesses := accesses + 1;
      h := head;
    }

    /** Append a block on `parent`, unless the head is no longer there. */
    method Commit(parent: Header, id: nat) returns (block: Option<Header>)
      requires Valid()
      modifies this
      ensures Valid() && accesses == old(accesses) + 1
      ensures block.Some? ==> block.value == Header(parent.number + 1, parent.timestamp + pace, id)
      ensures block.Some? ==> head == block.value && Paced(parent)
      ensures parents == if block.Some? then old(parents) + [parent] else old(parents)
      ensures touch(old(accesses)).None? && old(head) == parent ==> block.Some?
    {
      var now := LastHeader();
      if now != parent { return None; }
      assert (parent.number + 1) * pace == parent.number * pace + pace by { Distribute(parent.number, 1, pace); }
      head := Header(parent.number + 1, parent.timestamp + pace, id);
      parents := parents + [parent];
      return Some(head);
    }
  }

  /** A paced block with the derived timestamp stands at the derived height. */
  lemma {:induction false} TimestampFixesHeight(genesis: nat, pace: nat, h: Header, target: nat)
    requires pace > 0 && h.timestamp == genesis + h.number * pace && h.timestamp == genesis + target * pace
    ensures h.number == target
  {
    if h.number < target {
      Distribute(h.number, 1, pace);
      MulMono(h.number + 1, target, pace);
    }
    if target < h.number {
      Distribute(target, 1, pace);
      MulMono(target + 1, h.number, pace);
    }
  }

  /** How one trigger went: the head and composition it started from, and the Sync block it committed
      if any. */
  datatype Burst = Burst(start: nat, comp: SlotComposition, sync: Option<Header>)

  class Sequencer {
    const timing: RollupTiming
    const committer: Committer
    /** Whether the speculative-depth limit pauses production on a given head. */
    const paused: nat -> bool
    var offGridSkips: nat

    ghost predicate Valid()
      reads this, committer
    {
      timing.Validate() && committer.Valid() && committer.pace == timing.l2Ms / 1000
    }

    /** The target is the height derived from an L1 time aligned with genesis. */
    ghost predicate Derived(target: nat, syncTs: nat)
      requires committer.pace > 0
    {
      && target == SatSub(syncTs, committer.genesis) / committer.pace
      && committer.genesis <= syncTs && (syncTs - committer.genesis) % committer.pace == 0
    }

    /** No block after the first `from` was committed on a head the depth limit pauses. */
    ghost predicate Unpaused(parents: seq<Header>, from: nat) {
      forall i :: from <= i < |parents| ==> !paused(parents[i].number)
    }

    ghost predicate NeverPaused() {
      forall n :: !paused(n)
    }

    constructor (timing: RollupTiming, committer: Committer, paused: nat -> bool)
      requires timing.Validate() && committer.Valid() && committer.pace == timing.l2Ms / 1000
      ensures Valid()
      ensures this.timing == timing && this.committer == committer && this.paused == paused && offGridSkips == 0
    {
      this.timing, this.committer, this.paused := timing, committer, paused;
      offGridSkips := 0;
    }

    /** Commit up to `n` blocks, each on the head read just before; `false` when one went stale or
        the depth limit paused. Under the limit no block is built on a paused head; undisturbed,
        the blocks stop at the first paused one and only there. */
    method Fill(n: nat, checkLimit: bool) returns (ok: bool)
      requires committer.Valid()
      modifies committer
      ensures committer.Valid()
      ensures old(committer.parents) <= committer.parents
      ensures |committer.parents| <= |old(committer.parents)| + n
      ensures ok <==> |committer.parents| == |old(committer.parents)| + n
      ensures checkLimit ==> Unpaused(committer.parents, |old(committer.parents)|)
      ensures committer.Quiet(old(committer.accesses), old(committer.accesses) + 2 * n) ==>
        var m := |committer.parents| - |old(committer.parents)|;
        && committer.head.number == old(committer.head.number) + m
        && (m < n ==> checkLimit && paused(committer.head.number))
      ensures ok ==> committer.accesses == old(committer.accesses) + 2 * n
      ensures (!checkLimit || NeverPaused())
              && committer.Quiet(old(committer.accesses), old(committer.accesses) + 2 * n)
        ==> ok && committer.head.number == old(committer.head.number) + n
    {
      ghost var quiet := committer.Quiet(committer.accesses, committer.accesses + 2 * n);
      for i := 0 to n
        invariant committer.Valid() && committer.accesses == old(committer.accesses) + 2 * i
        invariant old(committer.parents) <= committer.parents
        invariant |committer.parents| == |old(committer.parents)| + i
        invariant checkLimit ==> Unpaused(committer.parents, |old(committer.parents)|)
        invariant quiet ==> committer.head.number == old(committer.head.number) + i
      {
        var last := committer.LastHeader();
        if checkLimit && paused(last.number) { return false; }
        var block := committer.Commit(last, i);
        if block.None? { return false; }
      }
      return true;
    }

    /** The catch-up arm: fill up to the grid height, and build there unless the head is elsewhere. */
    method CatchUp(start: nat, live: nat) returns (sync: Option<Header>)
      requires Valid() && start == committer.head.number
      modifies this, committer
      ensures Valid()
      ensures old(committer.parents) <= committer.parents
      ensures sync.Some? ==> |committer.parents| == |old(committer.parents)| + live + 1 && offGridSkips == 0
      ensures offGridSkips == 0 || offGridSkips == old(offGridSkips) || offGridSkips == old(offGridSkips) + 1
      ensures sync.Some? ==>
        var moved := committer.touch(old(committer.accesses) + 1 + 2 * live);
        sync.value.number == if moved.Some? then moved.value.number + 1 else start + live + 1
      ensures committer.Quiet(old(committer.accesses), old(committer.accesses) + 1 + 2 * live)
              && committer.touch(old(committer.accesses) + 2 + 2 * live).None?
        ==> sync.Some?
    {
      var terminal := start + live + 1;
      var ok := Fill(live, false);
      if !ok { return None; }
      var checked := committer.LastHeader();
      if checked.number + 1 != terminal {
        offGridSkips := offGridSkips + 1;
        return None;
      }
      var last := committer.LastHeader();
      sync := committer.Commit(last, 0);
      if sync.Some? { offGridSkips := 0; }
    }

    /** The steady arm: the live blocks, the reserve, and the Sync block if its time is the L1 time. */
    method Steady(start: nat, target: nat, syncTs: nat, prebuilt: bool, live: nat, future: nat)
      returns (sync: Option<Header>)
      requires Valid() && start == committer.head.number
      modifies this, committer
      ensures Valid() && committer.pace > 0
      ensures old(committer.parents) <= committer.parents
      ensures Unpaused(committer.parents, |old(committer.parents)|)
      ensures sync.Some? ==> |committer.parents| == |old(committer.parents)| + live + future + 1 && offGridSkips == 0
      ensures offGridSkips == 0 || offGridSkips == old(offGridSkips) || offGridSkips == old(offGridSkips) + 1
      ensures sync.Some? ==> sync.value.timestamp == syncTs && committer.Paced(sync.value)
      ensures sync.Some? && Derived(target, syncTs) ==> sync.value.number == target
      ensures Derived(target, syncTs) && start + live + future + 1 == target && NeverPaused()
              && committer.Quiet(old(committer.accesses), old(committer.accesses) + 2 + 2 * live + 2 * future)
        ==> sync.Some?
      ensures Derived(target, syncTs) && start + live + future + 1 == target && NeverPaused()
              && committer.Quiet(old(committer.accesses), old(committer.accesses) + 1 + 2 * live + 2 * future)
        ==> offGridSkips == if sync.Some? || prebuilt then 0 else old(offGridSkips)
    {
      PaceIsPositive(timing);
      var ok := Fill(live, true);
      if !ok { return None; }
      ok := Fill(future, true);
      if !ok { return None; }
      var last := committer.LastHeader();
      if paused(last.number) { return None; }
      ghost var expected := Header(last.number + 1, last.timestamp + committer.pace, 0);
      assert committer.Paced(expected) by { Distribute(last.number, 1, committer.pace); }
      AtTarget(committer.genesis, committer.pace, expected, target, syncTs);
      if last.timestamp + timing.l2Ms / 1000 != syncTs {
        offGridSkips := offGridSkips + 1;
        return None;
      }
      sync := committer.Commit(last, 0);
      if sync.Some? || prebuilt { offGridSkips := 0; }
    }

    /** One trigger. A Sync block of the steady arm carries the L1-derived timestamp, so it stands at
        the target; undisturbed and unpaused one is committed there whenever the target is not within
        the reserve of genesis. A Sync block of the catch-up arm stands at its grid height exactly
        when nothing moved the head at the read between the check and the build, or moved it to the
        same height; a head that moves just then is built upon. */
    method AdvanceSyncSlot(target: nat, syncTs: nat, prebuilt: bool) returns (b: Burst)
      requires Valid()
      modifies this, committer
      ensures Valid()
      ensures b.comp == timing.PerTrigger(b.start, target, MAX_BLOCKS_PER_CATCHUP)
      ensures b.comp.Idle? ==> b.sync.None? && committer.parents == old(committer.parents)
      ensures old(committer.parents) <= committer.parents
      ensures b.comp.Slot? ==> Unpaused(committer.parents, |old(committer.parents)|)
      ensures b.sync.Some? ==>
        |committer.parents| - |old(committer.parents)|
        == 1 + b.comp.live + if b.comp.Slot? then b.comp.future else 0
      ensures b.sync.Some? ==> offGridSkips == 0
      ensures offGridSkips == 0 || offGridSkips == old(offGridSkips) || offGridSkips == old(offGridSkips) + 1
      ensures b.comp.Idle? ==> offGridSkips == old(offGridSkips)
      ensures b.comp.Slot? && b.sync.Some? ==> b.sync.value.timestamp == syncTs && committer.Paced(b.sync.value)
      ensures committer.pace > 0
      ensures b.comp.Slot? && b.sync.Some? && Derived(target, syncTs) ==> b.sync.value.number == target
      ensures b.comp.Slot? && Derived(target, syncTs) && target >= timing.FutureCount() + 1 && NeverPaused()
              && committer.Quiet(old(committer.accesses),
                                 old(committer.accesses) + 3 + 2 * b.comp.live + 2 * b.comp.future)
        ==> b.sync.Some?
      ensures b.comp.Slot? && Derived(target, syncTs) && target >= timing.FutureCount() + 1 && NeverPaused()
              && committer.Quiet(old(committer.accesses),
                                 old(committer.accesses) + 2 + 2 * b.comp.live + 2 * b.comp.future)
        ==> offGridSkips == if b.sync.Some? || prebuilt then 0 else old(offGridSkips)
      ensures b.comp.Catchup? && b.sync.Some? ==>
        var moved := committer.touch(old(committer.accesses) + 2 + 2 * b.comp.live);
        b.sync.value.number == b.start + b.comp.live + 1
        <==> moved.None? || moved.value.number == b.start + b.comp.live
      ensures b.comp.Catchup? && b.sync.Some? ==>
        var moved := committer.touch(old(committer.accesses) + 2 + 2 * b.comp.live);
        moved.Some? ==> b.sync.value.number == moved.value.number + 1
      ensures b.comp.Catchup?
              && committer.Quiet(old(committer.accesses), old(committer.accesses) + 2 + 2 * b.comp.live)
              && committer.touch(old(committer.accesses) + 3 + 2 * b.comp.live).None?
        ==> b.sync.Some?
    {
      PaceIsPositive(timing);
      var first := committer.LastHeader();
      var start := first.number;
      var comp := timing.PerTrigger(start, target, MAX_BLOCKS_PER_CATCHUP);
      var sync: Option<Header> := None;
      match comp {
        case Idle =>
        case Catchup(live) => sync := CatchUp(start, live);
        case Slot(live, future) =>
          if target >= timing.FutureCount() + 1 { SlotEndsAtTargetIff(timing, start, target, MAX_BLOCKS_PER_CATCHUP); }
          sync := Steady(start, target, syncTs, prebuilt, live, future);
      }
      hide *;
      b := Burst(start, comp, sync);
    }
  }

  /** Among paced blocks the one at a derived target is the one with the L1 time it was derived from. */
  lemma {:induction false} AtTarget(genesis: nat, pace: nat, h: Header, target: nat, syncTs: nat)
    requires pace > 0 && h.timestamp == genesis + h.number * pace
    ensures target == SatSub(syncTs, genesis) / pace && genesis <= syncTs && (syncTs - genesis) % pace == 0 ==>
      (h.number == target <==> h.timestamp == syncTs)
  {
    TargetTimestampIff(genesis, syncTs, pace);
    if genesis + target * pace == syncTs && h.timestamp == syncTs { TimestampFixesHeight(genesis, pace, h, target); }
  }

  lemma {:induction false} PaceIsPositive(t: RollupTiming)
    requires t.Validate()
    ensures t.l2Ms / 1000 > 0
  {
  }
}
