/** Slot and chunk arithmetic: how many blocks a trigger produces, and where bounded settlement
    chunks end. */
module Timing {
  import opened Types

  const U32_MAX: nat := 0xFFFF_FFFF

  type u32 = n: nat | n <= U32_MAX

  function Sat32(n: nat): u32 { if n <= U32_MAX then n else U32_MAX }

  function CeilDiv(a: nat, b: nat): nat
    requires b > 0
  {
    (a + b - 1) / b
  }

  /** Division rounded up is the least count of whole `b`s that covers `a`. */
  lemma {:induction false} CeilDivCovers(a: nat, b: nat)
    requires b > 0
    ensures CeilDiv(a, b) * b >= a && CeilDiv(a, b) * b < a + b
    ensures CeilDiv(a, b) == 0 <==> a == 0
  {
    var q, r := (a + b - 1) / b, (a + b - 1) % b;
    assert a + b - 1 == q * b + r;
  }

  lemma {:induction false} CeilDivLeast(a: nat, b: nat, c: nat)
    requires b > 0 && a <= c * b
    ensures CeilDiv(a, b) <= c
  {
    CeilDivCovers(a, b);
    if CeilDiv(a, b) > c {
      Distribute(c, 1, b);
      MulMono(c + 1, CeilDiv(a, b), b);
    }
  }

  lemma {:induction false} MulMono(a: nat, b: nat, m: nat)
    requires a <= b
    ensures a * m <= b * m
  {
  }

  lemma {:induction false} Distribute(a: int, b: int, c: int)
    ensures (a + b) * c == a * c + b * c
  {
  }

  lemma {:induction false} DivMod(a: nat, b: nat)
    requires b > 0
    ensures a == (a / b) * b + a % b
  {
  }

  datatype SlotComposition = Idle | Catchup(live: nat) | Slot(live: nat, future: nat)

  datatype RollupTiming = RollupTiming(l1Ms: u32, l2Ms: u32, proofMs: u32, slackMs: u32)
  {
    function K(): nat
      requires l2Ms > 0
    {
      l1Ms / l2Ms
    }

    predicate Validate() {
      && l1Ms > 0 && l2Ms > 0 && proofMs > 0
      && l2Ms % 1000 == 0
      && l1Ms % l2Ms == 0
      && K() >= 2
      && Sat32(proofMs + slackMs) < l1Ms
      && Sat32(proofMs + slackMs) <= (K() - 1) * l2Ms
    }

    function FutureCount(): nat
      requires l2Ms > 0
    {
      SatSub(SatSub(Sat32(Sat32(proofMs + slackMs) + l2Ms), 1) / l2Ms, 1)
    }

    function LiveCount(): int
      requires l2Ms > 0
    {
      K() - FutureCount() - 1
    }

    function ProofWindowOpenMs(): nat
      requires l2Ms > 0
    {
      SatSub(l1Ms, Sat32((FutureCount() + 1) * l2Ms))
    }

    function PerTrigger(head: nat, target: nat, maxCatchup: nat): SlotComposition
      requires Validate()
    {
      if head >= target then Idle
      else
        var liveEnd := SatSub(target, FutureCount() + 1);
        if head < liveEnd then
          if liveEnd - head <= SatSub(K(), FutureCount() + 1) then Slot(liveEnd - head, FutureCount())
          else
            var snap := SatMul(CeilDiv(SatSub(target - head, maxCatchup), K()), K());
            if snap >= target || target - snap <= head then Idle else Catchup(target - snap - head - 1)
        else Slot(0, SatSub(FutureCount(), head - liveEnd))
    }

    function HistoricalChunkBoundary(cursor: nat, sync: nat, cap: nat): Option<nat>
      requires Validate()
    {
      var over := SatSub(sync, SatAdd(cursor, cap));
      var back := SatMul(CeilDiv(over, K()), K());
      if back <= sync && cursor < sync - back < sync then Some(sync - back) else None
    }
  }

  // ---- A validated timing --------------------------------------------------------------------

  lemma {:induction false} NoSaturation(t: RollupTiming)
    requires t.Validate()
    ensures t.l1Ms == t.K() * t.l2Ms && t.proofMs + t.slackMs <= (t.K() - 1) * t.l2Ms
    ensures (t.K() - 1) * t.l2Ms + t.l2Ms == t.l1Ms
  {
    DivMod(t.l1Ms, t.l2Ms);
    Distribute(t.K() - 1, 1, t.l2Ms);
  }

  ghost predicate Times(n: nat, k: nat, unit: nat) { n == k * unit }

  /** A timing is accepted exactly when blocks take whole seconds, at least two make up an L1 block, and
      proving and submitting fit into all but one of them. */
  lemma {:induction false} ValidIff(t: RollupTiming)
    ensures t.Validate() <==>
      && t.proofMs > 0 && t.l2Ms > 0 && t.proofMs + t.slackMs + t.l2Ms <= t.l1Ms
      && (exists s: nat :: Times(t.l2Ms, s, 1000)) && (exists k: nat :: k >= 2 && Times(t.l1Ms, k, t.l2Ms))
  {
    if t.Validate() {
      NoSaturation(t);
      assert Times(t.l2Ms, t.l2Ms / 1000, 1000) && Times(t.l1Ms, t.K(), t.l2Ms);
    }
    if t.l2Ms > 0 && t.proofMs + t.slackMs + t.l2Ms <= t.l1Ms && exists k: nat :: k >= 2 && Times(t.l1Ms, k, t.l2Ms) {
      var k: nat :| k >= 2 && Times(t.l1Ms, k, t.l2Ms);
      ModOfMultiple(k, t.l2Ms);
      Distribute(k - 1, 1, t.l2Ms);
    }
  }

  /** The reserve before the next slot covers proving and submission, in whole blocks. */
  lemma {:induction false} ReserveCovers(t: RollupTiming)
    requires t.Validate()
    ensures t.FutureCount() + 1 == CeilDiv(t.proofMs + t.slackMs, t.l2Ms)
    ensures t.FutureCount() + 1 <= t.K() - 1
    ensures t.proofMs + t.slackMs <= (t.FutureCount() + 1) * t.l2Ms <= t.l1Ms
  {
    var budget, c := t.proofMs + t.slackMs, CeilDiv(t.proofMs + t.slackMs, t.l2Ms);
    NoSaturation(t);
    CeilDivCovers(budget, t.l2Ms);
    CeilDivLeast(budget, t.l2Ms, t.K() - 1);
    MulMono(c, t.K() - 1, t.l2Ms);
  }

  /** Live, Future and Sync blocks fill the slot, at least one is Live, and from the trigger on
      there is time to prove and to submit. */
  lemma {:induction false} SlotFillsTheL1Block(t: RollupTiming)
    requires t.Validate()
    ensures t.LiveCount() + t.FutureCount() + 1 == t.K() && t.LiveCount() >= 1
    ensures t.ProofWindowOpenMs() + t.proofMs + t.slackMs <= t.l1Ms
    ensures t.ProofWindowOpenMs() == t.LiveCount() * t.l2Ms
    ensures t.ProofWindowOpenMs() % 1000 == 0
  {
    NoSaturation(t);
    ReserveCovers(t);
    var f := t.FutureCount();
    assert t.LiveCount() * t.l2Ms == t.K() * t.l2Ms - (f + 1) * t.l2Ms by {
      assert t.K() == t.LiveCount() + (f + 1);
      Distribute(t.LiveCount(), f + 1, t.l2Ms);
    }
    MultipleOf(t.LiveCount(), t.l2Ms, 1000);
  }

  lemma {:induction false} MultipleOf(n: nat, b: nat, m: nat)
    requires m > 0 && b % m == 0
    ensures (n * b) % m == 0
  {
    if n > 0 {
      MultipleOf(n - 1, b, m);
      assert n * b == (n - 1) * b + b by { Distribute(n - 1, 1, b); }
      SumOfMultiples((n - 1) * b, b, m);
    } else {
      assert n * b == 0;
    }
  }

  lemma {:induction false} SumOfMultiples(a: nat, b: nat, m: nat)
    requires m > 0 && a % m == 0 && b % m == 0
    ensures (a + b) % m == 0
  {
    DivMod(a, m);
    DivMod(b, m);
    Distribute(a / m, b / m, m);
    assert a + b == (a / m + b / m) * m;
    ModOfMultiple(a / m + b / m, m);
  }

  lemma {:induction false} ModOfMultiple(n: nat, m: nat)
    requires m > 0
    ensures (n * m) % m == 0 && (n * m) / m == n
  {
    var a := n * m;
    DivMod(a, m);
    if a / m < n {
      Distribute(a / m, 1, m);
      MulMono(a / m + 1, n, m);
    }
    if a / m > n {
      Distribute(n, 1, m);
      MulMono(n + 1, a / m, m);
    }
  }

  // ---- What a trigger produces ------------------------------------------------------------------

  /** A height that shares the target's place in the slot grid. */
  predicate OnGrid(h: nat, target: nat, k: nat)
    requires k > 0
  {
    h <= target && (target - h) % k == 0
  }

  /** A slot composition ends exactly at the target, unless the target lies within the reserve of
      genesis, where the subtraction saturates and it never does. */
  lemma {:induction false} SlotEndsAtTargetIff(t: RollupTiming, head: nat, target: nat, max: nat)
    requires t.Validate() && head < target && t.PerTrigger(head, target, max).Slot?
    ensures
      var c := t.PerTrigger(head, target, max);
      head + c.live + c.future + 1 == target <==> target >= t.FutureCount() + 1
  {
    ReserveCovers(t);
  }

  /** At one timing, six blocks a slot and one Future block in reserve: the first block after genesis
      as target gets a composition that ends at the second. */
  lemma {:induction false} NearGenesisOvershoots()
    ensures
      var t := RollupTiming(12_000, 2_000, 3_000, 1_000);
      && t.Validate() && t.FutureCount() == 1 && t.PerTrigger(0, 1, 300).Slot?
      && var c := t.PerTrigger(0, 1, 300);
         0 + c.live + c.future + 1 == 2
  {
  }

  /** A slot is closed in one trigger exactly when it needs at least one and at most K blocks; at or past
      its target the trigger idles. */
  lemma {:induction false} SlotIffWithinK(t: RollupTiming, head: nat, target: nat, max: nat)
    requires t.Validate()
    ensures t.PerTrigger(head, target, max).Slot? <==> head < target <= head + t.K()
    ensures target <= head ==> t.PerTrigger(head, target, max).Idle?
  {
    ReserveCovers(t);
  }

  lemma {:induction false} StepsBack(gap: nat, max: nat, k: nat)
    requires k > 0
    ensures
      var n := CeilDiv(SatSub(gap, max), k);
      && (gap <= max ==> n * k == 0)
      && (gap > max ==> gap - max <= n * k < gap - max + k)
  {
    CeilDivCovers(SatSub(gap, max), k);
  }

  /** A grid height within budget lies at least as many whole slots back as the code steps. */
  lemma {:induction false} GridBelowSnap(target: nat, head: nat, max: nat, k: nat, g: nat)
    requires k > 0 && head < target && head < g <= head + max && OnGrid(g, target, k)
    ensures CeilDiv(SatSub(target - head, max), k) * k <= target - g
  {
    var n := (target - g) / k;
    DivMod(target - g, k);
    CeilDivLeast(SatSub(target - head, max), k, n);
    MulMono(CeilDiv(SatSub(target - head, max), k), n, k);
  }

  lemma {:induction false} WholeSlotsAreOnGrid(target: nat, n: nat, k: nat)
    requires k > 0 && n * k <= target
    ensures OnGrid(target - n * k, target, k)
  {
    ModOfMultiple(n, k);
  }

  /** Farther behind, a catch-up ends at the largest grid height above the head within the budget,
      and the trigger idles exactly when there is none. */
  lemma {:induction false} CatchupIsLargestGridHeight(t: RollupTiming, head: nat, target: nat, max: nat)
    requires t.Validate() && target - head > t.K() && target <= U64_MAX
    ensures
      var c := t.PerTrigger(head, target, max);
      && !c.Slot?
      && (c.Catchup? ==>
            var end := head + c.live + 1;
            && head < end <= head + max && OnGrid(end, target, t.K())
            && forall g :: head < g <= head + max && OnGrid(g, target, t.K()) ==> g <= end)
      && (c.Idle? ==> forall g :: head < g <= head + max ==> !OnGrid(g, target, t.K()))
  {
    ReserveCovers(t);
    var k := t.K();
    var n := CeilDiv(SatSub(target - head, max), k);
    StepsBack(target - head, max, k);
    forall g | head < g <= head + max && OnGrid(g, target, k)
      ensures n * k <= target - g
    {
      GridBelowSnap(target, head, max, k, g);
    }
    if n * k <= target { WholeSlotsAreOnGrid(target, n, k); }
  }

  // ---- Bounded chunks -----------------------------------------------------------------------------

  function GridAlignedCap(requested: nat, k: nat): nat {
    if k == 0 then requested
    else if requested - requested % k == 0 then k
    else requested - requested % k
  }

  /** The cap is a positive multiple of K, and no larger multiple fits the request. */
  lemma {:induction false} CapIsAligned(requested: nat, k: nat)
    requires k > 0
    ensures
      var cap := GridAlignedCap(requested, k);
      && cap >= k && cap % k == 0
      && (requested >= k ==> cap <= requested < cap + k)
  {
    DivMod(requested, k);
    ModOfMultiple(requested / k, k);
    if requested < k {
      assert requested / k == 0;
    } else {
      MulMono(1, requested / k, k);
    }
    ModOfMultiple(1, k);
  }

  /** Over the cap the boundary always exists, and it is the largest grid height within the cap. */
  lemma {:induction false} BoundaryIsLargest(t: RollupTiming, cursor: nat, sync: nat, cap: nat)
    requires t.Validate() && sync - cursor > cap && cap >= t.K() && sync <= U64_MAX
    ensures
      var b := t.HistoricalChunkBoundary(cursor, sync, cap);
      && b.Some? && cursor < b.value <= cursor + cap && b.value < sync && OnGrid(b.value, sync, t.K())
      && forall g :: cursor < g <= cursor + cap && OnGrid(g, sync, t.K()) ==> g <= b.value
  {
    var k := t.K();
    var n := CeilDiv(SatSub(sync - cursor, cap), k);
    StepsBack(sync - cursor, cap, k);
    WholeSlotsAreOnGrid(sync, n, k);
    forall g | cursor < g <= cursor + cap && OnGrid(g, sync, k)
      ensures n * k <= sync - g
    {
      GridBelowSnap(sync, cursor, cap, k, g);
    }
  }

  lemma {:induction false} DivMono(a: nat, b: nat, k: nat)
    requires k > 0 && a <= b
    ensures a / k <= b / k
  {
    DivMod(a, k);
    DivMod(b, k);
    if b / k < a / k {
      Distribute(b / k, 1, k);
    }
  }

  /** From a cursor already on the grid a chunk settles exactly the cap. */
  lemma {:induction false} AlignedChunkIsFull(t: RollupTiming, cursor: nat, sync: nat, cap: nat)
    requires t.Validate() && sync - cursor > cap && cap >= t.K() && sync <= U64_MAX
    requires cap % t.K() == 0 && OnGrid(cursor, sync, t.K())
    ensures t.HistoricalChunkBoundary(cursor, sync, cap) == Some(cursor + cap)
  {
    BoundaryIsLargest(t, cursor, sync, cap);
    var k := t.K();
    DivMod(sync - cursor, k);
    DivMod(cap, k);
    DivMono(cap, sync - cursor, k);
    var n := (sync - cursor) / k - cap / k;
    Distribute(n, cap / k, k);
    assert sync - (cursor + cap) == n * k;
    ModOfMultiple(n, k);
    assert OnGrid(cursor + cap, sync, k);
  }

  /** Whatever a slot emits from one cursor read — a chunk over the cap, a stepped-back prefix, or the
      whole range — spans at most the cap, so the guard behind it never fires. */
  lemma {:induction false} SpanStaysWithinCap(t: RollupTiming, cursor: nat, sync: nat, cap: nat, end: nat)
    requires t.Validate() && cap >= t.K() && sync <= U64_MAX && cursor < end <= sync
    requires
      var b := t.HistoricalChunkBoundary(cursor, sync, cap);
      || (sync - cursor <= cap && end == sync)
      || end <= (if b.Some? then b.value else SatSub(sync, t.K()))
    ensures end - cursor <= cap
  {
    if sync - cursor > cap {
      BoundaryIsLargest(t, cursor, sync, cap);
    }
  }

  /** A chunk may end here: in range, on the grid, and carrying no transaction. */
  predicate Candidate(empty: nat -> bool, cursor: nat, snapped: nat, k: nat, h: nat)
    requires k > 0
  {
    cursor < h <= snapped && OnGrid(h, snapped, k) && empty(h)
  }

  /** Walk the parents of the block at `snapped` down to the cursor. */
  method EmptyFlags(empty: nat -> bool, cursor: nat, snapped: nat) returns (flags: seq<bool>)
    ensures |flags| == SatSub(snapped, cursor) && forall i :: 0 <= i < |flags| ==> flags[i] == empty(snapped - i)
  {
    flags := [];
    var number := snapped;
    while number > cursor
      invariant number <= snapped && |flags| == snapped - number && (number >= cursor || number == snapped)
      invariant forall i :: 0 <= i < |flags| ==> flags[i] == empty(snapped - i)
    {
      flags := flags + [empty(number)];
      number := number - 1;
    }
  }

  /** The candidates in `(cursor, snapped]`, highest first; `None` when there is none. */
  method EmptyChunkBoundaries(empty: nat -> bool, cursor: nat, snapped: nat, k: nat) returns (r: Option<seq<nat>>)
    requires k > 0
    ensures r.None? <==> forall h :: !Candidate(empty, cursor, snapped, k, h)
    ensures r.Some? ==> forall h: nat :: h in r.value <==> Candidate(empty, cursor, snapped, k, h)
    ensures r.Some? ==> forall i, j :: 0 <= i < j < |r.value| ==> r.value[i] > r.value[j]
  {
    var flags := EmptyFlags(empty, cursor, snapped);
    var out: seq<nat> := [];
    var i, n := 0, 0;
    while i < |flags|
      invariant i == n * k
      invariant forall h: nat :: h in out ==> Candidate(empty, cursor, snapped, k, h) && snapped - h < i
      invariant forall h: nat :: Candidate(empty, cursor, snapped, k, h) && snapped - h < i ==> h in out
      invariant forall a, b :: 0 <= a < b < |out| ==> out[a] > out[b]
      decreases |flags| - i
    {
      var at := snapped - i;
      OnlyNextOnGrid(empty, cursor, snapped, n, k);
      ghost var before := out;
      forall a | 0 <= a < |before|
        ensures before[a] > at
      {
        assert before[a] in before;
      }
      if flags[i] { out := out + [at]; }
      assert forall h :: h in out <==> h in before || (h == at && empty(at));
      Distribute(n, 1, k);
      i, n := i + k, n + 1;
    }
    if out == [] { return None; }
    assert out[0] in out;
    return Some(out);
  }

  /** In the next K heights only the first is a candidate at all. */
  lemma {:induction false} OnlyNextOnGrid(empty: nat -> bool, cursor: nat, snapped: nat, n: nat, k: nat)
    requires k > 0 && cursor < snapped - n * k
    ensures Candidate(empty, cursor, snapped, k, snapped - n * k) <==> empty(snapped - n * k)
    ensures forall h: nat :: Candidate(empty, cursor, snapped, k, h) && n * k <= snapped - h < n * k + k ==>
      h == snapped - n * k
  {
    ModOfMultiple(n, k);
    forall h: nat | Candidate(empty, cursor, snapped, k, h) && n * k <= snapped - h < n * k + k
      ensures h == snapped - n * k
    {
      var d := snapped - h;
      DivMod(d, k);
      if d / k < n {
        Distribute(d / k, 1, k);
        MulMono(d / k + 1, n, k);
      }
      if d / k > n {
        Distribute(n, 1, k);
        MulMono(n + 1, d / k, k);
      }
    }
  }

  // ---- Draining a backlog ---------------------------------------------------------------------------

  /** Where the search for a chunk's end starts: the boundary, or one K below a range within the cap. */
  function Snapped(t: RollupTiming, cursor: nat, sync: nat, cap: nat): nat
    requires t.Validate()
  {
    var b := t.HistoricalChunkBoundary(cursor, sync, cap);
    if b.Some? then b.value else SatSub(sync, t.K())
  }

  /** The search starts at the largest grid height below the target that the cap allows. */
  lemma {:induction false} SnappedIsLargest(t: RollupTiming, cursor: nat, sync: nat, cap: nat)
    requires t.Validate() && cap >= t.K() && t.K() <= sync <= U64_MAX && cursor <= sync
    ensures
      var h := Snapped(t, cursor, sync, cap);
      && h < sync && h <= cursor + cap && OnGrid(h, sync, t.K())
      && forall g: nat :: g < sync && g <= cursor + cap && OnGrid(g, sync, t.K()) ==> g <= h
  {
    if sync - cursor > cap {
      BoundaryIsLargest(t, cursor, sync, cap);
    } else {
      WithinCap(t, cursor, sync, cap);
      OneSlotBelow(sync, t.K());
    }
  }

  lemma {:induction false} OneSlotBelow(sync: nat, k: nat)
    requires 0 < k <= sync
    ensures OnGrid(sync - k, sync, k) && forall g: nat :: g < sync && OnGrid(g, sync, k) ==> g <= sync - k
  {
    ModOfMultiple(1, k);
    forall g: nat | g < sync && OnGrid(g, sync, k) ensures g <= sync - k { AtLeastOneSlot(sync - g, k); }
  }

  lemma {:induction false} AtLeastOneSlot(n: nat, k: nat)
    requires k > 0 && n > 0 && n % k == 0
    ensures n >= k
  {
  }

  /** A range within the cap has no chunk boundary. */
  lemma {:induction false} WithinCap(t: RollupTiming, cursor: nat, sync: nat, cap: nat)
    requires t.Validate() && cursor <= sync <= U64_MAX && sync - cursor <= cap
    ensures t.HistoricalChunkBoundary(cursor, sync, cap).None?
  {
    CeilDivCovers(0, t.K());
  }

  /** An end the chunk may take: an empty grid height above the cursor whose batch fits the budget. */
  ghost predicate Takes(
    t: RollupTiming, empty: nat -> bool, fits: (nat, nat) -> bool, cursor: nat, sync: nat, cap: nat, h: nat)
    requires t.Validate()
  {
    Candidate(empty, cursor, Snapped(t, cursor, sync, cap), t.K(), h) && fits(cursor, h)
  }

  /** Settle the highest empty and affordable grid height above the cursor; refuse when there is none. */
  method EmitChunk(t: RollupTiming, empty: nat -> bool, fits: (nat, nat) -> bool, cursor: nat, sync: nat, cap: nat)
    returns (end: Option<nat>)
    requires t.Validate()
    ensures end.None? <==> forall h: nat :: !Takes(t, empty, fits, cursor, sync, cap, h)
    ensures end.Some? ==> Takes(t, empty, fits, cursor, sync, cap, end.value)
    ensures end.Some? ==> forall h: nat :: Takes(t, empty, fits, cursor, sync, cap, h) ==> h <= end.value
  {
    hide Snapped, OnGrid;
    var snapped := Snapped(t, cursor, sync, cap);
    if snapped <= cursor { return None; }
    var found := EmptyChunkBoundaries(empty, cursor, snapped, t.K());
    if found.None? { return None; }
    end := FirstFit(found.value, fits, cursor);
    assert forall h: nat :: Takes(t, empty, fits, cursor, sync, cap, h) <==> h in found.value && fits(cursor, h);
  }

  /** The first height of a falling list whose batch fits is the highest that does. */
  method FirstFit(candidates: seq<nat>, fits: (nat, nat) -> bool, cursor: nat) returns (end: Option<nat>)
    requires forall i, j :: 0 <= i < j < |candidates| ==> candidates[i] > candidates[j]
    ensures end.None? <==> forall h :: h in candidates ==> !fits(cursor, h)
    ensures end.Some? ==> end.value in candidates && fits(cursor, end.value)
    ensures end.Some? ==> forall h :: h in candidates && fits(cursor, h) ==> h <= end.value
  {
    for i := 0 to |candidates|
      invariant forall j :: 0 <= j < i ==> !fits(cursor, candidates[j])
    {
      if fits(cursor, candidates[i]) { return Some(candidates[i]); }
    }
    return None;
  }

  lemma {:induction false} GridOfGrid(h: nat, snapped: nat, sync: nat, k: nat)
    requires k > 0 && OnGrid(h, snapped, k) && OnGrid(snapped, sync, k)
    ensures OnGrid(h, sync, k)
  {
    SumOfMultiples(snapped - h, sync - snapped, k);
  }

  /** A chunk over the cap ends on the grid, past the cursor and within the cap. */
  lemma {:induction false} ChunkFacts(
    t: RollupTiming, empty: nat -> bool, fits: (nat, nat) -> bool, cursor: nat, sync: nat, cap: nat, end: nat)
    requires t.Validate() && sync - cursor > cap && cap >= t.K() && sync <= U64_MAX
    requires Takes(t, empty, fits, cursor, sync, cap, end)
    ensures cursor < end <= cursor + cap && end < sync && OnGrid(end, sync, t.K())
  {
    BoundaryIsLargest(t, cursor, sync, cap);
    GridOfGrid(end, Snapped(t, cursor, sync, cap), sync, t.K());
  }

  /** Two grid heights are a whole slot apart. */
  lemma {:induction false} GridApart(a: nat, b: nat, sync: nat, k: nat)
    requires k > 0 && a < b && OnGrid(a, sync, k) && OnGrid(b, sync, k)
    ensures b - a >= k
  {
    DivMod(sync - a, k);
    DivMod(sync - b, k);
    if (sync - a) / k <= (sync - b) / k { MulMono((sync - a) / k, (sync - b) / k, k); }
    Distribute((sync - a) / k - (sync - b) / k, (sync - b) / k, k);
    MulMono(1, (sync - a) / k - (sync - b) / k, k);
  }

  /** The sync heights of successive slots stay on one grid. */
  ghost predicate OneGrid(sync: nat -> nat, slots: nat, k: nat)
    requires k > 0
  {
    forall n: nat :: n < slots ==> OnGrid(sync(n), sync(n + 1), k)
  }

  /** Every slot brings K new blocks. */
  ghost predicate OnPace(sync: nat -> nat, slots: nat, k: nat) {
    forall n: nat :: n < slots ==> sync(n + 1) == sync(n) + k
  }

  /** Nothing keeps a chunk from ending at any height. */
  ghost predicate Free(empty: nat -> bool, fits: (nat, nat) -> bool) {
    (forall h: nat :: empty(h)) && forall c: nat, h: nat :: fits(c, h)
  }

  /** Confirming one chunk a slot, each ending wherever an empty affordable height was found, while the
      sync height moves on: until the backlog is within the cap, no such height is left, or `slots`
      slots have passed. After the first chunk each settles at least K blocks. If every height can be
      taken, each settles the cap, and with K new blocks a slot the backlog comes within the cap as
      soon as the slots times the surplus cover it. */
  method DrainBacklog(
    t: RollupTiming, empty: nat -> bool, fits: (nat, nat) -> bool, start: nat, sync: nat -> nat, slots: nat, cap: nat)
    returns (cursor: nat, chunks: nat)
    requires t.Validate() && start <= sync(0) && cap >= t.K() && cap % t.K() == 0
    requires OneGrid(sync, slots, t.K()) && forall n: nat :: n <= slots ==> sync(n) <= U64_MAX
    ensures chunks <= slots && start <= cursor <= sync(chunks)
    ensures
      || sync(chunks) - cursor <= cap
      || chunks == slots
      || forall h: nat :: !Takes(t, empty, fits, cursor, sync(chunks), cap, h)
    ensures chunks > 0 ==> OnGrid(cursor, sync(chunks), t.K()) && (chunks - 1) * t.K() < cursor - start
    ensures Free(empty, fits) && chunks > 0 ==> (chunks - 1) * cap < cursor - start
    ensures Free(empty, fits) && OnPace(sync, slots, t.K()) && slots * (cap - t.K()) >= sync(0) - start ==>
      sync(chunks) - cursor <= cap
  {
    cursor, chunks := start, 0;
    while chunks < slots && sync(chunks) - cursor > cap
      invariant chunks <= slots && start <= cursor <= sync(chunks)
      invariant chunks == 0 ==> cursor == start
      invariant chunks > 0 ==> OnGrid(cursor, sync(chunks), t.K()) && (chunks - 1) * t.K() < cursor - start
      invariant chunks > 0 && Free(empty, fits) ==> (chunks - 1) * cap < cursor - start
      decreases slots - chunks
    {
      var now := sync(chunks);
      if Free(empty, fits) { BoundaryTaken(t, empty, fits, cursor, now, cap); }
      var end := EmitChunk(t, empty, fits, cursor, now, cap);
      if end.None? { return; }
      ChunkFacts(t, empty, fits, cursor, now, cap, end.value);
      if chunks > 0 {
        GridApart(cursor, end.value, now, t.K());
        AlignedChunkIsFull(t, cursor, now, cap);
        Distribute(chunks - 1, 1, t.K());
        Distribute(chunks - 1, 1, cap);
      }
      assert OnGrid(now, sync(chunks + 1), t.K());
      GridOfGrid(end.value, now, sync(chunks + 1), t.K());
      cursor, chunks := end.value, chunks + 1;
    }
    if chunks == slots { SurplusCovers(t.K(), sync, start, slots, cap, cursor, Free(empty, fits)); }
  }

  lemma {:induction false} SyncAfter(sync: nat -> nat, k: nat, n: nat)
    requires OnPace(sync, n, k)
    ensures sync(n) == sync(0) + n * k
  {
    if n > 0 {
      SyncAfter(sync, k, n - 1);
      Distribute(n - 1, 1, k);
      assert sync(n - 1 + 1) == sync(n - 1) + k;
    }
  }

  /** After enough full chunks the blocks that came meanwhile leave at most the cap. */
  lemma {:induction false} SurplusCovers(
    k: nat, sync: nat -> nat, start: nat, slots: nat, cap: nat, cursor: nat, full: bool)
    requires cap >= k && start <= sync(0) && (slots == 0 ==> cursor == start)
    requires full && slots > 0 ==> (slots - 1) * cap < cursor - start
    ensures full && OnPace(sync, slots, k) && slots * (cap - k) >= sync(0) - start ==> sync(slots) - cursor <= cap
  {
    if full && OnPace(sync, slots, k) && slots * (cap - k) >= sync(0) - start {
      SyncAfter(sync, k, slots);
      if slots > 0 {
        Distribute(slots - 1, 1, cap);
        assert slots * (cap - k) == slots * cap - slots * k;
      }
    }
  }

  /** Where every height can be taken, the boundary is. */
  lemma {:induction false} BoundaryTaken(
    t: RollupTiming, empty: nat -> bool, fits: (nat, nat) -> bool, cursor: nat, sync: nat, cap: nat)
    requires t.Validate() && sync - cursor > cap && cap >= t.K() && sync <= U64_MAX
    requires (forall h: nat :: empty(h)) && forall c: nat, h: nat :: fits(c, h)
    ensures
      var b := t.HistoricalChunkBoundary(cursor, sync, cap);
      b.Some? && Takes(t, empty, fits, cursor, sync, cap, b.value)
    ensures forall h: nat :: Takes(t, empty, fits, cursor, sync, cap, h) ==>
      h <= t.HistoricalChunkBoundary(cursor, sync, cap).value
  {
    BoundaryIsLargest(t, cursor, sync, cap);
    ModOfMultiple(0, t.K());
  }

  // ---- Timestamps ----------------------------------------------------------------------------------

  /** Parent-paced, the block at the height derived from an L1 time carries that time exactly when
      the time is not before genesis and lies a whole number of blocks after it. */
  lemma {:induction false} TargetTimestampIff(genesis: nat, syncTs: nat, pace: nat)
    requires pace > 0
    ensures
      var height := SatSub(syncTs, genesis) / pace;
      genesis + height * pace == syncTs <==> genesis <= syncTs && (syncTs - genesis) % pace == 0
  {
    DivMod(SatSub(syncTs, genesis), pace);
  }
}
