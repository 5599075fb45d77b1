/** DMA slices, lane partition and mixed-workload task numbering. */
module Slices {
  import opened Radix
  import opened QueueTask
  import opened Sums

  const SLICE_ALIGN: nat := 64

  function AlignUp(value: nat, alignment: nat): nat
    requires alignment > 0
  {
    (value + alignment - 1) / alignment * alignment
  }

  lemma Quotient(x: nat, n: nat)
    requires n > 0
    ensures x == x / n * n + x % n && x % n < n
  {
  }

  lemma RoundUp(value: nat, n: nat, q: nat, r: nat, o: nat)
    requires value + n - 1 == q * n + r && r < n && o * n >= value
    ensures value <= q * n <= o * n
  {
    MulStep(o, q, n);
    MulStep(q, o, n);
  }

  /** The least multiple of the alignment that is not below the value. */
  lemma AlignUpIsLeast(value: nat, alignment: nat, other: nat)
    requires alignment > 0 && other % alignment == 0 && other >= value
    ensures value <= AlignUp(value, alignment) <= other
    ensures AlignUp(value, alignment) % alignment == 0
  {
    hide Pack;
    Quotient(value + alignment - 1, alignment);
    Quotient(other, alignment);
    RoundUp(value, alignment, (value + alignment - 1) / alignment, (value + alignment - 1) % alignment, other / alignment);
    DivModUnique(AlignUp(value, alignment), (value + alignment - 1) / alignment, 0, alignment);
  }

  /** A DMA buffer: base address and size. The test the workload makes on it. */
  predicate RangeFitsU32(base: nat, size: nat) { size > 0 && base < U32 && size - 1 <= U32 - 1 - base }

  /** The overflow-free test says that the range ends at or below 2^32. */
  lemma RangeFitsIff(base: nat, size: nat)
    ensures RangeFitsU32(base, size) <==> size > 0 && base + size <= 0x1_0000_0000
  {
  }

  /** When a buffer of `count` slices passes the range test, every slice lies in it at an
      aligned offset, and cutting its first and last address to 32 bits changes nothing. */
  lemma SliceInside(base: nat, payload: nat, count: nat, i: nat)
    requires payload > 0 && RangeFitsU32(base, AlignUp(payload, SLICE_ALIGN) * count) && i < count
    ensures var stride := AlignUp(payload, SLICE_ALIGN);
      && stride * i + payload <= stride * count
      && stride * i % SLICE_ALIGN == 0
      && (base + stride * i) % U32 == base + stride * i
      && (base + stride * i + payload - 1) % U32 == base + stride * i + payload - 1
  {
    var q: nat := (payload + SLICE_ALIGN - 1) / SLICE_ALIGN;
    var stride := AlignUp(payload, SLICE_ALIGN);
    AlignUpIsLeast(payload, SLICE_ALIGN, payload * SLICE_ALIGN);
    MulStep(i, count, stride);
    assert stride * i == (q * i) * SLICE_ALIGN;
    Unpack(q * i, 0, SLICE_ALIGN);
  }

  /** No two slices overlap. */
  lemma SlicesAreDisjoint(payload: nat, i: nat, j: nat)
    requires payload > 0 && i < j
    ensures AlignUp(payload, SLICE_ALIGN) * i + payload <= AlignUp(payload, SLICE_ALIGN) * j
  {
    AlignUpIsLeast(payload, SLICE_ALIGN, payload * SLICE_ALIGN);
    MulStep(i, j, AlignUp(payload, SLICE_ALIGN));
  }

  // ----------------------------------------------------------------------- lanes

  /** Closed form: the first `n mod u` of `u` lanes get one task more. */
  function LaneStart(n: nat, u: nat, i: nat): nat
    requires u > 0
  {
    i * (n / u) + Min(i, n % u)
  }

  function LaneOf(n: nat, u: nat, i: nat): Lane
    requires u > 0
  {
    Lane(LaneStart(n, u, i), n / u + if i < n % u then 1 else 0)
  }

  lemma LaneSize(n: nat, u: nat, i: nat)
    requires u > 0
    ensures LaneOf(n, u, i).start == LaneStart(n, u, i)
    ensures LaneOf(n, u, i).number == LaneStart(n, u, i + 1) - LaneStart(n, u, i)
    ensures u <= n ==> LaneOf(n, u, i).number > 0
  {
    assert (i + 1) * (n / u) == i * (n / u) + n / u;
  }

  lemma CeilOfRest(n: nat, u: nat, i: nat)
    requires i < u
    ensures LaneStart(n, u, i) <= n
    ensures (n - LaneStart(n, u, i) + (u - i) - 1) / (u - i) == LaneOf(n, u, i).number
  {
    var q: nat, r: nat, l: nat := n / u, n % u, u - i;
    RestOf(n, u, i);
    if i < r {
      CeilOf(q, r - i, l);
    } else {
      CeilOf(q, 0, l);
    }
  }

  /** What is left before lane `i`: the quotient per remaining lane and what is left of the
      remainder. */
  lemma RestOf(n: nat, u: nat, i: nat)
    requires i < u
    ensures n - LaneStart(n, u, i) == n / u * (u - i) + if i < n % u then n % u - i else 0
    ensures LaneStart(n, u, i) <= n
  {
    Repack(n, u);
    Spread(n / u, u, i);
  }

  lemma Spread(q: nat, u: nat, i: nat)
    requires i <= u
    ensures q * u == i * q + q * (u - i) && q * (u - i) >= 0
  {
  }

  lemma CeilOf(q: nat, x: nat, l: nat)
    requires x < l
    ensures (q * l + x + l - 1) / l == q + if x > 0 then 1 else 0
  {
    if x > 0 {
      DivModUnique(q * l + x + l - 1, q + 1, x - 1, l);
    } else {
      DivModUnique(q * l + l - 1, q, l - 1, l);
    }
  }

  lemma LastStart(n: nat, u: nat)
    requires u > 0
    ensures LaneStart(n, u, u) == n && LaneStart(n, u, 0) == 0
  {
    Repack(n, u);
  }

  /** How many leading lanes stay empty because the 32-bit rounding sum wraps to a value
      below the divisor. */
  function Skipped(n: nat, u: nat): nat { if n + u > U32 then n + u - U32 else 0 }

  /** What the loop writes: nothing into the skipped lanes, then the closed form over the
      lanes that are left. */
  function Written(n: nat, u: nat, i: nat): Lane
    requires 0 < u <= n < U32
  {
    if i < Skipped(n, u) then Lane(0, 0) else LaneOf(n, u - Skipped(n, u), i - Skipped(n, u))
  }

  lemma RoundedShare(n: nat, u: nat, i: nat, start: nat)
    requires i < u <= n < U32
    requires start == if i <= Skipped(n, u) then 0 else LaneStart(n, u - Skipped(n, u), i - Skipped(n, u))
    ensures start <= n && (n - start + (u - i) - 1) % U32 / (u - i) == Written(n, u, i).number && start == Written(n, u, i).start
    ensures start + Written(n, u, i).number == if i + 1 <= Skipped(n, u) then 0 else LaneStart(n, u - Skipped(n, u), i + 1 - Skipped(n, u))
  {
    hide LaneStart, LaneOf;
    var w := Skipped(n, u);
    LastStart(n, u - w);
    if i < w {
      DivModUnique(n + (u - i) - 1 - U32, 0, n + (u - i) - 1 - U32, u - i);
    } else {
      CeilOfRest(n, u - w, i - w);
      LaneSize(n, u - w, i - w);
    }
  }

  /** Split tasks over lanes; unused lanes stay zero. The rounding sum is a 32-bit value. */
  method DistributeTasks(n: nat, cores: nat, lanes: array<Lane>)
    requires n < U32 && cores <= lanes.Length
    modifies lanes
    ensures var u := Min(cores, n);
      forall i :: 0 <= i < lanes.Length ==> lanes[i] == if i < u then Written(n, u, i) else Lane(0, 0)
  {
    hide LaneStart, Written;
    var u := Min(cores, n);
    var start: nat := 0;
    for i := 0 to lanes.Length
      invariant forall j :: 0 <= j < i ==> lanes[j] == Lane(0, 0)
    {
      lanes[i] := Lane(0, 0);
    }
    for i := 0 to u
      invariant u > 0 ==> start == if i <= Skipped(n, u) then 0 else LaneStart(n, u - Skipped(n, u), i - Skipped(n, u))
      invariant forall j :: 0 <= j < lanes.Length ==> lanes[j] == if j < i then Written(n, u, j) else Lane(0, 0)
    {
      RoundedShare(n, u, i, start);
      var number := (n - start + (u - i) - 1) % U32 / (u - i);
      lanes[i] := Lane(start, number);
      start := start + number;
    }
  }

  /** The closed form over all used lanes is written if and only if the first rounding sum
      fits 32 bits; otherwise the first lane is left empty. */
  lemma ClosedFormIff(n: nat, u: nat)
    requires 0 < u <= n < U32
    ensures (forall i: nat :: i < u ==> Written(n, u, i) == LaneOf(n, u, i)) <==> n + u - 1 < U32
  {
    hide LaneOf;
    if n + u - 1 >= U32 {
      LaneSize(n, u, 0);
      assert Written(n, u, 0) != LaneOf(n, u, 0);
    }
  }

  /** The failing input: the largest task count over three cores leaves two lanes empty. */
  lemma LargestCountSkips()
    ensures var n := U32 - 1; Written(n, 3, 0) == Lane(0, 0) && Written(n, 3, 1) == Lane(0, 0) && Written(n, 3, 2) == Lane(0, n)
  {
  }

  /** Skipped or not, every task is in exactly one of the lanes written. */
  lemma WrittenCoversOnce(n: nat, u: nat, t: nat)
    requires 0 < u <= n < U32 && t < n
    ensures exists i: nat :: i < u && Covers(Written(n, u, i), t)
    ensures forall i: nat, j: nat :: i < u && j < u && Covers(Written(n, u, i), t) && Covers(Written(n, u, j), t) ==> i == j
  {
    hide LaneOf;
    var w := Skipped(n, u);
    EachTaskInOneLane(n, u - w, t);
    var k: nat :| k < u - w && Covers(LaneOf(n, u - w, k), t);
    assert Covers(Written(n, u, k + w), t);
    forall i: nat, j: nat | i < u && j < u && Covers(Written(n, u, i), t) && Covers(Written(n, u, j), t) ensures i == j {
      assert i >= w && j >= w;
      assert Covers(LaneOf(n, u - w, i - w), t) && Covers(LaneOf(n, u - w, j - w), t);
    }
  }

  /** Every task is in exactly one lane, the one the closed form names. */
  lemma EachTaskInOneLane(n: nat, u: nat, t: nat)
    requires 0 < u <= n && t < n
    ensures exists i: nat :: i < u && Covers(LaneOf(n, u, i), t)
    ensures forall i: nat, j: nat :: i < u && j < u && Covers(LaneOf(n, u, i), t) && Covers(LaneOf(n, u, j), t) ==> i == j
  {
    hide LaneStart, LaneOf;
    LastStart(n, u);
    FindLane(n, u, t, u);
    forall i: nat, j: nat | i < u && j < u && Covers(LaneOf(n, u, i), t) && Covers(LaneOf(n, u, j), t) ensures i == j {
      LaneSize(n, u, i);
      LaneSize(n, u, j);
      if i + 1 < j { StartsGrow(n, u, i + 1, j); }
      if j + 1 < i { StartsGrow(n, u, j + 1, i); }
    }
  }

  /** Used lanes are consecutive, non-empty, never larger than an earlier one and
      at most one task smaller. */
  lemma LanesBalanced(n: nat, u: nat, i: nat, j: nat)
    requires 0 < u <= n && i <= j < u
    ensures LaneOf(n, u, i).start + LaneOf(n, u, i).number == LaneOf(n, u, i + 1).start
    ensures 0 < LaneOf(n, u, j).number <= LaneOf(n, u, i).number <= LaneOf(n, u, j).number + 1
  {
    LaneSize(n, u, i);
    LaneSize(n, u, j);
  }

  lemma {:induction false} StartsGrow(n: nat, u: nat, i: nat, j: nat)
    requires 0 < u <= n && i < j
    ensures LaneStart(n, u, i) < LaneStart(n, u, j)
  {
    hide LaneStart;
    LaneSize(n, u, j - 1);
    if i < j - 1 { StartsGrow(n, u, i, j - 1); }
  }

  lemma {:induction false} FindLane(n: nat, u: nat, t: nat, k: nat)
    requires u > 0 && k <= u && t < LaneStart(n, u, k)
    ensures exists i: nat :: i < u && Covers(LaneOf(n, u, i), t)
  {
    hide LaneStart, LaneOf;
    LastStart(n, u);
    LaneSize(n, u, k - 1);
    if LaneStart(n, u, k - 1) <= t {
      assert Covers(LaneOf(n, u, k - 1), t);
    } else {
      FindLane(n, u, t, k - 1);
    }
  }

  /** The layout as the driver receives it, with `L` lanes. */
  function Layout(n: nat, cores: nat, L: nat): (r: seq<Lane>)
    requires cores <= L && n < U32
    ensures |r| == L
    ensures forall i :: 0 <= i < L ==> r[i] == if i < Min(cores, n) then Written(n, Min(cores, n), i) else Lane(0, 0)
  {
    seq(L, i requires 0 <= i < L => if i < Min(cores, n) then Written(n, Min(cores, n), i) else Lane(0, 0))
  }

  /** Where the lanes before lane `i` end. */
  ghost function EndBefore(n: nat, u: nat, i: nat): nat
    requires 0 < u <= n < U32
  {
    var w := Skipped(n, u);
    if i <= w then 0 else LaneStart(n, u - w, Min(i, u) - w)
  }

  lemma {:induction false} LayoutContiguous(n: nat, cores: nat, L: nat, i: nat)
    requires 0 < cores <= L && 0 < n < U32 && i <= L
    ensures ContiguousFrom(Layout(n, cores, L), i, EndBefore(n, Min(cores, n), i), n)
    decreases L - i
  {
    hide LaneStart, LaneOf;
    var u := Min(cores, n);
    var w := Skipped(n, u);
    LastStart(n, u - w);
    if i < L {
      LayoutContiguous(n, cores, L, i + 1);
      if w <= i < u {
        LaneSize(n, u - w, i - w);
        if i + 1 < u { StartsGrow(n, u - w, i + 1 - w, u - w); }
      }
    }
  }

  lemma LayoutNonEmpty(n: nat, cores: nat, L: nat)
    requires 0 < cores <= L && 0 < n < U32
    ensures exists l :: 0 <= l < L && Layout(n, cores, L)[l].number > 0
  {
    hide LaneOf;
    var u := Min(cores, n);
    LaneSize(n, u - Skipped(n, u), 0);
    assert Layout(n, cores, L)[Skipped(n, u)].number > 0;
  }

  /** For every 32-bit task count, wrapped or not, what the benchmark sends passes the
      driver's test for dynamic layouts, and as a static layout it neither sticks nor ends
      early. */
  lemma BenchmarkLayoutServes(n: nat, cores: nat, L: nat, m: Meta)
    requires 0 < cores <= L && 0 < n < U32 && m.lanes == Layout(n, cores, L) && m.total == n && !m.dynamic
    ensures ContiguousFrom(m.lanes, 0, 0, n)
    ensures forall run :: IsRun(m, run) ==> !Stuck(Last(run))
    ensures forall run :: IsRun(m, run) ==> (TerminalSuccess(Last(run)) ==> !HasRunning(Last(run)))
  {
    hide IsRun, Stuck, Last, TerminalSuccess, HasRunning, ContiguousFrom, LaneStart, Slots, Target, Layout;
    LayoutContiguous(n, cores, L, 0);
    LayoutNonEmpty(n, cores, L);
    ContiguousIsExact(m);
    NeverStuckIff(m);
    NeverEarlyIff(m);
  }

  // ------------------------------------------------------------- mixed workload

  const TYPE_COUNT: nat := 4
  const TASKS_PER_TYPE: nat := 12

  function TaskType(interleaved: bool, task: nat): nat {
    if interleaved then task % TYPE_COUNT else task / TASKS_PER_TYPE
  }

  function TypeOrdinal(interleaved: bool, task: nat): nat {
    if interleaved then task / TYPE_COUNT else task % TASKS_PER_TYPE
  }

  /** Type and ordinal address the output slices one to one. */
  lemma MixedNumbering(interleaved: bool, task: nat, other: nat)
    requires task < TYPE_COUNT * TASKS_PER_TYPE && other < TYPE_COUNT * TASKS_PER_TYPE
    ensures TaskType(interleaved, task) < TYPE_COUNT && TypeOrdinal(interleaved, task) < TASKS_PER_TYPE
    ensures interleaved ==> TYPE_COUNT * TypeOrdinal(true, task) + TaskType(true, task) == task
    ensures !interleaved ==> TASKS_PER_TYPE * TaskType(false, task) + TypeOrdinal(false, task) == task
    ensures TaskType(interleaved, task) == TaskType(interleaved, other) && TypeOrdinal(interleaved, task) == TypeOrdinal(interleaved, other)
      ==> task == other
  {
    Repack(task, TYPE_COUNT);
    Repack(other, TYPE_COUNT);
  }
}
