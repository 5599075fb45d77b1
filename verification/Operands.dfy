/**
  Filling the tiled operand buffers of a benchmark scenario, and what the NPU's
  tile-order dot product over them computes.
*/
module Operands {
  import opened Radix
  import opened MatmulLayout
  import opened Slices
  import opened Sums

  const INPUT_C2: nat := 8
  const HALF_BYTES: nat := 2

  datatype Workload = Workload(m: nat, k: nat, n: nat, tasks: nat, thread: nat, shared: bool)

  /** Remainder that truncates toward zero, as in C. */
  function CRem(a: int, b: nat): int
    requires b > 0
  {
    if a >= 0 then a % b else -((-a) % b)
  }

  function InputValue(id: int, row: nat, channel: nat): int { CRem(id * 13 + row * 7 + channel * 5, 11) - 5 }

  function WeightValue(id: int, column: nat, channel: nat): int { CRem(id * 17 + column * 3 + channel * 9, 11) - 5 }

  /** A 32-bit unsigned result read as a signed 32-bit integer. */
  function AsInt32(x: nat): int { if x % U32 < U32 / 2 then x % U32 else x % U32 - U32 }

  /** One matrix per thread when operands are shared, one per task otherwise. */
  function MatrixId(w: Workload, task: nat): int {
    if w.shared then AsInt32(w.thread) + 1 else AsInt32(w.thread * w.tasks + task + 1)
  }

  /** Shared operands: one matrix per thread. Otherwise different tasks, of one thread or
      of two, have different matrices as long as the numbering fits 32 bits. */
  lemma MatrixIds(w: Workload, w': Workload, task: nat, task': nat)
    requires w.shared == w'.shared && w.tasks == w'.tasks && task < w.tasks && task' < w.tasks
    requires w.thread * w.tasks + task + 1 < U32 && w'.thread * w.tasks + task' + 1 < U32
    ensures MatrixId(w, task) == MatrixId(w', task') <==> w.thread == w'.thread && (w.shared || task == task')
  {
    hide AsInt32;
    if w.shared {
      ThreadFits(w.thread, w.tasks);
      ThreadFits(w'.thread, w.tasks);
      Int32Injective(w.thread, w'.thread);
    } else {
      NumberIsUnique(w.thread, task, w'.thread, task', w.tasks);
    }
  }

  lemma NumberIsUnique(a: nat, t: nat, b: nat, u: nat, tasks: nat)
    requires t < tasks && u < tasks && a * tasks + t + 1 < U32 && b * tasks + u + 1 < U32
    ensures AsInt32(a * tasks + t + 1) == AsInt32(b * tasks + u + 1) <==> a == b && t == u
  {
    hide AsInt32;
    Int32Injective(a * tasks + t + 1, b * tasks + u + 1);
    if a * tasks + t == b * tasks + u { Digits(a, t, b, u, tasks); }
  }

  lemma ThreadFits(thread: nat, tasks: nat)
    requires tasks > 0
    ensures thread <= thread * tasks
  {
  }

  lemma Int32Injective(x: nat, y: nat)
    requires x < U32 && y < U32
    ensures AsInt32(x) == AsInt32(y) <==> x == y
  {
  }

  /** The operand patterns: both start at -5 for matrix 0 and step through the eleven
      values, modulo eleven, by 13 or 17 per matrix, 7 or 3 per line and 5 or 9 per channel. */
  lemma ValueSteps(id: nat, line: nat, channel: nat)
    ensures InputValue(0, 0, 0) == WeightValue(0, 0, 0) == -5
    ensures var v := InputValue(id, line, channel) + 5;
      && InputValue(id + 1, line, channel) + 5 == (v + 13) % 11 && InputValue(id, line + 1, channel) + 5 == (v + 7) % 11
      && InputValue(id, line, channel + 1) + 5 == (v + 5) % 11
    ensures var v := WeightValue(id, line, channel) + 5;
      && WeightValue(id + 1, line, channel) + 5 == (v + 17) % 11 && WeightValue(id, line + 1, channel) + 5 == (v + 3) % 11
      && WeightValue(id, line, channel + 1) + 5 == (v + 9) % 11
  {
    InputSteps(id, line, channel);
    WeightSteps(id, line, channel);
  }

  lemma InputSteps(id: nat, line: nat, channel: nat)
    ensures var v := InputValue(id, line, channel) + 5;
      && InputValue(id + 1, line, channel) + 5 == (v + 13) % 11 && InputValue(id, line + 1, channel) + 5 == (v + 7) % 11
      && InputValue(id, line, channel + 1) + 5 == (v + 5) % 11
  {
    var x := id * 13 + line * 7 + channel * 5;
    Step11(x, 13);
    Step11(x, 7);
    Step11(x, 5);
  }

  lemma WeightSteps(id: nat, line: nat, channel: nat)
    ensures var v := WeightValue(id, line, channel) + 5;
      && WeightValue(id + 1, line, channel) + 5 == (v + 17) % 11 && WeightValue(id, line + 1, channel) + 5 == (v + 3) % 11
      && WeightValue(id, line, channel + 1) + 5 == (v + 9) % 11
  {
    var x := id * 17 + line * 3 + channel * 9;
    Step11(x, 17);
    Step11(x, 3);
    Step11(x, 9);
  }

  lemma Step11(x: nat, d: nat)
    ensures (x + d) % 11 == (x % 11 + d) % 11
  {
    var q := x / 11;
    assert x + d == (x % 11 + d) + 11 * q;
  }

  function SlotCount(w: Workload): nat { if w.shared then 1 else w.tasks }

  function SlotOf(w: Workload, task: nat): nat { if w.shared then 0 else task }

  /** Slice strides, in elements. */
  function InputStride(w: Workload): nat { AlignUp(w.m * w.k * HALF_BYTES, SLICE_ALIGN) / HALF_BYTES }

  function WeightStride(w: Workload): nat { AlignUp(w.n * w.k * HALF_BYTES, SLICE_ALIGN) / HALF_BYTES }

  lemma StrideHolds(elements: nat)
    ensures AlignUp(elements * HALF_BYTES, SLICE_ALIGN) / HALF_BYTES >= elements
  {
  }

  /** Shapes the layouts are made for. */
  predicate Aligned(w: Workload) { w.k % 32 == 0 && w.n % 16 == 0 }

  // ------------------------------------------------------------- nested fill loops

  function Poke(buf: seq<int>, p: int, v: int): seq<int> { if 0 <= p < |buf| then buf[p := v] else buf }

  /** What a doubly nested loop leaves after all of rows below `row` and the first `col`
      columns of `row`: each step stores `val` at `off`, later stores winning. */
  ghost function Filled(buf: seq<int>, base: nat, cols: nat, row: nat, col: nat, off: (nat, nat) -> int, val: (nat, nat) -> int): (r: seq<int>)
    ensures |r| == |buf|
    decreases row, col
  {
    if col > 0 then Poke(Filled(buf, base, cols, row, col - 1, off, val), base + off(row, col - 1), val(row, col - 1))
    else if row > 0 then Filled(buf, base, cols, row - 1, cols, off, val)
    else buf
  }

  /** The loop has been at (r, c). */
  predicate Visited(cols: nat, row: nat, col: nat, r: nat, c: nat) { (r < row && c < cols) || (r == row && c < col) }

  /** Positions never visited keep their contents. */
  lemma {:induction false} FilledElse(buf: seq<int>, base: nat, cols: nat, row: nat, col: nat, off: (nat, nat) -> int, val: (nat, nat) -> int, p: nat)
    requires p < |buf| && forall r: nat, c: nat :: Visited(cols, row, col, r, c) ==> base + off(r, c) != p
    ensures Filled(buf, base, cols, row, col, off, val)[p] == buf[p]
    decreases row, col
  {
    if col > 0 {
      assert Visited(cols, row, col, row, col - 1);
      FilledElse(buf, base, cols, row, col - 1, off, val, p);
    } else if row > 0 {
      FilledElse(buf, base, cols, row - 1, cols, off, val, p);
    }
  }

  /** A cell that shares its position with no other visited cell holds its own value. */
  lemma {:induction false} FilledAt(buf: seq<int>, base: nat, cols: nat, row: nat, col: nat, off: (nat, nat) -> int, val: (nat, nat) -> int, r: nat, c: nat)
    requires Visited(cols, row, col, r, c) && 0 <= base + off(r, c) < |buf|
    requires forall r': nat, c': nat :: Visited(cols, row, col, r', c') && off(r', c') == off(r, c) ==> r' == r && c' == c
    ensures Filled(buf, base, cols, row, col, off, val)[base + off(r, c)] == val(r, c)
    decreases row, col
  {
    if col > 0 {
      if !(r == row && c == col - 1) {
        assert Visited(cols, row, col, row, col - 1);
        FilledAt(buf, base, cols, row, col - 1, off, val, r, c);
      }
    } else {
      FilledAt(buf, base, cols, row - 1, cols, off, val, r, c);
    }
  }

  /** All slots one after the other, `stride` apart. */
  ghost function FilledSlots(buf: seq<int>, stride: nat, slots: nat, rows: nat, cols: nat, off: (nat, nat) -> int, vals: nat -> (nat, nat) -> int): (r: seq<int>)
    ensures |r| == |buf|
  {
    if slots == 0 then buf
    else Filled(FilledSlots(buf, stride, slots - 1, rows, cols, off, vals), (slots - 1) * stride, cols, rows, 0, off, vals(slots - 1))
  }

  /** When no two cells of a slot share a position and none leaves its slot, every cell
      of every slot holds its own value in the end. */
  lemma {:induction false} FilledSlotsAt(buf: seq<int>, stride: nat, slots: nat, rows: nat, cols: nat, off: (nat, nat) -> int, vals: nat -> (nat, nat) -> int, s: nat, r: nat, c: nat)
    requires s < slots && r < rows && c < cols && slots * stride <= |buf|
    requires forall r': nat, c': nat :: r' < rows && c' < cols ==> 0 <= off(r', c') < stride
    requires forall r': nat, c': nat :: r' < rows && c' < cols && off(r', c') == off(r, c) ==> r' == r && c' == c
    ensures 0 <= s * stride + off(r, c) < |buf|
    ensures FilledSlots(buf, stride, slots, rows, cols, off, vals)[s * stride + off(r, c)] == vals(s)(r, c)
  {
    MulStep(s, slots, stride);
    var before := FilledSlots(buf, stride, slots - 1, rows, cols, off, vals);
    if s == slots - 1 {
      FilledAt(before, s * stride, cols, rows, 0, off, vals(s), r, c);
    } else {
      MulStep(slots - 1, slots, stride);
      FilledSlotsAt(buf, stride, slots - 1, rows, cols, off, vals, s, r, c);
      MulStep(s, slots - 1, stride);
      FilledElse(before, (slots - 1) * stride, cols, rows, 0, off, vals(slots - 1), s * stride + off(r, c));
    }
  }

  function Zeros(n: nat): seq<int> { seq(n, i => 0) }

  // ------------------------------------------------------------------------ inputs

  function InputOffset(m: nat, k: nat, row: nat, channel: nat): int {
    FeatureData(k, m, 1, INPUT_C2, channel + 1, row + 1, 1)
  }

  function InputMap(m: nat, k: nat): (nat, nat) -> int { (row: nat, channel: nat) => InputOffset(m, k, row, channel) }

  function InputValues(w: Workload): nat -> (nat, nat) -> int {
    (slot: nat) => (row: nat, channel: nat) => InputValue(MatrixId(w, slot), row, channel)
  }

  /** The buffer after preparation. */
  ghost function InputsFilled(w: Workload): seq<int> {
    FilledSlots(Zeros(SlotCount(w) * InputStride(w)), InputStride(w), SlotCount(w), w.m, w.k, InputMap(w.m, w.k), InputValues(w))
  }

  /** Store every element of one slot. All stores must land in the buffer. */
  method FillInput(buf: array<int>, base: nat, w: Workload, slot: nat)
    requires forall r: nat, c: nat :: r < w.m && c < w.k ==> 0 <= base + InputMap(w.m, w.k)(r, c) < buf.Length
    modifies buf
    ensures buf[..] == Filled(old(buf[..]), base, w.k, w.m, 0, InputMap(w.m, w.k), InputValues(w)(slot))
  {
    hide InputOffset, InputValue, MatrixId;
    ghost var was := buf[..];
    for row := 0 to w.m
      invariant buf[..] == Filled(was, base, w.k, row, 0, InputMap(w.m, w.k), InputValues(w)(slot))
    {
      for channel := 0 to w.k
        invariant buf[..] == Filled(was, base, w.k, row, channel, InputMap(w.m, w.k), InputValues(w)(slot))
      {
        assert 0 <= base + InputMap(w.m, w.k)(row, channel) < buf.Length;
        var offset := InputOffset(w.m, w.k, row, channel);
        buf[base + offset] := InputValue(MatrixId(w, slot), row, channel);
      }
    }
  }

  /** Clear the input buffer and fill it slot by slot. That no element leaves its slot is
      what it takes for the last slot's stores to land in the buffer. */
  method PrepareInputs(buf: array<int>, w: Workload)
    requires buf.Length == SlotCount(w) * InputStride(w) && (SlotCount(w) == 0 || InputFits(w))
    modifies buf
    ensures buf[..] == InputsFilled(w)
  {
    hide InputMap, InputValues, InputStride, Filled;
    for p := 0 to buf.Length
      invariant forall q :: 0 <= q < p ==> buf[q] == 0
    {
      buf[p] := 0;
    }
    ghost var clear := Zeros(buf.Length);
    assert buf[..] == clear;
    for slot := 0 to SlotCount(w)
      invariant buf[..] == FilledSlots(clear, InputStride(w), slot, w.m, w.k, InputMap(w.m, w.k), InputValues(w))
    {
      MulStep(slot, SlotCount(w), InputStride(w));
      FillInput(buf, slot * InputStride(w), w, slot);
    }
  }

  /** Distinct elements have distinct places, whatever the shape. */
  lemma InputInjective(m: nat, k: nat, r: nat, c: nat, r': nat, c': nat)
    requires r < m && c < k && r' < m && c' < k && InputOffset(m, k, r, c) == InputOffset(m, k, r', c')
    ensures r == r' && c == c'
  {
    FeatureInverse(k, m, 1, INPUT_C2, c + 1, r + 1, 1);
    FeatureInverse(k, m, 1, INPUT_C2, c' + 1, r' + 1, 1);
  }

  /** The last element of the last row lies furthest out. */
  lemma LastIsLargest(m: nat, k: nat, r: nat, c: nat)
    requires r < m && c < k
    ensures 0 <= InputOffset(m, k, r, c) <= InputOffset(m, k, m - 1, k - 1)
  {
    var p: nat, q: nat := c / 8, (k - 1) / 8;
    InputForm(m, k, r, c);
    InputForm(m, k, m - 1, k - 1);
    if p < q {
      MulStep(p, q, m * 8);
      MulStep(r, m, 8);
    } else {
      MulStep(r, m - 1, 8);
    }
  }

  lemma InputForm(m: nat, k: nat, r: nat, c: nat)
    ensures InputOffset(m, k, r, c) == c / 8 * (m * 8) + r * 8 + c % 8
  {
    assert c / 8 * m * 1 * 8 == c / 8 * (m * 8);
  }

  /** No element leaves its slot. */
  ghost predicate InputFits(w: Workload) {
    forall r: nat, c: nat :: r < w.m && c < w.k ==> 0 <= InputMap(w.m, w.k)(r, c) < InputStride(w)
  }

  /** That is so exactly when the last element stays inside, and always for aligned shapes. */
  lemma InputFitsIff(w: Workload)
    ensures InputFits(w) <==> w.m == 0 || w.k == 0 || InputOffset(w.m, w.k, w.m - 1, w.k - 1) < InputStride(w)
    ensures w.k % INPUT_C2 == 0 ==> InputFits(w)
  {
    hide InputOffset, InputStride;
    if w.m > 0 && w.k > 0 {
      forall r: nat, c: nat | r < w.m && c < w.k ensures 0 <= InputOffset(w.m, w.k, r, c) <= InputOffset(w.m, w.k, w.m - 1, w.k - 1) {
        LastIsLargest(w.m, w.k, r, c);
      }
      assert InputMap(w.m, w.k)(w.m - 1, w.k - 1) == InputOffset(w.m, w.k, w.m - 1, w.k - 1);
      if w.k % INPUT_C2 == 0 { AlignedFits(w); }
    }
  }

  lemma AlignedFits(w: Workload)
    requires w.m > 0 && w.k > 0 && w.k % INPUT_C2 == 0
    ensures InputOffset(w.m, w.k, w.m - 1, w.k - 1) < InputStride(w)
  {
    FeatureInRange(w.k, w.m, 1, INPUT_C2, w.k, w.m, 1);
    assert w.k * w.m * 1 == w.m * w.k;
    StrideHolds(w.m * w.k);
  }

  ghost predicate InputReady(w: Workload, slot: nat, buf: seq<int>) {
    forall r: nat, c: nat :: r < w.m && c < w.k ==>
      0 <= slot * InputStride(w) + InputMap(w.m, w.k)(r, c) < |buf|
      && buf[slot * InputStride(w) + InputMap(w.m, w.k)(r, c)] == InputValue(MatrixId(w, slot), r, c)
  }

  lemma InputCell(w: Workload, slot: nat, r: nat, c: nat)
    requires InputFits(w) && slot < SlotCount(w) && r < w.m && c < w.k
    ensures 0 <= slot * InputStride(w) + InputMap(w.m, w.k)(r, c) < |InputsFilled(w)|
    ensures InputsFilled(w)[slot * InputStride(w) + InputMap(w.m, w.k)(r, c)] == InputValues(w)(slot)(r, c)
  {
    hide InputOffset, InputStride, InputValues, Filled, FilledSlots;
    forall r': nat, c': nat | r' < w.m && c' < w.k && InputMap(w.m, w.k)(r', c') == InputMap(w.m, w.k)(r, c) ensures r' == r && c' == c {
      InputInjective(w.m, w.k, r, c, r', c');
    }
    FilledSlotsAt(Zeros(SlotCount(w) * InputStride(w)), InputStride(w), SlotCount(w), w.m, w.k, InputMap(w.m, w.k), InputValues(w), slot, r, c);
  }

  /** The prepared buffer read through the address map gives every input value back. */
  lemma InputReadBack(w: Workload, slot: nat)
    requires InputFits(w) && slot < SlotCount(w)
    ensures InputReady(w, slot, InputsFilled(w))
  {
    hide InputMap, InputStride, InputValue, MatrixId, InputsFilled, InputFits;
    forall r: nat, c: nat | r < w.m && c < w.k
      ensures 0 <= slot * InputStride(w) + InputMap(w.m, w.k)(r, c) < |InputsFilled(w)|
      ensures InputsFilled(w)[slot * InputStride(w) + InputMap(w.m, w.k)(r, c)] == InputValue(MatrixId(w, slot), r, c)
    {
      InputCell(w, slot, r, c);
    }
  }

  // ----------------------------------------------------------------------- weights

  function WeightOffset(k: nat, column: nat, channel: nat): int { WeightFp16(k, column + 1, channel + 1) }

  function WeightMap(k: nat): (nat, nat) -> int { (column: nat, channel: nat) => WeightOffset(k, column, channel) }

  function WeightValues(w: Workload): nat -> (nat, nat) -> int {
    (slot: nat) => (column: nat, channel: nat) => WeightValue(MatrixId(w, slot), column, channel)
  }

  ghost function WeightsFilled(w: Workload): seq<int> {
    FilledSlots(Zeros(SlotCount(w) * WeightStride(w)), WeightStride(w), SlotCount(w), w.n, w.k, WeightMap(w.k), WeightValues(w))
  }

  method FillWeights(buf: array<int>, base: nat, w: Workload, slot: nat)
    requires forall r: nat, c: nat :: r < w.n && c < w.k ==> 0 <= base + WeightMap(w.k)(r, c) < buf.Length
    modifies buf
    ensures buf[..] == Filled(old(buf[..]), base, w.k, w.n, 0, WeightMap(w.k), WeightValues(w)(slot))
  {
    hide WeightOffset, WeightValue, MatrixId;
    ghost var was := buf[..];
    for column := 0 to w.n
      invariant buf[..] == Filled(was, base, w.k, column, 0, WeightMap(w.k), WeightValues(w)(slot))
    {
      for channel := 0 to w.k
        invariant buf[..] == Filled(was, base, w.k, column, channel, WeightMap(w.k), WeightValues(w)(slot))
      {
        assert 0 <= base + WeightMap(w.k)(column, channel) < buf.Length;
        var offset := WeightOffset(w.k, column, channel);
        buf[base + offset] := WeightValue(MatrixId(w, slot), column, channel);
      }
    }
  }

  method PrepareWeights(buf: array<int>, w: Workload)
    requires buf.Length == SlotCount(w) * WeightStride(w) && (SlotCount(w) == 0 || WeightFits(w))
    modifies buf
    ensures buf[..] == WeightsFilled(w)
  {
    hide WeightMap, WeightValues, WeightStride, Filled;
    for p := 0 to buf.Length
      invariant forall q :: 0 <= q < p ==> buf[q] == 0
    {
      buf[p] := 0;
    }
    ghost var clear := Zeros(buf.Length);
    assert buf[..] == clear;
    for slot := 0 to SlotCount(w)
      invariant buf[..] == FilledSlots(clear, WeightStride(w), slot, w.n, w.k, WeightMap(w.k), WeightValues(w))
    {
      MulStep(slot, SlotCount(w), WeightStride(w));
      FillWeights(buf, slot * WeightStride(w), w, slot);
    }
  }

  ghost predicate WeightFits(w: Workload) {
    forall r: nat, c: nat :: r < w.n && c < w.k ==> 0 <= WeightMap(w.k)(r, c) < WeightStride(w)
  }

  function ChannelPart(c: nat): nat { c / 32 * 512 + c % 32 }

  function ColumnPart(k: nat, r: nat): nat { r / 16 * (16 * k) + r % 16 * 32 }

  lemma WeightForm(k: nat, r: nat, c: nat)
    ensures WeightOffset(k, r, c) == ChannelPart(c) + ColumnPart(k, r)
  {
    assert r / 16 * 16 * k == r / 16 * (16 * k);
  }

  lemma ChannelsGrow(c: nat, d: nat)
    requires c <= d
    ensures ChannelPart(c) <= ChannelPart(d)
  {
  }

  lemma ColumnsGrow(k: nat, r: nat, s: nat)
    requires r / 16 <= s / 16 && r % 16 <= s % 16
    ensures ColumnPart(k, r) <= ColumnPart(k, s)
  {
    assert r / 16 * (16 * k) <= s / 16 * (16 * k);
  }

  /** The last column of all, or the last one of the tile before, lies furthest out. */
  lemma LargestWeight(n: nat, k: nat, r: nat, c: nat)
    requires r < n && c < k
    ensures 0 <= WeightOffset(k, r, c)
    ensures var q := (n - 1) / 16; WeightOffset(k, r, c) <= WeightOffset(k, if r / 16 < q then q * 16 - 1 else n - 1, k - 1)
  {
    hide WeightOffset, ChannelPart, ColumnPart;
    var q: nat := (n - 1) / 16;
    var s := if r / 16 < q then q * 16 - 1 else n - 1;
    WeightForm(k, r, c);
    WeightForm(k, s, k - 1);
    ChannelsGrow(c, k - 1);
    ColumnsGrow(k, r, s);
  }

  /** Weights stay inside their slot exactly when those do, for every shape. */
  lemma WeightFitsIff(w: Workload)
    ensures WeightFits(w) <==>
      w.n == 0 || w.k == 0 ||
      (WeightOffset(w.k, w.n - 1, w.k - 1) < WeightStride(w) &&
       (w.n > 16 ==> WeightOffset(w.k, (w.n - 1) / 16 * 16 - 1, w.k - 1) < WeightStride(w)))
  {
    hide WeightOffset, WeightStride;
    if w.n > 0 && w.k > 0 {
      var q := (w.n - 1) / 16;
      forall r: nat, c: nat | r < w.n && c < w.k
        ensures 0 <= WeightOffset(w.k, r, c) <= WeightOffset(w.k, if r / 16 < q then q * 16 - 1 else w.n - 1, w.k - 1)
      {
        LargestWeight(w.n, w.k, r, c);
      }
      assert WeightMap(w.k)(w.n - 1, w.k - 1) == WeightOffset(w.k, w.n - 1, w.k - 1);
      if w.n > 16 { assert WeightMap(w.k)(q * 16 - 1, w.k - 1) == WeightOffset(w.k, q * 16 - 1, w.k - 1); }
    }
  }

  lemma AlignedWeightsFit(w: Workload)
    requires Aligned(w)
    ensures WeightFits(w)
  {
    hide WeightStride;
    StrideBig(w);
    forall r: nat, c: nat | r < w.n && c < w.k ensures 0 <= WeightMap(w.k)(r, c) < WeightStride(w) {
      WeightInRange(16, w.n, w.k, r + 1, c + 1);
    }
  }

  lemma StrideBig(w: Workload)
    ensures InputStride(w) >= w.m * w.k && WeightStride(w) >= w.n * w.k
  {
    StrideHolds(w.m * w.k);
    StrideHolds(w.n * w.k);
  }

  ghost predicate WeightReady(w: Workload, slot: nat, buf: seq<int>) {
    forall r: nat, c: nat :: r < w.n && c < w.k ==>
      0 <= slot * WeightStride(w) + WeightMap(w.k)(r, c) < |buf|
      && buf[slot * WeightStride(w) + WeightMap(w.k)(r, c)] == WeightValue(MatrixId(w, slot), r, c)
  }

  // --------------------------------------------------- which weights share a place

  ghost predicate PlacesDistinct(n: nat, k: nat) {
    forall r: nat, c: nat, r': nat, c': nat ::
      r < n && c < k && r' < n && c' < k && WeightOffset(k, r, c) == WeightOffset(k, r', c') ==> r == r' && c == c'
  }

  /** Channels fill whole tiles, or there is one group of columns, or two groups of an odd
      number of channels below 16, which then interleave. */
  predicate TilesApart(n: nat, k: nat) { k % 32 == 0 || n <= 16 || (k < 16 && k % 2 == 1 && n <= 32) }

  lemma WholeTiles(n: nat, k: nat, r: nat, c: nat, r': nat, c': nat)
    requires k % 32 == 0 && r < n && c < k && r' < n && c' < k && WeightOffset(k, r, c) == WeightOffset(k, r', c')
    ensures r == r' && c == c'
  {
    WeightInverse(16, n, k, r + 1, c + 1);
    WeightInverse(16, n, k, r' + 1, c' + 1);
  }

  lemma ChannelAt(a: nat, x: nat)
    requires x < 32
    ensures ChannelPart(32 * a + x) == 512 * a + x
  {
  }

  lemma ColumnAt(k: nat, g: nat, r: nat)
    requires r < 16
    ensures ColumnPart(k, 16 * g + r) == g * (16 * k) + 32 * r
  {
  }

  /** Lines of 32: equal positions are on the same line, at the same spot. */
  lemma SameSpot(a: int, x: nat, b: int, y: nat)
    requires x < 32 && y < 32 && 32 * a + x == 32 * b + y
    ensures a == b && x == y
  {
  }

  lemma OneGroup(k: nat, r: nat, c: nat, r': nat, c': nat)
    requires r < 16 && r' < 16 && WeightOffset(k, r, c) == WeightOffset(k, r', c')
    ensures r == r' && c == c'
  {
    hide WeightOffset, ChannelPart, ColumnPart;
    WeightForm(k, r, c);
    WeightForm(k, r', c');
    ColumnAt(k, 0, r);
    ColumnAt(k, 0, r');
    ChannelAt(c / 32, c % 32);
    ChannelAt(c' / 32, c' % 32);
    SameSpot(c / 32 * 16 + r, c % 32, c' / 32 * 16 + r', c' % 32);
  }

  lemma TwoGroups(k: nat, r: nat, c: nat, r': nat, c': nat)
    requires k % 2 == 1 && c < k < 16 && c' < k && r < 32 && r' < 32 && WeightOffset(k, r, c) == WeightOffset(k, r', c')
    ensures r == r' && c == c'
  {
    hide WeightOffset, ChannelPart, ColumnPart;
    WeightForm(k, r, c);
    WeightForm(k, r', c');
    OddPlace(k / 2, r, c);
    OddPlace(k / 2, r', c');
    SameSpot(Line(k / 2, r), Half(r) + c, Line(k / 2, r'), Half(r') + c');
  }

  function Line(h: nat, r: nat): int { if r < 16 then r else h + r - 16 }

  function Half(r: nat): nat { if r < 16 then 0 else 16 }

  lemma OddPlace(h: nat, r: nat, c: nat)
    requires r < 32 && c < 16
    ensures ChannelPart(c) + ColumnPart(2 * h + 1, r) == 32 * Line(h, r) + Half(r) + c
  {
    hide ChannelPart, ColumnPart;
    ChannelAt(0, c);
    if r < 16 { ColumnAt(2 * h + 1, 0, r); } else { ColumnAt(2 * h + 1, 1, r - 16); }
  }

  lemma ApartIsDistinct(n: nat, k: nat)
    requires TilesApart(n, k)
    ensures PlacesDistinct(n, k)
  {
    hide WeightOffset;
    forall r: nat, c: nat, r': nat, c': nat | r < n && c < k && r' < n && c' < k && WeightOffset(k, r, c) == WeightOffset(k, r', c')
      ensures r == r' && c == c'
    {
      if k % 32 == 0 {
        WholeTiles(n, k, r, c, r', c');
      } else if n <= 16 {
        OneGroup(k, r, c, r', c');
      } else {
        TwoGroups(k, r, c, r', c');
      }
    }
  }

  /** Every other shape has two weights that share a place. */
  lemma Collision(n: nat, k: nat) returns (r: nat, c: nat, r': nat, c': nat)
    requires !TilesApart(n, k)
    ensures r < r' < n && c < k && c' < k && WeightOffset(k, r, c) == WeightOffset(k, r', c')
  {
    hide WeightOffset, ChannelPart, ColumnPart;
    var a: nat, b: nat := k / 32, k % 32;
    var x: nat := 0;
    r', c' := 16, 0;
    if b % 2 == 0 {
      r := b / 2;
    } else if b > 16 {
      r, x := (b - 1) / 2, 16;
    } else if a > 0 {
      r, c' := (b + 1) / 2, 16;
    } else {
      r, r' := b, 32;
    }
    c := 32 * a + x;
    WeightForm(k, r, c);
    WeightForm(k, r', c');
    ChannelAt(a, x);
    ChannelAt(0, c');
    ColumnAt(k, 0, r);
    ColumnAt(k, r' / 16, 0);
  }

  /** No two weights share a place if and only if the tiles are apart. */
  lemma WeightInjectiveIff(n: nat, k: nat)
    ensures PlacesDistinct(n, k) <==> TilesApart(n, k)
  {
    hide WeightOffset;
    if TilesApart(n, k) {
      ApartIsDistinct(n, k);
    } else {
      var r, c, r', c' := Collision(n, k);
    }
  }

  /** Filling one slot with the values `val` leaves each of them at its place. */
  ghost predicate ReadsBack(n: nat, k: nat, size: nat, val: (nat, nat) -> int) {
    forall r: nat, c: nat :: r < n && c < k ==>
      0 <= WeightMap(k)(r, c) < size && Filled(Zeros(size), 0, k, n, 0, WeightMap(k), val)[WeightMap(k)(r, c)] == val(r, c)
  }

  ghost predicate PlacesInside(n: nat, k: nat, size: nat) {
    forall r: nat, c: nat :: r < n && c < k ==> 0 <= WeightMap(k)(r, c) < size
  }

  lemma ApartReadsBack(n: nat, k: nat, size: nat, val: (nat, nat) -> int)
    requires TilesApart(n, k) && PlacesInside(n, k, size)
    ensures ReadsBack(n, k, size, val)
  {
    hide WeightOffset, Filled;
    ApartIsDistinct(n, k);
    forall r: nat, c: nat | r < n && c < k
      ensures Filled(Zeros(size), 0, k, n, 0, WeightMap(k), val)[WeightMap(k)(r, c)] == val(r, c)
    {
      FilledAt(Zeros(size), 0, k, n, 0, WeightMap(k), val, r, c);
    }
  }

  /** The filling loop keeps every matrix of weights intact if and only if the tiles are apart. */
  lemma HoldsEveryMatrixIff(n: nat, k: nat, size: nat)
    requires PlacesInside(n, k, size)
    ensures (forall val :: ReadsBack(n, k, size, val)) <==> TilesApart(n, k)
  {
    hide WeightOffset, Filled, ReadsBack, PlacesInside;
    if TilesApart(n, k) {
      forall val ensures ReadsBack(n, k, size, val) { ApartReadsBack(n, k, size, val); }
    } else {
      var r, c, r', c' := Collision(n, k);
      var val := (x: nat, y: nat) => if x == r then 1 else 0;
      SharedPlace(n, k, size, val, r, c, r', c');
    }
  }

  lemma SharedPlace(n: nat, k: nat, size: nat, val: (nat, nat) -> int, r: nat, c: nat, r': nat, c': nat)
    requires r < n && c < k && r' < n && c' < k && WeightOffset(k, r, c) == WeightOffset(k, r', c') && val(r, c) != val(r', c')
    ensures !ReadsBack(n, k, size, val)
  {
    hide WeightOffset, Filled;
    assert WeightMap(k)(r, c) == WeightMap(k)(r', c');
  }

  /** For the benchmark's own values too: 31 channels and 17 columns fit their slot, and no
      contents of the buffer hold all their weights. */
  lemma PartialTilesCollide(w: Workload, slot: nat, buf: seq<int>)
    requires w.k == 31 && w.n == 17
    ensures WeightFits(w) && !WeightReady(w, slot, buf)
  {
    hide WeightOffset;
    PartialFits(w);
    PartialClash();
    var id := MatrixId(w, slot);
    assert WeightMap(w.k)(15, 16) == WeightMap(w.k)(16, 0);
    ClashDiffers(id);
  }

  lemma PartialFits(w: Workload)
    requires w.k == 31 && w.n == 17
    ensures WeightFits(w)
  {
    hide WeightFits;
    WeightFitsIff(w);
    assert WeightOffset(31, 16, 30) == 526 && WeightOffset(31, 15, 30) == 510;
    StrideBig(w);
  }

  lemma PartialClash()
    ensures WeightOffset(31, 15, 16) == WeightOffset(31, 16, 0)
  {
  }

  lemma ClashDiffers(id: int)
    ensures WeightValue(id, 15, 16) != WeightValue(id, 16, 0)
  {
  }

  /** The same for weights, when no two of them share a place. */
  lemma WeightReadBack(w: Workload, slot: nat)
    requires TilesApart(w.n, w.k) && WeightFits(w) && slot < SlotCount(w)
    ensures WeightReady(w, slot, WeightsFilled(w))
  {
    hide WeightOffset, WeightStride, WeightValue, MatrixId, Filled, TilesApart;
    ApartIsDistinct(w.n, w.k);
    forall r: nat, c: nat | r < w.n && c < w.k
      ensures 0 <= slot * WeightStride(w) + WeightMap(w.k)(r, c) < |WeightsFilled(w)|
      ensures WeightsFilled(w)[slot * WeightStride(w) + WeightMap(w.k)(r, c)] == WeightValue(MatrixId(w, slot), r, c)
    {
      FilledSlotsAt(Zeros(SlotCount(w) * WeightStride(w)), WeightStride(w), SlotCount(w), w.n, w.k, WeightMap(w.k), WeightValues(w), slot, r, c);
    }
  }

  /** Clear and fill both operand buffers. */
  method PrepareOperands(inputs: array<int>, weights: array<int>, w: Workload)
    requires inputs != weights && (SlotCount(w) == 0 || (InputFits(w) && WeightFits(w)))
    requires inputs.Length == SlotCount(w) * InputStride(w) && weights.Length == SlotCount(w) * WeightStride(w)
    modifies inputs, weights
    ensures inputs[..] == InputsFilled(w) && weights[..] == WeightsFilled(w)
  {
    hide InputStride, WeightStride, InputFits, WeightFits, InputsFilled, WeightsFilled;
    PrepareInputs(inputs, w);
    PrepareWeights(weights, w);
  }

  // ----------------------------------------------------------------- dot products

  function SumTo(f: nat -> int, n: nat): int { if n == 0 then 0 else SumTo(f, n - 1) + f(n - 1) }

  lemma {:induction false} SumSame(f: nat -> int, g: nat -> int, n: nat)
    requires forall i: nat :: i < n ==> f(i) == g(i)
    ensures SumTo(f, n) == SumTo(g, n)
  {
    if n > 0 { SumSame(f, g, n - 1); }
  }

  lemma {:induction false} SumSplit(f: nat -> int, a: nat, b: nat)
    ensures SumTo(f, a + b) == SumTo(f, a) + SumTo((i: nat) => f(a + i), b)
  {
    if b > 0 {
      SumSplit(f, a, b - 1);
      assert SumTo((i: nat) => f(a + i), b) == SumTo((i: nat) => f(a + i), b - 1) + f(a + (b - 1));
    }
  }

  /** The sum of the `t`-th group of `size` values. */
  function GroupSum(f: nat -> int, size: nat, t: nat): int { SumTo((i: nat) => f(t * size + i), size) }

  /** Summing group by group is summing. */
  lemma {:induction false} SumGroups(f: nat -> int, groups: nat, size: nat)
    ensures SumTo(f, groups * size) == SumTo((t: nat) => GroupSum(f, size, t), groups)
  {
    if groups > 0 {
      var a: nat := (groups - 1) * size;
      SumGroups(f, groups - 1, size);
      assert groups * size == a + size;
      SumSplit(f, a, size);
      SumSame((i: nat) => f(a + i), (i: nat) => f((groups - 1) * size + i), size);
    }
  }

  function Product(id: int, row: nat, column: nat): nat -> int {
    (channel: nat) => InputValue(id, row, channel) * WeightValue(id, column, channel)
  }

  /** The reference result of one output element. */
  method ExpectedOutput(w: Workload, task: nat, row: nat, column: nat) returns (sum: int)
    ensures sum == SumTo(Product(MatrixId(w, task), row, column), w.k)
  {
    sum := 0;
    var id := MatrixId(w, task);
    for channel := 0 to w.k
      invariant sum == SumTo(Product(id, row, column), channel)
    {
      sum := sum + InputValue(id, row, channel) * WeightValue(id, column, channel);
    }
  }

  /** What lies at plane `plane`, lane `lane` of a row, times the matching weight, read
      straight from the two buffers: planes of 8 channels, weight tiles of 16 by 32. */
  function TileProduct(w: Workload, inputs: seq<int>, weights: seq<int>, task: nat, row: nat, column: nat, plane: nat, lane: nat): int {
    var channel := plane * INPUT_C2 + lane;
    var p := SlotOf(w, task) * InputStride(w) + plane * (w.m * INPUT_C2) + row * INPUT_C2 + lane;
    var q := SlotOf(w, task) * WeightStride(w) + column / 16 * (16 * w.k) + channel / 32 * 512 + column % 16 * 32 + channel % 32;
    if 0 <= p < |inputs| && 0 <= q < |weights| then inputs[p] * weights[q] else 0
  }

  function PlaneDot(w: Workload, inputs: seq<int>, weights: seq<int>, task: nat, row: nat, column: nat, plane: nat): int {
    SumTo((lane: nat) => TileProduct(w, inputs, weights, task, row, column, plane, lane), INPUT_C2)
  }

  function TiledDot(w: Workload, inputs: seq<int>, weights: seq<int>, task: nat, row: nat, column: nat): int {
    SumTo((plane: nat) => PlaneDot(w, inputs, weights, task, row, column, plane), w.k / INPUT_C2)
  }

  lemma TilePositions(m: nat, k: nat, row: nat, column: nat, plane: nat, lane: nat)
    requires lane < INPUT_C2
    ensures var channel := plane * INPUT_C2 + lane;
      && InputOffset(m, k, row, channel) == plane * (m * INPUT_C2) + row * INPUT_C2 + lane
      && WeightOffset(k, column, channel) == column / 16 * (16 * k) + channel / 32 * 512 + column % 16 * 32 + channel % 32
  {
    var channel := plane * INPUT_C2 + lane;
    DivModUnique(channel, plane, lane, INPUT_C2);
    assert plane * m * 1 * INPUT_C2 == plane * (m * INPUT_C2);
    assert column / 16 * 16 * k == column / 16 * (16 * k);
  }

  lemma TileIsProduct(w: Workload, inputs: seq<int>, weights: seq<int>, task: nat, row: nat, column: nat, plane: nat, lane: nat)
    requires row < w.m && column < w.n && lane < INPUT_C2 && plane * INPUT_C2 + lane < w.k
    requires InputReady(w, SlotOf(w, task), inputs) && WeightReady(w, SlotOf(w, task), weights)
    ensures TileProduct(w, inputs, weights, task, row, column, plane, lane) == Product(MatrixId(w, task), row, column)(plane * INPUT_C2 + lane)
  {
    hide InputOffset, WeightOffset, InputStride, WeightStride, InputValue, WeightValue;
    var channel := plane * INPUT_C2 + lane;
    TilePositions(w.m, w.k, row, column, plane, lane);
    assert InputMap(w.m, w.k)(row, channel) == InputOffset(w.m, w.k, row, channel);
    assert WeightMap(w.k)(column, channel) == WeightOffset(w.k, column, channel);
    assert MatrixId(w, SlotOf(w, task)) == MatrixId(w, task);
  }

  lemma PlaneIsGroup(w: Workload, inputs: seq<int>, weights: seq<int>, task: nat, row: nat, column: nat, plane: nat)
    requires row < w.m && column < w.n && plane < w.k / INPUT_C2
    requires InputReady(w, SlotOf(w, task), inputs) && WeightReady(w, SlotOf(w, task), weights)
    ensures PlaneDot(w, inputs, weights, task, row, column, plane) == GroupSum(Product(MatrixId(w, task), row, column), INPUT_C2, plane)
  {
    hide InputReady, WeightReady, TileProduct, Product;
    var f := Product(MatrixId(w, task), row, column);
    forall lane: nat | lane < INPUT_C2 ensures TileProduct(w, inputs, weights, task, row, column, plane, lane) == f(plane * INPUT_C2 + lane) {
      PackBound(plane, lane, w.k / INPUT_C2, INPUT_C2);
      TileIsProduct(w, inputs, weights, task, row, column, plane, lane);
    }
    SumSame((lane: nat) => TileProduct(w, inputs, weights, task, row, column, plane, lane), (lane: nat) => f(plane * INPUT_C2 + lane), INPUT_C2);
  }

  lemma ReadyDot(w: Workload, inputs: seq<int>, weights: seq<int>, task: nat, row: nat, column: nat)
    requires w.k % INPUT_C2 == 0 && row < w.m && column < w.n
    requires InputReady(w, SlotOf(w, task), inputs) && WeightReady(w, SlotOf(w, task), weights)
    ensures TiledDot(w, inputs, weights, task, row, column) == SumTo(Product(MatrixId(w, task), row, column), w.k)
  {
    hide InputReady, WeightReady, PlaneDot, Product, GroupSum, MatrixId;
    var f := Product(MatrixId(w, task), row, column);
    var planes: nat := w.k / INPUT_C2;
    assert w.k == planes * INPUT_C2;
    SumGroups(f, planes, INPUT_C2);
    forall plane: nat | plane < planes ensures PlaneDot(w, inputs, weights, task, row, column, plane) == GroupSum(f, INPUT_C2, plane) {
      PlaneIsGroup(w, inputs, weights, task, row, column, plane);
    }
    SumSame((plane: nat) => PlaneDot(w, inputs, weights, task, row, column, plane), (plane: nat) => GroupSum(f, INPUT_C2, plane), planes);
  }

  /** For every shape of whole planes whose weights fit and do not share places, the
      tile-order dot product over the prepared buffers is the reference result, for every
      task, row and column. */
  lemma TiledDotIsExpected(w: Workload, task: nat, row: nat, column: nat)
    requires w.k % INPUT_C2 == 0 && WeightFits(w) && TilesApart(w.n, w.k)
    requires task < w.tasks && row < w.m && column < w.n
    ensures TiledDot(w, InputsFilled(w), WeightsFilled(w), task, row, column) == SumTo(Product(MatrixId(w, task), row, column), w.k)
  {
    hide InputsFilled, WeightsFilled, InputReady, WeightReady, InputFits, WeightFits, TiledDot, Product, SumTo, MatrixId, InputOffset, InputStride;
    InputFitsIff(w);
    InputReadBack(w, SlotOf(w, task));
    WeightReadBack(w, SlotOf(w, task));
    ReadyDot(w, InputsFilled(w), WeightsFilled(w), task, row, column);
  }

  /** Aligned shapes are among them. */
  lemma AlignedDotIsExpected(w: Workload, task: nat, row: nat, column: nat)
    requires Aligned(w) && task < w.tasks && row < w.m && column < w.n
    ensures TiledDot(w, InputsFilled(w), WeightsFilled(w), task, row, column) == SumTo(Product(MatrixId(w, task), row, column), w.k)
  {
    hide InputsFilled, WeightsFilled, WeightFits, TiledDot, Product, SumTo, MatrixId;
    AlignedWeightsFit(w);
    TiledDotIsExpected(w, task, row, column);
  }

  /** Every partial sum is a small integer, so single precision represents each one
      exactly for every 16-bit channel count: at most 25 per channel in size for
      matrix ids from 0 up, at most 225 when a wrapped id makes remainders negative. */
  lemma {:induction false} PartialSumsExact(id: int, row: nat, column: nat, channels: nat)
    ensures -225 * channels <= SumTo(Product(id, row, column), channels) <= 225 * channels
    ensures id >= 0 ==> -25 * channels <= SumTo(Product(id, row, column), channels) <= 25 * channels
    ensures channels < 0x1_0000 ==> -0x100_0000 < SumTo(Product(id, row, column), channels) < 0x100_0000
  {
    hide InputValue, WeightValue;
    if channels > 0 {
      PartialSumsExact(id, row, column, channels - 1);
      ValueRange(id, row, channels - 1);
      ValueRange(id, column, channels - 1);
      SmallProduct(InputValue(id, row, channels - 1), WeightValue(id, column, channels - 1));
    }
  }

  lemma ValueRange(id: int, line: nat, channel: nat)
    ensures -15 <= InputValue(id, line, channel) <= 5 && -15 <= WeightValue(id, line, channel) <= 5
    ensures id >= 0 ==> -5 <= InputValue(id, line, channel) && -5 <= WeightValue(id, line, channel)
  {
  }

  lemma SmallProduct(a: int, b: int)
    requires -15 <= a <= 5 && -15 <= b <= 5
    ensures -225 <= a * b <= 225
    ensures -5 <= a && -5 <= b ==> -25 <= a * b <= 25
  {
  }
}
