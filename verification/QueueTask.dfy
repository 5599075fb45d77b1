/**
  One queued submit of the NPU scheduler and its lane state machine.

  A submit owns an array of task descriptors and is split into lanes, each a
  range of descriptor indices. In static mode every lane hands out its range in
  order and has at most one task in flight. In dynamic mode all lanes share one
  cursor over the whole array.
*/
module QueueTask {
  import opened Options
  import opened Sums

  datatype Error = TaskError | Interrupted | MemoryError | InvalidParameter | DriverError(code: int)

  datatype Lane = Lane(start: nat, number: nat)

  /** The part of a task descriptor the scheduler reads and writes. */
  datatype Desc = Desc(intMask: bv32, intStatus: bv32)

  datatype Meta = Meta(dynamic: bool, priority: int, coreMask: bv32, lanes: seq<Lane>, total: nat)

  datatype QTask = QTask(
    meta: Meta,
    descs: seq<Desc>,
    cursors: seq<nat>,
    laneRun: seq<bool>,
    next: nat,
    running: nat,
    completed: nat,
    err: Option<Error>)

  // ---------------------------------------------------------------- layouts

  function Numbers(lanes: seq<Lane>): (r: seq<nat>)
    ensures |r| == |lanes|
    ensures forall l :: 0 <= l < |r| ==> r[l] == lanes[l].number
  {
    seq(|lanes|, l requires 0 <= l < |lanes| => lanes[l].number)
  }

  /** How many of a lane's indices lie inside the descriptor array. */
  function Cap(m: Meta, l: nat): (c: nat)
    requires l < |m.lanes|
    ensures c <= m.lanes[l].number && c <= m.total
  {
    var lane := m.lanes[l];
    if lane.start >= m.total then 0 else Min(lane.number, m.total - lane.start)
  }

  function Caps(m: Meta): (r: seq<nat>)
    ensures |r| == |m.lanes|
    ensures forall l :: 0 <= l < |r| ==> r[l] == Cap(m, l)
  {
    seq(|m.lanes|, l requires 0 <= l < |m.lanes| => Cap(m, l))
  }

  /** The number of dispatches the lanes can produce. */
  function Slots(m: Meta): nat { Sum(Caps(m)) }

  /** How many completions make the submit terminal on success. Lane sizes are added
      as 32-bit values. */
  function Target(m: Meta): nat {
    if m.dynamic then m.total
    else
      var sum := Sum(Numbers(m.lanes)) % U32;
      if sum == 0 then m.total else Min(sum, m.total)
  }

  /** A submit header that leaves every lane empty gets lane 0 over the whole array. */
  function Normalize(lanes: seq<Lane>, total: nat): (r: seq<Lane>)
    requires lanes != []
    ensures |r| == |lanes|
    ensures total > 0 ==> exists l :: 0 <= l < |r| && r[l].number > 0
    ensures total == 0 || (exists l :: 0 <= l < |lanes| && lanes[l].number > 0) ==> r == lanes
    ensures total > 0 && (forall l :: 0 <= l < |lanes| ==> lanes[l].number == 0) ==> r == lanes[0 := Lane(0, total)]
  {
    if total > 0 && forall l :: 0 <= l < |lanes| ==> lanes[l].number == 0
    then
      var r := lanes[0 := Lane(0, total)];
      assert r[0].number > 0;
      r
    else lanes
  }

  predicate Covers(lane: Lane, index: nat) {
    lane.start <= index < lane.start + lane.number
  }

  /** Lanes `i..` continue, without gap or overlap, from `next` up to `total`. */
  predicate ContiguousFrom(lanes: seq<Lane>, i: nat, next: nat, total: nat)
    requires i <= |lanes|
    decreases |lanes| - i
  {
    if i == |lanes| then next == total
    else if lanes[i].number == 0 then lanes[i].start == 0 && ContiguousFrom(lanes, i + 1, next, total)
    else
      && lanes[i].start == next
      && next + lanes[i].number <= total
      && ContiguousFrom(lanes, i + 1, next + lanes[i].number, total)
  }

  const DYNAMIC_TASKS: bv32 := 0x20
  const ALLOWED_FLAGS: bv32 := 0x3F
  const VALID_CORES: bv32 := 0x7

  /** A submit the driver lets through: any static one, and a dynamic one with known
      flags, existing cores and a gap-free layout. */
  predicate Acceptable(flags: bv32, coreMask: bv32, lanes: seq<Lane>, total: nat) {
    flags & DYNAMIC_TASKS == 0
    || (flags & !ALLOWED_FLAGS == 0 && coreMask & !VALID_CORES == 0 && total > 0 && ContiguousFrom(lanes, 0, 0, total))
  }

  /** The metadata the scheduler keeps of a submit header. */
  function FromSubmit(flags: bv32, priority: int, coreMask: bv32, lanes: seq<Lane>, total: nat): Meta
    requires lanes != []
  {
    Meta(flags & DYNAMIC_TASKS != 0, priority, coreMask, Normalize(lanes, total), total)
  }

  lemma {:induction false} ContiguousHasWork(lanes: seq<Lane>, i: nat, next: nat, total: nat)
    requires i <= |lanes| && ContiguousFrom(lanes, i, next, total) && next < total
    ensures exists l :: i <= l < |lanes| && lanes[l].number > 0
    decreases |lanes| - i
  {
    if lanes[i].number == 0 { ContiguousHasWork(lanes, i + 1, next, total); }
  }

  /** Every header let through with at least one task gives metadata with work in some
      lane, and a gap-free layout in dynamic mode: normalizing leaves that layout alone. */
  lemma AcceptedHeader(flags: bv32, priority: int, coreMask: bv32, lanes: seq<Lane>, total: nat)
    requires lanes != [] && total > 0 && Acceptable(flags, coreMask, lanes, total)
    ensures var m := FromSubmit(flags, priority, coreMask, lanes, total);
      && (m.dynamic ==> ContiguousFrom(m.lanes, 0, 0, total))
      && exists l :: 0 <= l < |m.lanes| && m.lanes[l].number > 0
  {
    if flags & DYNAMIC_TASKS != 0 { ContiguousHasWork(lanes, 0, 0, total); }
  }

  /** The layout test applied to submits before they reach the scheduler. */
  method DynamicLayoutIsValid(flags: bv32, coreMask: bv32, lanes: seq<Lane>, total: nat) returns (ok: bool)
    ensures ok <==> Acceptable(flags, coreMask, lanes, total)
  {
    if flags & DYNAMIC_TASKS == 0 {
      return true;
    }
    if flags & !ALLOWED_FLAGS != 0 || coreMask & !VALID_CORES != 0 || total == 0 {
      return false;
    }
    var next: nat := 0;
    for i := 0 to |lanes|
      invariant ContiguousFrom(lanes, 0, 0, total) <==> ContiguousFrom(lanes, i, next, total)
    {
      var lane := lanes[i];
      if lane.number == 0 {
        if lane.start != 0 {
          return false;
        }
      } else {
        if lane.start != next {
          return false;
        }
        var end := lane.start + lane.number;
        if end > total {
          return false;
        }
        next := end;
      }
    }
    return next == total;
  }

  /** Lane `l` is the only lane that owns descriptor `index`. */
  predicate SoleOwner(lanes: seq<Lane>, l: nat, index: nat) {
    && l < |lanes| && Covers(lanes[l], index)
    && forall k :: 0 <= k < |lanes| && Covers(lanes[k], index) ==> k == l
  }

  lemma {:induction false} ContiguousOwner(lanes: seq<Lane>, i: nat, next: nat, total: nat, index: nat)
    returns (l: nat)
    requires i <= |lanes| && ContiguousFrom(lanes, i, next, total)
    requires next <= index < total
    ensures i <= l < |lanes| && Covers(lanes[l], index)
    ensures forall k :: i <= k < |lanes| && Covers(lanes[k], index) ==> k == l
    decreases |lanes| - i
  {
    if lanes[i].number == 0 {
      l := ContiguousOwner(lanes, i + 1, next, total, index);
    } else if index < next + lanes[i].number {
      l := i;
      ContiguousAbove(lanes, i + 1, next + lanes[i].number, total, index);
    } else {
      l := ContiguousOwner(lanes, i + 1, next + lanes[i].number, total, index);
    }
  }

  lemma {:induction false} ContiguousAbove(lanes: seq<Lane>, i: nat, next: nat, total: nat, index: nat)
    requires i <= |lanes| && ContiguousFrom(lanes, i, next, total) && index < next
    ensures forall k :: i <= k < |lanes| ==> !Covers(lanes[k], index)
    decreases |lanes| - i
  {
    if i < |lanes| {
      ContiguousAbove(lanes, i + 1, next + lanes[i].number, total, index);
    }
  }

  /** An accepted dynamic layout gives every descriptor exactly one origin lane. */
  lemma ValidLayoutPartitions(lanes: seq<Lane>, total: nat, index: nat)
    requires ContiguousFrom(lanes, 0, 0, total) && index < total
    ensures exists l: nat :: SoleOwner(lanes, l, index)
  {
    var l := ContiguousOwner(lanes, 0, 0, total, index);
    assert SoleOwner(lanes, l, index);
  }

  // ------------------------------------------------------------- task state

  function NewTask(meta: Meta, descs: seq<Desc>): QTask {
    QTask(meta, descs, seq(|meta.lanes|, _ => 0), seq(|meta.lanes|, _ => false), 0, 0, 0, None)
  }

  predicate Shaped(q: QTask) { |q.cursors| == |q.laneRun| == |q.meta.lanes| }

  predicate HasRunning(q: QTask) {
    if q.meta.dynamic then q.running != 0 else true in q.laneRun
  }

  function CompletedCount(q: QTask): nat {
    if q.meta.dynamic then Min(q.completed, q.meta.total) else Min(Sum(q.cursors), Target(q.meta))
  }

  predicate TerminalSuccess(q: QTask) {
    q.err == None && CompletedCount(q) >= Target(q.meta)
  }

  predicate TerminalFault(q: QTask) {
    q.err.Some? && !HasRunning(q)
  }

  predicate Terminal(q: QTask) { TerminalSuccess(q) || TerminalFault(q) }

  function CoreBit(core: nat): bv32 {
    if core == 0 then 1 else if core == 1 then 2 else if core == 2 then 4 else 0
  }

  predicate AllowsCore(q: QTask, core: nat) {
    q.meta.coreMask == 0 || q.meta.coreMask & CoreBit(core) != 0
  }

  /** Shape and counting facts every live submit keeps. */
  ghost predicate QInv(q: QTask) {
    && Shaped(q)
    && |q.descs| == q.meta.total > 0
    && (if q.meta.dynamic then
          && ContiguousFrom(q.meta.lanes, 0, 0, q.meta.total)
          && q.completed + q.running <= q.next <= q.meta.total
          && (q.err == None ==> q.completed + q.running == q.next)
        else
          && (exists l :: 0 <= l < |q.meta.lanes| && q.meta.lanes[l].number > 0)
          && forall l :: 0 <= l < |q.meta.lanes| ==>
               && q.cursors[l] <= Cap(q.meta, l)
               && (q.laneRun[l] ==> q.cursors[l] < Cap(q.meta, l)))
  }

  // --------------------------------------------------- selecting a dispatch

  /** Lane `l` is idle and its next index lies inside the array. */
  predicate LaneOpen(q: QTask, l: nat)
    requires Shaped(q)
  {
    && l < |q.meta.lanes| && !q.laneRun[l]
    && q.cursors[l] < q.meta.lanes[l].number
    && q.meta.lanes[l].start + q.cursors[l] < q.meta.total
    && q.meta.lanes[l].start + q.cursors[l] < |q.descs|
  }

  /** What `NextDispatchable` must return: the lowest open lane, or the shared cursor. */
  ghost predicate IsNext(q: QTask, r: Option<(nat, nat)>)
    requires Shaped(q)
  {
    if q.err.Some? then r == None
    else if q.meta.dynamic then
      match r
      case Some((l, index)) =>
        && index == q.next < q.meta.total && index < |q.descs|
        && l < |q.meta.lanes| && Covers(q.meta.lanes[l], index)
        && forall k :: 0 <= k < l ==> !Covers(q.meta.lanes[k], index)
      case None =>
        || q.next >= q.meta.total || q.next >= |q.descs|
        || forall k :: 0 <= k < |q.meta.lanes| ==> !Covers(q.meta.lanes[k], q.next)
    else
      match r
      case Some((l, index)) =>
        && LaneOpen(q, l) && index == q.meta.lanes[l].start + q.cursors[l]
        && forall k: nat :: k < l ==> !LaneOpen(q, k)
      case None => forall k: nat :: !LaneOpen(q, k)
  }

  function FirstOpen(q: QTask, l: nat): (r: Option<(nat, nat)>)
    requires Shaped(q) && l <= |q.meta.lanes|
    ensures r.Some? ==> l <= r.value.0 && LaneOpen(q, r.value.0)
                        && r.value.1 == q.meta.lanes[r.value.0].start + q.cursors[r.value.0]
                        && forall k: nat :: l <= k < r.value.0 ==> !LaneOpen(q, k)
    ensures r.None? ==> forall k: nat :: l <= k ==> !LaneOpen(q, k)
    decreases |q.meta.lanes| - l
  {
    if l == |q.meta.lanes| then None
    else if LaneOpen(q, l) then Some((l, q.meta.lanes[l].start + q.cursors[l]))
    else FirstOpen(q, l + 1)
  }

  function OriginLane(lanes: seq<Lane>, index: nat, l: nat): (r: Option<nat>)
    requires l <= |lanes|
    ensures r.Some? ==> l <= r.value < |lanes| && Covers(lanes[r.value], index)
                        && forall k :: l <= k < r.value ==> !Covers(lanes[k], index)
    ensures r.None? ==> forall k :: l <= k < |lanes| ==> !Covers(lanes[k], index)
    decreases |lanes| - l
  {
    if l == |lanes| then None
    else if Covers(lanes[l], index) then Some(l)
    else OriginLane(lanes, index, l + 1)
  }

  /** The next (lane, descriptor index) this submit hands out; nothing once it has failed. */
  function NextDispatchable(q: QTask): (r: Option<(nat, nat)>)
    requires Shaped(q)
    ensures IsNext(q, r)
  {
    if q.err.Some? then None
    else if q.meta.dynamic then
      if q.next >= q.meta.total || q.next >= |q.descs| then None
      else match OriginLane(q.meta.lanes, q.next, 0)
        case Some(l) => Some((l, q.next))
        case None => None
    else FirstOpen(q, 0)
  }

  /** The lane scan as the driver runs it. */
  method FindDispatchable(q: QTask) returns (r: Option<(nat, nat)>)
    requires Shaped(q)
    ensures r == NextDispatchable(q)
  {
    if q.err.Some? {
      return None;
    }
    if q.meta.dynamic {
      if q.next >= q.meta.total || q.next >= |q.descs| {
        return None;
      }
      for l := 0 to |q.meta.lanes|
        invariant OriginLane(q.meta.lanes, q.next, 0) == OriginLane(q.meta.lanes, q.next, l)
      {
        var end := q.meta.lanes[l].start + q.meta.lanes[l].number;
        if q.meta.lanes[l].number > 0 && q.next >= q.meta.lanes[l].start && q.next < end {
          return Some((l, q.next));
        }
      }
      return None;
    }
    for l := 0 to |q.meta.lanes|
      invariant FirstOpen(q, 0) == FirstOpen(q, l)
    {
      if q.laneRun[l] {
        continue;
      }
      if q.meta.lanes[l].number == 0 {
        continue;
      }
      var cursor := q.cursors[l];
      if cursor >= q.meta.lanes[l].number {
        continue;
      }
      var index := q.meta.lanes[l].start + cursor;
      if index >= q.meta.total || index >= |q.descs| {
        continue;
      }
      return Some((l, index));
    }
    return None;
  }

  // ------------------------------------------------------------ transitions

  function Reserve(q: QTask): QTask
    requires Shaped(q)
    requires NextDispatchable(q).Some?
  {
    var (l, index) := NextDispatchable(q).value;
    if q.meta.dynamic then q.(next := q.next + 1, running := q.running + 1)
    else q.(laneRun := q.laneRun[l := true])
  }

  function Completed(q: QTask, l: nat): QTask
    requires Shaped(q) && l < |q.laneRun|
  {
    if q.meta.dynamic then
      q.(running := if q.running == 0 then 0 else q.running - 1,
         completed := Min(q.completed + 1, q.meta.total))
    else
      var q1 := q.(laneRun := q.laneRun[l := false]);
      if q.meta.lanes[l].number == 0 then q1
      else q1.(cursors := q.cursors[l := Min(q.cursors[l] + 1, q.meta.lanes[l].number)])
  }

  function Failed(q: QTask, l: nat, e: Error): QTask
    requires Shaped(q) && l < |q.laneRun|
  {
    if q.meta.dynamic then q.(running := if q.running == 0 then 0 else q.running - 1, err := Some(e))
    else q.(laneRun := q.laneRun[l := false], err := Some(e))
  }

  lemma NewTaskInv(meta: Meta, descs: seq<Desc>)
    requires |descs| == meta.total > 0
    requires if meta.dynamic then ContiguousFrom(meta.lanes, 0, 0, meta.total)
             else exists l :: 0 <= l < |meta.lanes| && meta.lanes[l].number > 0
    ensures QInv(NewTask(meta, descs)) && !HasRunning(NewTask(meta, descs)) && !Terminal(NewTask(meta, descs))
  {
    var q := NewTask(meta, descs);
    SumZeros(q.cursors);
    if !meta.dynamic {
      TargetPositive(meta);
    }
  }

  lemma TargetPositive(m: Meta)
    requires !m.dynamic && m.total > 0
    ensures 0 < Target(m) <= m.total
  {
  }

  /** A valid dynamic submit always has an origin lane for its next descriptor. */
  lemma DynamicNext(q: QTask)
    requires QInv(q) && q.meta.dynamic && q.err == None && q.next < q.meta.total
    ensures NextDispatchable(q).Some?
  {
    var l := ContiguousOwner(q.meta.lanes, 0, 0, q.meta.total, q.next);
  }

  // ------------------------------------------------- runs of a static submit

  /** One error-free step: hand out the next task or complete a running lane.
      A terminal submit has left the scheduler and takes no step. */
  ghost predicate StaticStep(q: QTask, q': QTask) {
    && QInv(q) && !TerminalSuccess(q)
    && ((NextDispatchable(q).Some? && q' == Reserve(q))
        || (exists l: nat :: l < |q.laneRun| && q.laneRun[l] && q' == Completed(q, l)))
  }

  ghost predicate IsRun(m: Meta, run: seq<QTask>) {
    && run != []
    && (exists descs :: |descs| == m.total && run[0] == NewTask(m, descs))
    && forall i :: 0 <= i < |run| - 1 ==> StaticStep(run[i], run[i + 1])
  }

  predicate StaticLayout(m: Meta) {
    !m.dynamic && m.total > 0 && exists l :: 0 <= l < |m.lanes| && m.lanes[l].number > 0
  }

  predicate Stuck(q: QTask) {
    Shaped(q) && !Terminal(q) && !HasRunning(q) && NextDispatchable(q).None?
  }

  /** Reserving a lane or completing one keeps the shape of a submit. */
  lemma StaticStepInv(q: QTask, q': QTask)
    requires StaticStep(q, q') && StaticLayout(q.meta) && q.err == None
    ensures QInv(q') && q'.meta == q.meta && q'.err == None
  {
  }

  lemma {:induction false} RunInv(m: Meta, run: seq<QTask>, i: nat)
    requires StaticLayout(m) && IsRun(m, run) && i < |run|
    ensures QInv(run[i]) && run[i].meta == m && run[i].err == None
  {
    if i == 0 {
      var descs :| |descs| == m.total && run[0] == NewTask(m, descs);
      NewTaskInv(m, descs);
    } else {
      RunInv(m, run, i - 1);
      assert StaticStep(run[i - 1], run[i - 1 + 1]);
      StaticStepInv(run[i - 1], run[i]);
    }
  }

  function Last<T>(s: seq<T>): T requires s != [] { s[|s| - 1] }

  lemma Extend(m: Meta, run: seq<QTask>, q': QTask)
    requires IsRun(m, run) && StaticStep(Last(run), q')
    ensures IsRun(m, run + [q'])
  {
    var run' := run + [q'];
    assert run'[0] == run[0];
    forall i | 0 <= i < |run'| - 1 ensures StaticStep(run'[i], run'[i + 1]) {
      if i < |run| - 1 {
        assert run'[i] == run[i] && run'[i + 1] == run[i + 1];
      }
    }
  }

  /** An idle submit with nothing to hand out has used every slot of its lanes. */
  lemma ExhaustedCursors(q: QTask)
    requires QInv(q) && StaticLayout(q.meta) && q.err == None
    requires !HasRunning(q) && NextDispatchable(q).None?
    ensures q.cursors == Caps(q.meta) && Sum(q.cursors) == Slots(q.meta)
  {
    forall l: nat | l < |q.cursors| ensures q.cursors[l] == Cap(q.meta, l) {
      assert !LaneOpen(q, l);
      assert !q.laneRun[l];
    }
  }

  /** Enough slots: an idle submit with nothing to hand out has finished. */
  lemma ExhaustedIsTerminal(q: QTask)
    requires QInv(q) && StaticLayout(q.meta) && q.err == None && Slots(q.meta) >= Target(q.meta)
    requires !HasRunning(q) && NextDispatchable(q).None?
    ensures TerminalSuccess(q)
  {
    ExhaustedCursors(q);
  }

  /** No surplus slots: a submit that has met its target has nothing in flight. */
  lemma FinishedIsIdle(q: QTask)
    requires QInv(q) && StaticLayout(q.meta) && Slots(q.meta) <= Target(q.meta)
    requires TerminalSuccess(q)
    ensures !HasRunning(q)
  {
    SumTight(q.cursors, Caps(q.meta));
  }

  /** Handing out a static task and completing it advances that lane's cursor by one. */
  lemma ServeOnce(q: QTask)
    requires QInv(q) && StaticLayout(q.meta) && q.err == None
    requires !TerminalSuccess(q) && NextDispatchable(q).Some?
    ensures var l := NextDispatchable(q).value.0;
            && LaneOpen(q, l)
            && StaticStep(q, Reserve(q))
            && StaticStep(Reserve(q), Completed(Reserve(q), l))
            && Completed(Reserve(q), l) == q.(cursors := q.cursors[l := q.cursors[l] + 1])
            && Sum(Completed(Reserve(q), l).cursors) == Sum(q.cursors) + 1
  {
    var l := NextDispatchable(q).value.0;
    var q1 := Reserve(q);
    StaticStepInv(q, q1);
    assert q1.laneRun[l];
    assert q1.laneRun[l := false] == q.laneRun;
    SumUpdate(q.cursors, l, q.cursors[l] + 1);
  }

  /** Hand out the lowest open lane's task and complete it at once. */
  lemma SerialStep(m: Meta, run: seq<QTask>) returns (run': seq<QTask>, l: nat)
    requires StaticLayout(m) && IsRun(m, run)
    requires !TerminalSuccess(Last(run)) && QInv(Last(run)) && NextDispatchable(Last(run)).Some?
    ensures IsRun(m, run') && QInv(Last(run'))
    ensures l == NextDispatchable(Last(run)).value.0 < |Last(run).cursors|
    ensures Last(run') == Last(run).(cursors := Last(run).cursors[l := Last(run).cursors[l] + 1])
    ensures Sum(Last(run').cursors) == Sum(Last(run).cursors) + 1
  {
    hide StaticStep, Completed, NextDispatchable, LaneOpen, TerminalSuccess, StaticLayout;
    var q := Last(run);
    RunInv(m, run, |run| - 1);
    l := NextDispatchable(q).value.0;
    ServeOnce(q);
    Extend(m, run, Reserve(q));
    Extend(m, run + [Reserve(q)], Completed(Reserve(q), l));
    run' := run + [Reserve(q)] + [Completed(Reserve(q), l)];
    RunInv(m, run', |run'| - 1);
  }

  /** Draining one task at a time ends terminal or stuck. */
  lemma {:induction false} Drain(m: Meta, run: seq<QTask>) returns (run': seq<QTask>)
    requires StaticLayout(m) && IsRun(m, run) && QInv(Last(run)) && !HasRunning(Last(run))
    requires Sum(Last(run).cursors) <= Slots(m) && Last(run).meta == m
    ensures IsRun(m, run') && QInv(Last(run')) && !HasRunning(Last(run')) && Last(run').meta == m
    ensures TerminalSuccess(Last(run')) || NextDispatchable(Last(run')).None?
    decreases Slots(m) - Sum(Last(run).cursors)
  {
    var q := Last(run);
    if TerminalSuccess(q) || NextDispatchable(q).None? {
      run' := run;
    } else {
      var run1, l := SerialStep(m, run);
      SumLeq(Last(run1).cursors, Caps(m));
      run' := Drain(m, run1);
    }
  }

  lemma FreshRun(m: Meta) returns (run: seq<QTask>)
    requires StaticLayout(m)
    ensures IsRun(m, run) && |run| == 1 && QInv(run[0]) && !HasRunning(run[0]) && run[0].meta == m && run[0].err == None
    ensures Sum(run[0].cursors) == 0 && forall l :: 0 <= l < |run[0].cursors| ==> run[0].cursors[l] == 0
  {
    var descs := seq(m.total, _ => Desc(0, 0));
    run := [NewTask(m, descs)];
    NewTaskInv(m, descs);
    SumZeros(run[0].cursors);
  }

  /** Too few slots: draining the lanes leaves the submit idle, unfinished and with nothing to hand out. */
  lemma ShortLayoutSticks(m: Meta) returns (run: seq<QTask>)
    requires StaticLayout(m) && Slots(m) < Target(m)
    ensures IsRun(m, run) && QInv(Last(run)) && Stuck(Last(run))
  {
    var start := FreshRun(m);
    run := Drain(m, start);
    var q := Last(run);
    RunInv(m, run, |run| - 1);
    if TerminalSuccess(q) {
      SumLeq(q.cursors, Caps(m));
      assert false;
    }
  }

  /** The lowest lane with a slot. */
  lemma {:induction false} FirstLane(m: Meta, i: nat) returns (a: nat)
    requires i <= |m.lanes| && Slots(m) > 0 && forall k :: 0 <= k < i ==> Cap(m, k) == 0
    ensures a < |m.lanes| && Cap(m, a) > 0 && forall k :: 0 <= k < a ==> Cap(m, k) == 0
    decreases |m.lanes| - i
  {
    if i == |m.lanes| {
      SumZeros(Caps(m));
    } else if Cap(m, i) > 0 {
      a := i;
    } else {
      a := FirstLane(m, i + 1);
    }
  }

  /** Serve lane `a` alone until `n` of its tasks are complete. */
  lemma {:induction false} ServeFirst(m: Meta, a: nat, n: nat) returns (run: seq<QTask>)
    requires StaticLayout(m) && a < |m.lanes| && n < Cap(m, a) && n < Target(m)
    requires forall k :: 0 <= k < a ==> Cap(m, k) == 0
    ensures IsRun(m, run) && QInv(Last(run)) && !HasRunning(Last(run)) && Last(run).meta == m && Last(run).err == None
    ensures Last(run).cursors[a] == n == Sum(Last(run).cursors)
  {
    if n == 0 {
      run := FreshRun(m);
    } else {
      var run1 := ServeFirst(m, a, n - 1);
      assert LaneOpen(Last(run1), a);
      var l;
      run, l := SerialStep(m, run1);
      assert l == a;
    }
  }

  /** Serve `n` tasks of lane `a` and leave the next one in flight. */
  lemma HoldFirst(m: Meta, a: nat, n: nat) returns (run: seq<QTask>)
    requires StaticLayout(m) && a < |m.lanes| && n < Cap(m, a) && n < Target(m)
    requires forall k :: 0 <= k < a ==> Cap(m, k) == 0
    ensures IsRun(m, run) && QInv(Last(run)) && Last(run).meta == m && Last(run).err == None
    ensures Last(run).laneRun[a] && Last(run).cursors[a] == n == Sum(Last(run).cursors)
    ensures forall k :: 0 <= k < |m.lanes| && k != a ==> !Last(run).laneRun[k]
  {
    var run1 := ServeFirst(m, a, n);
    var q := Last(run1);
    assert LaneOpen(q, a);
    assert forall k: nat :: k < a ==> !LaneOpen(q, k);
    var q1 := Reserve(q);
    assert forall k :: 0 <= k < |q.laneRun| ==> !q.laneRun[k];
    Extend(m, run1, q1);
    RunInv(m, run1 + [q1], |run1|);
    run := run1 + [q1];
  }

  lemma OthersDone(q: QTask, a: nat)
    requires QInv(q) && !q.meta.dynamic && a < |q.cursors|
    requires forall l :: 0 <= l < |q.cursors| && l != a ==> q.cursors[l] == Cap(q.meta, l)
    ensures Sum(q.cursors) + Cap(q.meta, a) == Slots(q.meta) + q.cursors[a]
  {
    SumUpdate(q.cursors, a, Cap(q.meta, a));
    assert q.cursors[a := Cap(q.meta, a)] == Caps(q.meta);
  }

  /** With lane `a` in flight, complete tasks of the other lanes until the target is met. */
  lemma {:induction false} ServeOthers(m: Meta, a: nat, run: seq<QTask>) returns (run': seq<QTask>)
    requires StaticLayout(m) && a < |m.lanes|
    requires IsRun(m, run) && QInv(Last(run)) && Last(run).meta == m && Last(run).err == None
    requires Last(run).laneRun[a] && Slots(m) + Last(run).cursors[a] >= Target(m) + Cap(m, a)
    requires forall k :: 0 <= k < |m.lanes| && k != a ==> !Last(run).laneRun[k]
    requires Sum(Last(run).cursors) <= Target(m)
    ensures IsRun(m, run') && TerminalSuccess(Last(run')) && HasRunning(Last(run'))
    decreases Target(m) - Sum(Last(run).cursors)
  {
    var q := Last(run);
    if Sum(q.cursors) == Target(m) {
      assert true in q.laneRun;
      run' := run;
    } else {
      if NextDispatchable(q).None? {
        forall l: nat | l < |q.cursors| && l != a ensures q.cursors[l] == Cap(m, l) {
          assert !LaneOpen(q, l);
        }
        OthersDone(q, a);
        assert false;
      }
      var run1, l := SerialStep(m, run);
      run' := ServeOthers(m, a, run1);
    }
  }

  /** At most one lane has anything in range. */
  predicate OneLane(m: Meta) {
    forall k, l :: 0 <= k < |m.lanes| && 0 <= l < |m.lanes| && Cap(m, k) > 0 && Cap(m, l) > 0 ==> k == l
  }

  lemma OtherSlots(m: Meta, a: nat, l: nat)
    requires a < |m.lanes| && l < |m.lanes| && a != l && Cap(m, l) > 0
    ensures Slots(m) > Cap(m, a)
  {
    SumUpdate(Caps(m), a, 0);
    SumAt(Caps(m)[a := 0], l);
  }

  /** Too many slots in several lanes: the submit can be declared finished while a lane
      still runs on a core. */
  lemma LongLayoutEndsEarly(m: Meta) returns (run: seq<QTask>)
    requires StaticLayout(m) && Slots(m) > Target(m) && !OneLane(m)
    ensures IsRun(m, run) && TerminalSuccess(Last(run)) && HasRunning(Last(run))
  {
    TargetPositive(m);
    var a := FirstLane(m, 0);
    var k, l :| 0 <= k < |m.lanes| && 0 <= l < |m.lanes| && Cap(m, k) > 0 && Cap(m, l) > 0 && k != l;
    OtherSlots(m, a, if k == a then l else k);
    var run1 := HoldFirst(m, a, Min(Cap(m, a), Target(m)) - 1);
    run := ServeOthers(m, a, run1);
  }

  /** With a single lane a task in flight means the target is not met yet. */
  lemma {:induction false} OneLaneEndsIdle(m: Meta, run: seq<QTask>, i: nat)
    requires StaticLayout(m) && OneLane(m) && IsRun(m, run) && i < |run|
    ensures TerminalSuccess(run[i]) ==> !HasRunning(run[i])
  {
    RunInv(m, run, i);
    if i == 0 {
      var descs :| |descs| == m.total && run[0] == NewTask(m, descs);
      NewTaskInv(m, descs);
    } else {
      RunInv(m, run, i - 1);
      assert StaticStep(run[i - 1], run[i - 1 + 1]);
      OneLaneStep(run[i - 1], run[i]);
    }
  }

  lemma OneLaneStep(q: QTask, q': QTask)
    requires StaticStep(q, q') && StaticLayout(q.meta) && OneLane(q.meta) && q.err == None
    ensures TerminalSuccess(q') ==> !HasRunning(q')
  {
    if TerminalSuccess(q') && !(NextDispatchable(q).Some? && q' == Reserve(q)) {
      var l: nat :| l < |q.laneRun| && q.laneRun[l] && q' == Completed(q, l);
      assert Cap(q.meta, l) > 0;
      assert forall k :: 0 <= k < |q.laneRun| && q.laneRun[k] ==> Cap(q.meta, k) > 0;
    }
  }

  /** A static submit can never be left idle and unfinished exactly when its
      lanes hold at least as many in-range tasks as the completion target. */
  lemma NeverStuckIff(m: Meta)
    requires StaticLayout(m)
    ensures (forall run :: IsRun(m, run) ==> !Stuck(Last(run))) <==> Slots(m) >= Target(m)
  {
    if Slots(m) >= Target(m) {
      forall run | IsRun(m, run) ensures !Stuck(Last(run)) {
        RunInv(m, run, |run| - 1);
        if !HasRunning(Last(run)) && NextDispatchable(Last(run)).None? {
          ExhaustedIsTerminal(Last(run));
        }
      }
    } else {
      var run := ShortLayoutSticks(m);
    }
  }

  /** A static submit is only ever declared successful with no task in flight exactly
      when its lanes hold at most as many in-range tasks as the target, or all in one
      lane. The second case needs lane sizes whose 32-bit sum wraps. */
  lemma NeverEarlyIff(m: Meta)
    requires StaticLayout(m)
    ensures (forall run :: IsRun(m, run) ==> (TerminalSuccess(Last(run)) ==> !HasRunning(Last(run))))
            <==> Slots(m) <= Target(m) || OneLane(m)
  {
    if Slots(m) <= Target(m) {
      forall run | IsRun(m, run) ensures TerminalSuccess(Last(run)) ==> !HasRunning(Last(run)) {
        RunInv(m, run, |run| - 1);
        if TerminalSuccess(Last(run)) {
          FinishedIsIdle(Last(run));
        }
      }
    } else if OneLane(m) {
      forall run | IsRun(m, run) ensures TerminalSuccess(Last(run)) ==> !HasRunning(Last(run)) {
        OneLaneEndsIdle(m, run, |run| - 1);
      }
    } else {
      var run := LongLayoutEndsEarly(m);
    }
  }

  lemma {:induction false} ContiguousSums(lanes: seq<Lane>, i: nat, next: nat, total: nat)
    requires i <= |lanes| && ContiguousFrom(lanes, i, next, total) && Sum(Numbers(lanes)[..i]) == next
    ensures Sum(Numbers(lanes)) == total
    ensures forall l :: i <= l < |lanes| && lanes[l].number > 0 ==> lanes[l].start + lanes[l].number <= total
    decreases |lanes| - i
  {
    var ns := Numbers(lanes);
    if i == |lanes| {
      assert ns[..i] == ns;
    } else {
      assert ns[..i + 1][..i] == ns[..i] && ns[..i + 1][i] == lanes[i].number;
      ContiguousSums(lanes, i + 1, next + lanes[i].number, total);
    }
  }

  /** A layout that passes the dynamic test is exact: it neither runs short of nor
      exceeds the completions that end the submit. */
  lemma ContiguousIsExact(m: Meta)
    requires ContiguousFrom(m.lanes, 0, 0, m.total) && m.total < U32
    ensures Slots(m) == Target(m) == m.total
  {
    assert Numbers(m.lanes)[..0] == [];
    ContiguousSums(m.lanes, 0, 0, m.total);
    assert Caps(m) == Numbers(m.lanes);
  }

  // ------------------------------------------------------------ what the numbers mean

  /** The gap-free layouts, said without walking them: every non-empty lane starts where
      the lanes before it end, empty lanes start at 0, and the sizes add up to the total. */
  lemma {:induction false} ContiguousIff(lanes: seq<Lane>, i: nat, next: nat, total: nat)
    requires i <= |lanes| && Sum(Numbers(lanes)[..i]) == next
    ensures ContiguousFrom(lanes, i, next, total) <==> Sum(Numbers(lanes)) == total && forall l :: i <= l < |lanes| ==> Continues(lanes, l)
    decreases |lanes| - i
  {
    hide Continues;
    var ns := Numbers(lanes);
    if i == |lanes| {
      assert ns[..i] == ns;
    } else {
      NextPrefix(lanes, i);
      ContiguousIff(lanes, i + 1, next + lanes[i].number, total);
      SumPrefix(ns, i + 1);
      assert Continues(lanes, i) <==> lanes[i].start == if lanes[i].number == 0 then 0 else next by { ContinuesIff(lanes, i); }
    }
  }

  /** A lane starts where the lanes before it end; an empty one is marked by start 0. */
  ghost predicate Continues(lanes: seq<Lane>, l: nat)
    requires l < |lanes|
  {
    lanes[l].start == if lanes[l].number == 0 then 0 else Sum(Numbers(lanes)[..l])
  }

  lemma ContinuesIff(lanes: seq<Lane>, l: nat)
    requires l < |lanes|
    ensures Continues(lanes, l) <==> lanes[l].start == if lanes[l].number == 0 then 0 else Sum(Numbers(lanes)[..l])
  {
  }

  lemma NextPrefix(lanes: seq<Lane>, i: nat)
    requires i < |lanes|
    ensures Sum(Numbers(lanes)[..i + 1]) == Sum(Numbers(lanes)[..i]) + lanes[i].number
  {
    var ns := Numbers(lanes);
    assert ns[..i + 1][..i] == ns[..i] && ns[..i + 1][i] == lanes[i].number;
  }

  lemma {:induction false} SumPrefix(s: seq<nat>, i: nat)
    requires i <= |s|
    ensures Sum(s[..i]) <= Sum(s)
  {
    if i < |s| {
      assert s[..|s| - 1][..i] == s[..i];
      SumPrefix(s[..|s| - 1], i);
    } else {
      assert s[..i] == s;
    }
  }

  /** How many tasks of a run have been completed. */
  ghost function Completions(run: seq<QTask>): nat {
    if |run| <= 1 then 0
    else Completions(run[..|run| - 1]) + if run[|run| - 1].cursors == run[|run| - 2].cursors then 0 else 1
  }

  lemma ShorterRun(m: Meta, run: seq<QTask>)
    requires IsRun(m, run) && |run| > 1
    ensures IsRun(m, run[..|run| - 1])
  {
    hide StaticStep;
    var before := run[..|run| - 1];
    forall i | 0 <= i < |before| - 1 ensures StaticStep(before[i], before[i + 1]) {
      assert before[i] == run[i] && before[i + 1] == run[i + 1];
    }
  }

  lemma {:induction false} CompletionsAreCursors(m: Meta, run: seq<QTask>)
    requires StaticLayout(m) && IsRun(m, run)
    ensures Completions(run) == Sum(Last(run).cursors)
  {
    hide StaticStep, StaticLayout, QInv, NewTask;
    var n := |run| - 1;
    RunInv(m, run, n);
    if n == 0 {
      FreshSum(m, run);
    } else {
      var before := run[..n];
      ShorterRun(m, run);
      CompletionsAreCursors(m, before);
      assert Last(before) == run[n - 1];
      RunInv(m, run, n - 1);
      assert StaticStep(run[n - 1], run[n - 1 + 1]);
      StepCounts(run[n - 1], run[n]);
    }
  }

  lemma FreshSum(m: Meta, run: seq<QTask>)
    requires IsRun(m, run)
    ensures Sum(run[0].cursors) == 0
  {
    SumZeros(run[0].cursors);
  }

  lemma CompletedCursors(q: QTask, l: nat)
    requires QInv(q) && !q.meta.dynamic && l < |q.laneRun| && q.laneRun[l]
    ensures Completed(q, l).cursors == q.cursors[l := q.cursors[l] + 1]
  {
  }

  lemma StepCounts(q: QTask, q': QTask)
    requires StaticStep(q, q') && StaticLayout(q.meta) && q.err == None
    ensures Sum(q'.cursors) == Sum(q.cursors) + if q'.cursors == q.cursors then 0 else 1
  {
    hide TerminalSuccess, NextDispatchable, Completed, QInv, Sum;
    ShapeOf(q);
    if !(NextDispatchable(q).Some? && q' == Reserve(q)) {
      var l: nat :| l < |q.laneRun| && q.laneRun[l] && q' == Completed(q, l);
      CompletedCursors(q, l);
      SumUpdate(q.cursors, l, q.cursors[l] + 1);
      assert q'.cursors[l] == q.cursors[l] + 1;
    }
  }

  lemma ShapeOf(q: QTask)
    requires QInv(q)
    ensures Shaped(q)
  {
  }

  /** When a static submit is declared successful: after as many completions as its lanes
      have tasks, added up in 32 bits, but never more than there are descriptors, and all
      descriptors when that sum is 0. */
  lemma SuccessAfter(m: Meta, run: seq<QTask>)
    requires StaticLayout(m) && IsRun(m, run)
    ensures var sum := Sum(Numbers(m.lanes)) % 0x1_0000_0000;
      TerminalSuccess(Last(run)) <==> Completions(run) >= if sum == 0 || sum > m.total then m.total else sum
  {
    CompletionsAreCursors(m, run);
    RunInv(m, run, |run| - 1);
  }

  /** The layouts a caller would write, lanes inside the array and no more tasks than
      descriptors, neither stick nor end early in any run. */
  lemma InRangeLayoutServes(m: Meta, run: seq<QTask>)
    requires StaticLayout(m) && IsRun(m, run) && m.total < U32 && Sum(Numbers(m.lanes)) <= m.total
    requires forall l :: 0 <= l < |m.lanes| ==> m.lanes[l].start + m.lanes[l].number <= m.total
    ensures !Stuck(Last(run)) && (TerminalSuccess(Last(run)) ==> !HasRunning(Last(run)))
  {
    hide IsRun, Stuck, TerminalSuccess, HasRunning, StaticLayout, Slots, Target;
    InRangeIsExact(m);
    NeverStuckIff(m);
    NeverEarlyIff(m);
  }

  lemma InRangeIsExact(m: Meta)
    requires StaticLayout(m) && m.total < U32 && Sum(Numbers(m.lanes)) <= m.total
    requires forall l :: 0 <= l < |m.lanes| ==> m.lanes[l].start + m.lanes[l].number <= m.total
    ensures Slots(m) == Target(m)
  {
    assert Caps(m) == Numbers(m.lanes);
    var l :| 0 <= l < |m.lanes| && m.lanes[l].number > 0;
    SumAt(Numbers(m.lanes), l);
  }

  /** The submits let through, in the header's own terms: flag 0x20 asks for dynamic mode,
      which takes no unknown flag, no core beyond the third, and a gap-free layout. */
  lemma AcceptableIff(flags: bv32, coreMask: bv32, lanes: seq<Lane>, total: nat)
    ensures Acceptable(flags, coreMask, lanes, total) <==>
      (flags & 0x20 == 0 || (flags & 0xFFFF_FFC0 == 0 && coreMask & 0xFFFF_FFF8 == 0 && total > 0 && Partition(lanes, total)))
  {
    assert Numbers(lanes)[..0] == [];
    ContiguousIff(lanes, 0, 0, total);
    hide ContiguousFrom, Partition;
    assert ContiguousFrom(lanes, 0, 0, total) <==> Partition(lanes, total);
    KnownBits(flags, coreMask);
  }

  /** Lanes that follow each other from 0 to the total, empty ones marked by start 0. */
  ghost predicate Partition(lanes: seq<Lane>, total: nat) {
    Sum(Numbers(lanes)) == total && forall l :: 0 <= l < |lanes| ==> Continues(lanes, l)
  }

  lemma KnownBits(flags: bv32, coreMask: bv32)
    ensures flags & !ALLOWED_FLAGS == 0 <==> flags & 0xFFFF_FFC0 == 0
    ensures coreMask & !VALID_CORES == 0 <==> coreMask & 0xFFFF_FFF8 == 0
  {
  }
}
