/**
  The NPU scheduler: live submits, priority buckets, core bindings, terminal
  submits and their waiters, as one state machine whose steps are the sections
  the driver runs under the scheduler lock.
*/
module SchedulerSpec {
  import opened Options
  import opened QueueTask

  const CORES: nat := 3

  /** One entry of a priority-ordered map of FIFO queues. */
  datatype Bucket = Bucket(priority: int, ids: seq<nat>)

  /** Core -> submit, lane and descriptor index it is executing. */
  datatype Binding = Binding(id: nat, lane: nat, index: nat)

  /**
    `pending` holds terminal submits whose waiter has not been signalled yet,
    `woken` the signalled ones. `submitted` and `trace` are histories: every
    accepted header, and every dispatch in the order it was reserved.
  */
  datatype Sched = Sched(
    tasks: map<nat, QTask>,
    ready: seq<Bucket>,
    running: seq<Bucket>,
    cores: map<nat, Binding>,
    complete: map<nat, QTask>,
    waiters: set<nat>,
    nextId: nat,
    pending: set<nat>,
    woken: set<nat>,
    submitted: map<nat, Meta>,
    trace: seq<Binding>)

  const Init := Sched(map[], [], [], map[], map[], {}, 1, {}, {}, map[], [])

  // ---------------------------------------------------------------- buckets

  ghost predicate In(bs: seq<Bucket>, id: nat) {
    exists i :: 0 <= i < |bs| && id in bs[i].ids
  }

  function Flat(bs: seq<Bucket>): seq<nat> {
    if bs == [] then [] else bs[0].ids + Flat(bs[1..])
  }

  predicate NoDup<T(==)>(s: seq<T>) {
    forall i, j :: 0 <= i < j < |s| ==> s[i] != s[j]
  }

  /** Priorities ascend strictly; no queue is empty or repeats an id; every id
      is live and sits in the queue of its own priority. */
  ghost predicate BucketsOk(bs: seq<Bucket>, tasks: map<nat, QTask>) {
    && (forall i, j :: 0 <= i < j < |bs| ==> bs[i].priority < bs[j].priority)
    && (forall i :: 0 <= i < |bs| ==> bs[i].ids != [] && NoDup(bs[i].ids))
    && (forall i, id :: 0 <= i < |bs| && id in bs[i].ids ==>
          id in tasks && tasks[id].meta.priority == bs[i].priority)
  }

  function Push(bs: seq<Bucket>, p: int, id: nat): seq<Bucket> {
    if bs == [] || p < bs[0].priority then [Bucket(p, [id])] + bs
    else if bs[0].priority == p then
      if id in bs[0].ids then bs else [Bucket(p, bs[0].ids + [id])] + bs[1..]
    else [bs[0]] + Push(bs[1..], p, id)
  }

  function Without(ids: seq<nat>, id: nat): seq<nat> {
    if ids == [] then [] else if ids[0] == id then ids[1..] else [ids[0]] + Without(ids[1..], id)
  }

  function RemoveId(bs: seq<Bucket>, id: nat): seq<Bucket> {
    if bs == [] then []
    else
      var ids := Without(bs[0].ids, id);
      (if ids == [] then [] else [Bucket(bs[0].priority, ids)]) + RemoveId(bs[1..], id)
  }

  // -------------------------------------------------------------- selection

  predicate CanRun(tasks: map<nat, QTask>, core: nat, id: nat) {
    && id in tasks && Shaped(tasks[id])
    && AllowsCore(tasks[id], core) && NextDispatchable(tasks[id]).Some?
  }

  /** The first id, in queue order, that may run on `core`. */
  function First(ids: seq<nat>, tasks: map<nat, QTask>, core: nat): (r: Option<nat>)
    ensures r.Some? ==> exists i :: 0 <= i < |ids| && ids[i] == r.value && CanRun(tasks, core, r.value)
                                    && forall j :: 0 <= j < i ==> !CanRun(tasks, core, ids[j])
    ensures r.None? ==> forall j :: 0 <= j < |ids| ==> !CanRun(tasks, core, ids[j])
  {
    if ids == [] then None
    else if CanRun(tasks, core, ids[0]) then
      assert ids[0] == ids[0];
      Some(ids[0])
    else
      var r := First(ids[1..], tasks, core);
      assert forall j :: 1 <= j < |ids| ==> ids[j] == ids[1..][j - 1];
      assert forall j :: 0 <= j < |ids| - 1 ==> ids[1..][j] == ids[j + 1];
      r
  }

  function Candidate(bs: seq<Bucket>, tasks: map<nat, QTask>, core: nat): Option<nat> {
    First(Flat(bs), tasks, core)
  }

  /** The lowest idle core at or above `c` for which `bs` holds a candidate. */
  function FirstCore(s: Sched, bs: seq<Bucket>, c: nat): (r: Option<nat>)
    ensures r.Some? ==> && c <= r.value < CORES && r.value !in s.cores
                        && Candidate(bs, s.tasks, r.value).Some?
                        && forall d :: c <= d < r.value ==> d in s.cores || Candidate(bs, s.tasks, d).None?
    ensures r.None? ==> forall d :: c <= d < CORES ==> d in s.cores || Candidate(bs, s.tasks, d).None?
    decreases CORES - c
  {
    if c >= CORES then None
    else if c !in s.cores && Candidate(bs, s.tasks, c).Some? then Some(c)
    else FirstCore(s, bs, c + 1)
  }

  // ------------------------------------------------------------------ steps

  function Enqueue(s: Sched, meta: Meta, descs: seq<Desc>): Sched {
    var id := s.nextId;
    s.(tasks := s.tasks[id := NewTask(meta, descs)],
       ready := Push(s.ready, meta.priority, id),
       waiters := s.waiters + {id},
       nextId := id + 1,
       submitted := s.submitted[id := meta])
  }

  /** Bind `id`'s next task to `core`, clearing its stale interrupt status. */
  function Bind(s: Sched, core: nat, id: nat): Sched
    requires CanRun(s.tasks, core, id)
  {
    var q := s.tasks[id];
    var (lane, index) := NextDispatchable(q).value;
    var q1 := Reserve(q).(descs := q.descs[index := q.descs[index].(intStatus := 0)]);
    var b := Binding(id, lane, index);
    s.(tasks := s.tasks[id := q1], cores := s.cores[core := b], trace := s.trace + [b])
  }

  /** Running submits fill idle cores first; only when none can, a ready submit is promoted. */
  function Dispatch(s: Sched): Option<(Sched, nat)> {
    match FirstCore(s, s.running, 0)
    case Some(c) => Some((Bind(s, c, Candidate(s.running, s.tasks, c).value), c))
    case None =>
      match FirstCore(s, s.ready, 0)
      case Some(c) =>
        var id := Candidate(s.ready, s.tasks, c).value;
        var s1 := s.(ready := RemoveId(s.ready, id),
                     running := Push(s.running, s.tasks[id].meta.priority, id));
        Some((Bind(s1, c, id), c))
      case None => None
  }

  function Reclassify(s: Sched, id: nat): Sched {
    var ready := RemoveId(s.ready, id);
    var running := RemoveId(s.running, id);
    if id !in s.tasks then s.(ready := ready, running := running)
    else
      var q := s.tasks[id];
      if Terminal(q) then
        s.(ready := ready, running := running, tasks := s.tasks - {id}, complete := s.complete[id := q])
      else if HasRunning(q) then
        s.(ready := ready, running := Push(running, q.meta.priority, id))
      else if Shaped(q) && NextDispatchable(q).Some? then
        s.(ready := Push(ready, q.meta.priority, id), running := running)
      else s.(ready := ready, running := running)
  }

  /** Reclassify and, when that made the submit terminal, note that its waiter must be signalled. */
  function Settle(s: Sched, id: nat): Sched {
    var s1 := Reclassify(s, id);
    if id in s.tasks && id !in s1.tasks then s1.(pending := s1.pending + {id}) else s1
  }

  /** The reported bits the task asked to wait for. */
  function Masked(status: bv32, mask: bv32): bv32 { status & mask }

  /** What one harvested interrupt status does to the submit that owns the core. */
  function Harvested(q: QTask, b: Binding, status: bv32): QTask
    requires Shaped(q) && b.lane < |q.laneRun|
  {
    if b.index < |q.descs| then
      var seen := Masked(status, q.descs[b.index].intMask);
      var q1 := Completed(q, b.lane).(descs := q.descs[b.index := q.descs[b.index].(intStatus := seen)]);
      if status != 0 && seen == 0 then q1.(err := Some(TaskError)) else q1
    else Failed(q, b.lane, InvalidParameter)
  }

  predicate BindingShaped(s: Sched, b: Binding) {
    b.id in s.tasks ==> Shaped(s.tasks[b.id]) && b.lane < |s.tasks[b.id].laneRun|
  }

  function Complete(s: Sched, core: nat, status: bv32): Sched
    requires core in s.cores ==> BindingShaped(s, s.cores[core])
  {
    if core !in s.cores then s
    else
      var b := s.cores[core];
      var s1 := s.(cores := s.cores - {core});
      if b.id !in s.tasks then s1
      else Settle(s1.(tasks := s.tasks[b.id := Harvested(s.tasks[b.id], b, status)]), b.id)
  }

  function FailDispatch(s: Sched, core: nat, e: Error): Sched
    requires core in s.cores && BindingShaped(s, s.cores[core])
  {
    var b := s.cores[core];
    var s1 := s.(cores := s.cores - {core});
    if b.id !in s.tasks then Settle(s1, b.id)
    else Settle(s1.(tasks := s.tasks[b.id := Failed(s.tasks[b.id], b.lane, e)]), b.id)
  }

  /** Signal one terminal submit's waiter, or drop the result when nobody waits. */
  function Wake(s: Sched, id: nat, readFailed: bool): Sched {
    var complete := if readFailed && id in s.complete
                    then s.complete[id := s.complete[id].(err := Some(MemoryError))] else s.complete;
    if id in s.waiters then s.(complete := complete, pending := s.pending - {id}, woken := s.woken + {id})
    else s.(complete := complete - {id}, pending := s.pending - {id})
  }

  function Abort(s: Sched, id: nat): Sched {
    var s1 := s.(waiters := s.waiters - {id});
    if id in s.complete then s1.(complete := s.complete - {id})
    else
      var s2 := if id in s.tasks then s1.(tasks := s.tasks[id := s.tasks[id].(err := Some(Interrupted))]) else s1;
      var s3 := Reclassify(s2, id);
      if id in s2.tasks && id !in s3.tasks then s3.(complete := s3.complete - {id}) else s3
  }

  function Take(s: Sched, id: nat): Sched {
    if id in s.complete then s.(complete := s.complete - {id}, waiters := s.waiters - {id}) else s
  }

  /** What the scheduler relies on: at least one task, some work in the lanes, and a
      gap-free layout when tasks are handed out dynamically. */
  ghost predicate HeaderOk(meta: Meta) {
    && meta.total > 0
    && if meta.dynamic then ContiguousFrom(meta.lanes, 0, 0, meta.total)
       else exists l :: 0 <= l < |meta.lanes| && meta.lanes[l].number > 0
  }

  ghost predicate WellFormed(meta: Meta, descs: seq<Desc>) {
    |descs| == meta.total && HeaderOk(meta)
  }

  /** `meta` comes from a header the submit ioctl lets through. */
  ghost predicate FromHeader(meta: Meta, flags: bv32, lanes: seq<Lane>) {
    && lanes != [] && meta.total > 0 && Acceptable(flags, meta.coreMask, lanes, meta.total)
    && meta == FromSubmit(flags, meta.priority, meta.coreMask, lanes, meta.total)
  }

  ghost predicate Admissible(meta: Meta, descs: seq<Desc>) {
    |descs| == meta.total && exists flags, lanes :: FromHeader(meta, flags, lanes)
  }

  /** The ioctl's checks establish what the scheduler relies on. */
  lemma AdmissibleIsWellFormed(meta: Meta, descs: seq<Desc>)
    requires Admissible(meta, descs)
    ensures WellFormed(meta, descs)
  {
    hide Acceptable, FromSubmit;
    var flags, lanes :| FromHeader(meta, flags, lanes);
    AcceptedHeader(flags, meta.priority, meta.coreMask, lanes, meta.total);
  }

  ghost predicate Next(s: Sched, s': Sched) {
    || (exists meta, descs :: Admissible(meta, descs) && s' == Enqueue(s, meta, descs))
    || (Dispatch(s).Some? && s' == Dispatch(s).value.0)
    || (exists core, status :: status != 0 && (core in s.cores ==> BindingShaped(s, s.cores[core])) && s' == Complete(s, core, status))
    || (exists core, e :: core in s.cores && BindingShaped(s, s.cores[core]) && s' == FailDispatch(s, core, e))
    || (exists id, readFailed :: id in s.pending && s' == Wake(s, id, readFailed))
    || (exists id :: s' == Abort(s, id))
    || (exists id :: s' == Take(s, id))
  }

  ghost predicate IsRunOf(run: seq<Sched>) {
    && run != [] && run[0] == Init
    && forall i :: 0 <= i < |run| - 1 ==> Next(run[i], run[i + 1])
  }
}
