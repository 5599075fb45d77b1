/** The scheduler as the driver keeps it: one object updated in place under one lock. */
module SchedulerImpl {
  import opened Sums
  import opened Options
  import opened QueueTask
  import opened SchedulerSpec
  import opened SchedulerProofs
  import opened SchedulerTheorems

  lemma RemoveStep(bs: seq<Bucket>, i: nat, id: nat)
    requires i < |bs|
    ensures RemoveId(bs[i..], id) ==
      (var ids := Without(bs[i].ids, id); if ids == [] then [] else [Bucket(bs[i].priority, ids)]) + RemoveId(bs[i + 1..], id)
  {
    hide Without;
    assert bs[i..][0] == bs[i] && bs[i..][1..] == bs[i + 1..];
  }

  /** Remove an id from every bucket, dropping buckets that become empty. */
  method RemoveFromBuckets(bs: seq<Bucket>, id: nat) returns (r: seq<Bucket>)
    ensures r == RemoveId(bs, id)
  {
    hide Without, RemoveId;
    r := [];
    assert bs[0..] == bs;
    for i := 0 to |bs|
      invariant r + RemoveId(bs[i..], id) == RemoveId(bs, id)
    {
      RemoveStep(bs, i, id);
      var ids := Without(bs[i].ids, id);
      if ids != [] {
        r := r + [Bucket(bs[i].priority, ids)];
      }
    }
    RemoveNone(bs[|bs|..], id);
  }

  lemma RemoveNone(bs: seq<Bucket>, id: nat)
    requires bs == []
    ensures RemoveId(bs, id) == []
  {
  }

  /** Scan the buckets in priority order, each queue front to back. */
  method FindCandidate(bs: seq<Bucket>, tasks: map<nat, QTask>, core: nat) returns (r: Option<nat>)
    requires forall id :: id in tasks ==> Shaped(tasks[id])
    ensures r == Candidate(bs, tasks, core)
  {
    for i := 0 to |bs|
      invariant Candidate(bs, tasks, core) == Candidate(bs[i..], tasks, core)
    {
      var queue := bs[i].ids;
      assert bs[i..][0] == bs[i] && bs[i..][1..] == bs[i + 1..];
      FirstConcat(queue, Flat(bs[i + 1..]), tasks, core);
      for j := 0 to |queue|
        invariant First(queue, tasks, core) == First(queue[j..], tasks, core)
      {
        assert queue[j..][1..] == queue[j + 1..];
        var id := queue[j];
        if id !in tasks {
          continue;
        }
        if !AllowsCore(tasks[id], core) {
          continue;
        }
        var next := FindDispatchable(tasks[id]);
        if next.Some? {
          return Some(id);
        }
      }
    }
    return None;
  }

  function WakeAll(s: Sched, ids: seq<nat>, readFailed: bool): Sched {
    if ids == [] then s
    else Wake(WakeAll(s, ids[..|ids| - 1], readFailed), ids[|ids| - 1], readFailed)
  }

  /** Record the masked status, advance the lane, and flag an interrupt that reports none of the wanted bits. */
  method HarvestInto(q0: QTask, b: Binding, status: bv32) returns (q: QTask)
    requires Shaped(q0) && b.lane < |q0.laneRun|
    ensures q == Harvested(q0, b, status)
  {
    hide Completed, Failed, Masked;
    if b.index >= |q0.descs| {
      return Failed(q0, b.lane, InvalidParameter);
    }
    var desc := q0.descs[b.index];
    var seen := Masked(status, desc.intMask);
    q := Completed(q0, b.lane).(descs := q0.descs[b.index := desc.(intStatus := seen)]);
    if status != 0 && seen == 0 {
      q := q.(err := Some(TaskError));
    }
  }

  ghost function Healthy(s: Sched): set<nat> {
    set id | id in s.tasks && s.tasks[id].err == None
  }

  lemma AllShaped(s: Sched)
    requires Safe(s)
    ensures forall id :: id in s.tasks ==> Shaped(s.tasks[id])
  {
    hide Safe, Shaped;
    forall id | id in s.tasks ensures Shaped(s.tasks[id]) { SafeShaped(s, id); }
  }

  lemma SafeShaped(s: Sched, id: nat)
    requires Safe(s) && id in s.tasks
    ensures Shaped(s.tasks[id])
  {
    ExceptTask(s, {}, id);
  }

  lemma SkipCore(s: Sched, bs: seq<Bucket>, c: nat)
    requires c < CORES && (c in s.cores || Candidate(bs, s.tasks, c).None?)
    ensures FirstCore(s, bs, c) == FirstCore(s, bs, c + 1)
  {
    hide Candidate;
  }

  lemma TakeCore(s: Sched, bs: seq<Bucket>, c: nat)
    requires c < CORES && c !in s.cores && Candidate(bs, s.tasks, c).Some?
    ensures FirstCore(s, bs, c) == Some(c)
  {
    hide Candidate;
  }

  lemma NoCore(s: Sched, bs: seq<Bucket>)
    ensures FirstCore(s, bs, CORES) == None
  {
  }

  class NpuScheduler {
    var tasks: map<nat, QTask>
    var ready: seq<Bucket>
    var running: seq<Bucket>
    var cores: map<nat, Binding>
    var complete: map<nat, QTask>
    var waiters: set<nat>
    var nextId: nat
    var pending: set<nat>
    var woken: set<nat>
    ghost var submitted: map<nat, Meta>
    ghost var trace: seq<Binding>

    ghost function View(): Sched
      reads this
    {
      Sched(tasks, ready, running, cores, complete, waiters, nextId, pending, woken, submitted, trace)
    }

    constructor ()
      ensures View() == Init && Safe(View())
    {
      tasks, ready, running, cores, complete := map[], [], [], map[], map[];
      waiters, nextId, pending, woken, submitted, trace := {}, 1, {}, {}, map[], [];
    }

    method EnqueueSubmit(meta: Meta, descs: seq<Desc>) returns (id: nat)
      requires Safe(View()) && Admissible(meta, descs)
      modifies this
      ensures id == old(nextId) && View() == Enqueue(old(View()), meta, descs) && Safe(View())
    {
      hide Safe, Push, NewTask, Admissible, WellFormed;
      AdmissibleIsWellFormed(meta, descs);
      EnqueueSafe(View(), meta, descs);
      id := nextId;
      nextId := nextId + 1;
      tasks := tasks[id := NewTask(meta, descs)];
      ready := Push(ready, meta.priority, id);
      waiters := waiters + {id};
      submitted := submitted[id := meta];
    }

    /** Bind the next task of submit `id` to an idle core. */
    method PrepareDispatch(core: nat, id: nat)
      requires CanRun(tasks, core, id)
      modifies this
      ensures View() == Bind(old(View()), core, id)
    {
      var q := tasks[id];
      var next := FindDispatchable(q);
      var (lane, index) := next.value;
      var desc := q.descs[index].(intStatus := 0);
      var q1 := Reserve(q).(descs := q.descs[index := desc]);
      tasks := tasks[id := q1];
      var b := Binding(id, lane, index);
      cores := cores[core := b];
      trace := trace + [b];
    }

    /** Does any running submit fit any idle core? */
    method AnyRunningCandidate() returns (any: bool)
      requires forall id :: id in tasks ==> Shaped(tasks[id])
      ensures any <==> FirstCore(View(), running, 0).Some?
    {
      hide Candidate;
      for c := 0 to CORES
        invariant FirstCore(View(), running, 0) == FirstCore(View(), running, c)
      {
        if c !in cores {
          var r := FindCandidate(running, tasks, c);
          if r.Some? {
            return true;
          }
        }
      }
      return false;
    }

    /** Move a ready submit to the running ones and bind its next task. */
    method Promote(core: nat, id: nat)
      requires CanRun(tasks, core, id)
      modifies this
      ensures View() ==
        Bind(old(View()).(ready := RemoveId(old(ready), id), running := Push(old(running), old(tasks)[id].meta.priority, id)), core, id)
    {
      hide Bind, Push, RemoveId;
      ready := RemoveFromBuckets(ready, id);
      running := Push(running, tasks[id].meta.priority, id);
      PrepareDispatch(core, id);
    }

    /** One pass over the idle cores under the lock. */
    method SelectDispatch() returns (core: Option<nat>)
      requires Safe(View())
      modifies this
      ensures match core
              case Some(c) => Dispatch(old(View())) == Some((View(), c)) && Safe(View())
              case None => Dispatch(old(View())) == None && View() == old(View())
    {
      hide Safe, Bind, Candidate, CanRun, Push, RemoveId, FirstCore;
      ghost var s := View();
      AllShaped(s);
      if Dispatch(s).Some? { DispatchSafe(s); }
      var anyRunning := AnyRunningCandidate();
      for c := 0 to CORES
        invariant View() == s
        invariant FirstCore(s, running, 0) == FirstCore(s, running, c)
        invariant !anyRunning ==> FirstCore(s, ready, 0) == FirstCore(s, ready, c)
      {
        if c in cores {
          SkipCore(s, running, c);
          SkipCore(s, ready, c);
          continue;
        }
        var r := FindCandidate(running, tasks, c);
        if r.Some? {
          TakeCore(s, running, c);
          CandidateRuns(running, tasks, c);
          PrepareDispatch(c, r.value);
          return Some(c);
        }
        SkipCore(s, running, c);
        if !anyRunning {
          var p := FindCandidate(ready, tasks, c);
          if p.Some? {
            TakeCore(s, ready, c);
            CandidateRuns(ready, tasks, c);
            Promote(c, p.value);
            return Some(c);
          }
          SkipCore(s, ready, c);
        }
      }
      NoCore(s, running);
      NoCore(s, ready);
      return None;
    }

    /** Move a submit to the queue its state calls for; true when it became terminal. */
    method ReclassifyTask(id: nat) returns (terminal: bool)
      requires forall x :: x in tasks ==> Shaped(tasks[x])
      modifies this
      ensures View() == Reclassify(old(View()), id)
      ensures terminal == (id in old(tasks) && id !in tasks)
    {
      ready := RemoveFromBuckets(ready, id);
      running := RemoveFromBuckets(running, id);
      if id !in tasks {
        return false;
      }
      var q := tasks[id];
      if TerminalSuccess(q) || TerminalFault(q) {
        tasks := tasks - {id};
        complete := complete[id := q];
        return true;
      }
      if HasRunning(q) {
        running := Push(running, q.meta.priority, id);
      } else {
        var next := FindDispatchable(q);
        if next.Some? {
          ready := Push(ready, q.meta.priority, id);
        }
      }
      return false;
    }

    /** One harvested interrupt status. */
    method HarvestCompletion(core: nat, status: bv32)
      requires Safe(View()) && status != 0
      modifies this
      ensures (core in old(cores) ==> BindingShaped(old(View()), old(cores)[core]))
      ensures View() == Complete(old(View()), core, status) && Safe(View())
    {
      hide Safe, Reclassify, Completed, Failed, Harvested, Shaped;
      ghost var s := View();
      if core !in cores {
        return;
      }
      BindingsShaped(s, core);
      CompleteSafe(s, core, status);
      AllShaped(s);
      var b := cores[core];
      cores := cores - {core};
      if b.id !in tasks {
        return;
      }
      var q := HarvestInto(tasks[b.id], b, status);
      HarvestShape(s.tasks[b.id], b, status);
      tasks := tasks[b.id := q];
      var terminal := ReclassifyTask(b.id);
      if terminal {
        pending := pending + {b.id};
      }
    }

    method FailBinding(core: nat, e: Error)
      requires Safe(View()) && core in cores
      modifies this
      ensures BindingShaped(old(View()), old(cores)[core])
      ensures View() == FailDispatch(old(View()), core, e) && Safe(View())
    {
      hide Safe, Reclassify;
      ghost var s := View();
      BindingsShaped(s, core);
      FailSafe(s, core, e);
      AllShaped(s);
      var b := cores[core];
      cores := cores - {core};
      if b.id in tasks {
        tasks := tasks[b.id := Failed(tasks[b.id], b.lane, e)];
      }
      var terminal := ReclassifyTask(b.id);
      if terminal {
        pending := pending + {b.id};
      }
    }

    /** Signal the waiters of the submits that became terminal. */
    method WakeTerminalTasks(ids: seq<nat>, readFailed: bool)
      requires Safe(View()) && NoDup(ids) && forall i :: 0 <= i < |ids| ==> ids[i] in pending
      modifies this
      ensures View() == WakeAll(old(View()), ids, readFailed) && Safe(View())
    {
      hide Safe;
      ghost var s := View();
      for i := 0 to |ids|
        invariant Safe(View()) && View() == WakeAll(s, ids[..i], readFailed)
        invariant forall k :: i <= k < |ids| ==> ids[k] in pending
      {
        var id := ids[i];
        assert ids[..i + 1][..i] == ids[..i];
        WakeSafe(View(), id, readFailed);
        if readFailed && id in complete {
          complete := complete[id := complete[id].(err := Some(MemoryError))];
        }
        if id in waiters {
          woken := woken + {id};
        } else {
          complete := complete - {id};
        }
        pending := pending - {id};
      }
      assert ids[..|ids|] == ids;
    }

    method AbortWait(id: nat)
      requires Safe(View())
      modifies this
      ensures View() == Abort(old(View()), id) && Safe(View())
    {
      hide Safe, Reclassify;
      AbortSafe(View(), id);
      AllShaped(View());
      waiters := waiters - {id};
      if id in complete {
        complete := complete - {id};
        return;
      }
      if id in tasks {
        tasks := tasks[id := tasks[id].(err := Some(Interrupted))];
      }
      var terminal := ReclassifyTask(id);
      if terminal {
        complete := complete - {id};
      }
    }

    /** Hand a terminal submit back; refused while it is not terminal. */
    method TakeTerminal(id: nat) returns (r: Option<QTask>)
      requires Safe(View())
      modifies this
      ensures View() == Take(old(View()), id) && Safe(View())
      ensures r == if id in old(complete) then Some(old(complete)[id]) else None
    {
      TakeSafe(View(), id);
      if id !in complete {
        return None;
      }
      r := Some(complete[id]);
      complete := complete - {id};
      waiters := waiters - {id};
    }

    /**
      Fill idle cores until nothing fits. `driver` is the outcome of programming
      the hardware for a binding: an error fails that submit and frees the core.
    */
    method DispatchIdleCores(driver: Binding -> Option<Error>) returns (dispatched: bool)
      requires Safe(View())
      modifies this
      ensures Safe(View()) && Dispatch(View()) == None
      ensures forall c, id :: 0 <= c < CORES && c !in cores && id in tasks ==> !CanRun(tasks, c, id)
    {
      hide Safe, Dispatch, CanRun;
      dispatched := false;
      while true
        invariant Safe(View())
        decreases Healthy(View()), CORES - |cores|
      {
        ghost var s := View();
        var core := SelectDispatch();
        if core.None? {
          break;
        }
        ghost var s1 := View();
        DispatchProgress(s);
        var b := cores[core.value];
        var outcome := driver(b);
        if outcome.Some? {
          FailProgress(s1, core.value, outcome.value);
          FailBinding(core.value, outcome.value);
        } else {
          dispatched := true;
        }
      }
      forall c, id | 0 <= c < CORES && c !in cores && id in tasks ensures !CanRun(tasks, c, id) {
        IdleMeansNothingFits(View(), c, id);
      }
    }
  }

  lemma BindingsShaped(s: Sched, c: nat)
    requires Safe(s) && c in s.cores
    ensures BindingShaped(s, s.cores[c])
  {
    if s.cores[c].id in s.tasks { ReadyToRelease(s, c); }
  }

  lemma HarvestShape(q: QTask, b: Binding, status: bv32)
    requires Shaped(q) && b.lane < |q.laneRun|
    ensures Shaped(Harvested(q, b, status))
  {
  }

  lemma CoreCount(s: Sched)
    requires Safe(s)
    ensures |s.cores| <= CORES
  {
    hide Safe;
    var all: set<nat> := {0, 1, 2};
    CoreRange(s);
    assert s.cores.Keys <= all;
    SubsetSize(s.cores.Keys, all);
  }

  lemma CoreRange(s: Sched)
    requires Safe(s)
    ensures forall c :: c in s.cores ==> 0 <= c < CORES
  {
    CoresPart(s);
    hide Inv, InvStatus, BindOk, Apart;
  }

  lemma {:induction false} SubsetSize(a: set<nat>, b: set<nat>)
    requires a <= b
    ensures |a| <= |b|
  {
    if a != {} {
      var x :| x in a;
      SubsetSize(a - {x}, b - {x});
    }
  }

  lemma BindKeepsHealthy(s: Sched, c: nat, id: nat)
    requires CanRun(s.tasks, c, id) && c !in s.cores
    ensures Healthy(Bind(s, c, id)) == Healthy(s) && Bind(s, c, id).cores.Keys == s.cores.Keys + {c}
    ensures id in Healthy(s) && Bind(s, c, id).cores[c].id == id
  {
  }

  /** A dispatch keeps the healthy submits and occupies one more core. */
  lemma DispatchProgress(s: Sched)
    requires Safe(s) && Dispatch(s).Some?
    ensures var (s1, c) := Dispatch(s).value;
            && Healthy(s1) == Healthy(s) && |s1.cores| == |s.cores| + 1 <= CORES
            && c in s1.cores && s1.cores[c].id in Healthy(s1)
  {
    hide Safe, Candidate, Push, RemoveId, Bind, CanRun;
    var (s1, c) := Dispatch(s).value;
    DispatchSafe(s);
    CoreCount(s1);
    match FirstCore(s, s.running, 0) {
      case Some(_) =>
        CandidateRuns(s.running, s.tasks, c);
        BindKeepsHealthy(s, c, Candidate(s.running, s.tasks, c).value);
      case None =>
        var id := Candidate(s.ready, s.tasks, c).value;
        CandidateRuns(s.ready, s.tasks, c);
        var s2 := s.(ready := RemoveId(s.ready, id), running := Push(s.running, s.tasks[id].meta.priority, id));
        BindKeepsHealthy(s2, c, id);
    }
    assert |s1.cores.Keys| == |s.cores.Keys| + 1;
  }

  lemma FailProgress(s: Sched, c: nat, e: Error)
    requires Safe(s) && c in s.cores && s.cores[c].id in Healthy(s)
    ensures BindingShaped(s, s.cores[c]) && Healthy(FailDispatch(s, c, e)) == Healthy(s) - {s.cores[c].id}
  {
    hide Safe, Reclassify, Terminal;
    BindingsShaped(s, c);
    var b := s.cores[c];
    var s1 := s.(cores := s.cores - {c}, tasks := s.tasks[b.id := Failed(s.tasks[b.id], b.lane, e)]);
    ReclassifyEffect(s1, b.id);
    assert s1.tasks[b.id].err.Some?;
    assert FailDispatch(s, c, e) == Settle(s1, b.id);
  }
}
