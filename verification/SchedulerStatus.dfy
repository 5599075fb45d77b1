/** What a submit's descriptors and its error hold, over every run. */
module SchedulerStatus {
  import opened Options
  import opened QueueTask
  import opened SchedulerSpec
  import opened SchedulerProofs

  predicate Live(s: Sched, id: nat) { id in s.tasks || id in s.complete }

  /** A submit the scheduler still knows, running or finished. */
  function Held(s: Sched, id: nat): QTask
    requires Live(s, id)
  {
    if id in s.tasks then s.tasks[id] else s.complete[id]
  }

  /** Only bits the descriptor asks for are recorded. */
  predicate Within(d: Desc) { d.intStatus & d.intMask == d.intStatus }

  /** The bits set in both words, by name so that proofs about states need not look inside. */
  function CommonBits(a: bv32, b: bv32): bv32 { a & b }

  lemma MaskedIsCommon(status: bv32, mask: bv32)
    ensures Masked(status, mask) == CommonBits(status, mask)
  {
  }

  /** Masks stay, a changed descriptor records wanted bits only, and an error is never
      taken back. */
  ghost predicate Evolves(q: QTask, q': QTask) {
    && |q'.descs| == |q.descs| && (q.err.Some? ==> q'.err.Some?)
    && forall x :: 0 <= x < |q.descs| ==>
         q'.descs[x].intMask == q.descs[x].intMask && (q'.descs[x] == q.descs[x] || Within(q'.descs[x]))
  }

  lemma MaskedWithin(status: bv32, mask: bv32)
    ensures Within(Desc(mask, Masked(status, mask))) && Within(Desc(mask, 0))
  {
  }

  // -------------------------------------------------------------------- each step

  /** Between two states: a submit known in both has evolved, and only the next id is new. */
  ghost predicate Follows(s: Sched, s': Sched, x: nat) {
    Live(s', x) ==> if Live(s, x) then Evolves(Held(s, x), Held(s', x)) else x == s.nextId
  }

  /** No submit is both live and finished. */
  ghost predicate OneHome(s: Sched) { forall id :: id in s.tasks ==> id !in s.complete }

  lemma Disjoint(s: Sched)
    requires Safe(s)
    ensures OneHome(s) && forall id: nat :: Live(s, id) ==> id in s.submitted && id < s.nextId
  {
    hide InvQueues, InvCores, InvTrace, InvStatus, HeaderOk, WaitOk, ResultOk;
  }

  lemma ReclassifyHeld(s: Sched, id: nat, x: nat)
    requires OneHome(s)
    ensures Live(Reclassify(s, id), x) <==> Live(s, x)
    ensures Live(s, x) ==> Held(Reclassify(s, id), x) == Held(s, x)
    ensures OneHome(Reclassify(s, id))
  {
    hide RemoveId, Push, Terminal, HasRunning, Shaped, NextDispatchable;
  }

  lemma SettleHeld(s: Sched, id: nat, x: nat)
    requires OneHome(s)
    ensures Live(Settle(s, id), x) <==> Live(s, x)
    ensures Live(s, x) ==> Held(Settle(s, id), x) == Held(s, x)
  {
    hide Reclassify;
    ReclassifyHeld(s, id, x);
  }

  lemma HarvestEvolves(q: QTask, b: Binding, status: bv32)
    requires Shaped(q) && b.lane < |q.laneRun|
    ensures Evolves(q, Harvested(q, b, status))
  {
    hide Within, Masked;
    if b.index < |q.descs| { MaskedWithin(status, q.descs[b.index].intMask); }
  }

  lemma CompleteEvolves(s: Sched, core: nat, status: bv32, x: nat)
    requires OneHome(s) && (core in s.cores ==> BindingShaped(s, s.cores[core]))
    ensures Follows(s, Complete(s, core, status), x)
  {
    hide Harvested, Settle;
    if core in s.cores && s.cores[core].id in s.tasks {
      var b := s.cores[core];
      HarvestEvolves(s.tasks[b.id], b, status);
      SettleHeld(s.(cores := s.cores - {core}, tasks := s.tasks[b.id := Harvested(s.tasks[b.id], b, status)]), b.id, x);
    }
  }

  lemma FailEvolves(s: Sched, core: nat, e: Error, x: nat)
    requires OneHome(s) && core in s.cores && BindingShaped(s, s.cores[core])
    ensures Follows(s, FailDispatch(s, core, e), x)
  {
    hide Settle;
    var b := s.cores[core];
    var s1 := s.(cores := s.cores - {core});
    SettleHeld(s1, b.id, x);
    if b.id in s.tasks { SettleHeld(s1.(tasks := s.tasks[b.id := Failed(s.tasks[b.id], b.lane, e)]), b.id, x); }
  }

  lemma BindEvolves(s: Sched, core: nat, id: nat, x: nat)
    requires OneHome(s) && CanRun(s.tasks, core, id)
    ensures Follows(s, Bind(s, core, id), x) && Bind(s, core, id).nextId == s.nextId
    ensures var b := Bind(s, core, id).cores[core];
      && b.id == id && id in Bind(s, core, id).tasks && Bind(s, core, id).trace == s.trace + [b]
      && b.index < |Bind(s, core, id).tasks[id].descs| && Within(Bind(s, core, id).tasks[id].descs[b.index])
  {
    hide Within;
    var q := s.tasks[id];
    var index := NextDispatchable(q).value.1;
    MaskedWithin(0, q.descs[index].intMask);
  }

  lemma DispatchEvolves(s: Sched, x: nat)
    requires OneHome(s) && Dispatch(s).Some?
    ensures var s' := Dispatch(s).value.0;
      && Follows(s, s', x) && s'.nextId == s.nextId
      && |s'.trace| == |s.trace| + 1 && s'.trace[..|s.trace|] == s.trace
      && var b := s'.trace[|s.trace|];
      && b.id in s'.tasks && b.index < |s'.tasks[b.id].descs| && Within(s'.tasks[b.id].descs[b.index])
  {
    hide Bind, CanRun, Push, RemoveId, Evolves, Within, Candidate, OneHome;
    var (s', c) := Dispatch(s).value;
    if FirstCore(s, s.running, 0).Some? {
      CandidateRuns(s.running, s.tasks, c);
      BindEvolves(s, c, Candidate(s.running, s.tasks, c).value, x);
    } else {
      CandidateRuns(s.ready, s.tasks, c);
      var id := Candidate(s.ready, s.tasks, c).value;
      var s1 := s.(ready := RemoveId(s.ready, id), running := Push(s.running, s.tasks[id].meta.priority, id));
      assert OneHome(s1) by { QueuesOneHome(s, s1); }
      BindEvolves(s1, c, id, x);
    }
  }

  lemma QueuesOneHome(s: Sched, s': Sched)
    requires OneHome(s) && s'.tasks == s.tasks && s'.complete == s.complete
    ensures OneHome(s')
  {
  }

  lemma EnqueueEvolves(s: Sched, meta: Meta, descs: seq<Desc>, x: nat)
    requires !Live(s, s.nextId)
    ensures Follows(s, Enqueue(s, meta, descs), x)
  {
    hide Push;
  }

  lemma WakeEvolves(s: Sched, id: nat, readFailed: bool, x: nat)
    requires OneHome(s)
    ensures Follows(s, Wake(s, id, readFailed), x)
  {
  }

  lemma AbortEvolves(s: Sched, id: nat, x: nat)
    requires OneHome(s)
    ensures Follows(s, Abort(s, id), x)
  {
    hide Reclassify;
    var s1 := s.(waiters := s.waiters - {id});
    var s2 := if id in s.tasks then s1.(tasks := s.tasks[id := s.tasks[id].(err := Some(Interrupted))]) else s1;
    ReclassifyHeld(s2, id, x);
  }

  /** Every step leaves the submits that stay evolved, and adds at most the next id. */
  lemma StepEvolves(s: Sched, s': Sched, x: nat)
    requires Safe(s) && Next(s, s')
    ensures Follows(s, s', x)
  {
    hide Safe, Follows, Live, Enqueue, Dispatch, Complete, FailDispatch, Wake, Abort, Take, Admissible, BindingShaped, OneHome;
    Disjoint(s);
    if meta, descs :| Admissible(meta, descs) && s' == Enqueue(s, meta, descs) {
      EnqueueEvolves(s, meta, descs, x);
    } else if Dispatch(s).Some? && s' == Dispatch(s).value.0 {
      DispatchEvolves(s, x);
    } else if core, status :| status != 0 && (core in s.cores ==> BindingShaped(s, s.cores[core])) && s' == Complete(s, core, status) {
      CompleteEvolves(s, core, status, x);
    } else if core, e :| core in s.cores && BindingShaped(s, s.cores[core]) && s' == FailDispatch(s, core, e) {
      FailEvolves(s, core, e, x);
    } else if id, readFailed :| id in s.pending && s' == Wake(s, id, readFailed) {
      WakeEvolves(s, id, readFailed, x);
    } else if id :| s' == Abort(s, id) {
      AbortEvolves(s, id, x);
    } else {
      var id :| s' == Take(s, id);
      TakeEvolves(s, id, x);
    }
  }

  lemma TakeEvolves(s: Sched, id: nat, x: nat)
    ensures Follows(s, Take(s, id), x)
  {
  }

  // -------------------------------------------------------------------- every run

  lemma {:induction false} StaysLive(run: seq<Sched>, i: nat, j: nat, id: nat)
    requires IsRunOf(run) && i <= j < |run| && Live(run[i], id) && Live(run[j], id)
    ensures forall k :: i <= k <= j ==> Live(run[k], id)
    decreases j - i
  {
    hide Safe, Next;
    if i < j {
      RunSafe(run, i);
      RunSafe(run, j - 1);
      assert Next(run[j - 1], run[j - 1 + 1]);
      IdsGrow(run, i, j - 1);
      Disjoint(run[i]);
      StepEvolves(run[j - 1], run[j], id);
      StaysLive(run, i, j - 1, id);
    }
  }

  lemma {:induction false} IdsGrow(run: seq<Sched>, i: nat, j: nat)
    requires IsRunOf(run) && i <= j < |run|
    ensures run[i].nextId <= run[j].nextId
    decreases j - i
  {
    hide Next, Safe, OneHome;
    if i < j {
      assert Next(run[j - 1], run[j - 1 + 1]);
      RunSafe(run, j - 1);
      Disjoint(run[j - 1]);
      NextIdGrows(run[j - 1], run[j]);
      IdsGrow(run, i, j - 1);
    }
  }

  lemma NextIdGrows(s: Sched, s': Sched)
    requires OneHome(s) && Next(s, s')
    ensures s.nextId <= s'.nextId
  {
    hide Next, Dispatch, OneHome;
    if Dispatch(s).Some? && s' == Dispatch(s).value.0 { DispatchEvolves(s, 0); } else { OtherTraces(s, s'); }
  }

  /** A submit's interrupt masks never change and an error is never taken back, from the
      state it was accepted in to its result. */
  lemma {:induction false} MasksStay(run: seq<Sched>, i: nat, j: nat, id: nat)
    requires IsRunOf(run) && i <= j < |run| && Live(run[i], id) && Live(run[j], id)
    ensures var q, q' := Held(run[i], id), Held(run[j], id);
      && |q'.descs| == |q.descs| && (q.err.Some? ==> q'.err.Some?)
      && forall x :: 0 <= x < |q.descs| ==> q'.descs[x].intMask == q.descs[x].intMask
    decreases j - i
  {
    hide Safe, Next, Within;
    if i < j {
      StaysLive(run, i, j, id);
      MasksStay(run, i, j - 1, id);
      RunSafe(run, j - 1);
      assert Next(run[j - 1], run[j - 1 + 1]);
      StepEvolves(run[j - 1], run[j], id);
    }
  }

  /** Every dispatched descriptor records only bits it asks for. */
  ghost predicate WantedOk(s: Sched) { forall i :: 0 <= i < |s.trace| ==> Wanted(s, s.trace[i]) }

  ghost predicate Wanted(s: Sched, b: Binding) {
    Live(s, b.id) && b.index < |Held(s, b.id).descs| ==> Within(Held(s, b.id).descs[b.index])
  }

  lemma OtherTraces(s: Sched, s': Sched)
    requires Next(s, s') && !(Dispatch(s).Some? && s' == Dispatch(s).value.0)
    ensures s'.trace == s.trace && s.nextId <= s'.nextId
  {
    hide Enqueue, Dispatch, Complete, FailDispatch, Wake, Abort, Take, Admissible, BindingShaped;
    if meta, descs :| Admissible(meta, descs) && s' == Enqueue(s, meta, descs) {
      EnqueueTraces(s, meta, descs);
    } else if core, status :| status != 0 && (core in s.cores ==> BindingShaped(s, s.cores[core])) && s' == Complete(s, core, status) {
      CompleteTraces(s, core, status);
    } else if core, e :| core in s.cores && BindingShaped(s, s.cores[core]) && s' == FailDispatch(s, core, e) {
      FailTraces(s, core, e);
    } else if id, readFailed :| id in s.pending && s' == Wake(s, id, readFailed) {
      WaiterTraces(s, id, readFailed);
    } else if id :| s' == Abort(s, id) {
      WaiterTraces(s, id, false);
    } else {
      var id :| s' == Take(s, id);
      WaiterTraces(s, id, false);
    }
  }

  lemma EnqueueTraces(s: Sched, meta: Meta, descs: seq<Desc>)
    ensures Enqueue(s, meta, descs).trace == s.trace && Enqueue(s, meta, descs).nextId == s.nextId + 1
  {
  }

  lemma CompleteTraces(s: Sched, core: nat, status: bv32)
    requires core in s.cores ==> BindingShaped(s, s.cores[core])
    ensures Complete(s, core, status).trace == s.trace && Complete(s, core, status).nextId == s.nextId
    ensures Complete(s, core, status).submitted == s.submitted
  {
    hide Harvested, Reclassify;
    if core in s.cores && s.cores[core].id in s.tasks {
      var b := s.cores[core];
      ReclassifyEffect(s.(cores := s.cores - {core}, tasks := s.tasks[b.id := Harvested(s.tasks[b.id], b, status)]), b.id);
    }
  }

  lemma FailTraces(s: Sched, core: nat, e: Error)
    requires core in s.cores && BindingShaped(s, s.cores[core])
    ensures FailDispatch(s, core, e).trace == s.trace && FailDispatch(s, core, e).nextId == s.nextId
    ensures FailDispatch(s, core, e).submitted == s.submitted
  {
    hide Failed, Reclassify;
    var b := s.cores[core];
    var s1 := s.(cores := s.cores - {core});
    ReclassifyEffect(s1, b.id);
    if b.id in s.tasks { ReclassifyEffect(s1.(tasks := s.tasks[b.id := Failed(s.tasks[b.id], b.lane, e)]), b.id); }
  }

  lemma WaiterTraces(s: Sched, id: nat, readFailed: bool)
    ensures Wake(s, id, readFailed).trace == Abort(s, id).trace == Take(s, id).trace == s.trace
    ensures Wake(s, id, readFailed).nextId == Abort(s, id).nextId == Take(s, id).nextId == s.nextId
    ensures Wake(s, id, readFailed).submitted == Abort(s, id).submitted == Take(s, id).submitted == s.submitted
  {
    hide Reclassify;
    var s1 := s.(waiters := s.waiters - {id});
    ReclassifyEffect(s1, id);
    if id in s.tasks { ReclassifyEffect(s1.(tasks := s.tasks[id := s.tasks[id].(err := Some(Interrupted))]), id); }
  }

  lemma StepWanted(s: Sched, s': Sched)
    requires Safe(s) && WantedOk(s) && Next(s, s')
    ensures WantedOk(s')
  {
    hide Safe, Next, Dispatch, Within;
    Disjoint(s);
    TraceNames(s);
    forall i | 0 <= i < |s'.trace| ensures Wanted(s', s'.trace[i]) {
      if Dispatch(s).Some? && s' == Dispatch(s).value.0 {
        DispatchEvolves(s, 0);
        if i < |s.trace| { assert s'.trace[..|s.trace|][i] == s'.trace[i]; }
      } else {
        OtherTraces(s, s');
      }
      if i < |s.trace| && Live(s', s'.trace[i].id) {
        assert Wanted(s, s.trace[i]);
        StepEvolves(s, s', s.trace[i].id);
      }
    }
  }

  lemma TraceNames(s: Sched)
    requires Safe(s)
    ensures forall i :: 0 <= i < |s.trace| ==> s.trace[i].id < s.nextId
  {
    hide InvQueues, InvCores, InvStatus, WaitOk, ResultOk, HeaderOk, Past, IssuedOk;
  }

  lemma {:induction false} RunWanted(run: seq<Sched>, i: nat)
    requires IsRunOf(run) && i < |run|
    ensures WantedOk(run[i])
  {
    hide Safe, Next, Wanted;
    if i > 0 {
      RunSafe(run, i - 1);
      RunWanted(run, i - 1);
      assert Next(run[i - 1], run[i - 1 + 1]);
      StepWanted(run[i - 1], run[i]);
    }
  }

  // --------------------------------------------------------------- what is reported

  lemma BoundInRange(s: Sched, core: nat)
    requires Safe(s) && core in s.cores && s.cores[core].id in s.tasks
    ensures var b := s.cores[core]; BindingShaped(s, b) && b.index < |s.tasks[b.id].descs|
  {
    ReadyToRelease(s, core);
    ExceptTask(s, {}, s.cores[core].id);
  }

  /** One interrupt: the core is free, its descriptor records exactly the reported bits it
      asks for and no other descriptor changes, and an interrupt with none of them is an
      error of the submit. */
  lemma InterruptOutcome(s: Sched, core: nat, status: bv32)
    requires Safe(s) && core in s.cores && s.cores[core].id in s.tasks && status != 0
    ensures var b := s.cores[core]; BindingShaped(s, b) && b.index < |s.tasks[b.id].descs| && Live(Complete(s, core, status), b.id)
    ensures var b := s.cores[core]; var q := s.tasks[b.id]; var d := q.descs[b.index]; var q' := Held(Complete(s, core, status), b.id);
      && q'.descs == q.descs[b.index := Desc(d.intMask, CommonBits(status, d.intMask))]
      && q'.err == (if CommonBits(status, d.intMask) == 0 then Some(TaskError) else q.err)
    ensures Complete(s, core, status).cores == s.cores - {core}
  {
    hide Safe, Settle, Harvested, Shaped, CommonBits;
    BoundInRange(s, core);
    Disjoint(s);
    var b := s.cores[core];
    var s1 := s.(cores := s.cores - {core}, tasks := s.tasks[b.id := Harvested(s.tasks[b.id], b, status)]);
    assert OneHome(s1) by { OneChanged(s, s1, b.id); }
    HarvestOutcome(s.tasks[b.id], b, status);
    SettleHeld(s1, b.id, b.id);
    SettleCores(s1, b.id);
  }

  lemma HarvestOutcome(q: QTask, b: Binding, status: bv32)
    requires Shaped(q) && b.lane < |q.laneRun| && b.index < |q.descs| && status != 0
    ensures var d := q.descs[b.index]; var q' := Harvested(q, b, status);
      && q'.descs == q.descs[b.index := Desc(d.intMask, CommonBits(status, d.intMask))]
      && q'.err == (if CommonBits(status, d.intMask) == 0 then Some(TaskError) else q.err)
  {
    hide Masked, CommonBits;
    MaskedIsCommon(status, q.descs[b.index].intMask);
  }

  lemma OneChanged(s: Sched, s': Sched, id: nat)
    requires OneHome(s) && id in s.tasks && s'.complete == s.complete && s'.tasks.Keys == s.tasks.Keys
    ensures OneHome(s')
  {
    forall x | x in s'.tasks ensures x !in s'.complete { assert x in s'.tasks.Keys; }
  }

  lemma SettleCores(s: Sched, id: nat)
    ensures Settle(s, id).cores == s.cores
  {
    hide Reclassify;
    ReclassifyEffect(s, id);
  }

  /** A dispatch the hardware refuses: the core is free, the submit carries that error and
      no descriptor changes. */
  lemma FailureOutcome(s: Sched, core: nat, e: Error)
    requires Safe(s) && core in s.cores && s.cores[core].id in s.tasks
    ensures BindingShaped(s, s.cores[core]) && Live(FailDispatch(s, core, e), s.cores[core].id)
    ensures var b := s.cores[core]; var q' := Held(FailDispatch(s, core, e), b.id);
      q'.err == Some(e) && q'.descs == s.tasks[b.id].descs
    ensures FailDispatch(s, core, e).cores == s.cores - {core}
  {
    hide Safe, Settle;
    BoundInRange(s, core);
    Disjoint(s);
    var b := s.cores[core];
    var s1 := s.(cores := s.cores - {core}, tasks := s.tasks[b.id := Failed(s.tasks[b.id], b.lane, e)]);
    assert OneHome(s1) by { OneChanged(s, s1, b.id); }
    SettleHeld(s1, b.id, b.id);
    SettleCores(s1, b.id);
  }

  /** Giving up on a wait: nobody waits any more and no result is kept; a submit that still
      has tasks on cores carries the interruption. */
  lemma AbortOutcome(s: Sched, id: nat)
    requires Safe(s)
    ensures var s' := Abort(s, id);
      && id !in s'.waiters && id !in s'.complete && s'.cores == s.cores
      && (id in s'.tasks <==> id in s.tasks && HasRunning(s.tasks[id]))
      && (id in s'.tasks ==> s'.tasks[id] == s.tasks[id].(err := Some(Interrupted)))
  {
    hide Safe, Reclassify;
    Disjoint(s);
    var s1 := s.(waiters := s.waiters - {id});
    var s2 := if id in s.tasks then s1.(tasks := s.tasks[id := s.tasks[id].(err := Some(Interrupted))]) else s1;
    ReclassifyEffect(s2, id);
  }

  /** Signalling: a waiter finds the result as it was, or marked when it could not be read
      back; without a waiter the result is gone. */
  lemma WakeOutcome(s: Sched, id: nat, readFailed: bool)
    requires id in s.complete
    ensures var s' := Wake(s, id, readFailed);
      && (id in s'.complete <==> id in s.waiters) && id !in s'.pending && (id in s.waiters ==> id in s'.woken)
      && (id in s'.complete ==> s'.complete[id] == if readFailed then s.complete[id].(err := Some(MemoryError)) else s.complete[id])
      && forall x :: x != id ==> (x in s'.complete <==> x in s.complete) && (x in s.complete ==> s'.complete[x] == s.complete[x])
  {
  }
}
