/** The scheduler's guarantees over every run of its locked sections. */
module SchedulerTheorems {
  import opened Sums
  import opened Options
  import opened QueueTask
  import opened SchedulerSpec
  import opened SchedulerProofs
  import opened SchedulerStatus

  /** No lane of a submit ever hands out the same descriptor twice, and a dynamic
      submit hands out each descriptor at most once over all its lanes. */
  lemma NothingDispatchedTwice(run: seq<Sched>, n: nat, i: nat, j: nat)
    requires IsRunOf(run) && n < |run| && i < j < |run[n].trace| && run[n].trace[i].id == run[n].trace[j].id
    ensures run[n].trace[i] != run[n].trace[j]
    ensures var a, b := run[n].trace[i], run[n].trace[j];
            a.id in run[n].submitted && (run[n].submitted[a.id].dynamic ==> a.index != b.index)
  {
    RunSafe(run, n);
    var s := run[n];
    var a, b := s.trace[i], s.trace[j];
    TraceFacts(s);
    if s.submitted[a.id].dynamic && a.index == b.index {
      var l := ContiguousOwner(s.submitted[a.id].lanes, 0, 0, s.submitted[a.id].total, a.index);
    }
  }

  lemma TraceFacts(s: Sched)
    requires Safe(s)
    ensures TraceOk(s) && forall id :: id in s.submitted ==> HeaderOk(s.submitted[id])
  {
    hide InvQueues, InvCores, InvStatus, HeaderOk;
  }

  /** A core runs a task its submit permits there, no two cores run the same task
      of a submit, and the submit is still live unless its lanes hold surplus slots. */
  lemma CoresRunDistinctTasks(run: seq<Sched>, n: nat, c: nat)
    requires IsRunOf(run) && n < |run| && c in run[n].cores
    ensures var s, b := run[n], run[n].cores[c];
            && c < 3 && b.id in s.submitted
            && (b.id in s.tasks ==> Permits(s.submitted[b.id].coreMask, c) && HasRunning(s.tasks[b.id]))
            && (b.id !in s.tasks ==> !s.submitted[b.id].dynamic && Slots(s.submitted[b.id]) > Target(s.submitted[b.id]))
            && (forall d :: d in s.cores && d != c && s.cores[d].id == b.id && b.id in s.tasks ==>
                  if s.submitted[b.id].dynamic then s.cores[d].index != b.index else s.cores[d].lane != b.lane)
  {
    RunSafe(run, n);
    var s := run[n];
    IdsPart(s);
    if s.cores[c].id in s.tasks {
      ReadyToRelease(s, c);
      CoresPart(s);
      LiveBoundRuns(s, c);
      PermitsIff(s.tasks[s.cores[c].id], c);
    }
  }

  /** Core masks: no restriction, or one bit per core. */
  predicate Permits(mask: bv32, core: nat)
    requires core < 32
  {
    mask == 0 || (mask >> core) & 1 == 1
  }

  lemma PermitsIff(q: QTask, c: nat)
    requires c < CORES
    ensures AllowsCore(q, c) <==> Permits(q.meta.coreMask, c)
  {
    hide Permits;
    if c == 0 { FirstCoreBit(q.meta.coreMask); } else if c == 1 { SecondCoreBit(q.meta.coreMask); } else { ThirdCoreBit(q.meta.coreMask); }
  }

  lemma FirstCoreBit(mask: bv32)
    ensures Permits(mask, 0) <==> mask == 0 || mask & 1 != 0
  {
  }

  lemma SecondCoreBit(mask: bv32)
    ensures Permits(mask, 1) <==> mask == 0 || mask & 2 != 0
  {
  }

  lemma ThirdCoreBit(mask: bv32)
    ensures Permits(mask, 2) <==> mask == 0 || mask & 4 != 0
  {
  }

  /** A submitter that still waits has a live submit or a result whose signal is
      due or given; and no result outlives its submitter's interest. */
  lemma NoLostWakeup(run: seq<Sched>, n: nat, id: nat)
    requires IsRunOf(run) && n < |run|
    ensures var s := run[n];
            && (id in s.waiters ==> id in s.tasks || (id in s.complete && (id in s.pending || id in s.woken)))
            && (id in s.complete ==> id !in s.tasks && (id in s.waiters || id in s.pending))
  {
    RunSafe(run, n);
    hide InvQueues, InvCores, InvTrace, InvStatus;
  }

  /** A result without an error, from a layout without surplus slots: every
      descriptor its lanes own was dispatched and reported a wanted interrupt,
      and the completion count equals the target. */
  lemma SuccessMeansEveryTaskRan(run: seq<Sched>, n: nat, id: nat, l: nat, index: nat)
    requires IsRunOf(run) && n < |run| && id in run[n].complete && run[n].complete[id].err == None
    requires Tight(run[n].complete[id].meta)
    requires l < |run[n].complete[id].meta.lanes| && Covers(run[n].complete[id].meta.lanes[l], index)
    requires index < run[n].complete[id].meta.total
    ensures var q := run[n].complete[id];
            && Issued(run[n].trace, id, index)
            && index < |q.descs|
            && q.descs[index].intStatus != 0 && Within(q.descs[index])
            && CompletedCount(q) == Target(q.meta)
  {
    hide Safe, Within, QInv, TerminalSuccess, Tight, Covers, StillOut, IssuedOk;
    RunSafe(run, n);
    var s := run[n];
    var q := s.complete[id];
    ResultFacts(s, id);
    FinishedPassedAll(q, l, index);
    PassedIsIssued(s, id, l, index);
    var i :| 0 <= i < |s.trace| && s.trace[i].id == id && s.trace[i].index == index;
    ReportedBack(s, i);
    NothingOut(q, index);
    RecordedWanted(run, n, i);
  }

  lemma PassedIsIssued(s: Sched, id: nat, l: nat, index: nat)
    requires id in s.complete && IssuedOk(s.trace, id, s.complete[id]) && l < |s.complete[id].meta.lanes|
    requires var q := s.complete[id];
      if q.meta.dynamic then index < q.next else q.meta.lanes[l].start <= index < q.meta.lanes[l].start + q.cursors[l]
    ensures Issued(s.trace, id, index)
    ensures !s.complete[id].meta.dynamic ==> Binding(id, l, index) in s.trace
  {
    if !s.complete[id].meta.dynamic {
      var b := Binding(id, l, index);
      assert b in s.trace;
      var k :| 0 <= k < |s.trace| && s.trace[k] == b;
    }
  }

  lemma ReportedBack(s: Sched, i: nat)
    requires Safe(s) && i < |s.trace|
    ensures DoneOk(s, s.trace[i])
    ensures s.trace[i].id in s.complete ==> s.trace[i].id !in s.tasks
  {
    hide InvQueues, InvCores, InvTrace, DoneOk, WaitOk, ResultOk, HeaderOk;
  }

  lemma RecordedWanted(run: seq<Sched>, n: nat, i: nat)
    requires IsRunOf(run) && n < |run| && i < |run[n].trace| && run[n].trace[i].id in run[n].complete && run[n].trace[i].id !in run[n].tasks
    requires run[n].trace[i].index < |run[n].complete[run[n].trace[i].id].descs|
    ensures Within(run[n].complete[run[n].trace[i].id].descs[run[n].trace[i].index])
  {
    hide Next, Within;
    RunWanted(run, n);
    assert Wanted(run[n], run[n].trace[i]);
  }

  lemma NothingOut(q: QTask, index: nat)
    requires QInv(q) && TerminalSuccess(q) && Tight(q.meta)
    ensures !StillOut(q, index)
  {
    if !q.meta.dynamic { FinishedIsIdle(q); }
  }

  /** Any error-free static result, surplus slots or not: the completions reach the target,
      each was dispatched by its lane, and each reported a wanted interrupt unless another
      lane has handed the same descriptor out again and not got it back. */
  lemma SuccessMeansTargetRan(run: seq<Sched>, n: nat, id: nat, l: nat, index: nat)
    requires IsRunOf(run) && n < |run| && id in run[n].complete && run[n].complete[id].err == None
    requires !run[n].complete[id].meta.dynamic && l < |run[n].complete[id].cursors| && l < |run[n].complete[id].meta.lanes|
    requires var q := run[n].complete[id]; q.meta.lanes[l].start <= index < q.meta.lanes[l].start + q.cursors[l]
    ensures var q := run[n].complete[id];
      && Sum(q.cursors) >= Target(q.meta) == CompletedCount(q)
      && Binding(id, l, index) in run[n].trace
      && index < |q.descs| && (q.descs[index].intStatus != 0 || StillOut(q, index))
      && Within(q.descs[index])
  {
    hide Safe, Within, StillOut, IssuedOk;
    RunSafe(run, n);
    var s := run[n];
    ResultFacts(s, id);
    PassedIsIssued(s, id, l, index);
    var i :| 0 <= i < |s.trace| && s.trace[i] == Binding(id, l, index);
    ReportedBack(s, i);
    RecordedWanted(run, n, i);
  }

  lemma ResultFacts(s: Sched, id: nat)
    requires Safe(s) && id in s.complete
    ensures ResultOk(s.complete[id]) && IssuedOk(s.trace, id, s.complete[id])
  {
    hide InvQueues, InvCores, InvStatus, ResultOk, IssuedOk;
  }

  /** A finished submit's cursors have passed every in-range index of every lane. */
  lemma FinishedPassedAll(q: QTask, l: nat, index: nat)
    requires QInv(q) && TerminalSuccess(q) && Tight(q.meta)
    requires l < |q.meta.lanes| && Covers(q.meta.lanes[l], index) && index < q.meta.total
    ensures if q.meta.dynamic then index < q.next
            else q.meta.lanes[l].start <= index < q.meta.lanes[l].start + q.cursors[l]
    ensures CompletedCount(q) == Target(q.meta)
  {
    if !q.meta.dynamic {
      SumTight(q.cursors, Caps(q.meta));
    }
  }

  /** The worker only stops dispatching when no live submit fits any idle core. */
  lemma IdleMeansNothingFits(s: Sched, c: nat, id: nat)
    requires Safe(s) && Dispatch(s).None? && c < CORES && c !in s.cores && id in s.tasks
    ensures !CanRun(s.tasks, c, id)
  {
    hide InvIds, InvCores, InvTrace, InvStatus, Terminal, Bind, CanRun, Candidate, HasRunning;
    ExceptTask(s, {}, id);
    assert FirstCore(s, s.running, 0).None? && FirstCore(s, s.ready, 0).None?;
    CandidateIsBest(s.running, s.tasks, c);
    CandidateIsBest(s.ready, s.tasks, c);
    if CanRun(s.tasks, c, id) { RunnableIsQueued(s, c, id); }
  }

  lemma RunnableIsQueued(s: Sched, c: nat, id: nat)
    requires ClassOk(s, id) && CanRun(s.tasks, c, id)
    ensures In(s.running, id) || In(s.ready, id)
  {
  }

  /** When live work remains but nothing is in flight and nothing can be
      dispatched, each live submit either permits no core at all or is a static
      layout with fewer in-range tasks than its completion target. */
  lemma StallCause(s: Sched, id: nat)
    requires Safe(s) && s.cores == map[] && Dispatch(s).None? && id in s.tasks
    ensures var q := s.tasks[id];
            || (forall c :: 0 <= c < CORES ==> !Permits(q.meta.coreMask, c))
            || (!q.meta.dynamic && Slots(q.meta) < Target(q.meta))
  {
    var q := s.tasks[id];
    StallFacts(s, id);
    if !HasRunning(q) && NextDispatchable(q).None? {
      if q.meta.dynamic {
        if q.next < q.meta.total { DynamicNext(q); }
      } else if Slots(q.meta) >= Target(q.meta) {
        ExhaustedIsTerminal(q);
      }
    } else {
      forall c | 0 <= c < CORES ensures !Permits(q.meta.coreMask, c) {
        IdleMeansNothingFits(s, c, id);
        PermitsIff(q, c);
      }
    }
  }

  lemma StallFacts(s: Sched, id: nat)
    requires Safe(s) && s.cores == map[] && id in s.tasks
    ensures QInv(s.tasks[id]) && !Terminal(s.tasks[id]) && !HasRunning(s.tasks[id]) && s.tasks[id].err == None
  {
    ExceptTask(s, {}, id);
    CoresPart(s);
    hide Inv, QInv, TerminalSuccess, ClassOk, BucketsOk;
    assert FlightOk(s, id);
    assert Bound(s, id) == {};
  }

  /** Which submit the next dispatch serves: if any running submit fits any idle
      core, a running one; otherwise a ready one. Either way it has the best
      priority among the queued submits of that kind that fit the chosen core. */
  lemma DispatchPolicy(s: Sched)
    requires Safe(s) && Dispatch(s).Some?
    ensures var (s', c) := Dispatch(s).value;
            && c < CORES && c !in s.cores && c in s'.cores && s'.cores[c].id in s.tasks
            && var id := s'.cores[c].id;
            && CanRun(s.tasks, c, id)
            && (if exists d, x :: 0 <= d < CORES && d !in s.cores && In(s.running, x) && CanRun(s.tasks, d, x)
                then In(s.running, id) && forall x :: In(s.running, x) && CanRun(s.tasks, c, x) ==>
                       s.tasks[id].meta.priority <= s.tasks[x].meta.priority
                else In(s.ready, id) && forall x :: In(s.ready, x) && CanRun(s.tasks, c, x) ==>
                       s.tasks[id].meta.priority <= s.tasks[x].meta.priority)
  {
    hide InvIds, InvQueues, InvCores, InvTrace, InvStatus, Candidate, In, BucketsOk;
    QueuesBuckets(s, {});
    forall c { CandidateIsBest(s.running, s.tasks, c); }
    forall c { CandidateIsBest(s.ready, s.tasks, c); }
  }

  // ------------------------------------------------------------- dynamic submits

  /** What the submit check promises of dynamic headers: only cores that exist. */
  ghost predicate CoresExist(s: Sched) {
    forall id :: id in s.submitted && s.submitted[id].dynamic ==> Existing(s.submitted[id].coreMask)
  }

  predicate Existing(mask: bv32) { mask & 0xFFFF_FFF8 == 0 }

  lemma AdmittedExist(meta: Meta, descs: seq<Desc>)
    requires Admissible(meta, descs) && meta.dynamic
    ensures Existing(meta.coreMask)
  {
    hide ContiguousFrom;
    var flags, lanes :| FromHeader(meta, flags, lanes);
    NamedMask(meta.coreMask);
  }

  lemma NamedMask(mask: bv32)
    ensures mask & !VALID_CORES == 0 <==> Existing(mask)
  {
  }

  lemma {:induction false} RunCoresExist(run: seq<Sched>, i: nat)
    requires IsRunOf(run) && i < |run|
    ensures CoresExist(run[i])
  {
    hide Next, Existing;
    if i > 0 {
      RunCoresExist(run, i - 1);
      assert Next(run[i - 1], run[i - 1 + 1]);
      StepCoresExist(run[i - 1], run[i]);
    }
  }

  lemma StepCoresExist(s: Sched, s': Sched)
    requires CoresExist(s) && Next(s, s')
    ensures CoresExist(s')
  {
    hide Existing, Enqueue, Dispatch, Complete, FailDispatch, Wake, Abort, Take, Admissible, BindingShaped;
    if meta, descs :| Admissible(meta, descs) && s' == Enqueue(s, meta, descs) {
      if meta.dynamic { AdmittedExist(meta, descs); }
      EnqueueSubmits(s, meta, descs);
    } else {
      SameSubmits(s, s');
    }
  }

  lemma EnqueueSubmits(s: Sched, meta: Meta, descs: seq<Desc>)
    ensures Enqueue(s, meta, descs).submitted == s.submitted[s.nextId := meta]
  {
  }

  lemma SameSubmits(s: Sched, s': Sched)
    requires Next(s, s') && !(exists meta, descs :: Admissible(meta, descs) && s' == Enqueue(s, meta, descs))
    ensures s'.submitted == s.submitted
  {
    hide Enqueue, Dispatch, Complete, FailDispatch, Wake, Abort, Take, Admissible, BindingShaped;
    if Dispatch(s).Some? && s' == Dispatch(s).value.0 {
      DispatchSubmits(s);
    } else if core, status :| status != 0 && (core in s.cores ==> BindingShaped(s, s.cores[core])) && s' == Complete(s, core, status) {
      CompleteTraces(s, core, status);
    } else if core, e :| core in s.cores && BindingShaped(s, s.cores[core]) && s' == FailDispatch(s, core, e) {
      FailTraces(s, core, e);
    } else if id, readFailed :| id in s.pending && s' == Wake(s, id, readFailed) {
      WaiterTraces(s, id, readFailed);
    } else if id :| s' == Abort(s, id) {
      WaiterTraces(s, id, false);
    } else {
      var id :| s' == Take(s, id);
      WaiterTraces(s, id, false);
    }
  }

  lemma DispatchSubmits(s: Sched)
    requires Dispatch(s).Some?
    ensures Dispatch(s).value.0.submitted == s.submitted
  {
    hide Candidate, CanRun, Push, RemoveId, Reserve, NextDispatchable;
    var (s', c) := Dispatch(s).value;
    if FirstCore(s, s.running, 0).Some? { CandidateRuns(s.running, s.tasks, c); } else { CandidateRuns(s.ready, s.tasks, c); }
  }

  /** A dynamic submit never stalls: in every run, if nothing is in flight and nothing can
      be dispatched, no dynamic submit is live. */
  lemma DynamicNeverStalls(run: seq<Sched>, n: nat, id: nat)
    requires IsRunOf(run) && n < |run| && run[n].cores == map[] && Dispatch(run[n]).None? && id in run[n].tasks
    ensures !run[n].tasks[id].meta.dynamic
  {
    hide Next, Permits, Existing, Dispatch;
    RunSafe(run, n);
    RunCoresExist(run, n);
    StallCause(run[n], id);
    var q := run[n].tasks[id];
    if q.meta.dynamic {
      LiveIsSubmitted(run[n], id);
      SomeCore(q.meta.coreMask);
    }
  }

  lemma LiveIsSubmitted(s: Sched, id: nat)
    requires Safe(s) && id in s.tasks
    ensures id in s.submitted && s.tasks[id].meta == s.submitted[id]
  {
    hide InvQueues, InvCores, InvTrace, InvStatus, WaitOk, ResultOk, HeaderOk;
  }

  lemma SomeCore(mask: bv32)
    requires Existing(mask)
    ensures Permits(mask, 0) || Permits(mask, 1) || Permits(mask, 2)
  {
    hide Permits;
    FirstCoreBit(mask);
    SecondCoreBit(mask);
    ThirdCoreBit(mask);
  }
}
