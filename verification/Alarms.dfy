/**
  The alarm queue: threads read the wall clock, compute a deadline, push it, and notify
  the loop if it is the earliest. The loop peeks at the earliest alarm. If that is due it
  releases the lock to poll the alarm's task and pops, asserting that the popped deadline
  is the one it peeked at. Otherwise it registers a listener, looks again, and sleeps
  until notified or until the deadline it saw.
*/
module AlarmQueue {
  import opened Options

  /** Where the loop is. Between peek and pop it remembers the deadline; `mark` is the
      number of alarms pushed by then. On the way to sleep it remembers the deadline it
      saw, or None for an empty heap. */
  datatype Phase =
    | Scanning
    | Polling(deadline: nat, mark: nat)
    | Leaving(limit: Option<nat>)
    | Listening(limit: Option<nat>)
    | Asleep(limit: Option<nat>)

  datatype Alarms = Alarms(
    clock: nat,
    /** deadlines computed by threads that have not pushed them yet */
    computed: map<nat, nat>,
    /** alarms in the heap, by the number of their push */
    heap: map<nat, nat>,
    pushed: nat,
    phase: Phase,
    popped: seq<nat>,
    deadlines: map<nat, nat>,
    /** threads that pushed the earliest alarm and have not notified yet */
    owing: set<nat>,
    /** the loop's listener has been notified */
    notified: bool)

  const Initial := Alarms(0, map[], map[], 0, Scanning, [], map[], {}, false)

  datatype Step =
    | Tick(clock: nat)
    | Compute(thread: nat, delay: nat)
    | Push(thread: nat)
    | Notify(thread: nat)
    | Peek(alarm: nat)
    | Pop(alarm: nat)
    | Leave(limit: Option<nat>)
    | Listen
    | Recheck
    | Resume

  /** `a` is an alarm the heap may hand out: one with the least deadline. */
  ghost predicate IsTop(s: Alarms, a: nat) {
    a in s.heap && forall b :: b in s.heap ==> s.heap[a] <= s.heap[b]
  }

  /** The heap's earliest deadline is `limit`; None says the heap is empty. */
  ghost predicate Shows(s: Alarms, limit: Option<nat>) {
    match limit
    case None => s.heap == map[]
    case Some(d) => exists a :: IsTop(s, a) && s.heap[a] == d
  }

  /** A new deadline would come first. */
  predicate ComesFirst(s: Alarms, d: nat) { forall a :: a in s.heap ==> s.heap[a] > d }

  ghost predicate Enabled(s: Alarms, step: Step) {
    match step
    case Tick(t) => t >= s.clock
    case Compute(th, delay) => th !in s.computed && th !in s.owing && delay > 0
    case Push(th) => th in s.computed
    case Notify(th) => th in s.owing
    case Leave(limit) => s.phase.Scanning? && Shows(s, limit) && (limit.Some? ==> limit.value > s.clock)
    case Listen => s.phase.Leaving?
    case Recheck => s.phase.Listening?
    case Resume => s.phase.Asleep? && (s.notified || (s.phase.limit.Some? && s.phase.limit.value <= s.clock))
    case Peek(a) => s.phase.Scanning? && IsTop(s, a) && s.heap[a] <= s.clock
    case Pop(a) => s.phase.Polling? && IsTop(s, a)
  }

  ghost function Apply(s: Alarms, step: Step): Alarms
    requires Enabled(s, step)
  {
    match step
    case Tick(t) => s.(clock := t)
    case Compute(th, delay) => s.(computed := s.computed[th := s.clock + delay])
    case Push(th) =>
      s.(computed := s.computed - {th}, heap := s.heap[s.pushed := s.computed[th]],
         deadlines := s.deadlines[s.pushed := s.computed[th]], pushed := s.pushed + 1,
         owing := if ComesFirst(s, s.computed[th]) then s.owing + {th} else s.owing)
    case Notify(th) => s.(owing := s.owing - {th}, notified := s.notified || s.phase.Listening? || s.phase.Asleep?)
    case Leave(limit) => s.(phase := Leaving(limit))
    case Listen => s.(phase := Listening(s.phase.limit), notified := false)
    case Recheck => s.(phase := if Shows(s, s.phase.limit) then Asleep(s.phase.limit) else Scanning)
    case Resume => s.(phase := Scanning)
    case Peek(a) => s.(phase := Polling(s.heap[a], s.pushed))
    case Pop(a) => s.(phase := Scanning, heap := s.heap - {a}, popped := s.popped + [a])
  }

  ghost predicate IsRun(run: seq<Alarms>, steps: seq<Step>) {
    && |run| == |steps| + 1 && run[0] == Initial
    && forall i :: 0 <= i < |steps| ==> Enabled(run[i], steps[i]) && run[i + 1] == Apply(run[i], steps[i])
  }

  // ------------------------------------------------------------- in every run

  /** Alarms are split between the heap and those popped; the alarm peeked at is
      still there, and only later pushes can be earlier than it. */
  ghost predicate Inv(s: Alarms) {
    && (forall a: nat :: a in s.deadlines <==> a < s.pushed)
    && (forall a :: a in s.heap ==> a in s.deadlines && s.heap[a] == s.deadlines[a])
    && (forall i :: 0 <= i < |s.popped| ==> s.popped[i] in s.deadlines && s.popped[i] !in s.heap)
    && (forall i, j :: 0 <= i < j < |s.popped| ==> s.popped[i] != s.popped[j])
    && (forall a :: a in s.deadlines ==> a in s.heap || a in s.popped)
    && (s.phase.Polling? ==>
          && s.phase.deadline <= s.clock && s.phase.mark <= s.pushed
          && (exists a :: a in s.heap && a < s.phase.mark && s.heap[a] == s.phase.deadline)
          && (forall a :: a in s.heap && a < s.phase.mark ==> s.heap[a] >= s.phase.deadline))
  }

  lemma PushInv(s: Alarms, th: nat)
    requires Inv(s) && Enabled(s, Push(th))
    ensures Inv(Apply(s, Push(th)))
  {
    hide ComesFirst;
    var s' := Apply(s, Push(th));
    if s.phase.Polling? {
      var a :| a in s.heap && a < s.phase.mark && s.heap[a] == s.phase.deadline;
      assert a in s'.heap && s'.heap[a] == s.phase.deadline;
    }
  }

  lemma PopInv(s: Alarms, a: nat)
    requires Inv(s) && Enabled(s, Pop(a))
    ensures Inv(Apply(s, Pop(a)))
  {
    var s' := Apply(s, Pop(a));
    assert a in s'.popped by { assert s'.popped[|s.popped|] == a; }
    forall b | b in s'.deadlines ensures b in s'.heap || b in s'.popped {
      if b in s.popped { var i :| 0 <= i < |s.popped| && s.popped[i] == b; assert s'.popped[i] == b; }
    }
  }

  lemma PeekInv(s: Alarms, a: nat)
    requires Inv(s) && Enabled(s, Peek(a))
    ensures Inv(Apply(s, Peek(a)))
  {
    var s' := Apply(s, Peek(a));
    assert a in s'.heap && a < s'.phase.mark && s'.heap[a] == s'.phase.deadline;
  }

  lemma OtherInv(s: Alarms, step: Step)
    requires Inv(s) && Enabled(s, step) && !step.Push? && !step.Pop? && !step.Peek?
    ensures Inv(Apply(s, step))
  {
    hide ComesFirst, Shows, IsTop;
  }

  lemma StepInv(s: Alarms, step: Step)
    requires Inv(s) && Enabled(s, step)
    ensures Inv(Apply(s, step))
  {
    hide Inv, Enabled, Apply;
    match step {
      case Push(th) => PushInv(s, th);
      case Peek(a) => PeekInv(s, a);
      case Pop(a) => PopInv(s, a);
      case _ => OtherInv(s, step);
    }
  }

  lemma {:induction false} RunInv(run: seq<Alarms>, steps: seq<Step>, i: nat)
    requires IsRun(run, steps) && i < |run|
    ensures Inv(run[i])
  {
    hide Inv, Enabled, Apply;
    if i > 0 { RunInv(run, steps, i - 1); StepInv(run[i - 1], steps[i - 1]); } else { InitialInv(); }
  }

  lemma InitialInv()
    ensures Inv(Initial)
  {
  }

  /** The popped alarm has the peeked deadline. */
  ghost predicate AssertionHolds(s: Alarms, a: nat)
    requires s.phase.Polling? && a in s.heap
  {
    s.heap[a] == s.phase.deadline
  }

  /** The assertion after the unlocked poll holds if and only if no alarm pushed
      since the peek is due before the one peeked at. */
  lemma AssertionIff(run: seq<Alarms>, steps: seq<Step>, i: nat)
    requires IsRun(run, steps) && i < |steps| && steps[i].Pop?
    ensures run[i].phase.Polling? && steps[i].alarm in run[i].heap
    ensures AssertionHolds(run[i], steps[i].alarm) <==>
      forall b :: b in run[i].heap && b >= run[i].phase.mark ==> run[i].heap[b] >= run[i].phase.deadline
  {
    hide Apply;
    RunInv(run, steps, i);
    assert Enabled(run[i], steps[i]);
    var s, a := run[i], steps[i].alarm;
    assert forall b :: b in s.heap ==> s.heap[a] <= s.heap[b];
  }

  /** The queue is never found empty at the pop: some alarm can be popped. */
  lemma PopFindsAlarm(run: seq<Alarms>, steps: seq<Step>, i: nat)
    requires IsRun(run, steps) && i < |run| && run[i].phase.Polling?
    ensures run[i].heap != map[]
  {
    hide Enabled, Apply;
    RunInv(run, steps, i);
  }

  /** Each alarm is popped at most once, with its own deadline, and is in the heap
      until then. */
  lemma PoppedOnce(run: seq<Alarms>, steps: seq<Step>, i: nat)
    requires IsRun(run, steps) && i < |run|
    ensures forall j, k :: 0 <= j < k < |run[i].popped| ==> run[i].popped[j] != run[i].popped[k]
    ensures forall a: nat :: a < run[i].pushed ==> (a in run[i].heap <==> a !in run[i].popped)
  {
    hide Enabled, Apply;
    RunInv(run, steps, i);
  }

  /** No alarm is popped before its deadline, whatever the interleaving. */
  lemma NeverEarly(run: seq<Alarms>, steps: seq<Step>, i: nat)
    requires IsRun(run, steps) && i < |steps| && steps[i].Pop?
    ensures steps[i].alarm in run[i].heap && run[i].heap[steps[i].alarm] <= run[i].clock
  {
    hide Apply;
    RunInv(run, steps, i);
    assert Enabled(run[i], steps[i]);
  }

  /** A push owes a notification exactly when its deadline is before every other one. */
  lemma PushNotifiesIff(s: Alarms, th: nat)
    requires Enabled(s, Push(th)) && th !in s.owing
    ensures th in Apply(s, Push(th)).owing <==> forall a :: a in s.heap ==> s.computed[th] < s.heap[a]
    ensures forall x :: x != th ==> (x in Apply(s, Push(th)).owing <==> x in s.owing)
  {
  }

  // ------------------------------------------------------------- deadlines and delays

  /** Step `i` computes a deadline and step `j` is the push of it. */
  ghost predicate Pairs(steps: seq<Step>, i: nat, j: nat) {
    && i < j < |steps| && steps[i].Compute? && steps[j] == Push(steps[i].thread)
    && forall k :: i < k < j ==> steps[k] != Push(steps[i].thread)
  }

  lemma {:induction false} ComputedStays(run: seq<Alarms>, steps: seq<Step>, i: nat, j: nat)
    requires IsRun(run, steps) && i < j <= |steps| && steps[i].Compute? && forall k :: i < k < j ==> steps[k] != Push(steps[i].thread)
    ensures steps[i].thread in run[j].computed && run[j].computed[steps[i].thread] == run[i].clock + steps[i].delay
    decreases j - i
  {
    hide IsTop, Shows, ComesFirst;
    assert Enabled(run[j - 1], steps[j - 1]) && run[j - 1 + 1] == Apply(run[j - 1], steps[j - 1]);
    if j > i + 1 { ComputedStays(run, steps, i, j - 1); }
  }

  lemma StepDeadlines(s: Alarms, step: Step, a: nat)
    requires Enabled(s, step) && a < s.pushed && a in s.deadlines
    ensures var s' := Apply(s, step); a < s'.pushed && a in s'.deadlines && s'.deadlines[a] == s.deadlines[a]
  {
    hide IsTop, Shows, ComesFirst;
  }

  lemma {:induction false} DeadlineStays(run: seq<Alarms>, steps: seq<Step>, i: nat, j: nat, a: nat)
    requires IsRun(run, steps) && i <= j < |run| && a < run[i].pushed && a in run[i].deadlines
    ensures a < run[j].pushed && a in run[j].deadlines && run[j].deadlines[a] == run[i].deadlines[a]
    decreases j - i
  {
    hide Enabled, Apply;
    if i < j {
      DeadlineStays(run, steps, i, j - 1, a);
      assert Enabled(run[j - 1], steps[j - 1]) && run[j - 1 + 1] == Apply(run[j - 1], steps[j - 1]);
      StepDeadlines(run[j - 1], steps[j - 1], a);
    }
  }

  /** An alarm's deadline is the clock its thread read plus the delay it asked for, and
      stays that. */
  lemma DeadlineIsClockPlusDelay(run: seq<Alarms>, steps: seq<Step>, i: nat, j: nat, n: nat)
    requires IsRun(run, steps) && Pairs(steps, i, j) && j < n < |run|
    ensures run[j].pushed in run[n].deadlines && run[n].deadlines[run[j].pushed] == run[i].clock + steps[i].delay
  {
    hide IsTop, Shows, ComesFirst;
    ComputedStays(run, steps, i, j);
    assert Enabled(run[j], steps[j]) && run[j + 1] == Apply(run[j], steps[j]);
    DeadlineStays(run, steps, j + 1, n, run[j].pushed);
  }

  lemma {:induction false} ComputedBy(run: seq<Alarms>, steps: seq<Step>, j: nat, th: nat) returns (i: nat)
    requires IsRun(run, steps) && j < |run| && th in run[j].computed
    ensures i < j && steps[i].Compute? && steps[i].thread == th && forall k :: i < k < j ==> steps[k] != Push(th)
  {
    hide IsTop, Shows, ComesFirst;
    assert j > 0;
    assert Enabled(run[j - 1], steps[j - 1]) && run[j - 1 + 1] == Apply(run[j - 1], steps[j - 1]);
    if steps[j - 1].Compute? && steps[j - 1].thread == th {
      i := j - 1;
    } else {
      i := ComputedBy(run, steps, j - 1, th);
    }
  }

  lemma {:induction false} PushedBy(run: seq<Alarms>, steps: seq<Step>, n: nat, a: nat) returns (j: nat)
    requires IsRun(run, steps) && n < |run| && a < run[n].pushed
    ensures j < n && steps[j].Push? && run[j].pushed == a
  {
    hide IsTop, Shows, ComesFirst;
    assert n > 0;
    assert Enabled(run[n - 1], steps[n - 1]) && run[n - 1 + 1] == Apply(run[n - 1], steps[n - 1]);
    if a < run[n - 1].pushed { j := PushedBy(run, steps, n - 1, a); } else { j := n - 1; }
  }

  /** Every popped alarm was asked for: some thread computed its deadline at step `i` and
      pushed it at step `j`, and it is not popped before the delay asked for has passed
      since the clock was read. */
  lemma DelayHasPassed(run: seq<Alarms>, steps: seq<Step>, n: nat) returns (i: nat, j: nat)
    requires IsRun(run, steps) && n < |steps| && steps[n].Pop?
    ensures Pairs(steps, i, j) && j < n && run[j].pushed == steps[n].alarm
    ensures run[n].clock >= run[i].clock + steps[i].delay
  {
    hide Apply, IsTop, Shows, ComesFirst;
    RunInv(run, steps, n);
    NeverEarly(run, steps, n);
    j := PushedBy(run, steps, n, steps[n].alarm);
    assert Enabled(run[j], steps[j]);
    i := ComputedBy(run, steps, j, steps[j].thread);
    DeadlineIsClockPlusDelay(run, steps, i, j, n);
  }

  // ----------------------------------------------------------------------- sleeping

  ghost predicate Before(limit: Option<nat>, d: nat) { limit.None? || d < limit.value }

  /** While the loop sleeps, an alarm due before the deadline it sleeps for means that it
      has been notified or is about to be. */
  ghost predicate Covered(s: Alarms) {
    s.phase.Asleep? && !s.notified && s.owing == {} ==> forall a :: a in s.heap ==> !Before(s.phase.limit, s.heap[a])
  }

  lemma StepCovered(s: Alarms, step: Step)
    requires Covered(s) && Enabled(s, step)
    ensures Covered(Apply(s, step))
  {
  }

  lemma {:induction false} RunCovered(run: seq<Alarms>, steps: seq<Step>, i: nat)
    requires IsRun(run, steps) && i < |run|
    ensures Covered(run[i])
  {
    hide Enabled, Apply, Covered;
    if i == 0 { assert Covered(Initial) by { InitialCovered(); } } else {
      RunCovered(run, steps, i - 1);
      StepCovered(run[i - 1], steps[i - 1]);
    }
  }

  lemma InitialCovered()
    ensures Covered(Initial)
  {
  }

  /** No alarm is slept through: in every run, once the pushing threads have notified,
      a sleeping loop can resume as soon as any alarm is due; and it sleeps without a
      deadline only while there is no alarm at all. */
  lemma NeverOversleeps(run: seq<Alarms>, steps: seq<Step>, i: nat)
    requires IsRun(run, steps) && i < |run| && run[i].phase.Asleep? && run[i].owing == {}
    ensures (exists a :: a in run[i].heap && run[i].heap[a] <= run[i].clock) ==> Enabled(run[i], Resume)
    ensures !run[i].notified && run[i].phase.limit.None? ==> run[i].heap == map[]
  {
    hide Apply;
    RunCovered(run, steps, i);
    var s := run[i];
    if !s.notified && s.phase.limit.None? { assert forall a :: a in s.heap ==> !Before(s.phase.limit, s.heap[a]); }
  }

  // ------------------------------------------------------- clock read under the lock

  /** Every push happens at a time not later than the deadline pushed. This holds
      when reading the clock and pushing are one step. */
  ghost predicate Timely(run: seq<Alarms>, steps: seq<Step>)
    requires |run| == |steps| + 1
  {
    forall i :: 0 <= i < |steps| && steps[i].Push? && steps[i].thread in run[i].computed ==>
      run[i].computed[steps[i].thread] >= run[i].clock
  }

  /** Reading the clock and pushing without a step in between is timely. */
  ghost predicate Atomic(steps: seq<Step>) {
    forall i :: 0 <= i < |steps| && steps[i].Push? ==> i > 0 && steps[i - 1].Compute? && steps[i - 1].thread == steps[i].thread
  }

  lemma AtomicIsTimely(run: seq<Alarms>, steps: seq<Step>)
    requires IsRun(run, steps) && Atomic(steps)
    ensures Timely(run, steps)
  {
    forall i | 0 <= i < |steps| && steps[i].Push? && steps[i].thread in run[i].computed
      ensures run[i].computed[steps[i].thread] >= run[i].clock
    {
      assert run[i] == Apply(run[i - 1], steps[i - 1]);
    }
  }

  /** Nothing popped or peeked at is later than the clock or than anything left. */
  ghost predicate InOrder(s: Alarms) {
    && (forall a :: a in s.popped ==> a in s.deadlines && s.deadlines[a] <= s.clock)
    && (forall a, b :: a in s.popped && b in s.heap ==> a in s.deadlines && s.deadlines[a] <= s.heap[b])
    && (s.phase.Polling? ==> forall b :: b in s.heap ==> s.heap[b] >= s.phase.deadline)
    && (forall i, j :: 0 <= i < j < |s.popped| ==>
          s.popped[i] in s.deadlines && s.popped[j] in s.deadlines && s.deadlines[s.popped[i]] <= s.deadlines[s.popped[j]])
  }

  lemma PushInOrder(s: Alarms, th: nat)
    requires Inv(s) && InOrder(s) && Enabled(s, Push(th)) && s.computed[th] >= s.clock
    ensures InOrder(Apply(s, Push(th)))
  {
    hide ComesFirst;
    assert s.pushed !in s.deadlines;
  }

  lemma PopInOrder(s: Alarms, a: nat)
    requires Inv(s) && InOrder(s) && Enabled(s, Pop(a))
    ensures InOrder(Apply(s, Pop(a)))
  {
    var s' := Apply(s, Pop(a));
    assert forall b :: b in s'.popped ==> b in s.popped || b == a;
  }

  lemma SameOrder(s: Alarms, s': Alarms)
    requires InOrder(s) && s'.popped == s.popped && s'.deadlines == s.deadlines && s'.heap == s.heap && s'.clock >= s.clock
    requires s'.phase.Polling? ==> s'.phase == s.phase || forall b :: b in s.heap ==> s.heap[b] >= s'.phase.deadline
    ensures InOrder(s')
  {
  }

  lemma StepInOrder(s: Alarms, step: Step)
    requires Inv(s) && InOrder(s) && Enabled(s, step)
    requires step.Push? ==> s.computed[step.thread] >= s.clock
    ensures InOrder(Apply(s, step))
  {
    hide Inv, InOrder, Shows, ComesFirst;
    match step {
      case Push(th) => PushInOrder(s, th);
      case Pop(a) => PopInOrder(s, a);
      case _ => SameOrder(s, Apply(s, step));
    }
  }

  lemma {:induction false} TimelyInOrder(run: seq<Alarms>, steps: seq<Step>, i: nat)
    requires IsRun(run, steps) && Timely(run, steps) && i < |run|
    ensures InOrder(run[i])
  {
    hide Inv, InOrder, Apply;
    if i == 0 { InitialInOrder(); } else {
      TimelyInOrder(run, steps, i - 1);
      RunInv(run, steps, i - 1);
      assert Enabled(run[i - 1], steps[i - 1]);
      StepInOrder(run[i - 1], steps[i - 1]);
    }
  }

  lemma InitialInOrder()
    ensures InOrder(Initial)
  {
  }

  /** With timely pushes the assertion never fails and deadlines come out in
      nondecreasing order over the whole run. */
  lemma TimelyRunsAreOrdered(run: seq<Alarms>, steps: seq<Step>, i: nat)
    requires IsRun(run, steps) && Timely(run, steps) && i < |run|
    ensures i < |steps| && steps[i].Pop? ==>
      run[i].phase.Polling? && steps[i].alarm in run[i].heap && AssertionHolds(run[i], steps[i].alarm)
    ensures var s := run[i]; forall j, k :: 0 <= j < k < |s.popped| ==>
      s.popped[j] in s.deadlines && s.popped[k] in s.deadlines && s.deadlines[s.popped[j]] <= s.deadlines[s.popped[k]]
  {
    hide Apply;
    TimelyInOrder(run, steps, i);
    if i < |steps| && steps[i].Pop? {
      AssertionIff(run, steps, i);
      RunInv(run, steps, i);
    }
  }

  /** Without that the assertion can fail: a thread computes a deadline, is delayed
      past another alarm's deadline, and pushes while the loop polls that alarm. */
  lemma StaleDeadlineFailsAssertion()
    returns (run: seq<Alarms>, steps: seq<Step>)
    ensures IsRun(run, steps) && |steps| == 7 && steps[6].Pop?
    ensures run[6].phase.Polling? && steps[6].alarm in run[6].heap && !AssertionHolds(run[6], steps[6].alarm)
  {
    steps := [Compute(0, 2), Compute(1, 1), Push(0), Tick(2), Peek(0), Push(1), Pop(1)];
    var s1 := Apply(Initial, steps[0]);
    var s2 := Apply(s1, steps[1]);
    var s3 := Apply(s2, steps[2]);
    assert s3.heap == map[0 := 2];
    var s4 := Apply(s3, steps[3]);
    var s5 := Apply(s4, steps[4]);
    var s6 := Apply(s5, steps[5]);
    assert s6.heap == map[0 := 2, 1 := 1];
    var s7 := Apply(s6, steps[6]);
    run := [Initial, s1, s2, s3, s4, s5, s6, s7];
  }
}
