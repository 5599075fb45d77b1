/**
  CPU-time accounting and interval timers of a thread. Time is charged at polls:
  the time since the previous poll goes to the state the thread is in, and counts
  down the timers that watch that state.
*/
module Timers {
  datatype Kind = Real | Virtual | Prof
  datatype CpuState = Outside | User | Kernel
  datatype ITimer = ITimer(interval: nat, remained: nat)
  datatype Manager = Manager(utime: nat, stime: nat, last: nat, state: CpuState, timers: map<Kind, ITimer>)

  const Off := ITimer(0, 0)
  const Fresh := Manager(0, 0, 0, Outside, map[Real := Off, Virtual := Off, Prof := Off])

  predicate Complete(m: Manager) { forall k: Kind :: k in m.timers }

  /** Which states a timer counts. */
  predicate Watches(k: Kind, s: CpuState) { k.Real? || (k.Virtual? && s.User?) || (k.Prof? && !s.Outside?) }

  predicate Due(t: ITimer, delta: nat) { 0 < t.remained <= delta }

  function Countdown(t: ITimer, delta: nat): ITimer {
    if t.remained == 0 then t
    else if t.remained > delta then t.(remained := t.remained - delta)
    else t.(remained := t.interval)
  }

  function Advance(m: Manager, k: Kind, delta: nat): ITimer
    requires Complete(m)
  {
    if Watches(k, m.state) then Countdown(m.timers[k], delta) else m.timers[k]
  }

  function Polled(m: Manager, now: nat): (r: Manager)
    requires Complete(m) && now >= m.last
    ensures Complete(r) && forall k: Kind :: r.timers[k] == Advance(m, k, now - m.last)
    ensures r.timers[Virtual] == if m.state.User? then Countdown(m.timers[Virtual], now - m.last) else m.timers[Virtual]
    ensures r.timers[Prof] == if m.state.User? || m.state.Kernel? then Countdown(m.timers[Prof], now - m.last) else m.timers[Prof]
    ensures r.timers[Real] == Countdown(m.timers[Real], now - m.last)
  {
    var delta := now - m.last;
    var r := Manager(if m.state.User? then m.utime + delta else m.utime,
                     if m.state.Kernel? then m.stime + delta else m.stime, now, m.state,
                     map[Real := Advance(m, Real, delta), Virtual := Advance(m, Virtual, delta), Prof := Advance(m, Prof, delta)]);
    EveryKind(m, r.timers, delta);
    r
  }

  lemma EveryKind(m: Manager, ts: map<Kind, ITimer>, delta: nat)
    requires Complete(m) && Real in ts && Virtual in ts && Prof in ts
    requires ts[Real] == Advance(m, Real, delta) && ts[Virtual] == Advance(m, Virtual, delta) && ts[Prof] == Advance(m, Prof, delta)
    ensures forall k: Kind :: k in ts && ts[k] == Advance(m, k, delta)
  {
    forall k: Kind ensures k in ts && ts[k] == Advance(m, k, delta) { match k { case Real => case Virtual => case Prof => } }
  }

  predicate Fires(m: Manager, now: nat, k: Kind)
    requires Complete(m) && now >= m.last
  {
    Watches(k, m.state) && Due(m.timers[k], now - m.last)
  }

  // ------------------------------------------------------------------ histories

  datatype Event = Poll(now: nat) | SetState(state: CpuState) | Arm(kind: Kind, interval: nat, remained: nat)

  ghost function StateAfter(s: CpuState, es: seq<Event>): CpuState {
    if es == [] then s
    else if es[|es| - 1].SetState? then es[|es| - 1].state
    else StateAfter(s, es[..|es| - 1])
  }

  ghost function LastPoll(t: nat, es: seq<Event>): nat {
    if es == [] then t
    else if es[|es| - 1].Poll? then es[|es| - 1].now
    else LastPoll(t, es[..|es| - 1])
  }

  /** The clock never goes back. */
  ghost predicate Ordered(t: nat, es: seq<Event>) {
    if es == [] then true
    else Ordered(t, es[..|es| - 1]) && (es[|es| - 1].Poll? ==> es[|es| - 1].now >= LastPoll(t, es[..|es| - 1]))
  }

  /** Time between consecutive polls that ended in state `during`. */
  ghost function Spent(s: CpuState, t: nat, es: seq<Event>, during: CpuState): nat
    requires Ordered(t, es)
  {
    if es == [] then 0
    else
      var before := es[..|es| - 1];
      Spent(s, t, before, during)
      + if es[|es| - 1].Poll? && StateAfter(s, before) == during then es[|es| - 1].now - LastPoll(t, before) else 0
  }

  /** Time charged to a timer's class. */
  ghost function Charged(s: CpuState, t: nat, es: seq<Event>, k: Kind): nat
    requires Ordered(t, es)
  {
    Spent(s, t, es, User) * (if Watches(k, User) then 1 else 0)
    + Spent(s, t, es, Kernel) * (if Watches(k, Kernel) then 1 else 0)
    + Spent(s, t, es, Outside) * (if Watches(k, Outside) then 1 else 0)
  }

  function Apply(m: Manager, e: Event): Manager
    requires Complete(m) && (e.Poll? ==> e.now >= m.last)
  {
    match e
    case Poll(now) => Polled(m, now)
    case SetState(s) => m.(state := s)
    case Arm(k, interval, remained) => m.(timers := m.timers[k := ITimer(interval, remained)])
  }

  ghost function Run(m: Manager, es: seq<Event>): (r: Manager)
    requires Complete(m) && Ordered(m.last, es)
    ensures Complete(r) && r.last == LastPoll(m.last, es)
  {
    if es == [] then m else Apply(Run(m, es[..|es| - 1]), es[|es| - 1])
  }

  ghost predicate FiresAt(m: Manager, es: seq<Event>, j: nat, k: Kind)
    requires Complete(m) && Ordered(m.last, es) && j < |es|
  {
    OrderedPrefix(m.last, es, j);
    OrderedPrefix(m.last, es, j + 1);
    assert es[..j + 1][..j] == es[..j];
    es[j].Poll? && Fires(Run(m, es[..j]), es[j].now, k)
  }

  lemma {:induction false} OrderedPrefix(t: nat, es: seq<Event>, j: nat)
    requires Ordered(t, es) && j <= |es|
    ensures Ordered(t, es[..j])
    decreases |es| - j
  {
    if j == |es| {
      assert es[..j] == es;
    } else {
      OrderedPrefix(t, es, j + 1);
      assert es[..j + 1][..j] == es[..j];
    }
  }

  // ------------------------------------------------------------------- accounting

  /** User and system time are exactly the time spent in those states, and with
      the untracked rest they add up to the time of the last poll. */
  lemma {:induction false} Accounting(m: Manager, es: seq<Event>)
    requires Complete(m) && Ordered(m.last, es)
    ensures Run(m, es).state == StateAfter(m.state, es)
    ensures Run(m, es).utime == m.utime + Spent(m.state, m.last, es, User)
    ensures Run(m, es).stime == m.stime + Spent(m.state, m.last, es, Kernel)
    ensures Run(m, es).last == m.last + Spent(m.state, m.last, es, User) + Spent(m.state, m.last, es, Kernel) + Spent(m.state, m.last, es, Outside)
  {
    if es != [] { Accounting(m, es[..|es| - 1]); }
  }

  /** The account a timer runs on: wall-clock time, user time, or all time charged. */
  function Account(m: Manager, k: Kind): nat {
    match k
    case Real => m.last
    case Virtual => m.utime
    case Prof => m.utime + m.stime
  }

  ghost function Grown(m: Manager, es: seq<Event>, k: Kind): int
    requires Complete(m) && Ordered(m.last, es)
  {
    Account(Run(m, es), k) - Account(m, k)
  }

  /** Over any history the time charged to a timer is what its account has grown by: the
      virtual timer runs on user time, the profiling timer on user and system time, the
      real timer on the clock. */
  lemma ChargedIsGrowth(m: Manager, es: seq<Event>, k: Kind)
    requires Complete(m) && Ordered(m.last, es)
    ensures Charged(m.state, m.last, es, k) == Grown(m, es, k)
    ensures Charged(m.state, m.last, es, Virtual) == Run(m, es).utime - m.utime
    ensures Charged(m.state, m.last, es, Prof) == Run(m, es).utime - m.utime + (Run(m, es).stime - m.stime)
    ensures Charged(m.state, m.last, es, Real) == Run(m, es).last - m.last
  {
    hide Run, Spent;
    Accounting(m, es);
  }

  // ---------------------------------------------------------------------- firing

  ghost predicate NotRearmed(es: seq<Event>, k: Kind) {
    forall i :: 0 <= i < |es| && es[i].Arm? ==> es[i].kind != k
  }

  lemma ChargedStep(s: CpuState, t: nat, es: seq<Event>, k: Kind)
    requires Ordered(t, es) && es != []
    ensures var before := es[..|es| - 1];
      Charged(s, t, es, k) == Charged(s, t, before, k)
        + if es[|es| - 1].Poll? && Watches(k, StateAfter(s, before)) then es[|es| - 1].now - LastPoll(t, before) else 0
  {
  }

  lemma FireStep(m: Manager, es: seq<Event>, k: Kind)
    requires Complete(m) && Ordered(m.last, es) && es != [] && NotRearmed(es, k)
    ensures var before := es[..|es| - 1]; var t := Run(m, before).timers[k];
      var more := Charged(m.state, m.last, es, k) - Charged(m.state, m.last, before, k);
      && more >= 0
      && (FiresAt(m, es, |es| - 1, k) <==> es[|es| - 1].Poll? && Due(t, more))
      && Run(m, es).timers[k] == Countdown(t, more)
  {
    var n := |es| - 1;
    OrderedPrefix(m.last, es, n);
    Accounting(m, es[..n]);
    ChargedStep(m.state, m.last, es, k);
    assert es[..n + 1] == es;
  }

  /** Until its account has grown by its value a timer counts that growth down. */
  lemma CountsDown(m: Manager, es: seq<Event>, k: Kind)
    requires Complete(m) && Ordered(m.last, es) && NotRearmed(es, k)
    requires Grown(m, es, k) < m.timers[k].remained
    ensures Grown(m, es, k) >= 0
    ensures Run(m, es).timers[k] == ITimer(m.timers[k].interval, m.timers[k].remained - Grown(m, es, k))
    ensures forall j :: 0 <= j < |es| ==> !FiresAt(m, es, j, k)
  {
    hide Run, Charged, Account, FiresAt;
    ChargedIsGrowth(m, es, k);
    ChargesDown(m, es, k);
  }

  lemma {:induction false} ChargesDown(m: Manager, es: seq<Event>, k: Kind)
    requires Complete(m) && Ordered(m.last, es) && NotRearmed(es, k)
    requires Charged(m.state, m.last, es, k) < m.timers[k].remained
    ensures Run(m, es).timers[k] == ITimer(m.timers[k].interval, m.timers[k].remained - Charged(m.state, m.last, es, k))
    ensures forall j :: 0 <= j < |es| ==> !FiresAt(m, es, j, k)
  {
    hide Run, Charged, Due, Countdown;
    if es == [] {
      assert Charged(m.state, m.last, es, k) == 0 && Run(m, es) == m by { Nothing(m, k); }
    } else {
      var n := |es| - 1;
      OrderedPrefix(m.last, es, n);
      FireStep(m, es, k);
      ChargesDown(m, es[..n], k);
      assert !FiresAt(m, es, n, k) && Run(m, es).timers[k].interval == m.timers[k].interval by {
        DueExactly(Run(m, es[..n]).timers[k], Charged(m.state, m.last, es, k) - Charged(m.state, m.last, es[..n], k));
      }
      DueExactly(Run(m, es[..n]).timers[k], Charged(m.state, m.last, es, k) - Charged(m.state, m.last, es[..n], k));
      forall j | 0 <= j < |es| ensures !FiresAt(m, es, j, k) {
        if j < n { SamePlace(m, es, n, j, k); assert !FiresAt(m, es[..n], j, k); }
      }
    }
  }

  lemma Nothing(m: Manager, k: Kind)
    requires Complete(m)
    ensures Charged(m.state, m.last, [], k) == 0 && Run(m, []) == m
  {
  }

  lemma DueExactly(t: ITimer, delta: nat)
    ensures Due(t, delta) <==> 0 < t.remained <= delta
    ensures Countdown(t, delta) == if Due(t, delta) then ITimer(t.interval, t.interval) else if t.remained == 0 then t else ITimer(t.interval, t.remained - delta)
  {
  }

  lemma SamePlace(m: Manager, es: seq<Event>, n: nat, j: nat, k: Kind)
    requires Complete(m) && Ordered(m.last, es) && j < n <= |es|
    ensures Ordered(m.last, es[..n]) && (FiresAt(m, es[..n], j, k) <==> FiresAt(m, es, j, k))
  {
    hide Run, Fires;
    OrderedPrefix(m.last, es, n);
    assert es[..n][..j] == es[..j];
  }

  /** An armed timer fires at exactly the first poll at which its account has grown by its
      value since it was armed; it then stands as if armed with its interval. */
  lemma FirstFire(m: Manager, es: seq<Event>, j: nat, k: Kind)
    requires Complete(m) && Ordered(m.last, es) && NotRearmed(es, k) && j < |es| && m.timers[k].remained > 0
    requires forall i :: 0 <= i < j ==> !FiresAt(m, es, i, k)
    ensures Ordered(m.last, es[..j + 1])
    ensures FiresAt(m, es, j, k) <==> Grown(m, es[..j + 1], k) >= m.timers[k].remained
    ensures FiresAt(m, es, j, k) ==> Run(m, es[..j + 1]).timers[k] == ITimer(m.timers[k].interval, m.timers[k].interval)
  {
    hide Run, Charged, Account, FiresAt, Ordered;
    ChargedFire(m, es, j, k);
    ChargedIsGrowth(m, es[..j + 1], k);
  }

  lemma ChargedFire(m: Manager, es: seq<Event>, j: nat, k: Kind)
    requires Complete(m) && Ordered(m.last, es) && NotRearmed(es, k) && j < |es| && m.timers[k].remained > 0
    requires forall i :: 0 <= i < j ==> !FiresAt(m, es, i, k)
    ensures Ordered(m.last, es[..j]) && Ordered(m.last, es[..j + 1])
    ensures FiresAt(m, es, j, k) <==> Charged(m.state, m.last, es[..j + 1], k) >= m.timers[k].remained
    ensures FiresAt(m, es, j, k) ==> Run(m, es[..j + 1]).timers[k] == ITimer(m.timers[k].interval, m.timers[k].interval)
  {
    hide Run, Charged, Fires;
    OrderedPrefix(m.last, es, j);
    OrderedPrefix(m.last, es, j + 1);
    Unfired(m, es, j, k);
    ChargesDown(m, es[..j], k);
    assert es[..j + 1][..j] == es[..j];
    FireStep(m, es[..j + 1], k);
    SamePlace(m, es, j + 1, j, k);
    ChargedStep(m.state, m.last, es[..j + 1], k);
    assert es[..j + 1][j] == es[j];
  }

  lemma {:induction false} Unfired(m: Manager, es: seq<Event>, j: nat, k: Kind)
    requires Complete(m) && Ordered(m.last, es) && NotRearmed(es, k) && j <= |es| && m.timers[k].remained > 0
    requires forall i :: 0 <= i < j ==> !FiresAt(m, es, i, k)
    ensures Ordered(m.last, es[..j]) && Charged(m.state, m.last, es[..j], k) < m.timers[k].remained
  {
    hide Run, Charged, Fires;
    OrderedPrefix(m.last, es, j);
    if j == 0 {
      assert es[..0] == [];
      Nothing(m, k);
    } else {
      Unfired(m, es, j - 1, k);
      assert es[..j][..j - 1] == es[..j - 1];
      ChargesDown(m, es[..j - 1], k);
      FireStep(m, es[..j], k);
      SamePlace(m, es, j, j - 1, k);
      ChargedStep(m.state, m.last, es[..j], k);
    }
  }

  /** A timer that is off stays off until armed. */
  lemma {:induction false} StaysOff(m: Manager, es: seq<Event>, k: Kind)
    requires Complete(m) && Ordered(m.last, es) && NotRearmed(es, k) && m.timers[k].remained == 0
    ensures Run(m, es).timers[k] == m.timers[k]
    ensures forall j :: 0 <= j < |es| ==> !FiresAt(m, es, j, k)
  {
    hide Charged;
    if es != [] {
      var n := |es| - 1;
      FireStep(m, es, k);
      StaysOff(m, es[..n], k);
      forall j | 0 <= j < |es| ensures !FiresAt(m, es, j, k) {
        if j < n { SamePlace(m, es, n, j, k); assert !FiresAt(m, es[..n], j, k); }
      }
    }
  }

  // ------------------------------------------------------- a run from any fire on

  lemma {:induction false} RunAppend(m: Manager, es: seq<Event>, fs: seq<Event>)
    requires Complete(m) && Ordered(m.last, es + fs)
    ensures Ordered(m.last, es) && Ordered(Run(m, es).last, fs)
    ensures Run(m, es + fs) == Run(Run(m, es), fs)
  {
    OrderedPrefix(m.last, es + fs, |es|);
    assert (es + fs)[..|es|] == es;
    if fs == [] {
      assert es + fs == es;
    } else {
      var n := |fs| - 1;
      assert (es + fs)[..|es| + n] == es + fs[..n];
      OrderedPrefix(m.last, es + fs, |es| + n);
      RunAppend(m, es, fs[..n]);
    }
  }

  /** Over a whole run: between two consecutive fires, or arming and first fire,
      the growth of its account decides. `i` events lead to the arming or fire, and nothing
      fires in the next `j`. */
  lemma NextFire(m: Manager, es: seq<Event>, i: nat, j: nat, k: Kind)
    requires Complete(m) && Ordered(m.last, es) && 0 < i <= i + j < |es| && NotRearmed(es[i..i + j + 1], k)
    requires (es[i - 1].Arm? && es[i - 1].kind == k && es[i - 1].remained > 0) || FiresAt(m, es, i - 1, k)
    requires forall l :: i <= l < i + j ==> !FiresAt(m, es, l, k)
    ensures Ordered(m.last, es[..i]) && Ordered(Run(m, es[..i]).last, es[i..i + j + 1])
    ensures var r := Run(m, es[..i]);
      r.timers[k].remained > 0 ==>
        (FiresAt(m, es, i + j, k) <==> Grown(r, es[i..i + j + 1], k) >= r.timers[k].remained)
    ensures Ordered(m.last, es[..i - 1])
    ensures var r, iv := Run(m, es[..i]), Run(m, es[..i - 1]).timers[k].interval;
      r.timers[k] == if es[i - 1].Arm? then ITimer(es[i - 1].interval, es[i - 1].remained) else ITimer(iv, iv)
  {
    hide Run, Account, FiresAt, Ordered;
    var fs := es[i..i + j + 1];
    WindowOrdered(m, es, i, i + j + 1);
    var r := Run(m, es[..i]);
    forall l | 0 <= l < |fs| ensures FiresAt(r, fs, l, k) <==> FiresAt(m, es, i + l, k) {
      Window(m, es, i, i + j + 1, l, k);
    }
    assert fs[..j + 1] == fs;
    if r.timers[k].remained > 0 { FirstFire(r, fs, j, k); }
    Restarted(m, es, i, k);
  }

  lemma WindowOrdered(m: Manager, es: seq<Event>, i: nat, n: nat)
    requires Complete(m) && Ordered(m.last, es) && i <= n <= |es|
    ensures Ordered(m.last, es[..i]) && Ordered(Run(m, es[..i]).last, es[i..n])
  {
    hide Run, Ordered;
    OrderedPrefix(m.last, es, i);
    OrderedPrefix(m.last, es, n);
    assert es[..n] == es[..i] + es[i..n];
    RunAppend(m, es[..i], es[i..n]);
  }

  /** A stretch of a history fires as it does within the whole. */
  lemma Window(m: Manager, es: seq<Event>, i: nat, n: nat, l: nat, k: Kind)
    requires Complete(m) && Ordered(m.last, es) && i + l < n <= |es|
    requires Ordered(m.last, es[..i]) && Ordered(Run(m, es[..i]).last, es[i..n])
    ensures FiresAt(Run(m, es[..i]), es[i..n], l, k) <==> FiresAt(m, es, i + l, k)
  {
    hide Run, FiresAt, Ordered;
    OrderedPrefix(m.last, es, n);
    assert es[..n][..i] == es[..i] && es[..n][i..] == es[i..n];
    Shift(m, es[..n], i, l, k);
    SamePlace(m, es, n, i + l, k);
  }

  lemma Shift(m: Manager, es: seq<Event>, i: nat, l: nat, k: Kind)
    requires Complete(m) && Ordered(m.last, es) && i + l < |es|
    requires Ordered(m.last, es[..i]) && Ordered(Run(m, es[..i]).last, es[i..])
    ensures FiresAt(Run(m, es[..i]), es[i..], l, k) <==> FiresAt(m, es, i + l, k)
  {
    hide Run, Fires;
    OrderedPrefix(m.last, es, i + l);
    assert es[..i + l] == es[..i] + es[i..][..l];
    RunAppend(m, es[..i], es[i..][..l]);
  }

  lemma Restarted(m: Manager, es: seq<Event>, i: nat, k: Kind)
    requires Complete(m) && Ordered(m.last, es) && 0 < i <= |es| && Ordered(m.last, es[..i])
    requires (es[i - 1].Arm? && es[i - 1].kind == k) || FiresAt(m, es, i - 1, k)
    ensures Ordered(m.last, es[..i - 1])
    ensures var r, iv := Run(m, es[..i]), Run(m, es[..i - 1]).timers[k].interval;
      r.timers[k] == if es[i - 1].Arm? then ITimer(es[i - 1].interval, es[i - 1].remained) else ITimer(iv, iv)
  {
    assert es[..i][..i - 1] == es[..i - 1] && es[..i][i - 1] == es[i - 1];
  }

  // ---------------------------------------------------------------- the manager

  function Signal(t: ITimer, k: Kind, delta: nat): seq<Kind> { if Due(t, delta) then [k] else [] }

  function Alarm(t: ITimer, delta: nat): seq<nat> { if Due(t, delta) && t.interval > 0 then [t.interval] else [] }

  function Signals(m: Manager, delta: nat): seq<Kind>
    requires Complete(m)
  {
    var v, p, r := Signal(m.timers[Virtual], Virtual, delta), Signal(m.timers[Prof], Prof, delta), Signal(m.timers[Real], Real, delta);
    match m.state case User => v + p + r case Kernel => p + r case Outside => r
  }

  /** Delays handed to the alarm queue: one per timer restarted with an interval. */
  function Alarms(m: Manager, delta: nat): seq<nat>
    requires Complete(m)
  {
    var v, p, r := Alarm(m.timers[Virtual], delta), Alarm(m.timers[Prof], delta), Alarm(m.timers[Real], delta);
    match m.state case User => v + p + r case Kernel => p + r case Outside => r
  }

  function Raised(m: Manager, now: nat, k: Kind): seq<Kind>
    requires Complete(m) && now >= m.last
  {
    if Fires(m, now, k) then [k] else []
  }

  /** A poll raises exactly the signals of the timers that fire, each once. */
  lemma SignalsAreFires(m: Manager, now: nat, k: Kind)
    requires Complete(m) && now >= m.last
    ensures multiset(Signals(m, now - m.last))[k] == if Fires(m, now, k) then 1 else 0
  {
    hide Due;
    match m.state { case User => case Kernel => case Outside => }
  }

  /** Virtual before profiling before real. */
  lemma SignalsInOrder(m: Manager, now: nat)
    requires Complete(m) && now >= m.last
    ensures Signals(m, now - m.last) == Raised(m, now, Virtual) + Raised(m, now, Prof) + Raised(m, now, Real)
  {
    hide Due;
    match m.state {
      case User =>
      case Kernel => assert [] + Raised(m, now, Prof) == Raised(m, now, Prof);
      case Outside => assert [] + [] + Raised(m, now, Real) == Raised(m, now, Real);
    }
  }

  /** A poll hands over the new value of each timer it restarts, once each, and nothing
      else. */
  lemma AlarmsAreRestarts(m: Manager, now: nat, d: nat)
    requires Complete(m) && now >= m.last
    ensures multiset(Alarms(m, now - m.last))[d] == |set k: Kind | Fires(m, now, k) && d > 0 && Polled(m, now).timers[k].remained == d|
  {
    hide Due, Polled;
    var delta := now - m.last;
    var all := set k: Kind | Fires(m, now, k) && d > 0 && Polled(m, now).timers[k].remained == d;
    var v, p, r := Restart(m, now, Virtual, d), Restart(m, now, Prof, d), Restart(m, now, Real, d);
    assert all == v + p + r by { forall k: Kind | k in all ensures k in v + p + r { match k { case Real => case Virtual => case Prof => } } }
    OneAlarm(m, now, Virtual, d);
    OneAlarm(m, now, Prof, d);
    OneAlarm(m, now, Real, d);
    assert |v + p + r| == |v| + |p| + |r|;
    match m.state { case User => case Kernel => case Outside => }
  }

  ghost function Restart(m: Manager, now: nat, k: Kind, d: nat): set<Kind>
    requires Complete(m) && now >= m.last
  {
    if Fires(m, now, k) && d > 0 && Polled(m, now).timers[k].remained == d then {k} else {}
  }

  lemma OneAlarm(m: Manager, now: nat, k: Kind, d: nat)
    requires Complete(m) && now >= m.last
    ensures |Restart(m, now, k, d)| == if Watches(k, m.state) then multiset(Alarm(m.timers[k], now - m.last))[d] else 0
  {
  }

  lemma PolledIs(m: Manager, r: Manager)
    requires Complete(m) && Complete(r) && r.last >= m.last && r.state == m.state
    requires r.utime == m.utime + (if m.state.User? then r.last - m.last else 0)
    requires r.stime == m.stime + (if m.state.Kernel? then r.last - m.last else 0)
    requires forall k: Kind :: r.timers[k] == Advance(m, k, r.last - m.last)
    ensures r == Polled(m, r.last)
  {
    hide Countdown;
    assert r.timers.Keys == Polled(m, r.last).timers.Keys;
  }

  class TimeManager {
    var utime: nat
    var stime: nat
    var last: nat
    var state: CpuState
    var timers: map<Kind, ITimer>
    var fired: seq<Kind>
    var alarms: seq<nat>

    ghost function View(): Manager
      reads this
    {
      Manager(utime, stime, last, state, timers)
    }

    constructor ()
      ensures View() == Fresh && Complete(View()) && fired == [] && alarms == []
    {
      utime, stime, last, state := 0, 0, 0, Outside;
      timers := map[Real := Off, Virtual := Off, Prof := Off];
      fired, alarms := [], [];
      new;
      forall k: Kind ensures k in timers { match k { case Real => case Virtual => case Prof => } }
    }

    method Update(k: Kind, delta: nat)
      requires Complete(View())
      modifies this`timers, this`fired, this`alarms
      ensures Complete(View()) && timers == old(timers)[k := Countdown(old(timers)[k], delta)]
      ensures fired == old(fired) + Signal(old(timers)[k], k, delta)
      ensures alarms == old(alarms) + Alarm(old(timers)[k], delta)
    {
      var t := timers[k];
      if t.remained == 0 {
        assert timers == timers[k := t];
        return;
      }
      if t.remained > delta {
        timers := timers[k := t.(remained := t.remained - delta)];
      } else {
        timers := timers[k := t.(remained := t.interval)];
        if t.interval > 0 {
          alarms := alarms + [t.interval];
        }
        fired := fired + [k];
      }
    }

    /** Charge the time since the last poll and raise the signals that are due.
        The monotonic clock reading `now` is not before the last one. */
    method Poll(now: nat)
      requires Complete(View()) && now >= last
      modifies this
      ensures View() == Polled(old(View()), now)
      ensures fired == old(fired) + Signals(old(View()), now - old(last))
      ensures alarms == old(alarms) + Alarms(old(View()), now - old(last))
    {
      hide Countdown, Signal, Alarm, Polled, Apply;
      var delta := now - last;
      ghost var m := View();
      match state {
        case User =>
          utime := utime + delta;
          Update(Virtual, delta);
          Update(Prof, delta);
        case Kernel =>
          stime := stime + delta;
          Update(Prof, delta);
        case Outside =>
      }
      Update(Real, delta);
      last := now;
      PolledIs(m, View());
    }

    method SetState(s: CpuState)
      modifies this`state
      ensures state == s
    {
      state := s;
    }

    /** Replace a timer, returning what was left of the old one. */
    method SetItimer(k: Kind, interval: nat, remained: nat) returns (before: ITimer)
      requires Complete(View())
      modifies this
      ensures View() == Apply(old(View()), Arm(k, interval, remained)) && before == old(timers)[k]
      ensures fired == old(fired) && alarms == old(alarms) + if remained > 0 then [remained] else []
    {
      before := timers[k];
      timers := timers[k := ITimer(interval, remained)];
      if remained > 0 {
        alarms := alarms + [remained];
      }
    }
  }
}
