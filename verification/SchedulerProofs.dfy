/** What every reachable state of the scheduler satisfies. */
module SchedulerProofs {
  import opened Sums
  import opened Options
  import opened QueueTask
  import opened SchedulerSpec

  // ---------------------------------------------------------------- buckets

  lemma {:induction false} FlatIn(bs: seq<Bucket>, id: nat)
    ensures id in Flat(bs) <==> In(bs, id)
  {
    if bs != [] {
      FlatIn(bs[1..], id);
      if In(bs[1..], id) {
        var i :| 0 <= i < |bs[1..]| && id in bs[1..][i].ids;
        assert id in bs[i + 1].ids;
      }
      if In(bs, id) && id !in bs[0].ids {
        var i :| 0 <= i < |bs| && id in bs[i].ids;
        assert id in bs[1..][i - 1].ids;
      }
    }
  }

  lemma TailOk(bs: seq<Bucket>, tasks: map<nat, QTask>)
    requires bs != [] && BucketsOk(bs, tasks)
    ensures BucketsOk(bs[1..], tasks)
  {
  }

  lemma InCons(b: Bucket, bs: seq<Bucket>, x: nat)
    ensures In([b] + bs, x) <==> x in b.ids || In(bs, x)
  {
    var all := [b] + bs;
    if x in b.ids { assert x in all[0].ids; }
    if In(bs, x) {
      var i :| 0 <= i < |bs| && x in bs[i].ids;
      assert x in all[i + 1].ids;
    }
    if In(all, x) {
      var i :| 0 <= i < |all| && x in all[i].ids;
      if i > 0 { assert x in bs[i - 1].ids; }
    }
  }

  lemma ConsOk(b: Bucket, bs: seq<Bucket>, tasks: map<nat, QTask>)
    requires BucketsOk(bs, tasks) && b.ids != [] && NoDup(b.ids)
    requires bs != [] ==> b.priority < bs[0].priority
    requires forall id :: id in b.ids ==> id in tasks && tasks[id].meta.priority == b.priority
    ensures BucketsOk([b] + bs, tasks)
  {
    var all := [b] + bs;
    forall i, j | 0 <= i < j < |all| ensures all[i].priority < all[j].priority {
      assert all[j] == bs[j - 1];
      if i > 0 { assert all[i] == bs[i - 1]; }
    }
  }

  lemma {:induction false} PushOk(bs: seq<Bucket>, p: int, id: nat, tasks: map<nat, QTask>)
    requires BucketsOk(bs, tasks) && id in tasks && tasks[id].meta.priority == p
    ensures BucketsOk(Push(bs, p, id), tasks)
    ensures forall x :: In(Push(bs, p, id), x) <==> In(bs, x) || x == id
    ensures bs != [] && bs[0].priority < p ==> Push(bs, p, id)[0] == bs[0]
  {
    if bs == [] || p < bs[0].priority {
      ConsOk(Bucket(p, [id]), bs, tasks);
      forall x { InCons(Bucket(p, [id]), bs, x); }
    } else {
      TailOk(bs, tasks);
      assert bs == [bs[0]] + bs[1..];
      forall x { InCons(bs[0], bs[1..], x); }
      if bs[0].priority == p {
        if id !in bs[0].ids {
          ConsOk(Bucket(p, bs[0].ids + [id]), bs[1..], tasks);
          forall x { InCons(Bucket(p, bs[0].ids + [id]), bs[1..], x); }
        }
      } else {
        PushOk(bs[1..], p, id, tasks);
        ConsOk(bs[0], Push(bs[1..], p, id), tasks);
        forall x { InCons(bs[0], Push(bs[1..], p, id), x); }
      }
    }
  }

  lemma {:induction false} WithoutOk(ids: seq<nat>, id: nat)
    requires NoDup(ids)
    ensures NoDup(Without(ids, id)) && forall x :: x in Without(ids, id) <==> x in ids && x != id
  {
    if ids != [] {
      WithoutOk(ids[1..], id);
      assert ids == [ids[0]] + ids[1..];
      if ids[0] == id {
        assert forall x :: x in ids[1..] ==> exists k :: 1 <= k < |ids| && ids[k] == x;
      } else {
        assert ids[0] !in ids[1..];
      }
    }
  }

  lemma {:induction false} RemoveIn(bs: seq<Bucket>, id: nat, x: nat)
    requires forall i :: 0 <= i < |bs| ==> NoDup(bs[i].ids)
    ensures In(RemoveId(bs, id), x) <==> In(bs, x) && x != id
  {
    if bs != [] {
      var tail := bs[1..];
      RemoveIn(tail, id, x);
      WithoutOk(bs[0].ids, id);
      assert bs == [bs[0]] + tail;
      InCons(bs[0], tail, x);
      var ids := Without(bs[0].ids, id);
      if ids != [] {
        InCons(Bucket(bs[0].priority, ids), RemoveId(tail, id), x);
      } else {
        assert [] + RemoveId(tail, id) == RemoveId(tail, id);
      }
    }
  }

  lemma HeadOk(bs: seq<Bucket>, tasks: map<nat, QTask>)
    requires BucketsOk(bs, tasks) && bs != []
    ensures NoDup(bs[0].ids) && forall id :: id in bs[0].ids ==> id in tasks && tasks[id].meta.priority == bs[0].priority
    ensures |bs| > 1 ==> bs[0].priority < bs[1].priority
  {
  }

  lemma {:induction false} RemoveBuckets(bs: seq<Bucket>, id: nat, tasks: map<nat, QTask>)
    requires BucketsOk(bs, tasks)
    ensures BucketsOk(RemoveId(bs, id), tasks)
    ensures RemoveId(bs, id) != [] ==> bs != [] && RemoveId(bs, id)[0].priority >= bs[0].priority
  {
    hide BucketsOk, NoDup, Without;
    if bs != [] {
      var tail := bs[1..];
      TailOk(bs, tasks);
      HeadOk(bs, tasks);
      RemoveBuckets(tail, id, tasks);
      WithoutOk(bs[0].ids, id);
      var ids := Without(bs[0].ids, id);
      if ids != [] {
        ConsOk(Bucket(bs[0].priority, ids), RemoveId(tail, id), tasks);
      } else {
        assert [] + RemoveId(tail, id) == RemoveId(tail, id);
      }
    }
  }

  lemma RemoveOk(bs: seq<Bucket>, id: nat, tasks: map<nat, QTask>)
    requires BucketsOk(bs, tasks)
    ensures BucketsOk(RemoveId(bs, id), tasks)
    ensures forall x :: In(RemoveId(bs, id), x) <==> In(bs, x) && x != id
  {
    RemoveBuckets(bs, id, tasks);
    forall x { RemoveIn(bs, id, x); }
  }

  /** The chosen submit runs on the core and no eligible one has a better priority;
      among equals it is the one queued first. */
  lemma {:induction false} CandidateIsBest(bs: seq<Bucket>, tasks: map<nat, QTask>, core: nat)
    requires BucketsOk(bs, tasks)
    ensures match Candidate(bs, tasks, core)
            case Some(id) =>
              && In(bs, id) && CanRun(tasks, core, id)
              && (forall x :: In(bs, x) && CanRun(tasks, core, x) ==> tasks[id].meta.priority <= tasks[x].meta.priority)
              && (forall i, j, k :: 0 <= i < |bs| && 0 <= j < k < |bs[i].ids| && bs[i].ids[k] == id
                                    ==> !CanRun(tasks, core, bs[i].ids[j]))
            case None => forall x :: In(bs, x) ==> !CanRun(tasks, core, x)
  {
    forall x { FlatIn(bs, x); }
    if bs != [] {
      var tail := bs[1..];
      TailOk(bs, tasks);
      CandidateIsBest(tail, tasks, core);
      assert bs == [bs[0]] + tail;
      forall x { InCons(bs[0], tail, x); }
      FirstConcat(bs[0].ids, Flat(tail), tasks, core);
      var head := First(bs[0].ids, tasks, core);
      if head.Some? {
        var n :| 0 <= n < |bs[0].ids| && bs[0].ids[n] == head.value && forall j :: 0 <= j < n ==> !CanRun(tasks, core, bs[0].ids[j]);
        forall i, j, k | 0 <= i < |bs| && 0 <= j < k < |bs[i].ids| && bs[i].ids[k] == head.value
          ensures !CanRun(tasks, core, bs[i].ids[j])
        {
          assert i == 0;
          assert k == n;
        }
      } else {
        var r := Candidate(tail, tasks, core);
        if r.Some? {
          forall i, j, k | 0 <= i < |bs| && 0 <= j < k < |bs[i].ids| && bs[i].ids[k] == r.value
            ensures !CanRun(tasks, core, bs[i].ids[j])
          {
            if i > 0 { assert bs[i] == tail[i - 1]; }
          }
        }
      }
    }
  }

  lemma {:induction false} FirstConcat(a: seq<nat>, b: seq<nat>, tasks: map<nat, QTask>, core: nat)
    ensures First(a + b, tasks, core) == (if First(a, tasks, core).Some? then First(a, tasks, core) else First(b, tasks, core))
  {
    if a == [] {
      assert a + b == b;
    } else {
      assert (a + b)[1..] == a[1..] + b;
      FirstConcat(a[1..], b, tasks, core);
    }
  }

  lemma CandidateRuns(bs: seq<Bucket>, tasks: map<nat, QTask>, core: nat)
    requires Candidate(bs, tasks, core).Some?
    ensures CanRun(tasks, core, Candidate(bs, tasks, core).value) && Candidate(bs, tasks, core).value in tasks
  {
  }

  // -------------------------------------------------------------- invariant

  ghost function Bound(s: Sched, id: nat): set<nat> {
    set c | c in s.cores && s.cores[c].id == id
  }

  /** Every id in use was submitted, and no submit is both live and terminal. */
  ghost predicate IdsOk(s: Sched) {
    && (forall id :: id in s.submitted ==> id < s.nextId && HeaderOk(s.submitted[id]))
    && (forall id :: id in s.tasks ==> id in s.submitted && s.tasks[id].meta == s.submitted[id] && id !in s.complete)
    && (forall id :: id in s.complete ==> id in s.submitted && s.complete[id].meta == s.submitted[id])
    && (forall c :: c in s.cores ==> s.cores[c].id in s.submitted)
    && (forall id :: id in s.waiters || id in s.pending || id in s.woken ==> id in s.submitted)
  }

  /** A submit is queued as running exactly when it has tasks in flight, and an
      idle submit with work left is queued as ready. */
  ghost predicate ClassOk(s: Sched, id: nat) {
    && id in s.tasks && Shaped(s.tasks[id])
    && (In(s.running, id) <==> HasRunning(s.tasks[id]))
    && (In(s.ready, id) ==> !HasRunning(s.tasks[id]))
    && (!HasRunning(s.tasks[id]) && NextDispatchable(s.tasks[id]).Some? ==> In(s.ready, id))
  }

  /** A core executes a task that its submit counts as in flight, on a permitted core. */
  ghost predicate BindOk(q: QTask, c: nat, b: Binding) {
    && Shaped(q) && AllowsCore(q, c) && b.lane < |q.meta.lanes| && b.index < q.meta.total
    && (if q.meta.dynamic then b.index < q.next
        else q.laneRun[b.lane] && b.index == q.meta.lanes[b.lane].start + q.cursors[b.lane])
  }

  ghost predicate Apart(m: Meta, b: Binding, b': Binding) {
    if m.dynamic then b.index != b'.index else b.lane != b'.lane
  }

  ghost predicate CoresOk(s: Sched) {
    && (forall c :: c in s.cores ==> c < CORES)
    && (forall c :: c in s.cores && s.cores[c].id in s.tasks ==>
          BindOk(s.tasks[s.cores[c].id], c, s.cores[c]))
    && (forall c, d :: c in s.cores && d in s.cores && c != d && s.cores[c].id == s.cores[d].id && s.cores[c].id in s.tasks
          ==> Apart(s.tasks[s.cores[c].id].meta, s.cores[c], s.cores[d]))
  }

  /** Conversely, everything a submit counts as in flight is on some core. */
  ghost predicate FlightOk(s: Sched, id: nat) {
    id in s.tasks &&
    var q := s.tasks[id];
    if q.meta.dynamic then q.running == |Bound(s, id)|
    else forall l :: 0 <= l < |q.laneRun| && q.laneRun[l] ==> exists c :: c in Bound(s, id) && s.cores[c].lane == l
  }

  /** A healthy submit will not hand out `b` again. */
  ghost predicate Past(q: QTask, b: Binding) {
    q.err.Some? ||
    (Shaped(q) && b.lane < |q.meta.lanes| &&
     if q.meta.dynamic then b.index < q.next
     else b.index < q.meta.lanes[b.lane].start + q.cursors[b.lane] + (if q.laneRun[b.lane] then 1 else 0))
  }

  ghost predicate TraceOk(s: Sched) {
    && NoDup(s.trace)
    && (forall i :: 0 <= i < |s.trace| ==>
          var b := s.trace[i];
          b.id in s.submitted && b.index < s.submitted[b.id].total
          && b.lane < |s.submitted[b.id].lanes| && Covers(s.submitted[b.id].lanes[b.lane], b.index))
    && (forall i :: 0 <= i < |s.trace| && s.trace[i].id in s.tasks ==>
          Past(s.tasks[s.trace[i].id], s.trace[i]))
  }

  predicate Issued(trace: seq<Binding>, id: nat, index: nat) {
    exists i :: 0 <= i < |trace| && trace[i].id == id && trace[i].index == index
  }

  /** Every descriptor a submit's cursors have passed was dispatched, by that lane in
      static mode. */
  ghost predicate IssuedOk(trace: seq<Binding>, id: nat, q: QTask) {
    && Shaped(q)
    && (q.meta.dynamic ==> forall k: nat :: k < q.next ==> Issued(trace, id, k))
    && (!q.meta.dynamic ==> forall l: nat, x: nat ::
          l < |q.cursors| && q.meta.lanes[l].start <= x < q.meta.lanes[l].start + q.cursors[l] ==>
          Binding(id, l, x) in trace)
  }

  /** Nobody waits for a submit that will not signal them, and no result is kept for nobody. */
  ghost predicate WaitOk(s: Sched) {
    && (forall id :: id in s.waiters ==> id in s.tasks || (id in s.complete && (id in s.pending || id in s.woken)))
    && (forall id :: id in s.complete ==> id in s.waiters || id in s.pending)
  }

  ghost predicate Tight(m: Meta) { m.dynamic || Slots(m) <= Target(m) }

  /** Only a submit with surplus slots can leave a task behind on a core. */
  ghost predicate OrphanOk(s: Sched) {
    forall c :: c in s.cores && s.cores[c].id !in s.tasks && s.cores[c].id in s.submitted ==> !Tight(s.submitted[s.cores[c].id])
  }

  /** A result handed back as a success is a finished submit. */
  ghost predicate ResultOk(q: QTask) {
    QInv(q) && (q.err == None ==> TerminalSuccess(q))
  }

  // The invariant in four parts. Submits in `x` are between an update and their
  // reclassification.

  ghost predicate InvIds(s: Sched) {
    IdsOk(s) && WaitOk(s) && forall id :: id in s.complete ==> ResultOk(s.complete[id])
  }

  ghost predicate InvQueues(s: Sched, x: set<nat>) {
    && BucketsOk(s.ready, s.tasks) && BucketsOk(s.running, s.tasks)
    && (forall id :: id in s.tasks ==> QInv(s.tasks[id]))
    && (forall id :: id in s.tasks && id !in x ==> !Terminal(s.tasks[id]) && ClassOk(s, id))
  }

  ghost predicate InvCores(s: Sched) {
    CoresOk(s) && OrphanOk(s) && forall id :: id in s.tasks ==> FlightOk(s, id)
  }

  ghost predicate InvTrace(s: Sched) {
    && TraceOk(s) && (forall c :: c in s.cores ==> s.cores[c] in s.trace)
    && (forall id :: id in s.tasks ==> IssuedOk(s.trace, id, s.tasks[id]))
    && (forall id :: id in s.complete ==> IssuedOk(s.trace, id, s.complete[id]))
  }

  ghost predicate OnCore(s: Sched, id: nat, index: nat) {
    exists c :: c in s.cores && s.cores[c].id == id && s.cores[c].index == index
  }

  /** A dispatched task of a healthy submit is on a core or has reported a wanted interrupt. */
  ghost predicate StatusOk(s: Sched, b: Binding) {
    b.id in s.tasks && s.tasks[b.id].err == None ==>
      b.index < |s.tasks[b.id].descs| && (OnCore(s, b.id, b.index) || s.tasks[b.id].descs[b.index].intStatus != 0)
  }

  /** A static submit handed this descriptor out and has not got it back. */
  ghost predicate StillOut(q: QTask, index: nat) {
    !q.meta.dynamic && Shaped(q) && exists l :: 0 <= l < |q.laneRun| && q.laneRun[l] && q.meta.lanes[l].start + q.cursors[l] == index
  }

  ghost predicate DoneOk(s: Sched, b: Binding) {
    b.id in s.complete && s.complete[b.id].err == None ==>
      b.index < |s.complete[b.id].descs|
      && (s.complete[b.id].descs[b.index].intStatus != 0 || StillOut(s.complete[b.id], b.index))
  }

  ghost predicate InvStatus(s: Sched) {
    forall i :: 0 <= i < |s.trace| ==> StatusOk(s, s.trace[i]) && DoneOk(s, s.trace[i])
  }

  ghost predicate InvExcept(s: Sched, x: set<nat>) {
    InvIds(s) && InvQueues(s, x) && InvCores(s) && InvTrace(s)
  }

  ghost predicate Inv(s: Sched) { InvExcept(s, {}) }

  /** Ids and waits only look at which submits exist and who waits for them. */
  lemma IdsFrame(s: Sched, s': Sched)
    requires InvIds(s) && s'.submitted == s.submitted && s'.nextId == s.nextId && s'.complete == s.complete
    requires s'.waiters == s.waiters && s'.pending == s.pending && s'.woken == s.woken
    requires forall id :: id in s'.tasks <==> id in s.tasks
    requires forall id :: id in s.tasks ==> s'.tasks[id].meta == s.tasks[id].meta
    requires forall c :: c in s'.cores ==> s'.cores[c].id in s.submitted
    ensures InvIds(s')
  {
    hide ResultOk, HeaderOk;
    assert IdsOk(s');
  }

  /** The two parts separately: taking a submit out of `complete` or out of the waiters. */
  lemma WaitFrame(s: Sched, s': Sched)
    requires IdsOk(s) && s'.submitted == s.submitted && s'.nextId == s.nextId && s'.tasks == s.tasks && s'.cores == s.cores
    requires forall id :: id in s'.complete ==> id in s.complete && s'.complete[id] == s.complete[id]
    requires forall id :: id in s'.waiters || id in s'.pending || id in s'.woken ==> id in s.submitted
    ensures IdsOk(s')
  {
    hide HeaderOk;
  }

  // ---------------------------------------------------------------- enqueue

  lemma EnqueueQueues(s: Sched, meta: Meta, descs: seq<Desc>)
    requires InvQueues(s, {}) && WellFormed(meta, descs) && s.nextId !in s.tasks
    ensures InvQueues(Enqueue(s, meta, descs), {})
  {
    hide QInv, Terminal, HasRunning, NextDispatchable, In, BucketsOk, Push, Shaped;
    var s' := Enqueue(s, meta, descs);
    var id := s.nextId;
    NewTaskInv(meta, descs);
    GrowTasks(s.ready, id, s.tasks, s'.tasks);
    GrowTasks(s.running, id, s.tasks, s'.tasks);
    PushOk(s.ready, meta.priority, id, s'.tasks);
    forall x | x in s'.tasks ensures ClassOk(s', x) && !Terminal(s'.tasks[x]) {
      if x != id { assert ClassOk(s, x); }
    }
  }

  lemma GrowTasks(bs: seq<Bucket>, id: nat, tasks: map<nat, QTask>, more: map<nat, QTask>)
    requires BucketsOk(bs, tasks) && id !in tasks && id in more && more == tasks[id := more[id]]
    ensures BucketsOk(bs, more) && !In(bs, id)
  {
  }

  lemma EnqueueCores(s: Sched, meta: Meta, descs: seq<Desc>)
    requires InvCores(s) && IdsOk(s) && WellFormed(meta, descs)
    ensures InvCores(Enqueue(s, meta, descs))
  {
    hide FlightOk, BindOk, Push, NewTask, HeaderOk, WellFormed, Tight, Apart;
    var s' := Enqueue(s, meta, descs);
    forall x | x in s'.tasks ensures FlightOk(s', x) {
      if x == s.nextId {
        NewFlight(s, meta, descs);
      } else {
        assert FlightOk(s, x);
        EnqueueFlight(s, meta, descs, x);
      }
    }
  }

  lemma EnqueueFlight(s: Sched, meta: Meta, descs: seq<Desc>, x: nat)
    requires FlightOk(s, x) && x != s.nextId
    ensures FlightOk(Enqueue(s, meta, descs), x)
  {
    hide Push, NewTask;
    assert Bound(Enqueue(s, meta, descs), x) == Bound(s, x);
  }

  lemma NewFlight(s: Sched, meta: Meta, descs: seq<Desc>)
    requires IdsOk(s) && WellFormed(meta, descs)
    ensures FlightOk(Enqueue(s, meta, descs), s.nextId)
  {
    hide Push;
    NewTaskInv(meta, descs);
    assert Bound(Enqueue(s, meta, descs), s.nextId) == {};
  }

  lemma EnqueueTrace(s: Sched, meta: Meta, descs: seq<Desc>)
    requires InvTrace(s) && IdsOk(s)
    ensures InvTrace(Enqueue(s, meta, descs))
  {
    var s' := Enqueue(s, meta, descs);
    assert s.nextId !in s.submitted;
    forall x | x in s'.tasks ensures IssuedOk(s'.trace, x, s'.tasks[x]) {
      if x != s.nextId { assert IssuedOk(s.trace, x, s.tasks[x]); }
    }
    forall x | x in s'.complete ensures IssuedOk(s'.trace, x, s'.complete[x]) {
      assert IssuedOk(s.trace, x, s.complete[x]);
    }
  }

  lemma EnqueueNames(s: Sched, meta: Meta, descs: seq<Desc>)
    requires IdsOk(s) && WellFormed(meta, descs)
    ensures IdsOk(Enqueue(s, meta, descs)) && s.nextId !in s.submitted && s.nextId !in s.tasks && s.nextId !in s.complete
  {
    hide Push, HeaderOk;
  }

  lemma EnqueueWaits(s: Sched, meta: Meta, descs: seq<Desc>)
    requires WaitOk(s) && s.nextId !in s.complete
    ensures WaitOk(Enqueue(s, meta, descs))
  {
    hide Push;
  }

  lemma EnqueueIds(s: Sched, meta: Meta, descs: seq<Desc>)
    requires InvIds(s) && WellFormed(meta, descs)
    ensures InvIds(Enqueue(s, meta, descs)) && s.nextId !in s.tasks
  {
    hide IdsOk, WaitOk, ResultOk, Push, WellFormed;
    EnqueueNames(s, meta, descs);
    EnqueueWaits(s, meta, descs);
  }

  lemma EnqueueInv(s: Sched, meta: Meta, descs: seq<Desc>)
    requires Inv(s) && WellFormed(meta, descs)
    ensures Inv(Enqueue(s, meta, descs))
  {
    hide InvQueues, InvCores, InvTrace, InvIds, WellFormed, Enqueue;
    IdsPart(s);
    EnqueueIds(s, meta, descs);
    EnqueueQueues(s, meta, descs);
    EnqueueCores(s, meta, descs);
    EnqueueTrace(s, meta, descs);
  }

  // ----------------------------------------------------------- reclassifying

  lemma ShrinkTasks(bs: seq<Bucket>, id: nat, tasks: map<nat, QTask>)
    requires BucketsOk(bs, tasks) && !In(bs, id)
    ensures BucketsOk(bs, tasks - {id})
  {
  }

  lemma QueuesTask(s: Sched, x: set<nat>, id: nat)
    requires InvQueues(s, x)
    ensures id in s.tasks ==> QInv(s.tasks[id]) && Shaped(s.tasks[id])
  {
  }

  /** Moving one submit between queues leaves every other submit classified as before. */
  lemma MoveOne(s: Sched, s': Sched, id: nat)
    requires InvQueues(s, {id}) && BucketsOk(s'.ready, s'.tasks) && BucketsOk(s'.running, s'.tasks)
    requires forall x :: x != id ==> (x in s'.tasks <==> x in s.tasks)
    requires forall x :: x != id && x in s'.tasks ==> s'.tasks[x] == s.tasks[x]
    requires forall x :: x != id ==> (In(s'.ready, x) <==> In(s.ready, x)) && (In(s'.running, x) <==> In(s.running, x))
    requires id in s'.tasks ==> QInv(s'.tasks[id]) && !Terminal(s'.tasks[id]) && ClassOk(s', id)
    ensures InvQueues(s', {})
  {
    hide QInv, Terminal, HasRunning, NextDispatchable, In, BucketsOk, Shaped;
    forall x | x in s'.tasks ensures QInv(s'.tasks[x]) && !Terminal(s'.tasks[x]) && ClassOk(s', x) {
      if x != id {
        assert ClassOk(s, x);
      }
    }
  }

  lemma ReclassifyQueues(s: Sched, id: nat)
    requires InvQueues(s, {id})
    ensures InvQueues(Reclassify(s, id), {})
  {
    hide QInv, Terminal, HasRunning, NextDispatchable, In, BucketsOk, InvQueues, Push, RemoveId;
    QueuesTask(s, {id}, id);
    QueuesBuckets(s, {id});
    RemoveOk(s.ready, id, s.tasks);
    RemoveOk(s.running, id, s.tasks);
    var ready := RemoveId(s.ready, id);
    var running := RemoveId(s.running, id);
    if id in s.tasks {
      var q := s.tasks[id];
      if Terminal(q) {
        ShrinkTasks(ready, id, s.tasks);
        ShrinkTasks(running, id, s.tasks);
      } else if HasRunning(q) {
        PushOk(running, q.meta.priority, id, s.tasks);
      } else if NextDispatchable(q).Some? {
        PushOk(ready, q.meta.priority, id, s.tasks);
      }
    }
    MoveOne(s, Reclassify(s, id), id);
  }

  lemma QueuesBuckets(s: Sched, x: set<nat>)
    requires InvQueues(s, x)
    ensures BucketsOk(s.ready, s.tasks) && BucketsOk(s.running, s.tasks)
  {
  }

  lemma ReclassifyEffect(s: Sched, id: nat)
    ensures var s' := Reclassify(s, id);
            && s'.cores == s.cores && s'.submitted == s.submitted && s'.trace == s.trace && s'.waiters == s.waiters
            && s'.nextId == s.nextId && s'.pending == s.pending && s'.woken == s.woken
            && (if id in s.tasks && Terminal(s.tasks[id])
                then s'.tasks == s.tasks - {id} && s'.complete == s.complete[id := s.tasks[id]]
                else s'.tasks == s.tasks && s'.complete == s.complete)
  {
    hide Terminal, HasRunning, NextDispatchable, Push, RemoveId, Shaped;
  }

  /** A terminal submit without surplus slots has nothing in flight. */
  lemma TerminalIsIdle(q: QTask)
    requires QInv(q) && Terminal(q) && Tight(q.meta)
    ensures !HasRunning(q)
  {
    if TerminalSuccess(q) && !q.meta.dynamic {
      FinishedIsIdle(q);
    }
  }

  lemma BoundMeansRunning(s: Sched, c: nat)
    requires CoresOk(s) && c in s.cores && s.cores[c].id in s.tasks && FlightOk(s, s.cores[c].id)
    ensures HasRunning(s.tasks[s.cores[c].id])
  {
    var id := s.cores[c].id;
    assert BindOk(s.tasks[id], c, s.cores[c]);
    assert c in Bound(s, id);
  }

  lemma DropTaskCores(s: Sched, s': Sched, id: nat)
    requires InvCores(s) && id in s.submitted
    requires s'.cores == s.cores && s'.submitted == s.submitted && s'.tasks == s.tasks - {id}
    requires Tight(s.submitted[id]) ==> forall c :: c in s.cores ==> s.cores[c].id != id
    ensures InvCores(s')
  {
    hide BindOk, Apart, Tight;
    forall x | x in s'.tasks ensures FlightOk(s', x) {
      assert Bound(s', x) == Bound(s, x);
      assert FlightOk(s, x);
    }
  }

  lemma ReclassifyCores(s: Sched, id: nat)
    requires InvCores(s) && IdsOk(s) && (id in s.tasks ==> QInv(s.tasks[id]))
    ensures InvCores(Reclassify(s, id))
  {
    hide QInv, Tight, Terminal, Reclassify, BindOk, Apart;
    var s' := Reclassify(s, id);
    ReclassifyEffect(s, id);
    if id in s.tasks && Terminal(s.tasks[id]) {
      if Tight(s.tasks[id].meta) {
        TerminalIsIdle(s.tasks[id]);
        forall c | c in s.cores ensures s.cores[c].id != id {
          if s.cores[c].id == id { BoundMeansRunning(s, c); }
        }
      }
      DropTaskCores(s, s', id);
    } else {
      SameCores(s, s');
    }
  }

  lemma DropTaskTrace(s: Sched, s': Sched, id: nat)
    requires InvTrace(s) && id in s.tasks && s'.cores == s.cores
    requires s'.trace == s.trace && s'.submitted == s.submitted && s'.tasks == s.tasks - {id}
    requires s'.complete == s.complete[id := s.tasks[id]]
    ensures InvTrace(s')
  {
    hide Past, Issued, Covers, NoDup;
    forall x | x in s'.tasks ensures IssuedOk(s'.trace, x, s'.tasks[x]) { assert IssuedOk(s.trace, x, s.tasks[x]); }
    forall x | x in s'.complete ensures IssuedOk(s'.trace, x, s'.complete[x]) {
      if x == id { assert IssuedOk(s.trace, x, s.tasks[x]); } else { assert IssuedOk(s.trace, x, s.complete[x]); }
    }
  }

  lemma ReclassifyTrace(s: Sched, id: nat)
    requires InvTrace(s)
    ensures InvTrace(Reclassify(s, id))
  {
    hide Reclassify, InvTrace, Terminal;
    ReclassifyEffect(s, id);
    if id in s.tasks && Terminal(s.tasks[id]) {
      DropTaskTrace(s, Reclassify(s, id), id);
    } else {
      SameTrace(s, Reclassify(s, id));
    }
  }

  lemma TerminalResult(q: QTask)
    requires QInv(q) && Terminal(q)
    ensures ResultOk(q)
  {
    hide QInv;
  }

  lemma RetireIds(s: Sched, s': Sched, id: nat)
    requires InvIds(s) && id in s.tasks && ResultOk(s.tasks[id])
    requires s' == s.(ready := s'.ready, running := s'.running, tasks := s.tasks - {id},
                      complete := s.complete[id := s.tasks[id]], pending := s.pending + {id})
    ensures InvIds(s')
  {
    hide ResultOk, IdsOk, WaitOk;
    RetireIdsOk(s, s', id);
    RetireWaitOk(s, s', id);
  }

  lemma RetireIdsOk(s: Sched, s': Sched, id: nat)
    requires IdsOk(s) && id in s.tasks && s'.submitted == s.submitted && s'.nextId == s.nextId && s'.cores == s.cores
    requires s'.waiters == s.waiters && s'.woken == s.woken && s'.pending == s.pending + {id}
    requires s'.tasks == s.tasks - {id} && s'.complete == s.complete[id := s.tasks[id]]
    ensures IdsOk(s')
  {
    hide HeaderOk;
  }

  lemma RetireWaitOk(s: Sched, s': Sched, id: nat)
    requires WaitOk(s) && id in s.tasks && s'.waiters == s.waiters && s'.woken == s.woken && s'.pending == s.pending + {id}
    requires s'.tasks == s.tasks - {id} && s'.complete == s.complete[id := s.tasks[id]]
    ensures WaitOk(s')
  {
  }

  lemma SettleIds(s: Sched, id: nat)
    requires InvIds(s) && (id in s.tasks ==> QInv(s.tasks[id]))
    ensures InvIds(Settle(s, id))
  {
    hide Reclassify, InvIds, QInv, Terminal, ResultOk;
    ReclassifyEffect(s, id);
    if id in s.tasks && Terminal(s.tasks[id]) {
      TerminalResult(s.tasks[id]);
      RetireIds(s, Settle(s, id), id);
    } else {
      SameIds(s, Settle(s, id));
    }
  }

  lemma SettleInv(s: Sched, id: nat)
    requires InvExcept(s, {id})
    ensures Inv(Settle(s, id))
  {
    hide InvCores, InvTrace, InvQueues, InvIds, Reclassify;
    assert InvIds(s) ==> IdsOk(s) by { IdsPart(s); }
    QueuesTask(s, {id}, id);
    SettleIds(s, id);
    ReclassifyQueues(s, id);
    ReclassifyCores(s, id);
    ReclassifyTrace(s, id);
    var s1, s2 := Reclassify(s, id), Settle(s, id);
    SameQueues(s1, s2);
    SameCores(s1, s2);
    SameTrace(s1, s2);
  }

  lemma IdsPart(s: Sched)
    ensures InvIds(s) ==> IdsOk(s)
  {
  }

  lemma SameQueues(s: Sched, s': Sched)
    requires InvQueues(s, {}) && s'.tasks == s.tasks && s'.ready == s.ready && s'.running == s.running
    ensures InvQueues(s', {})
  {
    hide QInv, Terminal, HasRunning, NextDispatchable;
    forall id | id in s'.tasks ensures ClassOk(s', id) { assert ClassOk(s, id); }
  }

  lemma SameCores(s: Sched, s': Sched)
    requires InvCores(s) && s'.tasks == s.tasks && s'.cores == s.cores && s'.submitted == s.submitted
    ensures InvCores(s')
  {
    hide BindOk, Apart, Tight;
    forall x | x in s'.tasks ensures FlightOk(s', x) {
      assert Bound(s', x) == Bound(s, x);
      assert FlightOk(s, x);
    }
  }

  lemma SameTrace(s: Sched, s': Sched)
    requires InvTrace(s) && s'.tasks == s.tasks && s'.trace == s.trace && s'.submitted == s.submitted
    requires forall c :: c in s'.cores ==> c in s.cores && s'.cores[c] == s.cores[c]
    requires forall id :: id in s'.complete ==> id in s.complete && s'.complete[id] == s.complete[id].(err := s'.complete[id].err)
    ensures InvTrace(s')
  {
    hide Past, Issued, Covers, NoDup;
    forall x | x in s'.tasks ensures IssuedOk(s'.trace, x, s'.tasks[x]) { assert IssuedOk(s.trace, x, s.tasks[x]); }
    forall x | x in s'.complete ensures IssuedOk(s'.trace, x, s'.complete[x]) { assert IssuedOk(s.trace, x, s.complete[x]); }
  }

  // ---------------------------------------------------- releasing and binding

  /** How completing or failing the task bound as `b` changes its submit. */
  ghost predicate Released(q: QTask, q': QTask, b: Binding) {
    && QInv(q) && QInv(q') && q'.meta == q.meta && q'.next == q.next && b.lane < |q.laneRun|
    && (if q.meta.dynamic then q'.running + 1 == q.running
        else
          && q'.laneRun == q.laneRun[b.lane := false]
          && q.cursors[b.lane] <= q'.cursors[b.lane] <= q.cursors[b.lane] + 1
          && forall l :: 0 <= l < |q.cursors| && l != b.lane ==> q'.cursors[l] == q.cursors[l])
    && (q'.err == None ==> q.err == None && (!q.meta.dynamic ==> q'.cursors[b.lane] > q.cursors[b.lane]))
  }

  lemma HarvestedReleases(q: QTask, c: nat, b: Binding, status: bv32)
    requires QInv(q) && BindOk(q, c, b) && (q.meta.dynamic ==> q.running > 0)
    ensures Released(q, Harvested(q, b, status), b)
  {
  }

  lemma FailedReleases(q: QTask, c: nat, b: Binding, e: Error)
    requires QInv(q) && BindOk(q, c, b) && (q.meta.dynamic ==> q.running > 0)
    ensures Released(q, Failed(q, b.lane, e), b)
  {
  }

  function Release(s: Sched, c: nat, q': QTask): Sched
    requires c in s.cores
  {
    s.(cores := s.cores - {c}, tasks := s.tasks[s.cores[c].id := q'])
  }

  ghost predicate Releasing(s: Sched, c: nat, q': QTask) {
    c in s.cores && s.cores[c].id in s.tasks && Released(s.tasks[s.cores[c].id], q', s.cores[c])
  }

  lemma ReleaseQueues(s: Sched, c: nat, q': QTask)
    requires InvQueues(s, {}) && Releasing(s, c, q')
    ensures InvQueues(Release(s, c, q'), {s.cores[c].id})
  {
    hide QInv, Terminal, HasRunning, NextDispatchable, Released;
    ReleasedMeta(s.tasks[s.cores[c].id], q', s.cores[c]);
    var s' := Release(s, c, q');
    forall x | x in s'.tasks && x != s.cores[c].id ensures ClassOk(s', x) { assert ClassOk(s, x); }
  }

  lemma ReleaseFlight(s: Sched, c: nat, q': QTask, x: nat)
    requires InvCores(s) && Releasing(s, c, q') && x in s.tasks
    ensures FlightOk(Release(s, c, q'), x)
  {
    hide QInv, BindOk;
    var s', id := Release(s, c, q'), s.cores[c].id;
    assert FlightOk(s, x);
    if x != id {
      assert Bound(s', x) == Bound(s, x);
    } else {
      assert Bound(s', x) == Bound(s, x) - {c};
      assert c in Bound(s, x);
      if !q'.meta.dynamic {
        forall l | 0 <= l < |q'.laneRun| && q'.laneRun[l]
          ensures exists d :: d in Bound(s', x) && s'.cores[d].lane == l
        {
          assert l != s.cores[c].lane;
          var d :| d in Bound(s, x) && s.cores[d].lane == l;
          assert d in Bound(s', x);
        }
      }
    }
  }

  lemma ReleaseBind(s: Sched, c: nat, q': QTask, d: nat)
    requires InvCores(s) && Releasing(s, c, q')
    requires d in s.cores && d != c && s.cores[d].id in s.tasks
    ensures BindOk(Release(s, c, q').tasks[s.cores[d].id], d, s.cores[d])
  {
    var id := s.cores[c].id;
    assert BindOk(s.tasks[s.cores[d].id], d, s.cores[d]);
    if s.cores[d].id == id {
      assert Apart(s.tasks[id].meta, s.cores[c], s.cores[d]);
      assert AllowsCore(q', d) == AllowsCore(s.tasks[id], d);
    }
  }

  lemma ReleaseCores(s: Sched, c: nat, q': QTask)
    requires InvCores(s) && Releasing(s, c, q')
    ensures InvCores(Release(s, c, q'))
  {
    assert q'.meta == s.tasks[s.cores[c].id].meta;
    forall x | x in s.tasks ensures FlightOk(Release(s, c, q'), x) { ReleaseFlight(s, c, q', x); }
    forall d | d in s.cores && d != c && s.cores[d].id in s.tasks
      ensures BindOk(Release(s, c, q').tasks[s.cores[d].id], d, s.cores[d])
    {
      ReleaseBind(s, c, q', d);
    }
    hide Released, BindOk, Apart, Tight, FlightOk;
  }

  lemma ReleasePast(q: QTask, q': QTask, b: Binding, b': Binding)
    requires Released(q, q', b) && Past(q, b')
    ensures Past(q', b')
  {
  }

  lemma ReleaseIssued(trace: seq<Binding>, id: nat, q: QTask, q': QTask, b: Binding)
    requires Released(q, q', b) && IssuedOk(trace, id, q) && b in trace && b.id == id
    requires !q.meta.dynamic ==> b.index == q.meta.lanes[b.lane].start + q.cursors[b.lane]
    ensures IssuedOk(trace, id, q')
  {
    assert Shaped(q') && Shaped(q);
    hide QInv, Issued;
    if !q.meta.dynamic {
      forall l: nat, x: nat | l < |q'.cursors| && q'.meta.lanes[l].start <= x < q'.meta.lanes[l].start + q'.cursors[l]
        ensures Binding(id, l, x) in trace
      {
        if x < q.meta.lanes[l].start + q.cursors[l] {
          assert Binding(id, l, x) in trace;
        } else {
          assert b == Binding(id, l, x);
        }
      }
    }
  }

  lemma ReleaseTrace(s: Sched, c: nat, q': QTask)
    requires InvTrace(s) && InvCores(s) && Releasing(s, c, q')
    ensures InvTrace(Release(s, c, q'))
  {
    hide Released, InvCores, Past, IssuedOk, Covers, NoDup;
    BoundRunningCount(s, c);
    var s', id := Release(s, c, q'), s.cores[c].id;
    ReleasedMeta(s.tasks[id], q', s.cores[c]);
    forall i | 0 <= i < |s'.trace| && s'.trace[i].id in s'.tasks ensures Past(s'.tasks[s'.trace[i].id], s'.trace[i]) {
      if s.trace[i].id == id { ReleasePast(s.tasks[id], q', s.cores[c], s.trace[i]); }
    }
    forall x | x in s'.tasks ensures IssuedOk(s'.trace, x, s'.tasks[x]) {
      assert IssuedOk(s.trace, x, s.tasks[x]);
      if x == id { ReleaseIssued(s.trace, id, s.tasks[id], q', s.cores[c]); }
    }
    forall x | x in s'.complete ensures IssuedOk(s'.trace, x, s'.complete[x]) { assert IssuedOk(s.trace, x, s.complete[x]); }
  }

  lemma ReleaseIds(s: Sched, c: nat, q': QTask)
    requires InvIds(s) && Releasing(s, c, q')
    ensures InvIds(Release(s, c, q'))
  {
    hide Released, ResultOk, HeaderOk, WaitOk;
    ReleasedMeta(s.tasks[s.cores[c].id], q', s.cores[c]);
    IdsFrame(s, Release(s, c, q'));
  }

  lemma ReleasedMeta(q: QTask, q': QTask, b: Binding)
    requires Released(q, q', b)
    ensures q'.meta == q.meta && q'.next == q.next && QInv(q')
  {
  }

  lemma ReleaseInv(s: Sched, c: nat, q': QTask)
    requires Inv(s) && Releasing(s, c, q')
    ensures InvExcept(Release(s, c, q'), {s.cores[c].id})
  {
    hide InvQueues, InvCores, InvTrace, InvIds, Releasing;
    ReleaseIds(s, c, q');
    ReleaseQueues(s, c, q');
    ReleaseCores(s, c, q');
    ReleaseTrace(s, c, q');
  }

  lemma BoundRunningCount(s: Sched, c: nat)
    requires InvCores(s) && c in s.cores && s.cores[c].id in s.tasks
    ensures BindOk(s.tasks[s.cores[c].id], c, s.cores[c])
    ensures s.tasks[s.cores[c].id].meta.dynamic ==> s.tasks[s.cores[c].id].running > 0
  {
    hide BindOk;
    assert FlightOk(s, s.cores[c].id);
    assert c in Bound(s, s.cores[c].id);
  }

  lemma UnbindCores(s: Sched, c: nat)
    requires InvCores(s) && c in s.cores && s.cores[c].id !in s.tasks
    ensures InvCores(s.(cores := s.cores - {c}))
  {
    hide BindOk, Apart, Tight;
    var s' := s.(cores := s.cores - {c});
    forall x | x in s'.tasks ensures FlightOk(s', x) {
      assert Bound(s', x) == Bound(s, x);
      assert FlightOk(s, x);
    }
  }

  lemma UnbindOrphan(s: Sched, c: nat)
    requires Inv(s) && c in s.cores && s.cores[c].id !in s.tasks
    ensures Inv(s.(cores := s.cores - {c}))
  {
    var s' := s.(cores := s.cores - {c});
    hide InvQueues, InvTrace, ResultOk, InvCores;
    SameQueues(s, s');
    SameTrace(s, s');
    UnbindCores(s, c);
  }

  lemma Relax(s: Sched, id: nat)
    requires Inv(s)
    ensures InvExcept(s, {id})
  {
    hide InvIds, InvCores, InvTrace, QInv, Terminal, ClassOk, BucketsOk;
  }

  // ---------------------------------------------------------------- dispatch

  /** How handing out the next task as `b` changes its submit. */
  ghost predicate Taken(q: QTask, q': QTask, b: Binding) {
    && QInv(q) && QInv(q') && q'.meta == q.meta && q'.err == q.err == None
    && HasRunning(q') && (Terminal(q') <==> Terminal(q))
    && b.lane < |q.meta.lanes| && b.index < q.meta.total && Covers(q.meta.lanes[b.lane], b.index)
    && (if q.meta.dynamic then b.index == q.next && q'.next == q.next + 1 && q'.running == q.running + 1
        else
          && !q.laneRun[b.lane] && b.index == q.meta.lanes[b.lane].start + q.cursors[b.lane]
          && q'.laneRun == q.laneRun[b.lane := true] && q'.cursors == q.cursors && q'.next == q.next)
  }

  lemma ReserveTakes(q: QTask)
    requires QInv(q) && NextDispatchable(q).Some?
    ensures var (l, index) := NextDispatchable(q).value;
            Taken(q, Reserve(q).(descs := q.descs[index := q.descs[index].(intStatus := 0)]), Binding(0, l, index))
  {
    var (l, index) := NextDispatchable(q).value;
    var q' := Reserve(q);
    if !q.meta.dynamic { assert q'.laneRun[l]; }
  }

  function Bound1(s: Sched, c: nat, b: Binding, q': QTask): Sched {
    s.(tasks := s.tasks[b.id := q'], cores := s.cores[c := b], trace := s.trace + [b])
  }

  ghost predicate Binding1(s: Sched, c: nat, b: Binding, q': QTask) {
    && b.id in s.tasks && c < CORES && c !in s.cores && AllowsCore(s.tasks[b.id], c)
    && Taken(s.tasks[b.id], q', b)
  }

  lemma TakenLanes(q: QTask, q': QTask, b: Binding)
    requires Taken(q, q', b)
    ensures q'.meta == q.meta && |q'.laneRun| == |q.laneRun| && (q.meta.dynamic ==> q'.running == q.running + 1)
    ensures !q.meta.dynamic ==> forall l :: 0 <= l < |q.laneRun| && l != b.lane ==> q'.laneRun[l] == q.laneRun[l]
  {
  }

  lemma BoundGrows(s: Sched, c: nat, b: Binding, q': QTask, x: nat)
    requires c !in s.cores && b.id in s.tasks
    ensures Bound(Bound1(s, c, b, q'), x) == Bound(s, x) + (if x == b.id then {c} else {})
    ensures c !in Bound(s, x) && forall d :: d in Bound(s, x) ==> d in s.cores
  {
  }

  lemma TakeFlight(s: Sched, c: nat, b: Binding, q': QTask, x: nat)
    requires FlightOk(s, x) && Binding1(s, c, b, q')
    ensures FlightOk(Bound1(s, c, b, q'), x)
  {
    hide AllowsCore, Taken, Bound;
    TakenLanes(s.tasks[b.id], q', b);
    BoundGrows(s, c, b, q', x);
    var s' := Bound1(s, c, b, q');
    if x == b.id && !q'.meta.dynamic {
      forall l | 0 <= l < |q'.laneRun| && q'.laneRun[l]
        ensures exists d :: d in Bound(s', x) && s'.cores[d].lane == l
      {
        if l == b.lane {
          assert c in Bound(s', x);
        } else {
          assert l < |s.tasks[x].laneRun| && s.tasks[x].laneRun[l];
          var d :| d in Bound(s, x) && s.cores[d].lane == l;
          assert d in Bound(s', x);
        }
      }
    }
  }

  lemma TakeBind(s: Sched, c: nat, b: Binding, q': QTask, d: nat)
    requires InvCores(s) && Binding1(s, c, b, q')
    requires d in s.cores && s.cores[d].id in s.tasks
    ensures BindOk(Bound1(s, c, b, q').tasks[s.cores[d].id], d, s.cores[d])
    ensures s.cores[d].id == b.id ==> Apart(q'.meta, b, s.cores[d]) && Apart(q'.meta, s.cores[d], b)
  {
    hide Terminal, HasRunning;
    assert BindOk(s.tasks[s.cores[d].id], d, s.cores[d]);
    assert s.cores[d].id == b.id ==> AllowsCore(q', d) == AllowsCore(s.tasks[b.id], d);
  }

  lemma TakeCores(s: Sched, c: nat, b: Binding, q': QTask)
    requires InvCores(s) && Binding1(s, c, b, q')
    ensures InvCores(Bound1(s, c, b, q'))
  {
    hide BindOk, Apart, Tight, FlightOk, QInv, Terminal, HasRunning, Covers;
    var s' := Bound1(s, c, b, q');
    forall x | x in s.tasks ensures FlightOk(s', x) { TakeFlight(s, c, b, q', x); }
    forall d | d in s.cores && s.cores[d].id in s.tasks
      ensures BindOk(s'.tasks[s.cores[d].id], d, s.cores[d])
      ensures s.cores[d].id == b.id ==> Apart(q'.meta, b, s.cores[d]) && Apart(q'.meta, s.cores[d], b)
    {
      TakeBind(s, c, b, q', d);
    }
    TakeNew(s, c, b, q');
  }

  lemma TakeNew(s: Sched, c: nat, b: Binding, q': QTask)
    requires Binding1(s, c, b, q')
    ensures BindOk(q', c, b) && q'.meta == s.tasks[b.id].meta
  {
    assert AllowsCore(q', c) == AllowsCore(s.tasks[b.id], c);
  }

  lemma TakePast(q: QTask, q': QTask, b: Binding, b': Binding)
    requires Taken(q, q', b) && Past(q, b')
    ensures Past(q', b') && b' != b
  {
    hide Terminal, HasRunning;
  }

  lemma TakeIssued(s: Sched, c: nat, b: Binding, q': QTask, x: nat)
    requires InvTrace(s) && IdsOk(s) && Binding1(s, c, b, q')
    ensures x in s.tasks ==> IssuedOk(s.trace + [b], x, Bound1(s, c, b, q').tasks[x])
    ensures x in s.complete ==> IssuedOk(s.trace + [b], x, s.complete[x])
  {
    hide Terminal, HasRunning, QInv, Past, Issued, IssuedOk, TraceOk;
    if x in s.complete { IssuedGrows(s, b, x, s.complete[x]); }
    if x in s.tasks { IssuedGrows(s, b, x, s.tasks[x]); }
    if x == b.id {
      IssuedLast(s.trace, b);
      NewIssued(s.trace + [b], s.tasks[b.id], q', b);
    }
  }

  lemma TakeTrace(s: Sched, c: nat, b: Binding, q': QTask)
    requires InvTrace(s) && IdsOk(s) && Binding1(s, c, b, q')
    ensures InvTrace(Bound1(s, c, b, q'))
  {
    hide Terminal, HasRunning, QInv, Past, Issued, IssuedOk;
    var q := s.tasks[b.id];
    forall i | 0 <= i < |s.trace| && s.trace[i].id == b.id ensures Past(q', s.trace[i]) && s.trace[i] != b {
      TakePast(q, q', b, s.trace[i]);
    }
    NewPast(q, q', b);
    forall x { TakeIssued(s, c, b, q', x); }
  }

  lemma NewPast(q: QTask, q': QTask, b: Binding)
    requires Taken(q, q', b)
    ensures Past(q', b)
  {
    hide Terminal, HasRunning;
  }

  lemma IssuedLast(trace: seq<Binding>, b: Binding)
    ensures Issued(trace + [b], b.id, b.index)
  {
    assert (trace + [b])[|trace|] == b;
  }

  lemma NewIssued(trace: seq<Binding>, q: QTask, q': QTask, b: Binding)
    requires Taken(q, q', b) && IssuedOk(trace, b.id, q) && Issued(trace, b.id, b.index)
    ensures IssuedOk(trace, b.id, q')
  {
    hide Terminal, HasRunning, Issued;
  }

  lemma IssuedGrows(s: Sched, b: Binding, id: nat, q: QTask)
    requires IssuedOk(s.trace, id, q)
    ensures IssuedOk(s.trace + [b], id, q)
  {
    forall k: nat | Issued(s.trace, id, k) ensures Issued(s.trace + [b], id, k) {
      var i :| 0 <= i < |s.trace| && s.trace[i].id == id && s.trace[i].index == k;
      assert (s.trace + [b])[i] == s.trace[i];
    }
    assert forall x :: x in s.trace ==> x in s.trace + [b];
  }

  lemma TakeIds(s: Sched, c: nat, b: Binding, q': QTask)
    requires InvIds(s) && Binding1(s, c, b, q')
    ensures InvIds(Bound1(s, c, b, q'))
  {
    hide Taken, ResultOk, HeaderOk, AllowsCore, WaitOk;
    TakenMeta(s.tasks[b.id], q', b);
    IdsFrame(s, Bound1(s, c, b, q'));
  }

  lemma TakenMeta(q: QTask, q': QTask, b: Binding)
    requires Taken(q, q', b)
    ensures q'.meta == q.meta
  {
  }

  /** Queues after a submit already counted as running hands out another task. */
  lemma TakeRunning(s: Sched, c: nat, b: Binding, q': QTask)
    requires InvQueues(s, {b.id}) && In(s.running, b.id) && !In(s.ready, b.id)
    requires Binding1(s, c, b, q') && !Terminal(s.tasks[b.id])
    ensures InvQueues(Bound1(s, c, b, q'), {})
  {
    hide Terminal, HasRunning, NextDispatchable, In, Covers;
    var s' := Bound1(s, c, b, q');
    QueuesBuckets(s, {b.id});
    assert q'.meta == s.tasks[b.id].meta && QInv(q') && Shaped(q');
    SameMeta(s.ready, s.tasks, b.id, q');
    SameMeta(s.running, s.tasks, b.id, q');
    MoveOne(s, s', b.id);
  }

  lemma SameMeta(bs: seq<Bucket>, tasks: map<nat, QTask>, id: nat, q': QTask)
    requires BucketsOk(bs, tasks) && id in tasks && q'.meta == tasks[id].meta
    ensures BucketsOk(bs, tasks[id := q'])
  {
  }

  lemma BindInv(s: Sched, c: nat, b: Binding, q': QTask)
    requires InvExcept(s, {b.id}) && In(s.running, b.id) && !In(s.ready, b.id)
    requires Binding1(s, c, b, q') && !Terminal(s.tasks[b.id])
    ensures Inv(Bound1(s, c, b, q'))
  {
    hide InvIds, InvQueues, InvCores, InvTrace, Binding1, Terminal, In;
    IdsPart(s);
    TakeIds(s, c, b, q');
    TakeRunning(s, c, b, q');
    TakeCores(s, c, b, q');
    TakeTrace(s, c, b, q');
  }

  lemma BindStep(s: Sched, c: nat, id: nat)
    requires InvExcept(s, {id}) && In(s.running, id) && !In(s.ready, id)
    requires CanRun(s.tasks, c, id) && c < CORES && c !in s.cores && !Terminal(s.tasks[id])
    ensures Inv(Bind(s, c, id))
  {
    hide InvExcept, InvIds, InvQueues, InvCores, InvTrace, Taken, Terminal, Reserve, NextDispatchable, In, AllowsCore;
    var q := s.tasks[id];
    ExceptTask(s, {id}, id);
    ReserveTakes(q);
    var (l, index) := NextDispatchable(q).value;
    var q' := Reserve(q).(descs := q.descs[index := q.descs[index].(intStatus := 0)]);
    TakenAnyId(q, q', Binding(0, l, index), Binding(id, l, index));
    BindInv(s, c, Binding(id, l, index), q');
  }

  lemma TakenAnyId(q: QTask, q': QTask, b: Binding, b': Binding)
    requires Taken(q, q', b) && b'.lane == b.lane && b'.index == b.index
    ensures Taken(q, q', b')
  {
    hide QInv, Terminal, HasRunning;
  }

  lemma ExceptTask(s: Sched, x: set<nat>, id: nat)
    requires InvExcept(s, x)
    ensures id in s.tasks ==> QInv(s.tasks[id]) && Shaped(s.tasks[id])
    ensures id in s.tasks && id !in x ==> ClassOk(s, id) && !Terminal(s.tasks[id])
    ensures BucketsOk(s.ready, s.tasks) && BucketsOk(s.running, s.tasks) && IdsOk(s)
  {
    hide InvCores, InvTrace, Terminal, ClassOk, BucketsOk, WaitOk, IdsOk, ResultOk;
  }

  lemma PromoteInv(s: Sched, id: nat)
    requires Inv(s) && id in s.tasks && In(s.ready, id)
    ensures var s1 := s.(ready := RemoveId(s.ready, id), running := Push(s.running, s.tasks[id].meta.priority, id));
            InvExcept(s1, {id}) && In(s1.running, id) && !In(s1.ready, id)
  {
    hide InvIds, InvCores, InvTrace, Push, RemoveId, QInv, Terminal, In, BucketsOk, HasRunning, NextDispatchable;
    ExceptTask(s, {}, id);
    RemoveOk(s.ready, id, s.tasks);
    PushOk(s.running, s.tasks[id].meta.priority, id, s.tasks);
    var s1 := s.(ready := RemoveId(s.ready, id), running := Push(s.running, s.tasks[id].meta.priority, id));
    forall x | x in s1.tasks && x != id ensures ClassOk(s1, x) { assert ClassOk(s, x); }
    SameCores(s, s1);
    SameTrace(s, s1);
    assert InvIds(s1) by { SameIds(s, s1); }
  }

  lemma SameIds(s: Sched, s': Sched)
    requires InvIds(s) && s' == s.(ready := s'.ready, running := s'.running)
    ensures InvIds(s')
  {
    hide ResultOk;
  }

  lemma DispatchInv(s: Sched)
    requires Inv(s) && Dispatch(s).Some?
    ensures Inv(Dispatch(s).value.0)
  {
    hide Inv, InvExcept, Push, RemoveId, Bind, Candidate, In, CanRun, Terminal, ClassOk, BucketsOk, IdsOk;
    assert Inv(s) ==> InvExcept(s, {}) by { InvIsExcept(s); }
    match FirstCore(s, s.running, 0) {
      case Some(c) =>
        var id := Candidate(s.running, s.tasks, c).value;
        ExceptTask(s, {}, id);
        CandidateIsBest(s.running, s.tasks, c);
        CanRunLive(s.tasks, c, id);
        RunningNotReady(s, id);
        Relax(s, id);
        BindStep(s, c, id);
      case None =>
        var c := FirstCore(s, s.ready, 0).value;
        var id := Candidate(s.ready, s.tasks, c).value;
        ExceptTask(s, {}, id);
        CandidateIsBest(s.ready, s.tasks, c);
        CanRunLive(s.tasks, c, id);
        PromoteInv(s, id);
        var s1 := s.(ready := RemoveId(s.ready, id), running := Push(s.running, s.tasks[id].meta.priority, id));
        BindStep(s1, c, id);
    }
  }

  lemma InvIsExcept(s: Sched)
    ensures Inv(s) <==> InvExcept(s, {})
  {
  }

  lemma CanRunLive(tasks: map<nat, QTask>, core: nat, id: nat)
    requires CanRun(tasks, core, id)
    ensures id in tasks
  {
  }

  lemma RunningNotReady(s: Sched, id: nat)
    requires id in s.tasks && ClassOk(s, id) && In(s.running, id)
    ensures !In(s.ready, id) && HasRunning(s.tasks[id])
  {
  }

  // --------------------------------------------------- abort, wake and take

  lemma AbortErr(s: Sched, id: nat)
    requires Inv(s) && id in s.tasks
    ensures var q' := s.tasks[id].(err := Some(Interrupted));
            InvExcept(s.(tasks := s.tasks[id := q'], waiters := s.waiters - {id}), {id})
  {
    hide Inv, InvExcept, InvIds, InvQueues, InvCores, InvTrace;
    InvIsExcept(s);
    ExceptParts(s, {});
    var q' := s.tasks[id].(err := Some(Interrupted));
    var s' := s.(tasks := s.tasks[id := q'], waiters := s.waiters - {id});
    AbortIds(s, id, q');
    AbortQueues(s, id, q');
    AbortCores(s, id, q');
    AbortTrace(s, id, q');
    ExceptParts(s', {id});
  }

  lemma ExceptParts(s: Sched, x: set<nat>)
    ensures InvExcept(s, x) <==> InvIds(s) && InvQueues(s, x) && InvCores(s) && InvTrace(s)
  {
  }

  lemma AbortIds(s: Sched, id: nat, q': QTask)
    requires InvIds(s) && id in s.tasks && q'.meta == s.tasks[id].meta
    ensures InvIds(s.(tasks := s.tasks[id := q'], waiters := s.waiters - {id}))
  {
    hide ResultOk;
  }

  lemma AbortQueues(s: Sched, id: nat, q': QTask)
    requires InvQueues(s, {}) && id in s.tasks && q' == s.tasks[id].(err := Some(Interrupted))
    ensures InvQueues(s.(tasks := s.tasks[id := q'], waiters := s.waiters - {id}), {id})
  {
    hide Terminal, HasRunning, NextDispatchable, QInv;
    var s' := s.(tasks := s.tasks[id := q'], waiters := s.waiters - {id});
    ErrKeepsShape(s.tasks[id]);
    forall x | x in s'.tasks && x != id ensures ClassOk(s', x) { assert ClassOk(s, x); }
  }

  lemma ErrKeepsShape(q: QTask)
    requires QInv(q)
    ensures QInv(q.(err := Some(Interrupted)))
  {
  }

  lemma AbortCores(s: Sched, id: nat, q': QTask)
    requires InvCores(s) && id in s.tasks && q' == s.tasks[id].(err := Some(Interrupted))
    ensures InvCores(s.(tasks := s.tasks[id := q'], waiters := s.waiters - {id}))
  {
    hide Tight, Apart, FlightOk, BindOk;
    var s' := s.(tasks := s.tasks[id := q'], waiters := s.waiters - {id});
    forall x | x in s'.tasks ensures FlightOk(s', x) {
      assert FlightOk(s, x);
      AbortFlight(s, id, q', x);
    }
    forall c | c in s.cores && s.cores[c].id in s.tasks ensures BindOk(s'.tasks[s.cores[c].id], c, s.cores[c]) {
      assert BindOk(s.tasks[s.cores[c].id], c, s.cores[c]);
      if s.cores[c].id == id { AbortBind(s.tasks[id], q', c, s.cores[c]); }
    }
  }

  lemma AbortFlight(s: Sched, id: nat, q': QTask, x: nat)
    requires FlightOk(s, x) && id in s.tasks && q' == s.tasks[id].(err := Some(Interrupted))
    ensures FlightOk(s.(tasks := s.tasks[id := q'], waiters := s.waiters - {id}), x)
  {
    assert Bound(s.(tasks := s.tasks[id := q'], waiters := s.waiters - {id}), x) == Bound(s, x);
  }

  lemma AbortBind(q: QTask, q': QTask, c: nat, b: Binding)
    requires BindOk(q, c, b) && q' == q.(err := Some(Interrupted))
    ensures BindOk(q', c, b)
  {
  }

  lemma AbortTrace(s: Sched, id: nat, q': QTask)
    requires InvTrace(s) && id in s.tasks && q' == s.tasks[id].(err := Some(Interrupted))
    ensures InvTrace(s.(tasks := s.tasks[id := q'], waiters := s.waiters - {id}))
  {
    hide Issued, Covers, NoDup;
    var s' := s.(tasks := s.tasks[id := q'], waiters := s.waiters - {id});
    forall x | x in s'.tasks ensures IssuedOk(s'.trace, x, s'.tasks[x]) { assert IssuedOk(s.trace, x, s.tasks[x]); }
    forall x | x in s'.complete ensures IssuedOk(s'.trace, x, s'.complete[x]) { assert IssuedOk(s.trace, x, s.complete[x]); }
  }

  /** Dropping results and waiters, or recording an error in a result, touches nothing else. */
  lemma ResultsOnly(s: Sched, s': Sched)
    requires Inv(s) && InvIds(s')
    requires s' == s.(complete := s'.complete, waiters := s'.waiters, pending := s'.pending, woken := s'.woken)
    requires forall id :: id in s'.complete ==> id in s.complete && s'.complete[id] == s.complete[id].(err := s'.complete[id].err)
    ensures Inv(s')
  {
    hide InvIds, InvQueues, InvCores, InvTrace;
    SameQueues(s, s');
    SameCores(s, s');
    SameTrace(s, s');
  }

  lemma MarkFailed(s: Sched, id: nat)
    requires InvIds(s) && id in s.complete
    ensures InvIds(s.(complete := s.complete[id := s.complete[id].(err := Some(MemoryError))]))
  {
    hide ResultOk;
    ErrKeepsResult(s.complete[id]);
  }

  lemma Signal(s: Sched, id: nat)
    requires InvIds(s) && id in s.pending
    ensures InvIds(Wake(s, id, false))
  {
    hide ResultOk, HeaderOk;
    var s' := Wake(s, id, false);
    assert IdsOk(s') by {
      hide WaitOk;
      WaitFrame(s, s');
    }
    hide IdsOk;
    assert WaitOk(s');
  }

  lemma WakeIds(s: Sched, id: nat, readFailed: bool)
    requires InvIds(s) && id in s.pending
    ensures InvIds(Wake(s, id, readFailed))
  {
    hide InvIds;
    if readFailed && id in s.complete {
      var s1 := s.(complete := s.complete[id := s.complete[id].(err := Some(MemoryError))]);
      MarkFailed(s, id);
      Signal(s1, id);
    } else {
      Signal(s, id);
    }
  }

  lemma WakeInv(s: Sched, id: nat, readFailed: bool)
    requires Inv(s) && id in s.pending
    ensures Inv(Wake(s, id, readFailed))
  {
    hide Inv, InvIds;
    InvParts(s);
    WakeIds(s, id, readFailed);
    ResultsOnly(s, Wake(s, id, readFailed));
  }

  lemma ErrKeepsResult(q: QTask)
    requires ResultOk(q)
    ensures ResultOk(q.(err := Some(MemoryError)))
  {
  }

  lemma InvParts(s: Sched)
    requires Inv(s)
    ensures InvIds(s)
  {
  }

  lemma TakeInv(s: Sched, id: nat)
    requires Inv(s)
    ensures Inv(Take(s, id))
  {
    hide Inv, ResultOk;
    InvParts(s);
    ResultsOnly(s, Take(s, id));
  }

  lemma AbortInv(s: Sched, id: nat)
    requires Inv(s)
    ensures Inv(Abort(s, id))
  {
    hide Inv, InvExcept, Reclassify, InvIds;
    var s1 := s.(waiters := s.waiters - {id});
    if id in s.complete {
      ForgetIds(s, s1.(complete := s.complete - {id}), id);
      ResultsOnly(s, s1.(complete := s.complete - {id}));
    } else {
      var s2 := if id in s.tasks then s1.(tasks := s.tasks[id := s.tasks[id].(err := Some(Interrupted))]) else s1;
      if id in s.tasks {
        AbortErr(s, id);
      } else {
        ForgetIds(s, s1, id);
        ResultsOnly(s, s1);
        Relax(s1, id);
      }
      AbortSettled(s2, id, Abort(s, id));
    }
  }

  /** Nobody waits for `id` any more, and its result, if any, is dropped. */
  lemma ForgetIds(s: Sched, s': Sched, id: nat)
    requires Inv(s) && (id in s.complete || id !in s.tasks)
    requires s' == s.(waiters := s.waiters - {id}, complete := s.complete - {id})
    ensures InvIds(s')
  {
    InvParts(s);
    hide Inv, ResultOk, HeaderOk;
    assert IdsOk(s') by {
      hide WaitOk;
      WaitFrame(s, s');
    }
    hide IdsOk;
    assert WaitOk(s');
  }

  lemma AbortSettled(s: Sched, id: nat, s': Sched)
    requires InvExcept(s, {id}) && id !in s.waiters && id !in s.complete
    requires var r := Reclassify(s, id);
             s' == if id in s.tasks && id !in r.tasks then r.(complete := r.complete - {id}) else r
    ensures Inv(s')
  {
    hide InvIds, InvQueues, InvCores, InvTrace, Reclassify, Terminal, QInv;
    ExceptTask(s, {id}, id);
    ReclassifyQueues(s, id);
    ReclassifyCores(s, id);
    ReclassifyTrace(s, id);
    ReclassifyEffect(s, id);
    var r := Reclassify(s, id);
    SameQueues(r, s');
    SameCores(r, s');
    SameTrace(r, s');
    AbortedIds(s, id, s');
  }

  lemma AbortedIds(s: Sched, id: nat, s': Sched)
    requires InvIds(s) && id !in s.waiters && id !in s.complete
    requires s'.submitted == s.submitted && s'.nextId == s.nextId && s'.cores == s.cores && s'.waiters == s.waiters
    requires s'.pending == s.pending && s'.woken == s.woken
    requires s'.tasks == s.tasks || s'.tasks == s.tasks - {id}
    requires s'.complete == s.complete
    ensures InvIds(s')
  {
    hide ResultOk;
  }

  // ------------------------------------------------------- reported statuses

  lemma EnqueueStatus(s: Sched, meta: Meta, descs: seq<Desc>)
    requires InvStatus(s) && TraceOk(s) && IdsOk(s)
    ensures InvStatus(Enqueue(s, meta, descs))
  {
    hide StillOut, Push, NoDup, Past, Covers;
    var s' := Enqueue(s, meta, descs);
    forall i | 0 <= i < |s'.trace| ensures StatusOk(s', s'.trace[i]) && DoneOk(s', s'.trace[i]) {
      var b := s.trace[i];
      assert StatusOk(s, b) && DoneOk(s, b);
      assert OnCore(s, b.id, b.index) ==> OnCore(s', b.id, b.index);
    }
  }

  lemma BindStatus(s: Sched, c: nat, b: Binding, q': QTask)
    requires InvStatus(s) && b.id in s.tasks && b.id !in s.complete && c !in s.cores
    requires b.index < |s.tasks[b.id].descs| == |q'.descs| && q'.err == s.tasks[b.id].err
    requires q'.descs == s.tasks[b.id].descs[b.index := q'.descs[b.index]]
    ensures InvStatus(Bound1(s, c, b, q'))
  {
    hide StillOut;
    var s' := Bound1(s, c, b, q');
    forall i | 0 <= i < |s'.trace| ensures StatusOk(s', s'.trace[i]) && DoneOk(s', s'.trace[i]) {
      var a := s'.trace[i];
      if i < |s.trace| {
        assert StatusOk(s, s.trace[i]) && DoneOk(s, s.trace[i]);
        if OnCore(s, a.id, a.index) {
          var d :| d in s.cores && s.cores[d].id == a.id && s.cores[d].index == a.index;
          assert d in s'.cores && s'.cores[d] == s.cores[d];
        }
      }
      if a.id == b.id && a.index == b.index {
        assert c in s'.cores && s'.cores[c] == b;
        assert OnCore(s', a.id, a.index);
      }
    }
  }

  /** If the submit stays healthy, the released task left a nonzero status and no other changed. */
  ghost predicate Reports(q: QTask, q': QTask, b: Binding) {
    q'.err == None ==>
      && q.err == None && b.index < |q.descs| == |q'.descs| && q'.descs[b.index].intStatus != 0
      && forall k :: 0 <= k < |q.descs| && k != b.index ==> q'.descs[k] == q.descs[k]
  }

  lemma HarvestedReports(q: QTask, c: nat, b: Binding, status: bv32)
    requires QInv(q) && BindOk(q, c, b) && status != 0
    ensures Reports(q, Harvested(q, b, status), b)
  {
  }

  lemma ReleaseStatus(s: Sched, c: nat, q': QTask)
    requires InvStatus(s) && c in s.cores && s.cores[c].id in s.tasks && s.cores[c].id !in s.complete
    requires Reports(s.tasks[s.cores[c].id], q', s.cores[c])
    ensures InvStatus(Release(s, c, q'))
  {
    hide StillOut;
    var s' := Release(s, c, q');
    forall i | 0 <= i < |s'.trace| ensures StatusOk(s', s'.trace[i]) && DoneOk(s', s'.trace[i]) {
      var a := s'.trace[i];
      assert StatusOk(s, a) && DoneOk(s, a);
      if OnCore(s, a.id, a.index) {
        var d :| d in s.cores && s.cores[d].id == a.id && s.cores[d].index == a.index;
        if d != c { assert d in s'.cores && s'.cores[d] == s.cores[d]; }
      }
    }
  }

  lemma SameStatus(s: Sched, s': Sched)
    requires InvStatus(s) && s'.tasks == s.tasks && s'.trace == s.trace
    requires forall c :: c in s.cores && s.cores[c].id in s.tasks ==> c in s'.cores && s'.cores[c] == s.cores[c]
    requires forall id :: id in s'.complete ==> id in s.complete && (s'.complete[id] == s.complete[id] || s'.complete[id].err.Some?)
    ensures InvStatus(s')
  {
    hide StillOut;
    forall i | 0 <= i < |s'.trace| ensures StatusOk(s', s'.trace[i]) && DoneOk(s', s'.trace[i]) {
      var a := s'.trace[i];
      assert StatusOk(s, a) && DoneOk(s, a);
      if a.id in s.tasks && OnCore(s, a.id, a.index) {
        var d :| d in s.cores && s.cores[d].id == a.id && s.cores[d].index == a.index;
        assert d in s'.cores && s'.cores[d] == s.cores[d];
      }
    }
  }

  lemma RetireStatus(s: Sched, s': Sched, id: nat)
    requires InvStatus(s) && id in s.tasks && s'.trace == s.trace && s'.cores == s.cores
    requires s'.tasks == s.tasks - {id} && s'.complete == s.complete[id := s.tasks[id]]
    requires s.tasks[id].err == None ==> forall c :: c in s.cores && s.cores[c].id == id ==> StillOut(s.tasks[id], s.cores[c].index)
    ensures InvStatus(s')
  {
    hide StillOut;
    forall i | 0 <= i < |s'.trace| ensures StatusOk(s', s'.trace[i]) && DoneOk(s', s'.trace[i]) {
      var a := s'.trace[i];
      assert StatusOk(s, a) && DoneOk(s, a);
      assert OnCore(s, a.id, a.index) ==> OnCore(s', a.id, a.index);
    }
  }

  lemma SettleStatus(s: Sched, id: nat)
    requires InvStatus(s) && InvCores(s) && (id in s.tasks ==> QInv(s.tasks[id]))
    ensures InvStatus(Reclassify(s, id)) && InvStatus(Settle(s, id))
  {
    hide InvStatus, Reclassify, Terminal, Tight, QInv, BindOk, Apart, InvCores, StillOut;
    ReclassifyEffect(s, id);
    var s' := Reclassify(s, id);
    if id in s.tasks && Terminal(s.tasks[id]) {
      forall c | c in s.cores && s.cores[c].id == id ensures StillOut(s.tasks[id], s.cores[c].index) { LeftRunning(s, c); }
      RetireStatus(s, s', id);
    } else {
      SameStatus(s, s');
    }
    SameStatus(s', Settle(s, id));
  }

  /** What a finished submit leaves on a core is a task it counts as out. */
  lemma LeftRunning(s: Sched, c: nat)
    requires InvCores(s) && c in s.cores && s.cores[c].id in s.tasks
    requires QInv(s.tasks[s.cores[c].id]) && Terminal(s.tasks[s.cores[c].id])
    ensures StillOut(s.tasks[s.cores[c].id], s.cores[c].index)
  {
    hide InvCores, QInv, Terminal;
    LiveBoundRuns(s, c);
    BoundRunningCount(s, c);
    if s.tasks[s.cores[c].id].meta.dynamic { TerminalIsIdle(s.tasks[s.cores[c].id]); }
  }

  lemma LiveBoundRuns(s: Sched, c: nat)
    requires InvCores(s) && c in s.cores && s.cores[c].id in s.tasks
    ensures HasRunning(s.tasks[s.cores[c].id])
  {
    assert FlightOk(s, s.cores[c].id);
    BoundMeansRunning(s, c);
  }

  // ------------------------------------------------------------ reachability

  ghost predicate Safe(s: Sched) { Inv(s) && InvStatus(s) }

  lemma ReleaseSafe(s: Sched, c: nat, q': QTask)
    requires Safe(s) && Releasing(s, c, q') && Reports(s.tasks[s.cores[c].id], q', s.cores[c])
    ensures Safe(Settle(Release(s, c, q'), s.cores[c].id))
  {
    hide InvIds, InvQueues, InvCores, InvTrace, InvStatus, Settle, Reports, Releasing;
    NotBoth(s, c, q');
    var id := s.cores[c].id;
    ReleaseInv(s, c, q');
    SettleInv(Release(s, c, q'), id);
    ReleaseStatus(s, c, q');
    QueuesTask(Release(s, c, q'), {id}, id);
    SettleStatus(Release(s, c, q'), id);
  }

  lemma NotBoth(s: Sched, c: nat, q': QTask)
    requires Inv(s) && Releasing(s, c, q')
    ensures c in s.cores && s.cores[c].id in s.tasks && s.cores[c].id !in s.complete
  {
    hide InvQueues, InvCores, InvTrace, Released;
  }

  lemma ReadyToRelease(s: Sched, c: nat)
    requires Safe(s) && c in s.cores && s.cores[c].id in s.tasks
    ensures var q, b := s.tasks[s.cores[c].id], s.cores[c];
            QInv(q) && BindOk(q, c, b) && (q.meta.dynamic ==> q.running > 0)
  {
    hide InvIds, InvQueues, InvCores, InvTrace, InvStatus, QInv, BindOk;
    QueuesTask(s, {}, s.cores[c].id);
    BoundRunningCount(s, c);
  }

  lemma OrphanSafe(s: Sched, c: nat)
    requires Safe(s) && c in s.cores && s.cores[c].id !in s.tasks
    ensures Safe(s.(cores := s.cores - {c})) && Safe(Settle(s.(cores := s.cores - {c}), s.cores[c].id))
  {
    hide Inv, InvStatus, Settle;
    var s1 := s.(cores := s.cores - {c});
    UnbindOrphan(s, c);
    SameStatus(s, s1);
    Relax(s1, s.cores[c].id);
    SettleInv(s1, s.cores[c].id);
    CoresPart(s1);
    SettleStatus(s1, s.cores[c].id);
  }

  lemma CoresPart(s: Sched)
    requires Inv(s)
    ensures InvCores(s)
  {
  }

  lemma CompleteSafe(s: Sched, core: nat, status: bv32)
    requires Safe(s) && status != 0 && (core in s.cores ==> BindingShaped(s, s.cores[core]))
    ensures Safe(Complete(s, core, status))
  {
    hide Safe, Settle, BindOk, QInv, Released, Reports, Harvested;
    if core in s.cores {
      var b := s.cores[core];
      if b.id in s.tasks {
        ReadyToRelease(s, core);
        HarvestedReleases(s.tasks[b.id], core, b, status);
        HarvestedReports(s.tasks[b.id], core, b, status);
        ReleaseSafe(s, core, Harvested(s.tasks[b.id], b, status));
      } else {
        OrphanSafe(s, core);
      }
    }
  }

  lemma FailSafe(s: Sched, core: nat, e: Error)
    requires Safe(s) && core in s.cores && BindingShaped(s, s.cores[core])
    ensures Safe(FailDispatch(s, core, e))
  {
    hide Safe, Settle, BindOk, QInv, Released;
    var b := s.cores[core];
    if b.id in s.tasks {
      ReadyToRelease(s, core);
      FailedReleases(s.tasks[b.id], core, b, e);
      ReleaseSafe(s, core, Failed(s.tasks[b.id], b.lane, e));
    } else {
      OrphanSafe(s, core);
    }
  }

  lemma BindKeepsStatus(s: Sched, c: nat, id: nat)
    requires InvStatus(s) && CanRun(s.tasks, c, id) && c !in s.cores && id !in s.complete && QInv(s.tasks[id])
    ensures InvStatus(Bind(s, c, id))
  {
    hide InvStatus, AllowsCore, Terminal;
    var q := s.tasks[id];
    ReserveTakes(q);
    var (l, index) := NextDispatchable(q).value;
    var q' := Reserve(q).(descs := q.descs[index := q.descs[index].(intStatus := 0)]);
    BindStatus(s, c, Binding(id, l, index), q');
  }

  lemma DispatchSafe(s: Sched)
    requires Safe(s) && Dispatch(s).Some?
    ensures Safe(Dispatch(s).value.0)
  {
    hide Inv, InvExcept, InvStatus, Push, RemoveId, Bind, Candidate, In, CanRun, BucketsOk, ClassOk, Terminal;
    DispatchInv(s);
    InvIsExcept(s);
    match FirstCore(s, s.running, 0) {
      case Some(c) =>
        var id := Candidate(s.running, s.tasks, c).value;
        ExceptTask(s, {}, id);
        CandidateIsBest(s.running, s.tasks, c);
        CanRunLive(s.tasks, c, id);
        BindKeepsStatus(s, c, id);
      case None =>
        var c := FirstCore(s, s.ready, 0).value;
        var id := Candidate(s.ready, s.tasks, c).value;
        ExceptTask(s, {}, id);
        CandidateIsBest(s.ready, s.tasks, c);
        CanRunLive(s.tasks, c, id);
        var s1 := s.(ready := RemoveId(s.ready, id), running := Push(s.running, s.tasks[id].meta.priority, id));
        SameStatus(s, s1);
        BindKeepsStatus(s1, c, id);
    }
  }

  lemma AbortSafe(s: Sched, id: nat)
    requires Safe(s)
    ensures Safe(Abort(s, id))
  {
    AbortInv(s, id);
    ExceptTask(s, {}, id);
    var s1 := s.(waiters := s.waiters - {id});
    if id in s.complete {
      SameStatus(s, s1.(complete := s.complete - {id}));
    } else {
      var s2 := if id in s.tasks then s1.(tasks := s.tasks[id := s.tasks[id].(err := Some(Interrupted))]) else s1;
      if id in s.tasks {
        AbortCores(s, id, s.tasks[id].(err := Some(Interrupted)));
        ErrKeepsShape(s.tasks[id]);
        ErrStatus(s, s2, id);
      } else {
        SameStatus(s, s1);
        SameCores(s, s1);
      }
      hide Inv, InvExcept, InvStatus, InvCores, Reclassify, QInv;
      SettleStatus(s2, id);
      ReclassifyEffect(s2, id);
      SameStatus(Reclassify(s2, id), Abort(s, id));
    }
  }

  lemma ErrStatus(s: Sched, s': Sched, id: nat)
    requires InvStatus(s) && id in s.tasks
    requires s' == s.(waiters := s'.waiters, tasks := s.tasks[id := s.tasks[id].(err := Some(Interrupted))])
    ensures InvStatus(s')
  {
    hide StillOut;
    forall i | 0 <= i < |s'.trace| ensures StatusOk(s', s'.trace[i]) && DoneOk(s', s'.trace[i]) {
      var a := s'.trace[i];
      assert StatusOk(s, a) && DoneOk(s, a);
      assert OnCore(s, a.id, a.index) ==> OnCore(s', a.id, a.index);
    }
  }

  lemma EnqueueSafe(s: Sched, meta: Meta, descs: seq<Desc>)
    requires Safe(s) && WellFormed(meta, descs)
    ensures Safe(Enqueue(s, meta, descs))
  {
    hide InvStatus, InvQueues, InvCores, WellFormed, Enqueue;
    EnqueueInv(s, meta, descs);
    EnqueueStatus(s, meta, descs);
  }

  lemma WakeSafe(s: Sched, id: nat, readFailed: bool)
    requires Safe(s) && id in s.pending
    ensures Safe(Wake(s, id, readFailed))
  {
    hide InvStatus, Inv;
    WakeInv(s, id, readFailed);
    SameStatus(s, Wake(s, id, readFailed));
  }

  lemma TakeSafe(s: Sched, id: nat)
    requires Safe(s)
    ensures Safe(Take(s, id))
  {
    hide InvStatus, Inv;
    TakeInv(s, id);
    SameStatus(s, Take(s, id));
  }

  /** Every locked section keeps the scheduler safe. */
  lemma StepSafe(s: Sched, s': Sched)
    requires Safe(s) && Next(s, s')
    ensures Safe(s')
  {
    hide Safe, Enqueue, Dispatch, Complete, FailDispatch, Wake, Abort, Take, Admissible, WellFormed, BindingShaped;
    if meta, descs :| Admissible(meta, descs) && s' == Enqueue(s, meta, descs) {
      AdmissibleIsWellFormed(meta, descs);
      EnqueueSafe(s, meta, descs);
    } else if Dispatch(s).Some? && s' == Dispatch(s).value.0 {
      DispatchSafe(s);
    } else if core, status :| status != 0 && (core in s.cores ==> BindingShaped(s, s.cores[core])) && s' == Complete(s, core, status) {
      CompleteSafe(s, core, status);
    } else if core, e :| core in s.cores && BindingShaped(s, s.cores[core]) && s' == FailDispatch(s, core, e) {
      FailSafe(s, core, e);
    } else if id, readFailed :| id in s.pending && s' == Wake(s, id, readFailed) {
      WakeSafe(s, id, readFailed);
    } else if id :| s' == Abort(s, id) {
      AbortSafe(s, id);
    } else {
      var id :| s' == Take(s, id);
      TakeSafe(s, id);
    }
  }

  lemma {:induction false} RunSafe(run: seq<Sched>, i: nat)
    requires IsRunOf(run) && i < |run|
    ensures Safe(run[i])
  {
    if i > 0 {
      hide Safe, Next;
      RunSafe(run, i - 1);
      assert Next(run[i - 1], run[i - 1 + 1]);
      StepSafe(run[i - 1], run[i]);
    }
  }
}
