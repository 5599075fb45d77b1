/** Within a priority submits are served in the order they queued. */
module SchedulerOrder {
  import opened Options
  import opened QueueTask
  import opened SchedulerSpec
  import opened SchedulerProofs
  import opened SchedulerStatus
  import opened SchedulerTheorems

  ghost predicate Before(ids: seq<nat>, x: nat, y: nat) {
    exists i, j :: 0 <= i < j < |ids| && ids[i] == x && ids[j] == y
  }

  function Priority(tasks: map<nat, QTask>, id: nat): int
    requires id in tasks
  {
    tasks[id].meta.priority
  }

  // ------------------------------------------------------------------ queues as lines

  /** Nobody stands twice in the line of all queues. */
  lemma {:induction false} LineNoDup(bs: seq<Bucket>, tasks: map<nat, QTask>)
    requires BucketsOk(bs, tasks)
    ensures NoDup(Flat(bs)) && forall x :: x in Flat(bs) ==> x in tasks
    ensures bs != [] ==> forall x :: x in Flat(bs) ==> Priority(tasks, x) >= bs[0].priority
  {
    if bs != [] {
      TailOk(bs, tasks);
      HeadOk(bs, tasks);
      LineNoDup(bs[1..], tasks);
      NoDupConcat(bs[0].ids, Flat(bs[1..]));
    }
  }

  lemma NoDupConcat(a: seq<nat>, b: seq<nat>)
    requires NoDup(a) && NoDup(b) && forall x :: x in a ==> x !in b
    ensures NoDup(a + b)
  {
    var c := a + b;
    forall i, j | 0 <= i < j < |c| ensures c[i] != c[j] {
      if j < |a| { assert c[i] == a[i] && c[j] == a[j]; }
      else if i < |a| { assert c[i] == a[i] && a[i] in a && c[j] == b[j - |a|] && b[j - |a|] in b; }
      else { assert c[i] == b[i - |a|] && c[j] == b[j - |a|]; }
    }
  }

  /** The first `n` of a line have priority `p` or better, the others a worse one. */
  ghost predicate Splits(line: seq<nat>, n: nat, p: int, tasks: map<nat, QTask>) {
    n <= |line| && forall i :: 0 <= i < |line| ==> line[i] in tasks && (Priority(tasks, line[i]) <= p <==> i < n)
  }

  lemma SplitConcat(a: seq<nat>, b: seq<nat>, k: nat, p: int, tasks: map<nat, QTask>)
    requires Splits(b, k, p, tasks) && forall x :: x in a ==> x in tasks && Priority(tasks, x) <= p
    ensures Splits(a + b, |a| + k, p, tasks)
  {
    var c := a + b;
    forall i | 0 <= i < |c| ensures c[i] in tasks && (Priority(tasks, c[i]) <= p <==> i < |a| + k) {
      if i < |a| { assert c[i] == a[i] && a[i] in a; } else { assert c[i] == b[i - |a|]; }
    }
  }

  function Inserted(line: seq<nat>, n: nat, id: nat): seq<nat>
    requires n <= |line|
  {
    line[..n] + [id] + line[n..]
  }

  lemma InsertConcat(a: seq<nat>, b: seq<nat>, k: nat, id: nat)
    requires k <= |b|
    ensures a + Inserted(b, k, id) == Inserted(a + b, |a| + k, id)
  {
    assert (a + b)[..|a| + k] == a + b[..k] && (a + b)[|a| + k..] == b[k..];
  }

  /** What a push does to the line, case by case. */
  lemma PushFlat(bs: seq<Bucket>, p: int, id: nat)
    ensures bs == [] || p < bs[0].priority ==> Flat(Push(bs, p, id)) == [id] + Flat(bs)
    ensures bs != [] && bs[0].priority == p && id !in bs[0].ids ==> Flat(Push(bs, p, id)) == bs[0].ids + ([id] + Flat(bs[1..]))
    ensures bs != [] && bs[0].priority < p ==> Flat(Push(bs, p, id)) == bs[0].ids + Flat(Push(bs[1..], p, id))
  {
    if bs == [] || p < bs[0].priority {
      assert ([Bucket(p, [id])] + bs)[1..] == bs;
    } else if bs[0].priority == p {
      if id !in bs[0].ids { assert Push(bs, p, id)[1..] == bs[1..] && (bs[0].ids + [id]) + Flat(bs[1..]) == bs[0].ids + ([id] + Flat(bs[1..])); }
    } else {
      assert Push(bs, p, id)[1..] == Push(bs[1..], p, id);
    }
  }

  lemma AllWorse(bs: seq<Bucket>, p: int, tasks: map<nat, QTask>)
    requires BucketsOk(bs, tasks) && (bs != [] ==> p < bs[0].priority)
    ensures Splits(Flat(bs), 0, p, tasks)
  {
    hide BucketsOk, NoDup;
    LineNoDup(bs, tasks);
  }

  /** Pushing puts a submit behind everybody of its own or a better priority, in front of
      everybody else, and moves nobody. */
  lemma {:induction false} PushPlace(bs: seq<Bucket>, p: int, id: nat, tasks: map<nat, QTask>) returns (n: nat)
    requires BucketsOk(bs, tasks) && !In(bs, id)
    ensures n <= |Flat(bs)| && Splits(Flat(bs), n, p, tasks) && Flat(Push(bs, p, id)) == Inserted(Flat(bs), n, id)
  {
    hide BucketsOk, In, NoDup, Push, Splits;
    PushFlat(bs, p, id);
    if bs == [] || p < bs[0].priority {
      n := 0;
      AllWorse(bs, p, tasks);
    } else {
      var ids, tail := bs[0].ids, bs[1..];
      TailOk(bs, tasks);
      HeadOk(bs, tasks);
      assert bs == [bs[0]] + tail;
      InCons(bs[0], tail, id);
      var k := 0;
      if bs[0].priority == p {
        AllWorse(tail, p, tasks);
      } else {
        k := PushPlace(tail, p, id, tasks);
      }
      n := |ids| + k;
      SplitBound(Flat(tail), k, p, tasks);
      InsertConcat(ids, Flat(tail), k, id);
      SplitConcat(ids, Flat(tail), k, p, tasks);
    }
  }

  lemma SplitBound(line: seq<nat>, n: nat, p: int, tasks: map<nat, QTask>)
    requires Splits(line, n, p, tasks)
    ensures n <= |line|
  {
  }

  lemma {:induction false} WithoutPlace(ids: seq<nat>, id: nat) returns (n: nat)
    requires id in ids
    ensures n < |ids| && ids[n] == id && Without(ids, id) == ids[..n] + ids[n + 1..]
  {
    if ids[0] == id {
      n := 0;
    } else {
      n := WithoutPlace(ids[1..], id);
      n := n + 1;
    }
  }

  lemma {:induction false} WithoutNobody(ids: seq<nat>, id: nat)
    requires id !in ids
    ensures Without(ids, id) == ids
  {
    if ids != [] { WithoutNobody(ids[1..], id); }
  }

  lemma {:induction false} RemoveNobody(bs: seq<Bucket>, id: nat)
    requires !In(bs, id) && forall i :: 0 <= i < |bs| ==> bs[i].ids != []
    ensures Flat(RemoveId(bs, id)) == Flat(bs)
  {
    if bs != [] {
      assert bs == [bs[0]] + bs[1..];
      InCons(bs[0], bs[1..], id);
      WithoutNobody(bs[0].ids, id);
      RemoveNobody(bs[1..], id);
      assert RemoveId(bs, id)[1..] == RemoveId(bs[1..], id);
    }
  }

  function Deleted(line: seq<nat>, n: nat): seq<nat>
    requires n < |line|
  {
    line[..n] + line[n + 1..]
  }

  lemma DeleteConcat(a: seq<nat>, b: seq<nat>, n: nat)
    ensures n < |a| ==> Deleted(a, n) + b == Deleted(a + b, n)
    ensures n < |b| ==> a + Deleted(b, n) == Deleted(a + b, |a| + n)
  {
    if n < |a| { assert (a + b)[..n] == a[..n] && (a + b)[n + 1..] == a[n + 1..] + b; }
    if n < |b| { assert (a + b)[..|a| + n] == a + b[..n] && (a + b)[|a| + n + 1..] == b[n + 1..]; }
  }

  /** Removing takes one submit out of the line and moves nobody. */
  lemma {:induction false} RemovePlace(bs: seq<Bucket>, id: nat, tasks: map<nat, QTask>) returns (n: nat)
    requires BucketsOk(bs, tasks) && In(bs, id)
    ensures n < |Flat(bs)| && Flat(bs)[n] == id && Flat(RemoveId(bs, id)) == Deleted(Flat(bs), n)
  {
    hide NoDup;
    var ids, tail := bs[0].ids, bs[1..];
    TailOk(bs, tasks);
    LineNoDup(tail, tasks);
    FlatIn(tail, id);
    assert bs == [bs[0]] + tail;
    InCons(bs[0], tail, id);
    var rest := RemoveId(tail, id);
    if id in ids {
      n := WithoutPlace(ids, id);
      RemoveNobody(tail, id);
      DeleteConcat(ids, Flat(tail), n);
      FlatFirst(Bucket(bs[0].priority, Without(ids, id)), rest);
    } else {
      var k := RemovePlace(tail, id, tasks);
      n := |ids| + k;
      WithoutNobody(ids, id);
      DeleteConcat(ids, Flat(tail), k);
      FlatFirst(bs[0], rest);
    }
  }

  /** A queue in front adds its ids, even none. */
  lemma FlatFirst(b: Bucket, bs: seq<Bucket>)
    ensures Flat((if b.ids == [] then [] else [b]) + bs) == b.ids + Flat(bs)
  {
    if b.ids == [] { assert [] + bs == bs; } else { assert ([b] + bs)[1..] == bs; }
  }

  // -------------------------------------------------------------------- no overtaking

  /** From line `a` to line `b`: whoever stays keeps its place relative to the others who
      stay, and whoever joins stands behind those of its own or a better priority. */
  ghost predicate Fifo(a: seq<nat>, b: seq<nat>, metas: map<nat, Meta>) {
    && (forall x, y :: Before(a, x, y) && x in b && y in b ==> Before(b, x, y))
    && (forall x, y :: x in a && x in b && y in b && y !in a && Ranked(metas, x, y) ==> Before(b, x, y))
  }

  predicate Ranked(metas: map<nat, Meta>, x: nat, y: nat) { x in metas && y in metas && metas[x].priority <= metas[y].priority }

  ghost predicate Agree(tasks: map<nat, QTask>, metas: map<nat, Meta>) {
    forall x :: x in tasks ==> x in metas && metas[x].priority == tasks[x].meta.priority
  }

  lemma FifoSame(a: seq<nat>, metas: map<nat, Meta>)
    ensures Fifo(a, a, metas)
  {
  }

  lemma FifoDeleted(a: seq<nat>, n: nat, metas: map<nat, Meta>)
    requires n < |a| && NoDup(a)
    ensures Fifo(a, Deleted(a, n), metas)
  {
    var b := Deleted(a, n);
    forall x, y | Before(a, x, y) && x in b && y in b ensures Before(b, x, y) {
      var i, j :| 0 <= i < j < |a| && a[i] == x && a[j] == y;
      assert i != n && j != n by { NotDeleted(a, n); }
      assert b[if i < n then i else i - 1] == x && b[if j < n then j else j - 1] == y;
    }
    forall y | y in b ensures y in a {
      var j :| 0 <= j < |b| && b[j] == y;
      assert a[if j < n then j else j + 1] == y;
    }
  }

  lemma NotDeleted(a: seq<nat>, n: nat)
    requires n < |a| && NoDup(a)
    ensures a[n] !in Deleted(a, n)
  {
  }

  lemma OnlyOneNew(a: seq<nat>, n: nat, id: nat, y: nat)
    requires n <= |a| && y in Inserted(a, n, id)
    ensures y in a || y == id
  {
  }

  lemma FifoInserted(a: seq<nat>, n: nat, id: nat, tasks: map<nat, QTask>, metas: map<nat, Meta>)
    requires n <= |a| && id in metas && Agree(tasks, metas) && Splits(a, n, metas[id].priority, tasks)
    ensures Fifo(a, Inserted(a, n, id), metas)
  {
    var b := Inserted(a, n, id);
    forall i | 0 <= i < |a| ensures b[if i < n then i else i + 1] == a[i] { }
    forall x, y | Before(a, x, y) ensures Before(b, x, y) {
      var i, j :| 0 <= i < j < |a| && a[i] == x && a[j] == y;
      assert b[if i < n then i else i + 1] == x && b[if j < n then j else j + 1] == y;
    }
    forall x, y | x in a && y in b && y !in a && Ranked(metas, x, y) ensures Before(b, x, y) {
      var i :| 0 <= i < |a| && a[i] == x;
      OnlyOneNew(a, n, id, y);
      assert i < n && b[i] == x && b[n] == id;
    }
  }

  lemma PushFifo(bs: seq<Bucket>, p: int, id: nat, tasks: map<nat, QTask>, metas: map<nat, Meta>)
    requires BucketsOk(bs, tasks) && !In(bs, id) && Agree(tasks, metas) && id in metas && metas[id].priority == p
    ensures Fifo(Flat(bs), Flat(Push(bs, p, id)), metas)
  {
    hide BucketsOk, In, Splits, Agree, Fifo, Push, Flat;
    var n := PushPlace(bs, p, id, tasks);
    FifoInserted(Flat(bs), n, id, tasks, metas);
  }

  lemma RemoveFifo(bs: seq<Bucket>, id: nat, tasks: map<nat, QTask>, metas: map<nat, Meta>)
    requires BucketsOk(bs, tasks)
    ensures Fifo(Flat(bs), Flat(RemoveId(bs, id)), metas)
    ensures !In(bs, id) ==> Flat(RemoveId(bs, id)) == Flat(bs)
  {
    hide In, Fifo, Flat, RemoveId, NoDup;
    LineNoDup(bs, tasks);
    if In(bs, id) {
      var n := RemovePlace(bs, id, tasks);
      FifoDeleted(Flat(bs), n, metas);
    } else {
      RemoveNobody(bs, id);
      FifoSame(Flat(bs), metas);
    }
  }

  /** Reclassifying puts a submit back among the ready ones. */
  predicate Requeued(s: Sched, id: nat) {
    id in s.tasks && !Terminal(s.tasks[id]) && !HasRunning(s.tasks[id]) && Shaped(s.tasks[id]) && NextDispatchable(s.tasks[id]).Some?
  }

  lemma ReclassifyReady(s: Sched, id: nat)
    ensures Reclassify(s, id).ready ==
      if Requeued(s, id) then Push(RemoveId(s.ready, id), s.tasks[id].meta.priority, id) else RemoveId(s.ready, id)
  {
    hide Terminal, HasRunning, Shaped, NextDispatchable, Push, RemoveId;
  }

  lemma ReclassifyFifo(s: Sched, id: nat, metas: map<nat, Meta>)
    requires BucketsOk(s.ready, s.tasks) && Agree(s.tasks, metas) && !(In(s.ready, id) && Requeued(s, id))
    ensures Fifo(Flat(s.ready), Flat(Reclassify(s, id).ready), metas)
  {
    hide BucketsOk, In, Fifo, Flat, Push, RemoveId, Reclassify;
    ReclassifyReady(s, id);
    RemoveFifo(s.ready, id, s.tasks, metas);
    RemoveOk(s.ready, id, s.tasks);
    if Requeued(s, id) { PushFifo(RemoveId(s.ready, id), s.tasks[id].meta.priority, id, s.tasks, metas); }
  }

  lemma ReadyFacts(s: Sched)
    requires Safe(s)
    ensures BucketsOk(s.ready, s.tasks) && Agree(s.tasks, s.submitted) && s.nextId !in s.tasks && s.nextId !in s.submitted
  {
    hide InvCores, InvTrace, InvStatus, BucketsOk, WaitOk, ResultOk, HeaderOk, QInv, Terminal, ClassOk;
  }

  lemma EnqueueFifo(s: Sched, meta: Meta, descs: seq<Desc>)
    requires Safe(s)
    ensures Fifo(Flat(s.ready), Flat(Enqueue(s, meta, descs).ready), Enqueue(s, meta, descs).submitted)
  {
    hide Safe, BucketsOk, In, Fifo, Flat, Push;
    ReadyFacts(s);
    NotQueued(s.ready, s.nextId, s.tasks);
    PushFifo(s.ready, meta.priority, s.nextId, s.tasks, s.submitted[s.nextId := meta]);
  }

  lemma NotQueued(bs: seq<Bucket>, id: nat, tasks: map<nat, QTask>)
    requires BucketsOk(bs, tasks) && id !in tasks
    ensures !In(bs, id)
  {
  }

  lemma DispatchFifo(s: Sched)
    requires Safe(s) && Dispatch(s).Some?
    ensures Fifo(Flat(s.ready), Flat(Dispatch(s).value.0.ready), s.submitted)
  {
    hide Safe, BucketsOk, Fifo, Flat, Push, RemoveId, Candidate, CanRun, Reserve, NextDispatchable;
    ReadyFacts(s);
    var c := Dispatch(s).value.1;
    if FirstCore(s, s.running, 0).Some? {
      CandidateRuns(s.running, s.tasks, c);
      FifoSame(Flat(s.ready), s.submitted);
    } else {
      CandidateRuns(s.ready, s.tasks, c);
      RemoveFifo(s.ready, Candidate(s.ready, s.tasks, c).value, s.tasks, s.submitted);
    }
  }

  lemma BoundNotReady(s: Sched, core: nat)
    requires Safe(s) && core in s.cores && s.cores[core].id in s.tasks
    ensures !In(s.ready, s.cores[core].id) && BindingShaped(s, s.cores[core])
  {
    BoundInRange(s, core);
    ReadyToRelease(s, core);
    CoresPart(s);
    LiveBoundRuns(s, core);
    ExceptTask(s, {}, s.cores[core].id);
    hide Safe, BindOk, QInv, InvCores, BucketsOk;
  }

  lemma ReleasedFifo(s: Sched, core: nat, q': QTask)
    requires Safe(s) && core in s.cores && s.cores[core].id in s.tasks && q'.meta == s.tasks[s.cores[core].id].meta
    ensures var b := s.cores[core];
      Fifo(Flat(s.ready), Flat(Settle(s.(cores := s.cores - {core}, tasks := s.tasks[b.id := q']), b.id).ready), s.submitted)
  {
    hide Safe, BucketsOk, In, Fifo, Flat, Reclassify;
    var b := s.cores[core];
    BoundNotReady(s, core);
    ReadyFacts(s);
    SameMeta(s.ready, s.tasks, b.id, q');
    ReclassifyFifo(s.(cores := s.cores - {core}, tasks := s.tasks[b.id := q']), b.id, s.submitted);
  }

  lemma CompleteFifo(s: Sched, core: nat, status: bv32)
    requires Safe(s) && (core in s.cores ==> BindingShaped(s, s.cores[core]))
    ensures Fifo(Flat(s.ready), Flat(Complete(s, core, status).ready), s.submitted)
  {
    hide Safe, Fifo, Flat, Settle, Masked;
    FifoSame(Flat(s.ready), s.submitted);
    if core in s.cores && s.cores[core].id in s.tasks {
      var b := s.cores[core];
      ReleasedFifo(s, core, Harvested(s.tasks[b.id], b, status));
    }
  }

  lemma FailFifo(s: Sched, core: nat, e: Error)
    requires Safe(s) && core in s.cores && BindingShaped(s, s.cores[core])
    ensures Fifo(Flat(s.ready), Flat(FailDispatch(s, core, e).ready), s.submitted)
  {
    hide Safe, Fifo, Flat, Reclassify;
    var b := s.cores[core];
    if b.id in s.tasks {
      ReleasedFifo(s, core, Failed(s.tasks[b.id], b.lane, e));
    } else {
      ReadyFacts(s);
      ReclassifyFifo(s.(cores := s.cores - {core}), b.id, s.submitted);
    }
  }

  lemma AbortFifo(s: Sched, id: nat)
    requires Safe(s)
    ensures Fifo(Flat(s.ready), Flat(Abort(s, id).ready), s.submitted)
  {
    hide Safe, BucketsOk, Fifo, Flat, Reclassify, HasRunning, NextDispatchable;
    ReadyFacts(s);
    FifoSame(Flat(s.ready), s.submitted);
    if id !in s.complete {
      var s1 := s.(waiters := s.waiters - {id});
      if id in s.tasks {
        var q' := s.tasks[id].(err := Some(Interrupted));
        SameMeta(s.ready, s.tasks, id, q');
        ReclassifyFifo(s1.(tasks := s.tasks[id := q']), id, s.submitted);
      } else {
        ReclassifyFifo(s1, id, s.submitted);
      }
    }
  }

  /** No step lets a ready submit overtake another of its own or a better priority. */
  lemma StepFifo(s: Sched, s': Sched)
    requires Safe(s) && Next(s, s')
    ensures Fifo(Flat(s.ready), Flat(s'.ready), s'.submitted)
  {
    hide Safe, Fifo, Flat, Enqueue, Dispatch, Complete, FailDispatch, Abort, Admissible, BindingShaped;
    FifoSame(Flat(s.ready), s.submitted);
    if meta, descs :| Admissible(meta, descs) && s' == Enqueue(s, meta, descs) {
      EnqueueFifo(s, meta, descs);
    } else if Dispatch(s).Some? && s' == Dispatch(s).value.0 {
      DispatchFifo(s);
      DispatchSubmits(s);
    } else if core, status :| status != 0 && (core in s.cores ==> BindingShaped(s, s.cores[core])) && s' == Complete(s, core, status) {
      CompleteFifo(s, core, status);
      CompleteTraces(s, core, status);
    } else if core, e :| core in s.cores && BindingShaped(s, s.cores[core]) && s' == FailDispatch(s, core, e) {
      FailFifo(s, core, e);
      FailTraces(s, core, e);
    } else if id, readFailed :| id in s.pending && s' == Wake(s, id, readFailed) {
    } else if id :| s' == Abort(s, id) {
      AbortFifo(s, id);
      WaiterTraces(s, id, false);
    } else {
      var id :| s' == Take(s, id);
    }
  }

  // ------------------------------------------------------------------------ every run

  lemma {:induction false} SubmittedStays(run: seq<Sched>, i: nat, j: nat, id: nat)
    requires IsRunOf(run) && i <= j < |run| && id in run[i].submitted
    ensures id in run[j].submitted && run[j].submitted[id] == run[i].submitted[id]
    decreases j - i
  {
    hide Safe, Next;
    if i < j {
      SubmittedStays(run, i, j - 1, id);
      RunSafe(run, j - 1);
      assert Next(run[j - 1], run[j - 1 + 1]);
      StepSubmitted(run[j - 1], run[j], id);
    }
  }

  lemma StepSubmitted(s: Sched, s': Sched, id: nat)
    requires Safe(s) && Next(s, s') && id in s.submitted
    ensures id in s'.submitted && s'.submitted[id] == s.submitted[id]
  {
    hide Safe, Admissible, Enqueue, Dispatch, Complete, FailDispatch, Wake, Abort, Take, BindingShaped;
    if meta, descs :| Admissible(meta, descs) && s' == Enqueue(s, meta, descs) {
      ReadyFacts(s);
      EnqueueSubmits(s, meta, descs);
    } else {
      SameSubmits(s, s');
    }
  }

  /** While `x` stays ready, whoever of its own or a worse priority joins later stands
      behind it. */
  lemma {:induction false} StaysAhead(run: seq<Sched>, i: nat, j: nat, x: nat, y: nat)
    requires IsRunOf(run) && i <= j < |run|
    requires (forall k :: i <= k <= j ==> In(run[k].ready, x)) && !In(run[i].ready, y)
    requires Ranked(run[j].submitted, x, y)
    ensures In(run[j].ready, y) ==> Before(Flat(run[j].ready), x, y)
    decreases j - i
  {
    hide Safe, Next, In, Before, Flat;
    if i < j && In(run[j].ready, y) {
      RunSafe(run, j - 1);
      RunSafe(run, j);
      assert Next(run[j - 1], run[j - 1 + 1]);
      StepFifo(run[j - 1], run[j]);
      FlatIn(run[j - 1].ready, x);
      FlatIn(run[j - 1].ready, y);
      FlatIn(run[j].ready, x);
      FlatIn(run[j].ready, y);
      assert In(run[j].ready, x) && In(run[j - 1].ready, x);
      if In(run[j - 1].ready, y) {
        QueuedIsSubmitted(run[j - 1], x);
        QueuedIsSubmitted(run[j - 1], y);
        SubmittedStays(run, j - 1, j, x);
        SubmittedStays(run, j - 1, j, y);
        StaysAhead(run, i, j - 1, x, y);
      }
    }
  }

  lemma QueuedIsSubmitted(s: Sched, x: nat)
    requires Safe(s) && In(s.ready, x)
    ensures x in s.tasks && x in s.submitted && s.tasks[x].meta == s.submitted[x]
  {
    hide InvCores, InvTrace, InvStatus, WaitOk, ResultOk, HeaderOk, QInv, Terminal, ClassOk;
  }

  /** First come, first served, over every run: when a ready submit is dispatched onto a
      core, no submit of its own or a better priority that has been ready since before it
      could have run there. */
  lemma FirstComeFirstServed(run: seq<Sched>, i: nat, j: nat, x: nat, y: nat)
    requires IsRunOf(run) && i <= j < |run|
    requires (forall k :: i <= k <= j ==> In(run[k].ready, x)) && !In(run[i].ready, y) && In(run[j].ready, y)
    requires Ranked(run[j].submitted, x, y)
    requires Dispatch(run[j]).Some? && Dispatch(run[j]).value.1 in Dispatch(run[j]).value.0.cores
    requires Dispatch(run[j]).value.0.cores[Dispatch(run[j]).value.1].id == y
    ensures !CanRun(run[j].tasks, Dispatch(run[j]).value.1, x)
  {
    hide Safe, Next, In, Before, Dispatch, CanRun;
    RunSafe(run, j);
    StaysAhead(run, i, j, x, y);
    var s := run[j];
    ServedFromReady(s, y);
    ReadyFacts(s);
    LineNoDup(s.ready, s.tasks);
    FirstInLine(Flat(s.ready), s.tasks, Dispatch(s).value.1, x, y);
  }

  /** Whoever stands before the first that fits does not fit. */
  lemma FirstInLine(line: seq<nat>, tasks: map<nat, QTask>, core: nat, x: nat, y: nat)
    requires NoDup(line) && First(line, tasks, core) == Some(y) && Before(line, x, y)
    ensures !CanRun(tasks, core, x)
  {
    hide CanRun, First;
    var n :| 0 <= n < |line| && line[n] == y && forall j :: 0 <= j < n ==> !CanRun(tasks, core, line[j]);
    var i, j :| 0 <= i < j < |line| && line[i] == x && line[j] == y;
  }

  lemma ServedFromReady(s: Sched, y: nat)
    requires Safe(s) && In(s.ready, y) && Dispatch(s).Some? && Dispatch(s).value.1 in Dispatch(s).value.0.cores
    requires Dispatch(s).value.0.cores[Dispatch(s).value.1].id == y
    ensures Candidate(s.ready, s.tasks, Dispatch(s).value.1) == Some(y)
  {
    hide Safe, Push, RemoveId, CanRun, Reserve, NextDispatchable, Candidate, In;
    var c := Dispatch(s).value.1;
    if FirstCore(s, s.running, 0).Some? {
      CandidateRuns(s.running, s.tasks, c);
      CandidateQueued(s.running, s.tasks, c);
      NotBothQueues(s, y);
    } else {
      CandidateRuns(s.ready, s.tasks, c);
    }
  }

  lemma CandidateQueued(bs: seq<Bucket>, tasks: map<nat, QTask>, core: nat)
    requires Candidate(bs, tasks, core).Some?
    ensures In(bs, Candidate(bs, tasks, core).value)
  {
    FlatIn(bs, Candidate(bs, tasks, core).value);
  }

  lemma NotBothQueues(s: Sched, id: nat)
    requires Safe(s)
    ensures !(In(s.ready, id) && In(s.running, id))
  {
    if In(s.ready, id) {
      QueuedIsSubmitted(s, id);
      ExceptTask(s, {}, id);
    }
  }

  // ------------------------------------------------------------------------ accepting

  lemma {:induction false} FirstAgrees(ids: seq<nat>, tasks: map<nat, QTask>, more: map<nat, QTask>, core: nat)
    requires forall x :: x in ids ==> (CanRun(tasks, core, x) <==> CanRun(more, core, x))
    ensures First(ids, tasks, core) == First(ids, more, core)
  {
    hide CanRun;
    if ids != [] {
      assert ids[0] in ids && forall x :: x in ids[1..] ==> x in ids;
      FirstAgrees(ids[1..], tasks, more, core);
    }
  }

  /** A submit accepted later never takes a core from one of its own or a better priority. */
  lemma NoOvertaking(s: Sched, meta: Meta, descs: seq<Desc>, core: nat, x: nat)
    requires Safe(s) && Candidate(s.ready, s.tasks, core) == Some(x) && x in s.tasks && s.tasks[x].meta.priority <= meta.priority
    ensures Candidate(Enqueue(s, meta, descs).ready, Enqueue(s, meta, descs).tasks, core) == Some(x)
  {
    hide Safe, BucketsOk, In, Push, CanRun, NoDup, First;
    ReadyFacts(s);
    var id := s.nextId;
    NotQueued(s.ready, id, s.tasks);
    LineNoDup(s.ready, s.tasks);
    var n := PushPlace(s.ready, meta.priority, id, s.tasks);
    var line := Flat(s.ready);
    var more := Enqueue(s, meta, descs).tasks;
    assert line == line[..n] + line[n..];
    FirstConcat(line[..n], line[n..], s.tasks, core);
    WorseBehind(line, n, meta.priority, s.tasks, core, x);
    FrontAgrees(s.tasks, id, more, line[..n], core);
    assert Inserted(line, n, id) == line[..n] + ([id] + line[n..]);
    FirstConcat(line[..n], [id] + line[n..], more, core);
  }

  lemma FrontAgrees(tasks: map<nat, QTask>, id: nat, more: map<nat, QTask>, front: seq<nat>, core: nat)
    requires id !in tasks && id in more && more == tasks[id := more[id]] && forall y :: y in front ==> y in tasks
    ensures First(front, tasks, core) == First(front, more, core)
  {
    hide CanRun, First;
    forall y | y in front ensures CanRun(tasks, core, y) <==> CanRun(more, core, y) { SameFit(tasks, more, core, y); }
    FirstAgrees(front, tasks, more, core);
  }

  lemma SameFit(tasks: map<nat, QTask>, more: map<nat, QTask>, core: nat, y: nat)
    requires y in tasks && y in more && tasks[y] == more[y]
    ensures CanRun(tasks, core, y) <==> CanRun(more, core, y)
  {
  }

  lemma WorseBehind(line: seq<nat>, n: nat, p: int, tasks: map<nat, QTask>, core: nat, x: nat)
    requires Splits(line, n, p, tasks) && x in tasks && Priority(tasks, x) <= p
    ensures First(line[n..], tasks, core) != Some(x)
  {
    hide CanRun, First;
  }

  /** The next dispatch puts `id` on core 0. */
  ghost predicate FirstServed(s: Sched, id: nat) {
    Dispatch(s).Some? && var (s', c) := Dispatch(s).value; c == 0 && 0 in s'.cores && s'.cores[0].id == id
  }

  /** Two submits accepted one after the other on an idle scheduler: the first one gets the
      first core it fits, unless the second has a better priority. */
  lemma FirstOfTwo(m1: Meta, d1: seq<Desc>, m2: Meta, d2: seq<Desc>, core: nat)
    requires Admissible(m1, d1) && Admissible(m2, d2) && m1.priority <= m2.priority
    requires CanRun(map[1 := NewTask(m1, d1)], core, 1)
    ensures var s := Enqueue(Enqueue(Init, m1, d1), m2, d2);
      && Candidate(s.ready, s.tasks, core) == Some(1)
      && (core == 0 ==> FirstServed(s, 1))
  {
    hide Safe, CanRun, Admissible, WellFormed;
    var s1 := Enqueue(Init, m1, d1);
    RunSafe([Init], 0);
    AdmissibleIsWellFormed(m1, d1);
    EnqueueSafe(Init, m1, d1);
    assert s1.tasks == map[1 := NewTask(m1, d1)] && Flat(s1.ready) == [1];
    NoOvertaking(s1, m2, d2, core, 1);
    if core == 0 { IdleServes(Enqueue(s1, m2, d2), 1); }
  }

  lemma IdleServes(s: Sched, id: nat)
    requires s.running == [] && s.cores == map[] && Candidate(s.ready, s.tasks, 0) == Some(id)
    ensures FirstServed(s, id)
  {
    hide CanRun, Push, RemoveId, Reserve, NextDispatchable;
    assert forall c :: Candidate([], s.tasks, c) == None;
    CandidateRuns(s.ready, s.tasks, 0);
  }

  // --------------------------------------------------------------------- taking turns

  lemma ReclassifyRunning(s: Sched, id: nat)
    ensures Reclassify(s, id).running ==
      if id in s.tasks && !Terminal(s.tasks[id]) && HasRunning(s.tasks[id]) then Push(RemoveId(s.running, id), s.tasks[id].meta.priority, id)
      else RemoveId(s.running, id)
  {
    hide Terminal, HasRunning, Shaped, NextDispatchable, Push, RemoveId;
  }

  /** Running submits take turns: one that keeps running after a completion stands behind
      every other running submit of its own or a better priority, and the others keep
      their order. */
  lemma CompletedGoesBehind(s: Sched, core: nat, status: bv32, x: nat)
    requires Safe(s) && core in s.cores && s.cores[core].id in s.tasks && BindingShaped(s, s.cores[core])
    requires var s' := Complete(s, core, status); var id := s.cores[core].id;
      In(s'.running, id) && In(s'.running, x) && x != id && Ranked(s.submitted, x, id)
    ensures Before(Flat(Complete(s, core, status).running), x, s.cores[core].id)
    ensures var s' := Complete(s, core, status);
      forall y, z :: y != s.cores[core].id && z != s.cores[core].id && Before(Flat(s.running), y, z) ==> Before(Flat(s'.running), y, z)
  {
    hide Safe, BucketsOk, Flat, Push, RemoveId, Reclassify, Masked;
    var b := s.cores[core];
    var q' := Harvested(s.tasks[b.id], b, status);
    var s1 := s.(cores := s.cores - {core}, tasks := s.tasks[b.id := q']);
    RunningFacts(s);
    ReadyFacts(s);
    SameMeta(s.running, s.tasks, b.id, q');
    ReclassifyRunning(s1, b.id);
    MovedBehind(s.running, b.id, s1.tasks, s.submitted, x);
    RemoveOk(s.running, b.id, s1.tasks);
  }

  lemma RunningFacts(s: Sched)
    requires Safe(s)
    ensures BucketsOk(s.running, s.tasks)
  {
    hide InvCores, InvTrace, InvStatus, BucketsOk, InvIds;
  }

  lemma MovedBehind(bs: seq<Bucket>, id: nat, tasks: map<nat, QTask>, metas: map<nat, Meta>, x: nat)
    requires BucketsOk(bs, tasks) && id in tasks && Agree(tasks, metas)
    ensures var line := Flat(Push(RemoveId(bs, id), tasks[id].meta.priority, id));
      && (In(Push(RemoveId(bs, id), tasks[id].meta.priority, id), x) && x != id && Ranked(metas, x, id) ==> Before(line, x, id))
      && forall y, z :: y != id && z != id && Before(Flat(bs), y, z) ==> Before(line, y, z)
  {
    hide BucketsOk, In, Flat, Push, RemoveId, Before;
    var r := RemoveId(bs, id);
    var p := tasks[id].meta.priority;
    RemoveFifo(bs, id, tasks, metas);
    RemoveOk(bs, id, tasks);
    PushFifo(r, p, id, tasks, metas);
    PushOk(r, p, id, tasks);
    FlatIn(r, x);
    FlatIn(r, id);
    FlatIn(Push(r, p, id), x);
    FlatIn(Push(r, p, id), id);
    forall y, z | y != id && z != id && Before(Flat(bs), y, z) ensures Before(Flat(Push(r, p, id)), y, z) {
      BothIn(Flat(bs), y, z);
      FlatIn(bs, y);
      FlatIn(bs, z);
      FlatIn(r, y);
      FlatIn(r, z);
      FlatIn(Push(r, p, id), y);
      FlatIn(Push(r, p, id), z);
    }
  }

  lemma BothIn(line: seq<nat>, y: nat, z: nat)
    requires Before(line, y, z)
    ensures y in line && z in line
  {
  }
}
