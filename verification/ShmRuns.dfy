/** System calls and process exit over the shared-memory tables, one step each. */
module ShmRuns {
  import opened BiMap
  import opened Options
  import opened ShmSpec

  /** Find a segment by key or create one. */
  function GetSeg(s: Shm, key: int, size: nat, flags: nat): (Shm, Option<nat>) {
    if size == 0 then (s, None)
    else if key != IPC_PRIVATE && key in s.keys.forward then
      var id := s.keys.forward[key];
      (s, if id in s.segs && s.segs[id].size == size && s.segs[id].flags == flags then Some(id) else None)
    else
      (s.(keys := Insert(s.keys, key, s.nextId), segs := s.segs[s.nextId := Seg(size, flags, map[], false, 0)], nextId := s.nextId + 1),
       Some(s.nextId))
  }

  /** Attach: the table entry is written first, the mapping is made next, and only
      then is the segment told. A failed mapping leaves the table entry behind. */
  function Join(s: Shm, pid: nat, id: nat, vaddr: nat, mapped: bool): Shm
    requires id in s.segs
  {
    s.(procs := s.procs[pid := Insert(TableOf(s, pid), id, vaddr)],
       segs := if mapped then s.segs[id := AttachTo(s.segs[id], pid, vaddr)] else s.segs)
  }

  /** The attach call as a whole. Any id may be passed: an unknown one, or one the process
      already has attached, trips an assertion, for which None stands. */
  function Attach(s: Shm, pid: nat, id: nat, vaddr: nat, mapped: bool): Option<Shm> {
    if id !in s.segs || pid in s.segs[id].va then None else Some(Join(s, pid, id, vaddr, mapped))
  }

  function DropAddress(s: Shm, pid: nat, vaddr: nat): Shm {
    if pid !in s.procs then s
    else
      var t := RemoveValue(s.procs[pid], vaddr);
      if t.forward == map[] then s.(procs := s.procs - {pid}) else s.(procs := s.procs[pid := t])
  }

  predicate CanDetach(s: Shm, pid: nat, vaddr: nat) {
    var t := TableOf(s, pid);
    vaddr in t.reverse && t.reverse[vaddr] in s.segs && pid in s.segs[t.reverse[vaddr]].va
  }

  /** Detach by address; None stands for a failed assertion. */
  function Detach(s: Shm, pid: nat, vaddr: nat): Option<Shm> {
    if !CanDetach(s, pid, vaddr) then Some(s)
    else Leave(DropAddress(s, pid, vaddr), pid, TableOf(s, pid).reverse[vaddr])
  }

  function MarkRemoved(s: Shm, id: nat): Shm {
    if id in s.segs then s.(segs := s.segs[id := s.segs[id].(rmid := true)]) else s
  }

  /** Process exit, over its segments in the order `ids`. */
  function Exit(s: Shm, pid: nat, ids: seq<nat>): Option<Shm> {
    var r := LeaveAll(s, pid, ids);
    if r.None? then None else Some(r.value.(procs := r.value.procs - {pid}))
  }

  datatype Step =
    | GetStep(key: int, size: nat, flags: nat)
    | AttachStep(pid: nat, id: nat, vaddr: nat, mapped: bool)
    | DetachStep(pid: nat, vaddr: nat)
    | RemoveStep(id: nat)
    | ExitStep(pid: nat, ids: seq<nat>)

  /** The address search only returns a place where the process has no segment attached,
      and exit lists the segments of its table. User space may otherwise call anything. */
  ghost predicate Enabled(s: Shm, step: Step) {
    match step
    case AttachStep(pid, id, vaddr, mapped) =>
      forall x :: x in s.segs && pid in s.segs[x].va ==> s.segs[x].va[pid] != vaddr
    case ExitStep(pid, ids) => Lists(ids, TableOf(s, pid).forward.Keys)
    case _ => true
  }

  ghost function Apply(s: Shm, step: Step): Option<Shm>
    requires Enabled(s, step)
  {
    match step
    case GetStep(key, size, flags) => Some(GetSeg(s, key, size, flags).0)
    case AttachStep(pid, id, vaddr, mapped) => Attach(s, pid, id, vaddr, mapped)
    case DetachStep(pid, vaddr) => Detach(s, pid, vaddr)
    case RemoveStep(id) => Some(MarkRemoved(s, id))
    case ExitStep(pid, ids) => Exit(s, pid, ids)
  }

  ghost predicate IsRun(run: seq<Shm>, steps: seq<Step>) {
    && |run| == |steps| + 1 && run[0] == Empty
    && forall i :: 0 <= i < |steps| ==> Enabled(run[i], steps[i]) && Apply(run[i], steps[i]) == Some(run[i + 1])
  }

  // ------------------------------------------------- always, even if mapping fails

  ghost predicate TablesOk(s: Shm) {
    forall pid :: pid in s.procs ==> Inverse(s.procs[pid]) && s.procs[pid].forward != map[]
  }

  /** Whoever a segment has attached has it in its table, at that address. */
  ghost predicate Known(s: Shm) {
    forall id, pid :: Attached(s, id, pid) ==> InTable(s, pid, id, s.segs[id].va[pid])
  }

  ghost predicate Attached(s: Shm, id: nat, pid: nat) { id in s.segs && pid in s.segs[id].va }

  ghost predicate InTable(s: Shm, pid: nat, id: nat, vaddr: nat) {
    id in TableOf(s, pid).forward && TableOf(s, pid).forward[id] == vaddr
  }

  ghost predicate KeysOk(s: Shm) {
    && Inverse(s.keys) && (forall id :: id in s.segs ==> id < s.nextId)
    && (forall k :: k in s.keys.forward ==> s.keys.forward[k] in s.segs)
  }

  ghost predicate Inv(s: Shm) { KeysOk(s) && Counted(s) && TablesOk(s) && Known(s) }

  lemma GetInv(s: Shm, key: int, size: nat, flags: nat)
    requires Inv(s)
    ensures Inv(GetSeg(s, key, size, flags).0)
  {
    InsertPairs(s.keys, key, s.nextId);
    var s' := GetSeg(s, key, size, flags).0;
    forall x, p | Attached(s', x, p) ensures InTable(s', p, x, s'.segs[x].va[p]) {
      assert Attached(s, x, p) && InTable(s, p, x, s.segs[x].va[p]);
    }
  }

  lemma TableInverse(s: Shm, pid: nat)
    requires TablesOk(s)
    ensures Inverse(TableOf(s, pid))
  {
  }

  lemma AttachShape(s: Shm, pid: nat, id: nat, vaddr: nat, mapped: bool)
    requires KeysOk(s) && Counted(s) && TablesOk(s) && id in s.segs && pid !in s.segs[id].va
    ensures var s' := Join(s, pid, id, vaddr, mapped); KeysOk(s') && Counted(s') && TablesOk(s')
  {
    hide Insert, Inverse, TablesOk;
    var s' := Join(s, pid, id, vaddr, mapped);
    AttachTables(s, pid, id, vaddr, mapped);
    if mapped { assert s'.segs[id].va.Keys == s.segs[id].va.Keys + {pid}; }
  }

  lemma AttachTables(s: Shm, pid: nat, id: nat, vaddr: nat, mapped: bool)
    requires TablesOk(s) && id in s.segs
    ensures TablesOk(Join(s, pid, id, vaddr, mapped))
  {
    hide Insert, Inverse;
    TableInverse(s, pid);
    InsertPairs(TableOf(s, pid), id, vaddr);
    InsertKeeps(TableOf(s, pid), id, vaddr, id);
  }

  /** Recording one pair keeps the table's other pairs at other addresses. */
  lemma InsertKeeps(t: Bi<nat, nat>, id: nat, vaddr: nat, x: nat)
    requires Inverse(t)
    ensures id in Insert(t, id, vaddr).forward && Insert(t, id, vaddr).forward[id] == vaddr
    ensures x != id && x in t.forward && t.forward[x] != vaddr ==> x in Insert(t, id, vaddr).forward && Insert(t, id, vaddr).forward[x] == t.forward[x]
  {
  }

  lemma AttachKnown(s: Shm, pid: nat, id: nat, vaddr: nat, mapped: bool, x: nat, p: nat)
    requires Known(s) && TablesOk(s) && Enabled(s, AttachStep(pid, id, vaddr, mapped)) && id in s.segs && pid !in s.segs[id].va && Attached(Join(s, pid, id, vaddr, mapped), x, p)
    ensures var s' := Join(s, pid, id, vaddr, mapped); InTable(s', p, x, s'.segs[x].va[p])
  {
    hide Insert, TablesOk;
    TableInverse(s, pid);
    InsertKeeps(TableOf(s, pid), id, vaddr, x);
    if !(p == pid && x == id) { assert Attached(s, x, p) && InTable(s, p, x, s.segs[x].va[p]); }
  }

  lemma AttachInv(s: Shm, pid: nat, id: nat, vaddr: nat, mapped: bool)
    requires Inv(s) && Enabled(s, AttachStep(pid, id, vaddr, mapped)) && Attach(s, pid, id, vaddr, mapped).Some?
    ensures Inv(Attach(s, pid, id, vaddr, mapped).value)
  {
    hide KeysOk, Counted, TablesOk, InTable;
    var s' := Join(s, pid, id, vaddr, mapped);
    AttachShape(s, pid, id, vaddr, mapped);
    forall x, p | Attached(s', x, p) ensures InTable(s', p, x, s'.segs[x].va[p]) { AttachKnown(s, pid, id, vaddr, mapped, x, p); }
  }

  lemma DropAddressTables(s: Shm, pid: nat, vaddr: nat)
    requires TablesOk(s)
    ensures TablesOk(DropAddress(s, pid, vaddr))
    ensures forall p :: p != pid ==> TableOf(DropAddress(s, pid, vaddr), p) == TableOf(s, p)
    ensures TableOf(DropAddress(s, pid, vaddr), pid).forward == RemoveValue(TableOf(s, pid), vaddr).forward
  {
    if pid in s.procs { RemovePairs(s.procs[pid], 0, vaddr); }
  }

  lemma DetachKnown(s: Shm, s1: Shm, s': Shm, pid: nat, vaddr: nat, id: nat, x: nat, p: nat)
    requires Known(s) && TablesOk(s) && vaddr in TableOf(s, pid).reverse && TableOf(s, pid).reverse[vaddr] == id
    requires s1 == DropAddress(s, pid, vaddr) && Left(s1, s', pid, [id]) && Attached(s', x, p)
    ensures InTable(s', p, x, s'.segs[x].va[p])
  {
    hide DropAddress, Left, TablesOk;
    DropAddressTables(s, pid, vaddr);
    TableInverse(s, pid);
    StillAttached(s1, s', pid, [id], x, p);
    assert s'.procs == s1.procs && s1.segs == s.segs by { SameProcs(s, s1, s', pid, vaddr, [id]); }
    assert Attached(s, x, p) && InTable(s, p, x, s.segs[x].va[p]);
    assert x == id ==> x in [id];
  }

  lemma SameProcs(s: Shm, s1: Shm, s': Shm, pid: nat, vaddr: nat, ids: seq<nat>)
    requires s1 == DropAddress(s, pid, vaddr) && Left(s1, s', pid, ids)
    ensures s'.procs == s1.procs && s1.segs == s.segs
  {
  }

  lemma DetachInv(s: Shm, pid: nat, vaddr: nat)
    requires Inv(s)
    ensures Detach(s, pid, vaddr).Some? && Inv(Detach(s, pid, vaddr).value)
  {
    if CanDetach(s, pid, vaddr) {
      hide Left, DropAddress, TablesOk, Leave, InTable;
      var id := TableOf(s, pid).reverse[vaddr];
      var s1 := DropAddress(s, pid, vaddr);
      DropAddressTables(s, pid, vaddr);
      DropAddressRest(s, pid, vaddr);
      LeaveEffect(s1, pid, id);
      var s' := Leave(s1, pid, id).value;
      AfterLeaving(s1, s', pid, [id]);
      forall x, p | Attached(s', x, p) ensures InTable(s', p, x, s'.segs[x].va[p]) { DetachKnown(s, s1, s', pid, vaddr, id, x, p); }
    }
  }

  lemma DropAddressRest(s: Shm, pid: nat, vaddr: nat)
    ensures var s1 := DropAddress(s, pid, vaddr); s1.segs == s.segs && s1.keys == s.keys && s1.nextId == s.nextId
  {
  }

  /** Who is attached after leaving was attached before, to a segment kept. */
  lemma StillAttached(s: Shm, s': Shm, pid: nat, ids: seq<nat>, x: nat, p: nat)
    requires Left(s, s', pid, ids) && Attached(s', x, p)
    ensures Attached(s, x, p) && s'.segs[x].va[p] == s.segs[x].va[p] && (x in ids ==> p != pid)
  {
  }

  lemma AfterLeaving(s: Shm, s': Shm, pid: nat, ids: seq<nat>)
    requires KeysOk(s) && TablesOk(s) && Left(s, s', pid, ids) && Inverse(s'.keys)
    ensures KeysOk(s') && TablesOk(s')
  {
  }

  lemma ExitInv(s: Shm, pid: nat, ids: seq<nat>)
    requires Inv(s) && Lists(ids, TableOf(s, pid).forward.Keys) && Exit(s, pid, ids).Some?
    ensures Inv(Exit(s, pid, ids).value)
  {
    hide Left, LeaveAll, Inverse, Stale;
    LeaveAllIff(s, pid, ids);
    var s1 := LeaveAll(s, pid, ids).value;
    var s' := Exit(s, pid, ids).value;
    AfterLeaving(s, s1, pid, ids);
    SameTables(s, s1, pid, ids);
    forall x, p | Attached(s', x, p)
      ensures InTable(s', p, x, s'.segs[x].va[p])
    {
      StillAttached(s, s1, pid, ids, x, p);
      assert Attached(s, x, p) && InTable(s, p, x, s.segs[x].va[p]);
    }
  }

  lemma SameTables(s: Shm, s': Shm, pid: nat, ids: seq<nat>)
    requires Left(s, s', pid, ids)
    ensures s'.procs == s.procs
  {
  }

  lemma StepInv(s: Shm, step: Step)
    requires Inv(s) && Enabled(s, step) && Apply(s, step).Some?
    ensures Inv(Apply(s, step).value)
  {
    hide Inv;
    match step {
      case GetStep(key, size, flags) => GetInv(s, key, size, flags);
      case AttachStep(pid, id, vaddr, mapped) => AttachInv(s, pid, id, vaddr, mapped);
      case DetachStep(pid, vaddr) => DetachInv(s, pid, vaddr);
      case RemoveStep(id) => MarkInv(s, id);
      case ExitStep(pid, ids) => ExitInv(s, pid, ids);
    }
  }

  lemma MarkInv(s: Shm, id: nat)
    requires Inv(s)
    ensures Inv(MarkRemoved(s, id))
  {
    var s' := MarkRemoved(s, id);
    forall x, p | Attached(s', x, p) ensures InTable(s', p, x, s'.segs[x].va[p]) {
      assert Attached(s, x, p) && InTable(s, p, x, s.segs[x].va[p]);
    }
  }

  lemma {:induction false} RunInv(run: seq<Shm>, steps: seq<Step>, i: nat)
    requires IsRun(run, steps) && i < |run|
    ensures Inv(run[i])
  {
    hide Enabled, Apply;
    if i > 0 {
      RunInv(run, steps, i - 1);
      assert Apply(run[i - 1], steps[i - 1]) == Some(run[(i - 1) + 1]);
      StepInv(run[i - 1], steps[i - 1]);
    }
  }

  // -------------------------------------------------------------------- exiting

  /** In every run, whatever mappings failed, exit trips the assertion if and only if
      the exiting process has a table entry for an existing segment that does not have
      it attached. */
  lemma ExitTripsIff(run: seq<Shm>, steps: seq<Step>, i: nat, pid: nat, ids: seq<nat>)
    requires IsRun(run, steps) && i < |run| && Lists(ids, TableOf(run[i], pid).forward.Keys)
    ensures Exit(run[i], pid, ids).None? <==> exists id :: id in TableOf(run[i], pid).forward && Stale(run[i], pid, id)
  {
    hide Enabled, Apply, Left;
    RunInv(run, steps, i);
    LeaveAllIff(run[i], pid, ids);
    assert forall id :: id in ids <==> id in TableOf(run[i], pid).forward.Keys;
  }

  /** A completed exit detaches the process from every segment, leaves all other
      attachments alone, and deletes, with their keys, exactly the segments marked for
      removal that only this process had. */
  lemma ExitEffect(run: seq<Shm>, steps: seq<Step>, i: nat, pid: nat, ids: seq<nat>, id: nat)
    requires IsRun(run, steps) && i < |run| && Lists(ids, TableOf(run[i], pid).forward.Keys) && Exit(run[i], pid, ids).Some?
    ensures var s := run[i]; var s' := Exit(s, pid, ids).value;
      && pid !in s'.procs && (forall p :: p != pid ==> TableOf(s', p) == TableOf(s, p))
      && !Attached(s', id, pid)
      && (forall p :: p != pid && id in s'.segs ==> id in s.segs && (Attached(s', id, p) <==> Attached(s, id, p)))
      && (id in s.segs && id !in s'.segs <==> id in s.segs && id in TableOf(s, pid).forward && s.segs[id].rmid && s.segs[id].va.Keys <= {pid})
      && (forall k :: k in s.keys.forward ==> (k in s'.keys.forward <==> s.keys.forward[k] in s'.segs))
  {
    hide Enabled, Apply;
    RunInv(run, steps, i);
    var s := run[i];
    LeaveAllIff(s, pid, ids);
    assert id in ids <==> id in TableOf(s, pid).forward.Keys;
    if id in s.segs && pid in s.segs[id].va { assert Attached(s, id, pid) && InTable(s, pid, id, s.segs[id].va[pid]); }
  }

  // ----------------------------------------------------- when every mapping succeeds

  ghost predicate Coupled(s: Shm) {
    forall pid, id :: id in TableOf(s, pid).forward ==> Attached(s, id, pid)
  }

  ghost predicate AllMapped(steps: seq<Step>) { forall i :: 0 <= i < |steps| && steps[i].AttachStep? ==> steps[i].mapped }

  lemma InsertOnly(t: Bi<nat, nat>, id: nat, vaddr: nat, x: nat)
    requires x in Insert(t, id, vaddr).forward
    ensures x == id || x in t.forward
  {
  }

  lemma StepCoupled(s: Shm, step: Step)
    requires Inv(s) && Coupled(s) && Enabled(s, step) && Apply(s, step).Some? && (step.AttachStep? ==> step.mapped)
    ensures Coupled(Apply(s, step).value)
  {
    hide Inv, Insert, Leave, LeaveAll, Left, RemoveValue, Lists;
    var s' := Apply(s, step).value;
    forall p, x | x in TableOf(s', p).forward ensures Attached(s', x, p) {
      match step {
        case GetStep(key, size, flags) => assert Attached(s, x, p); FreshId(s);
        case AttachStep(pid, id, vaddr, mapped) =>
          if p == pid { InsertOnly(TableOf(s, pid), id, vaddr, x); }
          if !(p == pid && x == id) { assert Attached(s, x, p); }
        case DetachStep(pid, vaddr) => DetachCoupled(s, pid, vaddr, x, p);
        case RemoveStep(id) => assert Attached(s, x, p);
        case ExitStep(pid, ids) => ExitCoupled(s, pid, ids, x, p);
      }
    }
  }

  lemma FreshId(s: Shm)
    requires Inv(s)
    ensures s.nextId !in s.segs
  {
  }

  lemma LeftKeeps(s: Shm, s': Shm, pid: nat, ids: seq<nat>, x: nat, p: nat)
    requires Left(s, s', pid, ids) && Attached(s, x, p) && (p != pid || x !in ids)
    ensures Attached(s', x, p)
  {
  }

  lemma DetachCoupled(s: Shm, pid: nat, vaddr: nat, x: nat, p: nat)
    requires Inv(s) && Coupled(s) && Detach(s, pid, vaddr).Some? && x in TableOf(Detach(s, pid, vaddr).value, p).forward
    ensures Attached(Detach(s, pid, vaddr).value, x, p)
  {
    if CanDetach(s, pid, vaddr) {
      hide Left, Leave;
      var id := TableOf(s, pid).reverse[vaddr];
      var s1 := DropAddress(s, pid, vaddr);
      DropAddressRest(s, pid, vaddr);
      DropAddressTables(s, pid, vaddr);
      LeaveEffect(s1, pid, id);
      var s' := Leave(s1, pid, id).value;
      SameProcs(s, s1, s', pid, vaddr, [id]);
      assert x in TableOf(s, p).forward;
      assert Attached(s, x, p) && Attached(s1, x, p);
      LeftKeeps(s1, s', pid, [id], x, p);
    } else {
      assert Attached(s, x, p);
    }
  }

  lemma ExitCoupled(s: Shm, pid: nat, ids: seq<nat>, x: nat, p: nat)
    requires Inv(s) && Coupled(s) && Lists(ids, TableOf(s, pid).forward.Keys) && Exit(s, pid, ids).Some?
    requires x in TableOf(Exit(s, pid, ids).value, p).forward
    ensures Attached(Exit(s, pid, ids).value, x, p)
  {
    LeaveAllIff(s, pid, ids);
    var s1 := LeaveAll(s, pid, ids).value;
    assert p != pid && x in TableOf(s, p).forward;
    assert Attached(s, x, p);
    LeftKeeps(s, s1, pid, ids, x, p);
  }

  lemma {:induction false} PairedRunsCoupled(run: seq<Shm>, steps: seq<Step>, i: nat)
    requires IsRun(run, steps) && AllMapped(steps) && i < |run|
    ensures Coupled(run[i])
  {
    hide Enabled, Apply, Inv, Coupled;
    if i == 0 { EmptyCoupled(); } else {
      PairedRunsCoupled(run, steps, i - 1);
      RunInv(run, steps, i - 1);
      assert Apply(run[i - 1], steps[i - 1]) == Some(run[(i - 1) + 1]);
      StepCoupled(run[i - 1], steps[i - 1]);
    }
  }

  lemma EmptyCoupled()
    ensures Coupled(Empty)
  {
  }

  /** When every mapping succeeds, process tables and segments agree on who has what
      where, counts equal attachments, and exit never trips its assertion. */
  lemma TablesAgree(run: seq<Shm>, steps: seq<Step>, i: nat, pid: nat, id: nat)
    requires IsRun(run, steps) && AllMapped(steps) && i < |run|
    ensures id in TableOf(run[i], pid).forward <==> Attached(run[i], id, pid)
    ensures Attached(run[i], id, pid) ==> TableOf(run[i], pid).forward[id] == run[i].segs[id].va[pid]
    ensures id in run[i].segs ==> run[i].segs[id].nattch == |run[i].segs[id].va|
    ensures forall ids :: Lists(ids, TableOf(run[i], pid).forward.Keys) ==> Exit(run[i], pid, ids).Some?
  {
    hide Enabled, Apply, Lists;
    PairedRunsCoupled(run, steps, i);
    RunInv(run, steps, i);
    if Attached(run[i], id, pid) { assert InTable(run[i], pid, id, run[i].segs[id].va[pid]); }
    forall ids | Lists(ids, TableOf(run[i], pid).forward.Keys) ensures Exit(run[i], pid, ids).Some? {
      ExitTripsIff(run, steps, i, pid, ids);
      assert forall x :: x in TableOf(run[i], pid).forward ==> Attached(run[i], x, pid);
    }
  }

  /** Attaching trips its assertion exactly for an unknown id or one the process's own
      table already holds. */
  lemma AttachTripsIff(run: seq<Shm>, steps: seq<Step>, i: nat, pid: nat, id: nat, vaddr: nat, mapped: bool)
    requires IsRun(run, steps) && AllMapped(steps) && i < |run|
    ensures Attach(run[i], pid, id, vaddr, mapped).None? <==> id !in run[i].segs || id in TableOf(run[i], pid).forward
  {
    hide Enabled, Apply, IsRun;
    TablesAgree(run, steps, i, pid, id);
  }

  /** One failed mapping is enough: the process then cannot exit. */
  lemma FailedMappingTrips() returns (run: seq<Shm>, steps: seq<Step>)
    ensures IsRun(run, steps) && |steps| == 2 && steps[1] == AttachStep(7, 0, 4096, false)
    ensures Lists([0], TableOf(run[2], 7).forward.Keys) && Exit(run[2], 7, [0]).None?
  {
    steps := [GetStep(5, 4096, 6), AttachStep(7, 0, 4096, false)];
    var a := GetSeg(Empty, 5, 4096, 6).0;
    var b := Join(a, 7, 0, 4096, false);
    run := [Empty, a, b];
    assert TableOf(b, 7).forward == map[0 := 4096];
  }
}
