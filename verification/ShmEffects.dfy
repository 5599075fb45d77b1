/** What each shared-memory call changes, and what it leaves alone. */
module ShmEffects {
  import opened BiMap
  import opened Options
  import opened ShmSpec
  import opened ShmRuns

  // ------------------------------------------------------------------ naming segments

  /** A get is refused, finds the segment the key names, or creates an empty one under a
      fresh id; finding and refusing change nothing. */
  lemma GetEffect(s: Shm, key: int, size: nat, flags: nat)
    requires Inv(s)
    ensures var (s', r) := GetSeg(s, key, size, flags);
      if size == 0 then s' == s && r == None
      else if key != 0 && key in s.keys.forward then
        var id := s.keys.forward[key];
        s' == s && id in s.segs && r == if s.segs[id].size == size && s.segs[id].flags == flags then Some(id) else None
      else
        && r.Some? && r.value !in s.segs && s'.segs == s.segs[r.value := Seg(size, flags, map[], false, 0)] && s'.procs == s.procs
        && key in s'.keys.forward && s'.keys.forward[key] == r.value
        && forall k :: k != key ==> (k in s'.keys.forward <==> k in s.keys.forward) && (k in s.keys.forward ==> s'.keys.forward[k] == s.keys.forward[k])
  {
  }

  /** While a segment exists its key, other than the private one, its size and its flags
      stay. */
  ghost predicate Names(s: Shm, key: int, id: nat, size: nat, flags: nat) {
    && id < s.nextId
    && (id in s.segs ==> key in s.keys.forward && s.keys.forward[key] == id && s.segs[id].size == size && s.segs[id].flags == flags)
  }

  lemma LeftNames(s: Shm, s': Shm, pid: nat, ids: seq<nat>, key: int, id: nat, size: nat, flags: nat)
    requires Names(s, key, id, size, flags) && Left(s, s', pid, ids)
    ensures Names(s', key, id, size, flags)
  {
  }

  lemma StepNames(s: Shm, step: Step, key: int, id: nat, size: nat, flags: nat)
    requires Inv(s) && Enabled(s, step) && Apply(s, step).Some? && key != IPC_PRIVATE && Names(s, key, id, size, flags)
    ensures Names(Apply(s, step).value, key, id, size, flags)
  {
    hide TablesOk, Known, Left, LeaveAll, Leave, Lists;
    match step {
      case DetachStep(pid, vaddr) =>
        if CanDetach(s, pid, vaddr) {
          var s1 := DropAddress(s, pid, vaddr);
          var x := TableOf(s, pid).reverse[vaddr];
          DropAddressRest(s, pid, vaddr);
          LeaveEffect(s1, pid, x);
          LeftNames(s1, Leave(s1, pid, x).value, pid, [x], key, id, size, flags);
        }
      case ExitStep(pid, ids) =>
        ExitListed(s, pid, ids);
        LeaveAllIff(s, pid, ids);
        LeftNames(s, LeaveAll(s, pid, ids).value, pid, ids, key, id, size, flags);
      case _ =>
    }
  }

  lemma ExitListed(s: Shm, pid: nat, ids: seq<nat>)
    requires Enabled(s, ExitStep(pid, ids))
    ensures forall i, j :: 0 <= i < j < |ids| ==> ids[i] != ids[j]
  {
  }

  lemma {:induction false} NamesStay(run: seq<Shm>, steps: seq<Step>, i: nat, j: nat, key: int, id: nat, size: nat, flags: nat)
    requires IsRun(run, steps) && i <= j < |run| && key != IPC_PRIVATE && Names(run[i], key, id, size, flags)
    ensures Names(run[j], key, id, size, flags)
    decreases j - i
  {
    hide Enabled, Apply, Inv, Names;
    if i < j {
      NamesStay(run, steps, i, j - 1, key, id, size, flags);
      RunInv(run, steps, j - 1);
      assert Apply(run[j - 1], steps[j - 1]) == Some(run[(j - 1) + 1]);
      StepNames(run[j - 1], steps[j - 1], key, id, size, flags);
    }
  }

  /** One key, one segment, over every run: once a get has returned a segment, every later
      get with the same key, size and flags returns it again, for as long as it exists. */
  lemma SameKeySameSegment(run: seq<Shm>, steps: seq<Step>, i: nat, j: nat, key: int, size: nat, flags: nat)
    requires IsRun(run, steps) && i < |steps| && steps[i] == GetStep(key, size, flags) && i < j < |run|
    requires key != IPC_PRIVATE && GetSeg(run[i], key, size, flags).1.Some?
    ensures var id := GetSeg(run[i], key, size, flags).1.value;
      id in run[j].segs ==> GetSeg(run[j], key, size, flags) == (run[j], Some(id))
  {
    hide Enabled, Inv;
    RunInv(run, steps, i);
    GetEffect(run[i], key, size, flags);
    var id := GetSeg(run[i], key, size, flags).1.value;
    assert Apply(run[i], steps[i]) == Some(run[i + 1]);
    assert Names(run[i + 1], key, id, size, flags) by { GetNames(run[i], key, size, flags); }
    NamesStay(run, steps, i + 1, j, key, id, size, flags);
  }

  lemma GetNames(s: Shm, key: int, size: nat, flags: nat)
    requires Inv(s) && key != IPC_PRIVATE && GetSeg(s, key, size, flags).1.Some?
    ensures Names(GetSeg(s, key, size, flags).0, key, GetSeg(s, key, size, flags).1.value, size, flags)
  {
  }

  // --------------------------------------------------------- attaching and detaching

  /** An attach records the address in the process's table and, if the mapping was made, in
      the segment, counted once; it touches no other segment, table or key. */
  lemma AttachEffect(s: Shm, pid: nat, id: nat, vaddr: nat, mapped: bool)
    requires Inv(s) && Attach(s, pid, id, vaddr, mapped).Some?
    ensures var s' := Attach(s, pid, id, vaddr, mapped).value;
      && s'.keys == s.keys && s'.segs.Keys == s.segs.Keys && (forall x :: x in s.segs && x != id ==> s'.segs[x] == s.segs[x])
      && id in s.segs && s'.segs[id].rmid == s.segs[id].rmid && s'.segs[id].nattch == s.segs[id].nattch + (if mapped then 1 else 0)
      && (forall p :: Attached(s', id, p) <==> Attached(s, id, p) || (p == pid && mapped))
      && (mapped ==> s'.segs[id].va[pid] == vaddr) && (forall p :: p in s.segs[id].va ==> s'.segs[id].va[p] == s.segs[id].va[p])
      && InTable(s', pid, id, vaddr) && forall p :: p != pid ==> TableOf(s', p) == TableOf(s, p)
  {
  }

  lemma InsertRemove(t: Bi<nat, nat>, id: nat, vaddr: nat)
    requires id !in t.forward && vaddr !in t.reverse
    ensures RemoveValue(Insert(t, id, vaddr), vaddr) == t && vaddr in Insert(t, id, vaddr).reverse && Insert(t, id, vaddr).reverse[vaddr] == id
  {
    assert RemoveValue(Insert(t, id, vaddr), vaddr).forward == t.forward;
    assert RemoveValue(Insert(t, id, vaddr), vaddr).reverse == t.reverse;
  }

  /** A detach undoes the attach: the state is the one before, unless the segment was
      marked for removal and is nobody else's, which deletes it. */
  lemma DetachUndoesAttach(s: Shm, pid: nat, id: nat, vaddr: nat)
    requires Inv(s) && Attach(s, pid, id, vaddr, true).Some?
    requires id !in TableOf(s, pid).forward && vaddr !in TableOf(s, pid).reverse
    ensures var s1 := Attach(s, pid, id, vaddr, true).value;
      Detach(s1, pid, vaddr) == Some(if s.segs[id].rmid && s.segs[id].va == map[] then RemoveSeg(s, id) else s)
  {
    hide Inv, Insert, RemoveValue, DropAddress, Leave;
    var s1 := Attach(s, pid, id, vaddr, true).value;
    InsertRemove(TableOf(s, pid), id, vaddr);
    DropBack(s, pid, id, vaddr);
    LeaveBack(s, pid, id, vaddr);
  }

  lemma DropBack(s: Shm, pid: nat, id: nat, vaddr: nat)
    requires Inv(s) && id in s.segs && id !in TableOf(s, pid).forward && vaddr !in TableOf(s, pid).reverse
    ensures DropAddress(Join(s, pid, id, vaddr, true), pid, vaddr) == s.(segs := s.segs[id := AttachTo(s.segs[id], pid, vaddr)])
  {
    hide Inv, Insert, RemoveValue;
    InsertRemove(TableOf(s, pid), id, vaddr);
    TableBack(s, pid, TableOf(s, pid));
    if pid in s.procs {
      assert s.procs[pid := Insert(TableOf(s, pid), id, vaddr)][pid := s.procs[pid]] == s.procs;
    } else {
      assert s.procs[pid := Insert(TableOf(s, pid), id, vaddr)] - {pid} == s.procs;
    }
  }

  lemma LeaveBack(s: Shm, pid: nat, id: nat, vaddr: nat)
    requires id in s.segs && pid !in s.segs[id].va
    ensures Leave(s.(segs := s.segs[id := AttachTo(s.segs[id], pid, vaddr)]), pid, id)
      == Some(if s.segs[id].rmid && s.segs[id].va == map[] then RemoveSeg(s, id) else s)
  {
    hide RemoveValue;
    SegBack(s.segs[id], pid, vaddr);
    assert s.segs[id := AttachTo(s.segs[id], pid, vaddr)][id := s.segs[id]] == s.segs;
  }

  lemma TableBack(s: Shm, pid: nat, t: Bi<nat, nat>)
    requires Inv(s) && t == TableOf(s, pid)
    ensures t.forward == map[] ==> pid !in s.procs
    ensures pid in s.procs ==> s.procs[pid] == t && t.forward != map[]
  {
  }

  lemma SegBack(g: Seg, pid: nat, vaddr: nat)
    requires pid !in g.va
    ensures DetachFrom(AttachTo(g, pid, vaddr), pid) == g
  {
    assert g.va[pid := vaddr] - {pid} == g.va;
  }

  /** Marking for removal marks that segment and deletes nothing. */
  lemma MarkEffect(s: Shm, id: nat)
    ensures var s' := MarkRemoved(s, id);
      && s'.keys == s.keys && s'.procs == s.procs && s'.segs.Keys == s.segs.Keys
      && forall x :: x in s.segs ==> s'.segs[x] == if x == id then s.segs[x].(rmid := true) else s.segs[x]
  {
  }
}
