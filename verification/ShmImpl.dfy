/** The manager as an object whose maps are updated in place. */
module ShmImpl {
  import opened BiMap
  import opened Options
  import opened ShmSpec
  import opened ShmRuns

  class ShmManager {
    var keys: Bi<int, nat>
    var segs: map<nat, Seg>
    var procs: map<nat, Bi<nat, nat>>
    var nextId: nat

    ghost function View(): Shm
      reads this
    {
      Shm(keys, segs, procs, nextId)
    }

    constructor ()
      ensures View() == Empty
    {
      keys, segs, procs, nextId := Bi(map[], map[]), map[], map[], 0;
    }

    method Get(key: int, size: nat, flags: nat) returns (id: Option<nat>)
      modifies this
      ensures (View(), id) == GetSeg(old(View()), key, size, flags)
    {
      if size == 0 {
        return None;
      }
      if key != IPC_PRIVATE && key in keys.forward {
        var found := keys.forward[key];
        if found !in segs || segs[found].size != size || segs[found].flags != flags {
          return None;
        }
        return Some(found);
      }
      id := Some(nextId);
      keys := Insert(keys, key, nextId);
      segs := segs[nextId := Seg(size, flags, map[], false, 0)];
      nextId := nextId + 1;
    }

    method InsertShmidVaddr(pid: nat, id: nat, vaddr: nat)
      modifies this`procs
      ensures procs == old(procs)[pid := Insert(TableOf(old(View()), pid), id, vaddr)]
    {
      var table := if pid in procs then procs[pid] else NoTable;
      procs := procs[pid := Insert(table, id, vaddr)];
    }

    /** Attach at a free address; `mapped` is whether the address space took the mapping.
        False stands for a failed assertion. */
    method AttachProcess(pid: nat, id: nat, vaddr: nat, mapped: bool) returns (ok: bool)
      modifies this
      ensures ok <==> Attach(old(View()), pid, id, vaddr, mapped).Some?
      ensures View() == if ok then Attach(old(View()), pid, id, vaddr, mapped).value else old(View())
    {
      if id !in segs || pid in segs[id].va {
        return false;
      }
      InsertShmidVaddr(pid, id, vaddr);
      if mapped {
        segs := segs[id := AttachTo(segs[id], pid, vaddr)];
      }
      return true;
    }

    method RemoveShmaddr(pid: nat, vaddr: nat)
      modifies this`procs
      ensures View() == DropAddress(old(View()), pid, vaddr)
    {
      var empty := false;
      if pid in procs {
        procs := procs[pid := RemoveValue(procs[pid], vaddr)];
        empty := procs[pid].forward == map[];
      }
      if empty {
        procs := procs - {pid};
      }
    }

    /** Detach from one segment; false stands for the failed assertion. */
    method DetachSegment(pid: nat, id: nat) returns (ok: bool)
      modifies this
      ensures ok <==> Leave(old(View()), pid, id).Some?
      ensures View() == if ok then Leave(old(View()), pid, id).value else old(View())
    {
      if id !in segs {
        return true;
      }
      if pid !in segs[id].va || segs[id].nattch == 0 {
        return false;
      }
      segs := segs[id := DetachFrom(segs[id], pid)];
      if segs[id].rmid && segs[id].va == map[] {
        keys := RemoveValue(keys, id);
        segs := segs - {id};
      }
      return true;
    }

    method DetachAddress(pid: nat, vaddr: nat) returns (ok: bool, found: bool)
      modifies this
      ensures ok <==> Detach(old(View()), pid, vaddr).Some?
      ensures ok ==> View() == Detach(old(View()), pid, vaddr).value
      ensures found <==> CanDetach(old(View()), pid, vaddr)
    {
      var table := if pid in procs then procs[pid] else NoTable;
      if vaddr !in table.reverse {
        return true, false;
      }
      var id := table.reverse[vaddr];
      if id !in segs || pid !in segs[id].va {
        return true, false;
      }
      RemoveShmaddr(pid, vaddr);
      ok := DetachSegment(pid, id);
      found := true;
    }

    method ShmidsOf(pid: nat) returns (ids: seq<nat>)
      ensures Lists(ids, TableOf(View(), pid).forward.Keys)
    {
      var todo := if pid in procs then procs[pid].forward.Keys else {};
      ids := [];
      while todo != {}
        invariant todo <= TableOf(View(), pid).forward.Keys
        invariant Lists(ids, TableOf(View(), pid).forward.Keys - todo)
        decreases |todo|
      {
        var id: nat :| id in todo;
        ids, todo := ids + [id], todo - {id};
      }
    }

    /** Leave every segment of an exiting process; false stands for the failed assertion. */
    method ClearProcShm(pid: nat) returns (ok: bool, ghost ids: seq<nat>)
      modifies this
      ensures Lists(ids, TableOf(old(View()), pid).forward.Keys)
      ensures ok <==> Exit(old(View()), pid, ids).Some?
      ensures ok ==> View() == Exit(old(View()), pid, ids).value
    {
      hide Leave, Lists;
      var listed := ShmidsOf(pid);
      ids := listed;
      for i := 0 to |listed|
        invariant LeaveAll(old(View()), pid, listed) == LeaveAll(View(), pid, listed[i..])
      {
        assert listed[i..][0] == listed[i] && listed[i..][1..] == listed[i + 1..];
        ok := DetachSegment(pid, listed[i]);
        if !ok {
          return;
        }
      }
      procs := procs - {pid};
      ok := true;
    }
  }
}
