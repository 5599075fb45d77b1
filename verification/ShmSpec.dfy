/** Shared-memory segments, the keys that name them, and who has them attached where. */
module ShmSpec {
  import opened BiMap
  import opened Options

  const IPC_PRIVATE: int := 0

  datatype Seg = Seg(size: nat, flags: nat, va: map<nat, nat>, rmid: bool, nattch: nat)

  /** `procs` maps a process to its segment-address table. */
  datatype Shm = Shm(keys: Bi<int, nat>, segs: map<nat, Seg>, procs: map<nat, Bi<nat, nat>>, nextId: nat)

  const NoTable: Bi<nat, nat> := Bi(map[], map[])
  const Empty := Shm(Bi(map[], map[]), map[], map[], 0)

  function TableOf(s: Shm, pid: nat): Bi<nat, nat> { if pid in s.procs then s.procs[pid] else NoTable }

  function AttachTo(g: Seg, pid: nat, vaddr: nat): Seg { g.(va := g.va[pid := vaddr], nattch := g.nattch + 1) }

  function DetachFrom(g: Seg, pid: nat): Seg
    requires g.nattch > 0
  {
    g.(va := g.va - {pid}, nattch := g.nattch - 1)
  }

  function RemoveSeg(s: Shm, id: nat): Shm { s.(keys := RemoveValue(s.keys, id), segs := s.segs - {id}) }

  /** Detach `pid` from an existing segment; the last detach of a segment marked for
      removal deletes it. None stands for the failed assertion. */
  function Leave(s: Shm, pid: nat, id: nat): Option<Shm> {
    if id !in s.segs then Some(s)
    else if pid !in s.segs[id].va || s.segs[id].nattch == 0 then None
    else
      var g := DetachFrom(s.segs[id], pid);
      var s1 := s.(segs := s.segs[id := g]);
      Some(if g.rmid && g.va == map[] then RemoveSeg(s1, id) else s1)
  }

  function LeaveAll(s: Shm, pid: nat, ids: seq<nat>): Option<Shm>
    decreases |ids|
  {
    if ids == [] then Some(s)
    else
      var r := Leave(s, pid, ids[0]);
      if r.None? then None else LeaveAll(r.value, pid, ids[1..])
  }

  ghost predicate Lists(ids: seq<nat>, keys: set<nat>) {
    && (forall i, j :: 0 <= i < j < |ids| ==> ids[i] != ids[j])
    && (forall id :: id in ids <==> id in keys)
  }

  // ----------------------------------------------------------------- one process

  /** A table entry of `pid` whose segment exists but does not know `pid`. */
  ghost predicate Stale(s: Shm, pid: nat, id: nat) { id in s.segs && pid !in s.segs[id].va }

  ghost predicate Counted(s: Shm) { forall id :: id in s.segs ==> s.segs[id].nattch == |s.segs[id].va| }

  /** What leaving every listed segment must produce. */
  ghost predicate Left(s: Shm, s': Shm, pid: nat, ids: seq<nat>) {
    && s'.procs == s.procs && s'.nextId == s.nextId
    && (forall id :: id in s'.segs <==> id in s.segs && !(id in ids && s.segs[id].rmid && s.segs[id].va.Keys <= {pid}))
    && (forall id :: id in s'.segs && id !in ids ==> s'.segs[id] == s.segs[id])
    && (forall id :: id in s'.segs && id in ids ==>
          pid in s.segs[id].va && s.segs[id].nattch > 0 && s'.segs[id] == DetachFrom(s.segs[id], pid))
    && (forall k :: k in s'.keys.forward <==> k in s.keys.forward && (s.keys.forward[k] in s.segs ==> s.keys.forward[k] in s'.segs))
    && (forall k :: k in s'.keys.forward ==> s'.keys.forward[k] == s.keys.forward[k])
  }

  lemma LeaveEffect(s: Shm, pid: nat, id: nat)
    requires Inverse(s.keys) && Counted(s) && !Stale(s, pid, id)
    ensures Leave(s, pid, id).Some?
    ensures var s' := Leave(s, pid, id).value; Inverse(s'.keys) && Counted(s') && Left(s, s', pid, [id])
  {
    assert forall x :: x in [id] <==> x == id;
    if id in s.segs {
      var g := s.segs[id];
      assert pid in g.va.Keys && |g.va| == |g.va.Keys| && |g.va.Keys| > 0;
      var g' := DetachFrom(g, pid);
      assert g'.va.Keys == g.va.Keys - {pid};
      assert |g'.va| == |g'.va.Keys| == |g.va| - 1;
      assert g'.va == map[] <==> g.va.Keys <= {pid};
      RemovePairs(s.keys, 0, id);
    }
  }

  lemma LeftCompose(s: Shm, s1: Shm, s2: Shm, pid: nat, ids: seq<nat>)
    requires ids != [] && Left(s, s1, pid, [ids[0]]) && Left(s1, s2, pid, ids[1..]) && ids[0] !in ids[1..]
    ensures Left(s, s2, pid, ids)
  {
    assert forall x :: x in ids <==> x == ids[0] || x in ids[1..];
    assert forall x :: x in [ids[0]] <==> x == ids[0];
  }

  /** Leaving the listed segments trips the assertion exactly when one of them has no
      record of the process; otherwise it detaches from each listed segment and from
      no other, and deletes exactly those marked for removal that nobody else has. */
  lemma {:induction false} LeaveAllIff(s: Shm, pid: nat, ids: seq<nat>)
    requires Inverse(s.keys) && Counted(s) && forall i, j :: 0 <= i < j < |ids| ==> ids[i] != ids[j]
    ensures LeaveAll(s, pid, ids).None? <==> exists id :: id in ids && Stale(s, pid, id)
    ensures LeaveAll(s, pid, ids).Some? ==>
      Left(s, LeaveAll(s, pid, ids).value, pid, ids) && Inverse(LeaveAll(s, pid, ids).value.keys) && Counted(LeaveAll(s, pid, ids).value)
    decreases |ids|
  {
    hide Inverse, Counted;
    if ids == [] {
    } else if Stale(s, pid, ids[0]) {
      assert ids[0] in ids && Leave(s, pid, ids[0]).None?;
    } else {
      hide Leave;
      LeaveEffect(s, pid, ids[0]);
      var s1 := Leave(s, pid, ids[0]).value;
      LeaveAllIff(s1, pid, ids[1..]);
      assert forall id :: id in ids <==> id == ids[0] || id in ids[1..];
      assert forall id :: id in ids[1..] ==> (Stale(s1, pid, id) <==> Stale(s, pid, id)) by {
        forall id | id in ids[1..] ensures Stale(s1, pid, id) <==> Stale(s, pid, id) { assert id !in [ids[0]]; }
      }
      if LeaveAll(s1, pid, ids[1..]).Some? { LeftCompose(s, s1, LeaveAll(s1, pid, ids[1..]).value, pid, ids); }
    }
  }
}
