/** What the reference counting and sweeping of futex tables guarantees. */
module FutexTheorems {
  import opened FutexQueue
  import opened FutexStoreSpec
  import opened FutexProofs

  /** The whole wake path: look the table up (which may sweep), get the entry if
      there is one, wake on it. */
  function WakeAt(s: Store, tk: TableKey, key: nat, count: nat, mask: bv32): Store
    requires DirOk(s)
  {
    var s1 := Lookup(s, tk);
    var s2 := if LiveHandle(s1, s.nextId) then Get(s1, s.nextId, key) else s1;
    if s2 != s1 && LiveGuard(s2, s1.nextId) then Wake(s2, s1.nextId, count, mask) else s2
  }

  lemma TickKeeps(s: Store, tk: TableKey, e: nat)
    requires DirOk(s) && EntryOk(s, e) && TableOk(s, s.entries[e].table) && s.tables[s.entries[e].table].home == tk
    ensures var s1 := Tick(s, tk); var t := s.entries[e].table;
      tk in s1.dir && s1.dir[tk] == t && t in s1.tables && s1.tables[t] == s.tables[t]
      && s1.entries == s.entries && s1.nextId == s.nextId && s1.woken == s.woken && s1.guards == s.guards && s1.handles == s.handles
  {
    var t := s.entries[e].table;
    assert Survives(s.tables[t]);
  }

  /** A later wake for the same address, even one whose lookup sweeps the
      directory, finds the queue the waiters stand in and wakes the first
      matching ones; nobody else is disturbed. */
  lemma WakeReaches(s: Store, e: nat, tk: TableKey, key: nat, count: nat, mask: bv32)
    requires Inv(s) && Lives(s, e, tk, key)
    ensures var s' := WakeAt(s, tk, key, count, mask); var q := s.entries[e].queue;
      && s'.woken == s.woken + Ids(Woken(q, count, mask))
      && e in s'.entries && s'.entries[e].queue == Kept(q, count, mask)
      && forall x :: x in s.entries && x != e ==> x in s'.entries && s'.entries[x] == s.entries[x]
  {
    hide WaitersOk, Kept, Woken, Ids, HandleOk, GuardOk, TransitOk, TableOk, SlotsOk, Tick;
    assert EntryOk(s, e) && TableOk(s, s.entries[e].table);
    TickKeeps(s, tk, e);
  }

  /** Who a wake takes, by position: the waiter at `k` if it matches and fewer than
      `count` matching ones stand before it. */
  lemma {:induction false} WokenAt(q: seq<Waiter>, count: nat, mask: bv32, k: nat)
    requires UniqueIds(q) && k < |q|
    ensures HasId(Woken(q, count, mask), q[k].id) <==> Matches(q[k], mask) && |Matching(q[..k], mask)| < count
    ensures HasId(Woken(q, count, mask), q[k].id) <==> SharesBit(q[k], mask) && |Sharing(q, k, mask)| < count
  {
    hide Matches, HasId, UniqueIds, SharesBit;
    MatchesIff(q[k], mask);
    MatchingCounts(q, k, mask);
    var rest := q[1..];
    assert q == [q[0]] + rest;
    UniqueAppend([q[0]], rest);
    HasOne(q[0], q[0].id);
    var taken := count > 0 && Matches(q[0], mask);
    var left: nat := if taken then count - 1 else count;
    WakeIds(rest, left, mask, q[0].id);
    HasCons(q[0], Woken(rest, left, mask), q[k].id);
    if k == 0 {
      assert q[..0] == [];
    } else {
      assert rest[k - 1] == q[k] && q[..k][1..] == rest[..k - 1] && q[..k][0] == q[0];
      WokenAt(rest, left, mask, k - 1);
      assert q[0].id != q[k].id by { if q[0].id == q[k].id { StandsAt(rest, k - 1); } }
    }
  }

  lemma StandsAt(q: seq<Waiter>, k: nat)
    requires k < |q|
    ensures HasId(q, q[k].id)
  {
  }

  /** Where a waiter is in its queue. */
  ghost predicate StandsIn(s: Store, e: nat, k: nat, id: nat) {
    e in s.entries && k < |s.entries[e].queue| && s.entries[e].queue[k].id == id
  }

  /** In every reachable state an enqueued waiter that was neither woken nor is being
      moved stands in one queue, the one any lookup of the address it was last queued or
      requeued at reaches. A wake there, even one whose lookup sweeps, wakes it exactly
      when the mask matches it and fewer than `count` matching waiters are before it. */
  lemma NoLostWaiter(run: seq<Store>, i: nat, id: nat) returns (e: nat, k: nat)
    requires IsRun(run) && i < |run|
    requires id in run[i].enqueued && id !in run[i].woken
    requires forall r :: r in run[i].transits ==> !HasId(run[i].transits[r].waiters, id)
    ensures DirOk(run[i]) && id in run[i].address && StandsIn(run[i], e, k, id)
    ensures Lives(run[i], e, run[i].address[id].home, run[i].address[id].key)
    ensures forall count: nat, mask: bv32 ::
      var a := run[i].address[id]; var q := run[i].entries[e].queue;
      id in WakeAt(run[i], a.home, a.key, count, mask).woken <==> SharesBit(q[k], mask) && |Sharing(q, k, mask)| < count
  {
    hide Next, WakeAt, HasId, TableOk, SlotsOk, HandleOk, GuardOk, TransitOk, EntryOk, SharesBit, Sharing;
    var s := run[i];
    RunInv(run, i);
    RunLocated(run, i);
    var p :| Standing(s, p, id);
    assert p.InQueue? by { if p.InTransit? { NoneInEmpty(id); } }
    NoneInEmpty(id);
    e := p.entry;
    var q := s.entries[e].queue;
    assert q == LineAt(s, p);
    k := PositionOf(q, id);
    var a := s.address[id];
    forall count: nat, mask: bv32
      ensures id in WakeAt(s, a.home, a.key, count, mask).woken <==> SharesBit(q[k], mask) && |Sharing(q, k, mask)| < count
    {
      WakeReaches(s, e, a.home, a.key, count, mask);
      WokenAt(q, count, mask, k);
      IdsAre(Woken(q, count, mask), id);
    }
  }

  lemma PositionOf(q: seq<Waiter>, id: nat) returns (k: nat)
    requires HasId(q, id)
    ensures k < |q| && q[k].id == id
  {
    k :| k < |q| && q[k].id == id;
  }

  /** Some wake at its address wakes a queued waiter if and only if it waits on at least
      one bit; a wait with an empty bitset is accepted and can never be woken. */
  lemma WakeableIff(run: seq<Store>, i: nat, id: nat, e: nat, k: nat)
    requires IsRun(run) && i < |run| && id in run[i].enqueued && id !in run[i].woken
    requires StandsIn(run[i], e, k, id)
    ensures DirOk(run[i]) && id in run[i].address
    ensures (exists count: nat, mask: bv32 :: id in WakeAt(run[i], run[i].address[id].home, run[i].address[id].key, count, mask).woken)
      <==> run[i].entries[e].queue[k].bitset != 0
  {
    hide Next, WakeAt, HasId, TableOk, SlotsOk, HandleOk, GuardOk, TransitOk, EntryOk, SharesBit, Sharing;
    var s := run[i];
    RunInv(run, i);
    RunLocated(run, i);
    var q := s.entries[e].queue;
    assert Standing(s, InQueue(e), id) by { StandsAt(q, k); }
    var a := s.address[id];
    forall count: nat, mask: bv32
      ensures id in WakeAt(s, a.home, a.key, count, mask).woken <==> SharesBit(q[k], mask) && |Sharing(q, k, mask)| < count
    {
      WakeReaches(s, e, a.home, a.key, count, mask);
      assert UniqueIds(LineAt(s, InQueue(e)));
      WokenAt(q, count, mask, k);
      IdsAre(Woken(q, count, mask), id);
    }
    FullMask(q[k]);
    var count: nat := |Sharing(q, k, 0xFFFF_FFFF)| + 1;
    assert id in WakeAt(s, a.home, a.key, count, 0xFFFF_FFFF).woken <==> q[k].bitset != 0;
  }

  lemma FullMask(w: Waiter)
    ensures SharesBit(w, 0xFFFF_FFFF) <==> w.bitset != 0
    ensures w.bitset == 0 ==> forall mask: bv32 :: !SharesBit(w, mask)
  {
  }

  /** The failing input: a wait with bitset 0 on an otherwise untouched address. */
  lemma EmptyBitsetNeverWoken(count: nat, mask: bv32) returns (run: seq<Store>)
    ensures IsRun(run) && |run| == 4 && 7 in run[3].enqueued && 7 !in run[3].woken
    ensures StandsIn(run[3], 3, 0, 7) && DirOk(run[3]) && 7 in run[3].address
    ensures 7 !in WakeAt(run[3], run[3].address[7].home, run[3].address[7].key, count, mask).woken
  {
    hide WakeAt;
    var a := Lookup(Empty, Private(0));
    var b := GetOrInsert(a, 0, 0);
    var c := Wait(b, 2, Waiter(7, 0), true);
    run := [Empty, a, b, c];
    assert Next(Empty, a);
    assert LiveHandle(a, 0) && Next(a, b);
    assert LiveGuard(b, 2) && Next(b, c);
    assert c.entries[3].queue == [Waiter(7, 0)];
    WakeableIff(run, 3, 7, 3, 0);
  }

  /** Everybody who asks for the same address shares one entry. */
  lemma OneEntryPerAddress(s: Store, e: nat, e': nat, tk: TableKey, key: nat)
    requires Inv(s) && Lives(s, e, tk, key) && Lives(s, e', tk, key)
    ensures e == e'
  {
    hide WaitersOk, HandleOk, GuardOk, TransitOk, SlotsOk;
    assert EntryOk(s, e) && EntryOk(s, e') && TableOk(s, s.entries[e].table) && TableOk(s, s.entries[e'].table);
  }

  // --------------------------------------------- the test and the removal apart

  lemma RemoveNeedsNoSharer(s: Store, g: nat)
    requires ShapeOk(s) && LiveGuard(s, g) && s.entries[s.guards[g].entry].refs > 2
    ensures !ShapeOk(Finish(s, g, true))
  {
    hide HandleOk, GuardOk, TransitOk, SlotsOk, TableOk, DirOk;
    GuardFacts(s, g);
    assert !EntryOk(Finish(s, g, true), s.guards[g].entry);
  }

  lemma RemoveNeedsEmpty(s: Store, g: nat)
    requires Inv(s) && LiveGuard(s, g) && s.entries[s.guards[g].entry].refs <= 2 && QueueOf(s, g) != []
    ensures !WaitersOk(Finish(s, g, true))
  {
    hide ShapeOk, HasId, UniqueIds;
    GuardFacts(s, g);
    var s' := Finish(s, g, true);
    var e := s.guards[g].entry;
    var id := QueueOf(s, g)[0].id;
    assert Standing(s, InQueue(e), id) by { FirstStands(QueueOf(s, g)); }
    forall p ensures !Standing(s', p, id) {
      NoneInEmpty(id);
      if p != InQueue(e) { assert LineAt(s', p) == LineAt(s, p); assert !Standing(s, p, id); }
    }
  }

  lemma FirstStands(q: seq<Waiter>)
    requires q != []
    ensures HasId(q, q[0].id)
  {
  }

  /** A dropped guard tests the entry first and removes the slot afterwards. Acting
      on a positive test keeps counts exact, entries in their slots and waiters accounted
      for if and only if the test would still come out positive at the removal. */
  lemma RemovalSafeIff(s: Store, g: nat)
    requires Inv(s) && LiveGuard(s, g) && Unused(s, g)
    ensures Inv(Finish(s, g, true)) <==> Decide(s, g)
  {
    hide ShapeOk, WaitersOk, Unused, Finish;
    if s.entries[s.guards[g].entry].refs > 2 {
      RemoveNeedsNoSharer(s, g);
    } else if QueueOf(s, g) != [] {
      RemoveNeedsEmpty(s, g);
    } else {
      DropGuardInv(s, g);
    }
  }

  /** The failing interleaving: after a positive test another thread borrows the
      same entry and queues on it, then the removal goes ahead. A wake at its address
      then finds nobody, whatever its count and mask. */
  lemma LostWaiterRace(count: nat, mask: bv32)
    returns (before: Store, after: Store, g: nat, g': nat, w: Waiter)
    ensures Inv(before) && LiveGuard(before, g) && Decide(before, g)
    ensures LiveHandle(before, 0) && LiveGuard(GetOrInsert(before, 0, 0), g')
    ensures LiveGuard(Wait(GetOrInsert(before, 0, 0), g', w, true), g)
    ensures after == Finish(Wait(GetOrInsert(before, 0, 0), g', w, true), g, true)
    ensures DirOk(after) && w.id in after.enqueued
    ensures WakeAt(after, Private(0), 0, count, mask).woken == {}
  {
    hide Inv, Wake, IsRun;
    var first := Store(map[Private(0) := 1], 0, map[1 := Table(Private(0), map[], 2)], map[], map[0 := 1], map[], map[], {}, {}, map[], 2);
    before := Store(map[Private(0) := 1], 0, map[1 := Table(Private(0), map[0 := 3], 2)], map[3 := Entry(1, 0, [], 2)],
                    map[0 := 1], map[2 := Guard(0, 0, 3)], map[], {}, {}, map[], 4);
    assert first == Lookup(Empty, Private(0));
    assert before == GetOrInsert(first, 0, 0);
    EmptyInv();
    LookupInv(Empty, Private(0));
    GuardInv(first, 0, 0);
    g, g', w := 2, 4, Waiter(7, 1);
    after := Finish(Wait(GetOrInsert(before, 0, 0), g', w, true), g, true);
    assert after.tables[1].slots == map[];
  }
}
