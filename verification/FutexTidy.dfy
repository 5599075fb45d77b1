/** Futex entries and tables nobody needs do not stay behind. */
module FutexTidy {
  import opened FutexQueue
  import opened FutexStoreSpec
  import opened FutexProofs

  ghost predicate EntryTidy(s: Store, e: nat)
    requires e in s.entries
  {
    s.entries[e].refs >= 2 || s.entries[e].queue != []
  }

  /** An entry only its table holds has waiters, and a sweep is never more than a hundred
      lookups away. */
  ghost predicate Tidy(s: Store) {
    s.operations < SWEEP_PERIOD && forall e :: e in s.entries ==> EntryTidy(s, e)
  }

  lemma SameEntries(s: Store, s': Store)
    requires Tidy(s) && s'.entries == s.entries && s'.operations < SWEEP_PERIOD
    ensures Tidy(s')
  {
    forall e | e in s'.entries ensures EntryTidy(s', e) { assert EntryTidy(s, e); }
  }

  lemma LookupTidy(s: Store, tk: TableKey)
    requires DirOk(s) && Tidy(s)
    ensures Tidy(Lookup(s, tk))
  {
    LookupKeeps(s, tk);
    SameEntries(s, Lookup(s, tk));
  }

  lemma TickEntries(s: Store, tk: TableKey)
    requires DirOk(s) && s.operations < SWEEP_PERIOD
    ensures Tick(s, tk).entries == s.entries && Tick(s, tk).operations < SWEEP_PERIOD
  {
    hide Sweep, Survives;
    SweepKeeps(s.(operations := 0), 0);
  }

  lemma LookupKeeps(s: Store, tk: TableKey)
    requires DirOk(s) && s.operations < SWEEP_PERIOD
    ensures Lookup(s, tk).entries == s.entries && Lookup(s, tk).operations < SWEEP_PERIOD
  {
    hide Tick;
    TickEntries(s, tk);
  }

  lemma HandleTidy(s: Store, h: nat)
    requires Tidy(s) && LiveHandle(s, h)
    ensures Tidy(DropHandle(s, h))
  {
    SameEntries(s, DropHandle(s, h));
  }

  /** Only the entry `x` changes, and it ends up tidy. */
  lemma OneEntry(s: Store, s': Store, x: nat)
    requires Tidy(s) && s'.operations == s.operations
    requires forall e :: e in s'.entries && e != x ==> e in s.entries && s'.entries[e] == s.entries[e]
    requires x in s'.entries ==> EntryTidy(s', x)
    ensures Tidy(s')
  {
    forall e | e in s'.entries ensures EntryTidy(s', e) {
      if e != x { assert EntryTidy(s, e); }
    }
  }

  lemma Counted(s: Store, e: nat)
    requires ShapeOk(s) && e in s.entries
    ensures s.entries[e].refs == 1 + |GuardsOf(s, e)|
  {
    assert EntryOk(s, e);
  }

  lemma GuardTidy(s: Store, h: nat, key: nat)
    requires ShapeOk(s) && Tidy(s) && LiveHandle(s, h)
    ensures Tidy(Get(s, h, key)) && Tidy(GetOrInsert(s, h, key))
  {
    hide ShapeOk, Tidy;
    if Holds(s, h, key) {
      var e := s.tables[s.handles[h]].slots[key];
      Counted(s, e);
      OneEntry(s, Borrow(s, h, key, e), e);
    } else {
      OneEntry(s, Insert(s, h, key), s.nextId + 1);
    }
  }

  /** Whoever changes a queue holds a guard. */
  lemma QueueTidy(s: Store, g: nat, q: seq<Waiter>, s': Store)
    requires ShapeOk(s) && Tidy(s) && LiveGuard(s, g)
    requires s'.entries == SetQueue(s, s.guards[g].entry, q).entries && s'.operations == s.operations
    ensures Tidy(s')
  {
    hide ShapeOk, Tidy;
    GuardFacts(s, g);
    OneEntry(s, s', s.guards[g].entry);
  }

  lemma WaitTidy(s: Store, g: nat, w: Waiter, condition: bool)
    requires ShapeOk(s) && Tidy(s) && LiveGuard(s, g)
    ensures Tidy(Wait(s, g, w, condition))
  {
    hide ShapeOk, Tidy, LiveGuard;
    if condition { QueueTidy(s, g, QueueOf(s, g) + [w], Wait(s, g, w, condition)); }
  }

  lemma WakeTidy(s: Store, g: nat, count: nat, mask: bv32)
    requires ShapeOk(s) && Tidy(s) && LiveGuard(s, g)
    ensures Tidy(Wake(s, g, count, mask))
  {
    hide ShapeOk, Tidy, LiveGuard, Kept, Woken, Ids;
    QueueTidy(s, g, Kept(QueueOf(s, g), count, mask), Wake(s, g, count, mask));
  }

  lemma DrainTidy(s: Store, src: nat, dst: nat, count: nat)
    requires ShapeOk(s) && Tidy(s) && LiveGuard(s, src)
    ensures Tidy(Drain(s, src, dst, count))
  {
    hide ShapeOk, Tidy, LiveGuard;
    var q := QueueOf(s, src);
    QueueTidy(s, src, q[if count < |q| then count else |q|..], Drain(s, src, dst, count));
  }

  lemma ExtendTidy(s: Store, r: nat)
    requires ShapeOk(s) && Tidy(s) && r in s.transits && LiveGuard(s, s.transits[r].dst)
    ensures Tidy(Extend(s, r))
  {
    hide ShapeOk, Tidy, LiveGuard, Ids;
    var g := s.transits[r].dst;
    QueueTidy(s, g, QueueOf(s, g) + s.transits[r].waiters, Extend(s, r));
  }

  lemma DropTidy(s: Store, g: nat)
    requires ShapeOk(s) && Tidy(s) && LiveGuard(s, g)
    ensures Tidy(DropGuard(s, g))
  {
    hide ShapeOk, Tidy;
    GuardFacts(s, g);
    DropEntries(s, g);
    OneEntry(s, DropGuard(s, g), s.guards[g].entry);
  }

  /** The last guard on an empty queue takes the entry with it. */
  lemma DropEntries(s: Store, g: nat)
    requires LiveGuard(s, g)
    requires var Guard(h, key, e) := s.guards[g];
      key in s.tables[s.handles[h]].slots && s.tables[s.handles[h]].slots[key] == e && s.entries[e].refs >= 2
    ensures var e := s.guards[g].entry;
      && DropGuard(s, g).operations == s.operations
      && DropGuard(s, g).entries ==
         if Decide(s, g) then s.entries - {e} else s.entries[e := s.entries[e].(refs := s.entries[e].refs - 1)]
  {
  }

  /** Every step leaves every entry with a guard or a waiter. */
  lemma StepTidy(s: Store, s': Store)
    requires Inv(s) && Tidy(s) && Next(s, s')
    ensures Tidy(s')
  {
    hide ShapeOk, WaitersOk, Tidy, DirOk, Lookup, Get, GetOrInsert, Wait, Wake, Drain, Extend, DropGuard, DropHandle, LiveHandle, LiveGuard, Unused;
    if DirOk(s) && exists tk :: s' == Lookup(s, tk) {
      var tk :| s' == Lookup(s, tk);
      LookupTidy(s, tk);
    } else if exists h, key :: LiveHandle(s, h) && s' == Get(s, h, key) {
      var h, key :| LiveHandle(s, h) && s' == Get(s, h, key);
      GuardTidy(s, h, key);
    } else if exists h, key :: LiveHandle(s, h) && s' == GetOrInsert(s, h, key) {
      var h, key :| LiveHandle(s, h) && s' == GetOrInsert(s, h, key);
      GuardTidy(s, h, key);
    } else if exists g, w: Waiter, condition :: LiveGuard(s, g) && w.id !in s.enqueued && s' == Wait(s, g, w, condition) {
      var g, w: Waiter, condition :| LiveGuard(s, g) && w.id !in s.enqueued && s' == Wait(s, g, w, condition);
      WaitTidy(s, g, w, condition);
    } else if exists g, count, mask :: LiveGuard(s, g) && s' == Wake(s, g, count, mask) {
      var g, count, mask :| LiveGuard(s, g) && s' == Wake(s, g, count, mask);
      WakeTidy(s, g, count, mask);
    } else if exists src, dst, count :: LiveGuard(s, src) && LiveGuard(s, dst) && s' == Drain(s, src, dst, count) {
      var src, dst, count :| LiveGuard(s, src) && LiveGuard(s, dst) && s' == Drain(s, src, dst, count);
      DrainTidy(s, src, dst, count);
    } else if exists r :: r in s.transits && LiveGuard(s, s.transits[r].dst) && s' == Extend(s, r) {
      var r :| r in s.transits && LiveGuard(s, s.transits[r].dst) && s' == Extend(s, r);
      ExtendTidy(s, r);
    } else if exists g :: LiveGuard(s, g) && Unused(s, g) && s' == DropGuard(s, g) {
      var g :| LiveGuard(s, g) && Unused(s, g) && s' == DropGuard(s, g);
      DropTidy(s, g);
    } else {
      var h :| LiveHandle(s, h) && s' == DropHandle(s, h);
      HandleTidy(s, h);
    }
  }

  lemma {:induction false} RunTidy(run: seq<Store>, i: nat)
    requires IsRun(run) && i < |run|
    ensures Tidy(run[i])
  {
    hide Inv, Next, EntryTidy;
    if i > 0 {
      RunInv(run, i - 1);
      RunTidy(run, i - 1);
      StepTidy(run[i - 1], run[i]);
    }
  }

  // ------------------------------------------------------------------ no leaks

  /** In every run every entry is held by a guard or has waiters. */
  lemma EntriesInUse(run: seq<Store>, i: nat, e: nat)
    requires IsRun(run) && i < |run| && e in run[i].entries
    ensures run[i].entries[e].queue != [] || exists g :: g in run[i].guards && run[i].guards[g].entry == e
  {
    hide IsRun, ShapeOk, WaitersOk;
    RunInv(run, i);
    RunTidy(run, i);
    assert EntryTidy(run[i], e);
    Counted(run[i], e);
    if |GuardsOf(run[i], e)| > 0 {
      var g :| g in GuardsOf(run[i], e);
    }
  }

  /** A table somebody has a handle on or waits in. */
  ghost predicate InUse(s: Store, t: nat) {
    || (exists h :: h in s.handles && s.handles[h] == t)
    || (exists e :: e in s.entries && s.entries[e].table == t && s.entries[e].queue != [])
  }

  /** In every run the hundredth shared lookup drops exactly the shared tables nobody has
      a handle on or waits in, with their names. */
  lemma SweepDropsUnusedIff(run: seq<Store>, i: nat, tk: TableKey, t: nat)
    requires IsRun(run) && i < |run| && t in run[i].tables
    requires tk.Shared? && run[i].operations + 1 == 100
    ensures DirOk(run[i])
    ensures t !in Tick(run[i], tk).tables <==> run[i].tables[t].home.Shared? && !InUse(run[i], t)
    ensures run[i].tables[t].home !in Tick(run[i], tk).dir <==> t !in Tick(run[i], tk).tables
  {
    hide IsRun, TableOk, SlotsOk, EntryOk, HandleOk, GuardOk, TransitOk, WaitersOk, InUse, Survives;
    RunInv(run, i);
    SurvivesIff(run, i, t);
    Named(run[i], t);
  }

  lemma Named(s: Store, t: nat)
    requires ShapeOk(s) && t in s.tables
    ensures s.tables[t].home in s.dir && s.dir[s.tables[t].home] == t
  {
    assert TableOk(s, t);
  }

  lemma TableFacts(s: Store, t: nat)
    requires ShapeOk(s) && t in s.tables
    ensures TableOk(s, t) && SlotsOk(s, t)
  {
  }

  lemma SurvivesIff(run: seq<Store>, i: nat, t: nat)
    requires IsRun(run) && i < |run| && t in run[i].tables
    ensures Survives(run[i].tables[t]) <==> run[i].tables[t].home.Private? || InUse(run[i], t)
  {
    hide IsRun, ShapeOk, WaitersOk;
    var s := run[i];
    RunInv(run, i);
    TableFacts(s, t);
    if s.tables[t].refs > 1 {
      var h :| h in HandlesOf(s, t);
    } else if s.tables[t].slots != map[] {
      var key :| key in s.tables[t].slots;
      SlotInUse(run, i, t, key);
    }
    if InUse(s, t) { UsedSurvives(s, t); }
  }

  lemma SlotInUse(run: seq<Store>, i: nat, t: nat, key: nat)
    requires IsRun(run) && i < |run| && t in run[i].tables && key in run[i].tables[t].slots
    ensures InUse(run[i], t)
  {
    hide IsRun, WaitersOk;
    var s := run[i];
    RunInv(run, i);
    TableFacts(s, t);
    var e := s.tables[t].slots[key];
    EntriesInUse(run, i, e);
    if s.entries[e].queue == [] {
      var g :| g in s.guards && s.guards[g].entry == e;
      assert GuardOk(s, g);
    }
  }

  lemma UsedSurvives(s: Store, t: nat)
    requires ShapeOk(s) && t in s.tables && InUse(s, t)
    ensures Survives(s.tables[t])
  {
    if h :| h in s.handles && s.handles[h] == t {
      TableFacts(s, t);
      assert h in HandlesOf(s, t);
      assert |HandlesOf(s, t)| > 0;
    } else {
      var e :| e in s.entries && s.entries[e].table == t && s.entries[e].queue != [];
      assert EntryOk(s, e);
    }
  }
}
