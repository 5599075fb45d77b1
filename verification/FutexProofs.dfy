/** No queued waiter is ever out of reach of a later wake. */
module FutexProofs {
  import opened FutexQueue
  import opened Sums
  import opened FutexStoreSpec

  ghost function HandlesOf(s: Store, t: nat): set<nat> { set h | h in s.handles && s.handles[h] == t }
  ghost function GuardsOf(s: Store, e: nat): set<nat> { set g | g in s.guards && s.guards[g].entry == e }

  // ------------------------------------------------- tables, handles, entries

  ghost predicate TableOk(s: Store, t: nat) {
    t in s.tables && t < s.nextId && s.tables[t].home in s.dir && s.dir[s.tables[t].home] == t
    && s.tables[t].refs == 1 + |HandlesOf(s, t)|
  }

  /** Every slot of a table holds an entry created for that slot. */
  ghost predicate SlotsOk(s: Store, t: nat) {
    t in s.tables && forall key :: key in s.tables[t].slots ==>
      && s.tables[t].slots[key] in s.entries
      && s.entries[s.tables[t].slots[key]].table == t && s.entries[s.tables[t].slots[key]].key == key
  }

  /** Every entry is still in the slot it was created for, and its count is one
      for the table and one per guard. */
  ghost predicate EntryOk(s: Store, e: nat) {
    e in s.entries && e < s.nextId && s.entries[e].table in s.tables
    && s.entries[e].key in s.tables[s.entries[e].table].slots
    && s.tables[s.entries[e].table].slots[s.entries[e].key] == e
    && s.entries[e].refs == 1 + |GuardsOf(s, e)|
  }

  ghost predicate HandleOk(s: Store, h: nat) {
    h in s.handles && h < s.nextId && s.handles[h] in s.tables
  }

  ghost predicate GuardOk(s: Store, g: nat) {
    g in s.guards && g < s.nextId && s.guards[g].handle in s.handles && s.guards[g].entry in s.entries
    && s.handles[s.guards[g].handle] == s.entries[s.guards[g].entry].table
    && s.guards[g].key == s.entries[s.guards[g].entry].key
  }

  ghost predicate TransitOk(s: Store, r: nat) {
    r in s.transits && r < s.nextId && s.transits[r].src in s.guards && s.transits[r].dst in s.guards
  }

  ghost predicate ShapeOk(s: Store) {
    && DirOk(s)
    && (forall t :: t in s.tables ==> TableOk(s, t) && SlotsOk(s, t))
    && (forall e :: e in s.entries ==> EntryOk(s, e))
    && (forall h :: h in s.handles ==> HandleOk(s, h))
    && (forall g :: g in s.guards ==> GuardOk(s, g))
    && (forall r :: r in s.transits ==> TransitOk(s, r))
  }

  // ----------------------------------------------------------------- waiters

  datatype Place = InQueue(entry: nat) | InTransit(r: nat)

  ghost function LineAt(s: Store, p: Place): seq<Waiter> {
    match p
    case InQueue(e) => if e in s.entries then s.entries[e].queue else []
    case InTransit(r) => if r in s.transits then s.transits[r].waiters else []
  }

  ghost predicate HasId(q: seq<Waiter>, id: nat) { exists i :: 0 <= i < |q| && q[i].id == id }

  ghost predicate UniqueIds(q: seq<Waiter>) { forall i, j :: 0 <= i < j < |q| ==> q[i].id != q[j].id }

  ghost predicate Standing(s: Store, p: Place, id: nat) { HasId(LineAt(s, p), id) }

  /** Every enqueued waiter is woken or stands in exactly one place, once. */
  ghost predicate WaitersOk(s: Store) {
    && (forall p :: UniqueIds(LineAt(s, p)))
    && (forall p, id :: Standing(s, p, id) ==> id in s.enqueued && id !in s.woken)
    && (forall p, p', id :: Standing(s, p, id) && Standing(s, p', id) ==> p == p')
    && (forall id :: id in s.enqueued && id !in s.woken ==> exists p :: Standing(s, p, id))
    && s.woken <= s.enqueued
  }

  ghost predicate Inv(s: Store) { ShapeOk(s) && WaitersOk(s) }

  lemma SameWaiters(s: Store, s': Store)
    requires WaitersOk(s) && s'.enqueued == s.enqueued && s'.woken == s.woken
    requires forall p :: LineAt(s', p) == LineAt(s, p)
    ensures WaitersOk(s')
  {
    hide HasId, UniqueIds, LineAt;
    forall p, id ensures Standing(s', p, id) <==> Standing(s, p, id) {
      assert LineAt(s', p) == LineAt(s, p);
    }
  }

  // ------------------------------------------------------------------ lookup

  lemma DeadTable(s: Store, t: nat)
    requires TableOk(s, t) && !Survives(s.tables[t])
    ensures s.tables[t].slots == map[] && forall h :: h in s.handles ==> s.handles[h] != t
  {
    assert |HandlesOf(s, t)| == 0;
    assert forall h :: h in s.handles && s.handles[h] == t ==> h in HandlesOf(s, t);
  }

  lemma SweepTable(s: Store, t: nat)
    requires DirOk(s) && TableOk(s, t) && SlotsOk(s, t) && Survives(s.tables[t])
    ensures TableOk(Sweep(s), t) && SlotsOk(Sweep(s), t)
  {
    hide Survives;
    assert HandlesOf(Sweep(s), t) == HandlesOf(s, t);
  }

  lemma SweepEntry(s: Store, e: nat)
    requires DirOk(s) && EntryOk(s, e) && TableOk(s, s.entries[e].table)
    ensures EntryOk(Sweep(s), e)
  {
    hide Survives, TableOk;
    if !Survives(s.tables[s.entries[e].table]) { DeadTable(s, s.entries[e].table); }
    assert GuardsOf(Sweep(s), e) == GuardsOf(s, e);
  }

  lemma SweepHandle(s: Store, h: nat)
    requires DirOk(s) && HandleOk(s, h) && TableOk(s, s.handles[h])
    ensures HandleOk(Sweep(s), h)
  {
    hide Survives, TableOk;
    if !Survives(s.tables[s.handles[h]]) { DeadTable(s, s.handles[h]); }
  }

  lemma SweepShape(s: Store)
    requires ShapeOk(s)
    ensures ShapeOk(Sweep(s))
  {
    hide Survives, GuardOk, TransitOk, TableOk, SlotsOk;
    var s' := Sweep(s);
    forall t | t in s'.tables ensures TableOk(s', t) && SlotsOk(s', t) { SweepTable(s, t); }
    forall e | e in s'.entries ensures EntryOk(s', e) { SweepEntry(s, e); }
    forall h | h in s'.handles ensures HandleOk(s', h) { SweepHandle(s, h); }
    SameGuards(s, s');
  }

  /** Guards and requeues in progress only look at where an entry lives. */
  lemma SameGuards(s: Store, s': Store)
    requires forall g :: g in s.guards ==> GuardOk(s, g)
    requires forall r :: r in s.transits ==> TransitOk(s, r)
    requires forall h :: h in s.handles ==> h in s'.handles && s'.handles[h] == s.handles[h]
    requires s'.guards == s.guards && s'.transits == s.transits && s'.nextId >= s.nextId
    requires forall e :: e in s.entries ==> e in s'.entries && s'.entries[e].table == s.entries[e].table && s'.entries[e].key == s.entries[e].key
    ensures forall g :: g in s'.guards ==> GuardOk(s', g)
    ensures forall r :: r in s'.transits ==> TransitOk(s', r)
  {
    forall g | g in s'.guards ensures GuardOk(s', g) { assert GuardOk(s, g); }
    forall r | r in s'.transits ensures TransitOk(s', r) { assert TransitOk(s, r); }
  }

  lemma TickInv(s: Store, tk: TableKey)
    requires Inv(s)
    ensures Inv(Tick(s, tk))
  {
    hide WaitersOk, Sweep, Survives, TableOk, SlotsOk, EntryOk, HandleOk, GuardOk, TransitOk, LineAt;
    if tk.Shared? {
      var s0 := s.(operations := if s.operations + 1 == SWEEP_PERIOD then 0 else s.operations + 1);
      OnlyCounter(s, s0);
      CounterLines(s, s0);
      SameWaiters(s, s0);
      if s.operations + 1 == SWEEP_PERIOD {
        SweepShape(s0);
        SweepLines(s0);
        SameWaiters(s0, Sweep(s0));
      }
    }
  }

  lemma SweepLines(s: Store)
    requires DirOk(s)
    ensures forall p :: LineAt(Sweep(s), p) == LineAt(s, p)
    ensures Sweep(s).enqueued == s.enqueued && Sweep(s).woken == s.woken
  {
    hide Survives;
  }

  lemma CounterLines(s: Store, s': Store)
    requires s' == s.(operations := s'.operations)
    ensures forall p :: LineAt(s', p) == LineAt(s, p)
  {
  }

  lemma OnlyCounter(s: Store, s': Store)
    requires ShapeOk(s) && s' == s.(operations := s'.operations)
    ensures ShapeOk(s')
  {
    hide GuardOk, TransitOk;
    forall t | t in s'.tables ensures TableOk(s', t) && SlotsOk(s', t) { SameTable(s, s', t); }
    forall e | e in s'.entries ensures EntryOk(s', e) { SameEntry(s, s', e); }
    forall h | h in s'.handles ensures HandleOk(s', h) { assert HandleOk(s, h); }
    SameGuards(s, s');
  }

  lemma SameTable(s: Store, s': Store, t: nat)
    requires TableOk(s, t) && SlotsOk(s, t)
    requires t in s'.tables && s'.tables[t] == s.tables[t] && s'.nextId >= s.nextId
    requires s.tables[t].home in s'.dir && s'.dir[s.tables[t].home] == t
    requires forall h :: (h in s'.handles && s'.handles[h] == t) <==> (h in s.handles && s.handles[h] == t)
    requires forall e :: e in s.entries && s.entries[e].table == t ==> e in s'.entries && s'.entries[e].table == t && s'.entries[e].key == s.entries[e].key
    ensures TableOk(s', t) && SlotsOk(s', t)
  {
    assert HandlesOf(s', t) == HandlesOf(s, t);
  }

  lemma SameEntry(s: Store, s': Store, e: nat)
    requires EntryOk(s, e)
    requires e in s'.entries && s'.entries[e] == s.entries[e].(queue := s'.entries[e].queue) && s'.nextId >= s.nextId
    requires var t, k := s.entries[e].table, s.entries[e].key; t in s'.tables && k in s'.tables[t].slots && s'.tables[t].slots[k] == e
    requires forall g :: (g in s'.guards && s'.guards[g].entry == e) <==> (g in s.guards && s.guards[g].entry == e)
    ensures EntryOk(s', e)
  {
    assert GuardsOf(s', e) == GuardsOf(s, e);
  }

  // ------------------------------------------------------------ table handles

  lemma NewHandleCount(s: Store, s': Store, t: nat)
    requires forall h :: h in s.handles ==> h < s.nextId
    requires s'.handles == s.handles[s.nextId := t]
    ensures |HandlesOf(s', t)| == |HandlesOf(s, t)| + 1
    ensures forall x :: x != t ==> HandlesOf(s', x) == HandlesOf(s, x)
  {
    assert HandlesOf(s', t) == HandlesOf(s, t) + {s.nextId};
  }

  lemma OldHandles(s: Store)
    requires forall h :: h in s.handles ==> HandleOk(s, h)
    ensures forall h :: h in s.handles ==> h < s.nextId
  {
  }

  lemma ShareShape(s: Store, t: nat)
    requires ShapeOk(s) && t in s.tables
    ensures ShapeOk(Share(s, t))
  {
    hide GuardOk, TransitOk, TableOk, SlotsOk, EntryOk, HandleOk;
    var s' := Share(s, t);
    OldHandles(s);
    ShareTables(s, t);
    forall e | e in s'.entries ensures EntryOk(s', e) { ShareEntry(s, t, e); }
    forall h | h in s'.handles ensures HandleOk(s', h) { ShareHandle(s, t, h); }
    SameGuardsNew(s, s', t);
  }

  lemma ShareEntry(s: Store, t: nat, e: nat)
    requires t in s.tables && EntryOk(s, e)
    ensures EntryOk(Share(s, t), e)
  {
    SameEntry(s, Share(s, t), e);
  }

  lemma ShareHandle(s: Store, t: nat, h: nat)
    requires t in s.tables && (h in s.handles ==> HandleOk(s, h)) && h in Share(s, t).handles
    ensures HandleOk(Share(s, t), h)
  {
  }

  lemma ShareTables(s: Store, t: nat)
    requires t in s.tables && (forall x :: x in s.tables ==> TableOk(s, x) && SlotsOk(s, x))
    requires forall h :: h in s.handles ==> h < s.nextId
    ensures forall x :: x in s.tables ==> TableOk(Share(s, t), x) && SlotsOk(Share(s, t), x)
  {
    var s' := Share(s, t);
    NewHandleCount(s, s', t);
    forall x | x in s.tables ensures TableOk(s', x) && SlotsOk(s', x) {
      assert TableOk(s, x) && SlotsOk(s, x);
    }
  }

  lemma OpenTables(s: Store, tk: TableKey, x: nat)
    requires (forall h :: h in s.handles ==> HandleOk(s, h)) && tk !in s.dir
    requires x in s.tables ==> TableOk(s, x) && SlotsOk(s, x)
    requires forall e :: e in s.entries ==> EntryOk(s, e)
    requires x in Open(s, tk).tables
    ensures TableOk(Open(s, tk), x) && SlotsOk(Open(s, tk), x)
  {
    var s' := Open(s, tk);
    var t := s.nextId + 1;
    assert forall h :: h in s.handles ==> h < s.nextId && s.handles[h] in s.tables;
    NewHandleCount(s, s', t);
    if x in s.tables {
      assert x != t;
      assert HandlesOf(s', x) == HandlesOf(s, x);
    } else {
      assert HandlesOf(s, t) == {};
    }
  }

  lemma OpenShape(s: Store, tk: TableKey)
    requires ShapeOk(s) && tk !in s.dir
    ensures ShapeOk(Open(s, tk))
  {
    hide GuardOk, TransitOk, SlotsOk, EntryOk, HandleOk;
    var s' := Open(s, tk);
    forall t | t in s'.tables ensures TableOk(s', t) && SlotsOk(s', t) { OpenTables(s, tk, t); }
    forall e | e in s'.entries ensures EntryOk(s', e) { OpenEntry(s, tk, e); }
    forall h | h in s'.handles ensures HandleOk(s', h) { OpenHandle(s, tk, h); }
    OpenDir(s, tk);
    SameGuardsNew(s, s', s.nextId + 1);
  }

  lemma OpenDir(s: Store, tk: TableKey)
    requires DirOk(s) && tk !in s.dir && (forall t :: t in s.tables ==> TableOk(s, t))
    ensures DirOk(Open(s, tk))
  {
    hide HandlesOf;
  }

  lemma OpenEntry(s: Store, tk: TableKey, e: nat)
    requires EntryOk(s, e) && (forall t :: t in s.tables ==> TableOk(s, t))
    ensures EntryOk(Open(s, tk), e)
  {
    hide HandlesOf;
    assert TableOk(s, s.entries[e].table);
    SameEntry(s, Open(s, tk), e);
  }

  lemma OpenHandle(s: Store, tk: TableKey, h: nat)
    requires (h in s.handles ==> HandleOk(s, h)) && h in Open(s, tk).handles
    ensures HandleOk(Open(s, tk), h)
  {
  }

  lemma SameGuardsNew(s: Store, s': Store, t: nat)
    requires forall g :: g in s.guards ==> GuardOk(s, g)
    requires forall r :: r in s.transits ==> TransitOk(s, r)
    requires forall h :: h in s.handles ==> HandleOk(s, h)
    requires s'.handles == s.handles[s.nextId := t]
    requires s'.guards == s.guards && s'.transits == s.transits && s'.entries == s.entries && s'.nextId >= s.nextId
    ensures forall g :: g in s'.guards ==> GuardOk(s', g)
    ensures forall r :: r in s'.transits ==> TransitOk(s', r)
  {
    hide GuardOk, TransitOk;
    OldHandles(s);
    SameGuards(s, s');
  }

  lemma LookupInv(s: Store, tk: TableKey)
    requires Inv(s)
    ensures Inv(Lookup(s, tk))
  {
    hide WaitersOk, Tick, TableOk, SlotsOk, EntryOk, HandleOk, GuardOk, TransitOk, LineAt, Share, Open;
    TickInv(s, tk);
    var s1 := Tick(s, tk);
    if tk in s1.dir {
      ShareShape(s1, s1.dir[tk]);
    } else {
      OpenShape(s1, tk);
    }
    LookupLines(s1, tk);
    SameWaiters(s1, Lookup(s, tk));
  }

  lemma LookupLines(s: Store, tk: TableKey)
    requires DirOk(s)
    ensures var s' := if tk in s.dir then Share(s, s.dir[tk]) else Open(s, tk);
            s'.enqueued == s.enqueued && s'.woken == s.woken && forall p :: LineAt(s', p) == LineAt(s, p)
  {
  }

  // ------------------------------------------------------------ taking guards

  lemma NewGuardCount(s: Store, s': Store, g: Guard)
    requires forall x :: x in s.guards ==> x < s.nextId
    requires s'.guards == s.guards[s.nextId := g]
    ensures |GuardsOf(s', g.entry)| == |GuardsOf(s, g.entry)| + 1
    ensures forall e :: e != g.entry ==> GuardsOf(s', e) == GuardsOf(s, e)
  {
    assert GuardsOf(s', g.entry) == GuardsOf(s, g.entry) + {s.nextId};
  }

  lemma OldGuards(s: Store)
    requires forall g :: g in s.guards ==> GuardOk(s, g)
    ensures forall g :: g in s.guards ==> g < s.nextId && s.guards[g].entry in s.entries
  {
  }

  lemma BorrowEntry(s: Store, h: nat, key: nat, e: nat, x: nat)
    requires e in s.entries && (forall g :: g in s.guards ==> GuardOk(s, g)) && EntryOk(s, x)
    ensures EntryOk(Borrow(s, h, key, e), x)
  {
    hide GuardOk;
    OldGuards(s);
    NewGuardCount(s, Borrow(s, h, key, e), Guard(h, key, e));
  }

  lemma SlotsFrame(s: Store, s': Store, t: nat)
    requires TableOk(s, t) && SlotsOk(s, t) && s'.dir == s.dir && s'.handles == s.handles && s'.nextId >= s.nextId
    requires t in s'.tables && s'.tables[t] == s.tables[t]
    requires forall e :: e in s.entries ==> e in s'.entries && s'.entries[e].table == s.entries[e].table && s'.entries[e].key == s.entries[e].key
    ensures TableOk(s', t) && SlotsOk(s', t)
  {
    SameTable(s, s', t);
  }

  lemma AddGuard(s: Store, s': Store, g: Guard)
    requires forall x :: x in s.guards ==> GuardOk(s, x)
    requires forall r :: r in s.transits ==> TransitOk(s, r)
    requires s'.guards == s.guards[s.nextId := g] && s'.handles == s.handles && s'.transits == s.transits && s'.nextId > s.nextId
    requires forall e :: e in s.entries ==> e in s'.entries && s'.entries[e].table == s.entries[e].table && s'.entries[e].key == s.entries[e].key
    requires g.handle in s'.handles && g.entry in s'.entries
    requires s'.handles[g.handle] == s'.entries[g.entry].table && g.key == s'.entries[g.entry].key
    ensures forall x :: x in s'.guards ==> GuardOk(s', x)
    ensures forall r :: r in s'.transits ==> TransitOk(s', r)
  {
    forall x | x in s'.guards ensures GuardOk(s', x) { if x != s.nextId { assert GuardOk(s, x); } }
    forall r | r in s'.transits ensures TransitOk(s', r) { assert TransitOk(s, r); }
  }

  lemma BorrowShape(s: Store, h: nat, key: nat)
    requires ShapeOk(s) && Holds(s, h, key)
    ensures ShapeOk(Borrow(s, h, key, s.tables[s.handles[h]].slots[key]))
  {
    hide GuardOk, TransitOk, TableOk, EntryOk;
    var t := s.handles[h];
    var e := s.tables[t].slots[key];
    var s' := Borrow(s, h, key, e);
    forall x | x in s'.tables ensures TableOk(s', x) && SlotsOk(s', x) { SlotsFrame(s, s', x); }
    forall x | x in s'.entries ensures EntryOk(s', x) { BorrowEntry(s, h, key, e, x); }
    forall x | x in s'.handles ensures HandleOk(s', x) { assert HandleOk(s, x); }
    assert SlotsOk(s, t);
    AddGuard(s, s', Guard(h, key, e));
  }

  lemma InsertEntry(s: Store, h: nat, key: nat, x: nat)
    requires LiveHandle(s, h) && (forall g :: g in s.guards ==> GuardOk(s, g))
    requires (forall e :: e in s.entries ==> EntryOk(s, e)) && key !in s.tables[s.handles[h]].slots
    requires x in Insert(s, h, key).entries
    ensures EntryOk(Insert(s, h, key), x)
  {
    hide GuardOk;
    var s' := Insert(s, h, key);
    var e := s.nextId + 1;
    OldGuards(s);
    NewGuardCount(s, s', Guard(h, key, e));
    if x == e {
      FreshEntry(s, e);
      assert GuardsOf(s, e) == {};
    } else {
      assert EntryOk(s, x);
    }
  }

  lemma InsertTable(s: Store, h: nat, key: nat, x: nat)
    requires LiveHandle(s, h) && TableOk(s, x) && SlotsOk(s, x)
    requires (forall e :: e in s.entries ==> EntryOk(s, e)) && key !in s.tables[s.handles[h]].slots
    ensures TableOk(Insert(s, h, key), x) && SlotsOk(Insert(s, h, key), x)
  {
    hide EntryOk;
    var s' := Insert(s, h, key);
    assert HandlesOf(s', x) == HandlesOf(s, x);
    FreshEntry(s, s.nextId + 1);
  }

  lemma FreshEntry(s: Store, e: nat)
    requires (forall x :: x in s.entries ==> EntryOk(s, x)) && e >= s.nextId
    ensures e !in s.entries
  {
    assert e in s.entries ==> EntryOk(s, e);
  }

  lemma InsertShape(s: Store, h: nat, key: nat)
    requires ShapeOk(s) && LiveHandle(s, h) && !Holds(s, h, key)
    ensures ShapeOk(Insert(s, h, key))
  {
    hide GuardOk, TransitOk, TableOk, EntryOk;
    var s' := Insert(s, h, key);
    assert SlotsOk(s, s.handles[h]);
    assert key !in s.tables[s.handles[h]].slots;
    FreshEntry(s, s.nextId + 1);
    forall x | x in s'.tables ensures TableOk(s', x) && SlotsOk(s', x) { InsertTable(s, h, key, x); }
    forall x | x in s'.entries ensures EntryOk(s', x) { InsertEntry(s, h, key, x); }
    forall x | x in s'.handles ensures HandleOk(s', x) { assert HandleOk(s, x); }
    AddGuard(s, s', Guard(h, key, s.nextId + 1));
  }

  lemma GuardLines(s: Store, h: nat, key: nat)
    requires LiveHandle(s, h) && (forall e :: e in s.entries ==> EntryOk(s, e))
    ensures forall p :: LineAt(GetOrInsert(s, h, key), p) == LineAt(s, p) && LineAt(Get(s, h, key), p) == LineAt(s, p)
    ensures GetOrInsert(s, h, key).enqueued == Get(s, h, key).enqueued == s.enqueued
    ensures GetOrInsert(s, h, key).woken == Get(s, h, key).woken == s.woken
  {
    hide EntryOk;
    FreshEntry(s, s.nextId + 1);
  }

  lemma GuardInv(s: Store, h: nat, key: nat)
    requires Inv(s) && LiveHandle(s, h)
    ensures Inv(Get(s, h, key)) && Inv(GetOrInsert(s, h, key))
  {
    hide WaitersOk, DirOk, TableOk, SlotsOk, EntryOk, HandleOk, GuardOk, TransitOk, LineAt, Borrow, Insert;
    if Holds(s, h, key) { BorrowShape(s, h, key); } else { InsertShape(s, h, key); }
    GuardLines(s, h, key);
    SameWaiters(s, Get(s, h, key));
    SameWaiters(s, GetOrInsert(s, h, key));
  }

  // ------------------------------------------------------------------- queues

  lemma SetQueueShape(s: Store, s': Store)
    requires ShapeOk(s)
    requires s'.dir == s.dir && s'.tables == s.tables && s'.handles == s.handles && s'.guards == s.guards && s'.nextId >= s.nextId
    requires s'.entries.Keys == s.entries.Keys
    requires forall e :: e in s.entries ==> s'.entries[e] == s.entries[e].(queue := s'.entries[e].queue)
    requires forall r :: r in s'.transits ==> TransitOk(s', r)
    ensures ShapeOk(s')
  {
    hide GuardOk, TransitOk, TableOk, SlotsOk;
    forall x | x in s'.tables ensures TableOk(s', x) && SlotsOk(s', x) { SlotsFrame(s, s', x); }
    forall e | e in s'.entries ensures EntryOk(s', e) {
      assert e in s.entries.Keys && EntryOk(s, e);
      SameEntry(s, s', e);
    }
    forall h | h in s'.handles ensures HandleOk(s', h) { assert HandleOk(s, h); }
    forall g | g in s'.guards ensures GuardOk(s', g) { GuardFrame(s, s', g); }
  }

  lemma GuardFrame(s: Store, s': Store, g: nat)
    requires GuardOk(s, g) && s'.handles == s.handles && s'.guards == s.guards && s'.nextId >= s.nextId
    requires s'.entries.Keys == s.entries.Keys
    requires forall e :: e in s.entries ==> s'.entries[e] == s.entries[e].(queue := s'.entries[e].queue)
    ensures GuardOk(s', g)
  {
    assert s.guards[g].entry in s'.entries.Keys;
  }

  lemma SameTransits(s: Store, s': Store)
    requires forall r :: r in s.transits ==> TransitOk(s, r)
    requires s'.guards == s.guards && s'.nextId >= s.nextId
    requires forall r :: r in s'.transits ==>
      (r in s.transits && s'.transits[r] == s.transits[r])
      || (r < s'.nextId && s'.transits[r].src in s.guards && s'.transits[r].dst in s.guards)
    ensures forall r :: r in s'.transits ==> TransitOk(s', r)
  {
    forall r | r in s'.transits ensures TransitOk(s', r) {
      if r in s.transits && s'.transits[r] == s.transits[r] { assert TransitOk(s, r); }
    }
  }

  lemma {:induction false} HasCons(x: Waiter, q: seq<Waiter>, id: nat)
    ensures HasId([x] + q, id) <==> x.id == id || HasId(q, id)
  {
    var l := [x] + q;
    if x.id == id { assert l[0].id == id; }
    if HasId(q, id) { var i :| 0 <= i < |q| && q[i].id == id; assert l[i + 1].id == id; }
    if HasId(l, id) { var i :| 0 <= i < |l| && l[i].id == id; assert i > 0 ==> q[i - 1].id == id; }
  }

  lemma HasAppend(a: seq<Waiter>, b: seq<Waiter>, id: nat)
    ensures HasId(a + b, id) <==> HasId(a, id) || HasId(b, id)
  {
    var l := a + b;
    if HasId(a, id) { var i :| 0 <= i < |a| && a[i].id == id; assert l[i].id == id; }
    if HasId(b, id) { var i :| 0 <= i < |b| && b[i].id == id; assert l[|a| + i].id == id; }
    if HasId(l, id) { var i :| 0 <= i < |l| && l[i].id == id; assert i >= |a| ==> b[i - |a|].id == id; }
  }

  lemma UniqueAppend(a: seq<Waiter>, b: seq<Waiter>)
    ensures UniqueIds(a + b) <==> UniqueIds(a) && UniqueIds(b) && forall id :: HasId(a, id) ==> !HasId(b, id)
  {
    var l := a + b;
    if UniqueIds(l) {
      assert forall i :: 0 <= i < |a| ==> l[i] == a[i];
      assert forall i :: 0 <= i < |b| ==> l[|a| + i] == b[i];
      forall id | HasId(a, id) ensures !HasId(b, id) {
        var i :| 0 <= i < |a| && a[i].id == id;
        assert l[i].id == id;
        forall j | 0 <= j < |b| ensures b[j].id != id { assert l[|a| + j] == b[j]; }
      }
    }
    if UniqueIds(a) && UniqueIds(b) && forall id :: HasId(a, id) ==> !HasId(b, id) {
      forall i, j | 0 <= i < j < |l| ensures l[i].id != l[j].id {
        if i < |a| { assert HasId(a, a[i].id); }
        if j >= |a| { assert HasId(b, b[j - |a|].id); }
      }
    }
  }

  /** Waking splits the ids of a queue between those kept and those woken. */
  lemma {:induction false} WakeIds(q: seq<Waiter>, count: nat, mask: bv32, id: nat)
    ensures HasId(q, id) <==> HasId(Kept(q, count, mask), id) || HasId(Woken(q, count, mask), id)
    ensures UniqueIds(q) ==> !(HasId(Kept(q, count, mask), id) && HasId(Woken(q, count, mask), id))
  {
    hide Matches, HasId, UniqueIds;
    if q == [] { NoneInEmpty(id); } else {
      assert q == [q[0]] + q[1..];
      HasCons(q[0], q[1..], id);
      UniqueAppend([q[0]], q[1..]);
      assert [q[0]] == [q[0]] + [];
      HasCons(q[0], [], id);
      if count > 0 && Matches(q[0], mask) {
        WakeIds(q[1..], count - 1, mask, id);
        HasCons(q[0], Woken(q[1..], count - 1, mask), id);
      } else {
        WakeIds(q[1..], count, mask, id);
        HasCons(q[0], Kept(q[1..], count, mask), id);
      }
    }
  }

  lemma NoneInEmpty(id: nat)
    ensures !HasId([], id) && UniqueIds([])
  {
  }

  lemma {:induction false} KeptUnique(q: seq<Waiter>, count: nat, mask: bv32)
    requires UniqueIds(q)
    ensures UniqueIds(Kept(q, count, mask))
  {
    hide Matches, HasId, UniqueIds;
    if q == [] { NoneInEmpty(0); } else {
      assert q == [q[0]] + q[1..];
      UniqueAppend([q[0]], q[1..]);
      if count > 0 && Matches(q[0], mask) {
        KeptUnique(q[1..], count - 1, mask);
      } else {
        KeptUnique(q[1..], count, mask);
        var k := Kept(q[1..], count, mask);
        forall id ensures HasId([q[0]], id) ==> !HasId(k, id) { WakeIds(q[1..], count, mask, id); }
        UniqueAppend([q[0]], k);
      }
    }
  }

  lemma IdsAre(q: seq<Waiter>, id: nat)
    ensures id in Ids(q) <==> HasId(q, id)
  {
  }

  lemma WaitInv(s: Store, g: nat, w: Waiter, condition: bool)
    requires Inv(s) && LiveGuard(s, g) && w.id !in s.enqueued
    ensures Inv(Wait(s, g, w, condition))
  {
    hide TableOk, SlotsOk, EntryOk, HandleOk, GuardOk, TransitOk, WaitersOk, DirOk;
    if condition {
      var s' := Wait(s, g, w, condition);
      SameTransits(s, s');
      SetQueueShape(s, s');
      WaitWaiters(s, g, w);
    }
  }

  lemma WaitWaiters(s: Store, g: nat, w: Waiter)
    requires WaitersOk(s) && LiveGuard(s, g) && w.id !in s.enqueued
    ensures WaitersOk(Wait(s, g, w, true))
  {
    hide HasId, UniqueIds;
    var s' := Wait(s, g, w, true);
    var here := InQueue(s.guards[g].entry);
    forall p, id ensures Standing(s', p, id) <==> Standing(s, p, id) || (p == here && id == w.id) {
      if p == here { HasAppend(QueueOf(s, g), [w], id); HasOne(w, id); }
    }
    assert LineAt(s, here) == QueueOf(s, g);
    forall p ensures UniqueIds(LineAt(s', p)) {
      if p == here {
        assert !Standing(s, here, w.id);
        forall id ensures HasId([w], id) <==> id == w.id { HasOne(w, id); }
        UniqueOne(w);
        UniqueAppend(QueueOf(s, g), [w]);
      } else {
        assert LineAt(s', p) == LineAt(s, p);
      }
    }
    forall id | id in s'.enqueued && id !in s'.woken ensures exists p :: Standing(s', p, id) {
      if id == w.id { assert Standing(s', here, id); } else { var p :| Standing(s, p, id); assert Standing(s', p, id); }
    }
  }

  lemma HasOne(w: Waiter, id: nat)
    ensures HasId([w], id) <==> w.id == id
  {
    assert [w][0].id == w.id;
  }

  lemma UniqueOne(w: Waiter)
    ensures UniqueIds([w])
  {
  }

  lemma WakeInv(s: Store, g: nat, count: nat, mask: bv32)
    requires Inv(s) && LiveGuard(s, g)
    ensures Inv(Wake(s, g, count, mask))
  {
    hide TableOk, SlotsOk, EntryOk, HandleOk, GuardOk, TransitOk, WaitersOk, DirOk, Kept, Woken;
    var s' := Wake(s, g, count, mask);
    SameTransits(s, s');
    SetQueueShape(s, s');
    WakeWaiters(s, g, count, mask);
  }

  lemma WakeWaiters(s: Store, g: nat, count: nat, mask: bv32)
    requires WaitersOk(s) && LiveGuard(s, g)
    ensures WaitersOk(Wake(s, g, count, mask))
  {
    hide HasId, UniqueIds, Kept, Woken, Ids;
    var s' := Wake(s, g, count, mask);
    var here := InQueue(s.guards[g].entry);
    var q := QueueOf(s, g);
    var woken := Ids(Woken(q, count, mask));
    assert LineAt(s, here) == q;
    forall id ensures id in woken ==> Standing(s, here, id) {
      IdsAre(Woken(q, count, mask), id);
      WakeIds(q, count, mask, id);
    }
    forall p, id ensures Standing(s', p, id) <==> Standing(s, p, id) && id !in woken {
      IdsAre(Woken(q, count, mask), id);
      WakeIds(q, count, mask, id);
      if p != here {
        assert LineAt(s', p) == LineAt(s, p);
        assert id in woken ==> Standing(s, here, id);
        assert Standing(s, p, id) ==> id !in woken;
      } else {
        assert LineAt(s', p) == Kept(q, count, mask) && UniqueIds(LineAt(s, p));
        assert Standing(s', p, id) == HasId(Kept(q, count, mask), id);
        assert Standing(s, p, id) == HasId(q, id);
      }
    }
    forall p ensures UniqueIds(LineAt(s', p)) {
      if p == here { KeptUnique(q, count, mask); } else { assert LineAt(s', p) == LineAt(s, p); }
    }
    forall id | id in s'.enqueued && id !in s'.woken ensures exists p :: Standing(s', p, id) {
      var p :| Standing(s, p, id);
      assert Standing(s', p, id);
    }
  }

  lemma DrainInv(s: Store, src: nat, dst: nat, count: nat)
    requires Inv(s) && LiveGuard(s, src) && LiveGuard(s, dst)
    ensures Inv(Drain(s, src, dst, count))
  {
    hide TableOk, SlotsOk, EntryOk, HandleOk, GuardOk, TransitOk, WaitersOk, DirOk;
    var s' := Drain(s, src, dst, count);
    SameTransits(s, s');
    SetQueueShape(s, s');
    FreshTransit(s, s.nextId);
    DrainWaiters(s, src, dst, count);
  }

  lemma FreshTransit(s: Store, r: nat)
    requires (forall x :: x in s.transits ==> TransitOk(s, x)) && r >= s.nextId
    ensures r !in s.transits
  {
    assert r in s.transits ==> TransitOk(s, r);
  }

  lemma DrainWaiters(s: Store, src: nat, dst: nat, count: nat)
    requires WaitersOk(s) && LiveGuard(s, src) && s.nextId !in s.transits
    ensures WaitersOk(Drain(s, src, dst, count))
  {
    hide HasId, UniqueIds;
    var s' := Drain(s, src, dst, count);
    var here, there := InQueue(s.guards[src].entry), InTransit(s.nextId);
    var q := QueueOf(s, src);
    var n := Min(count, |q|);
    assert LineAt(s, here) == q == q[..n] + q[n..];
    assert LineAt(s', here) == q[n..] && LineAt(s', there) == q[..n];
    UniqueAppend(q[..n], q[n..]);
    forall id ensures HasId(q, id) <==> HasId(q[..n], id) || HasId(q[n..], id) { HasAppend(q[..n], q[n..], id); }
    forall id ensures !Standing(s, there, id) { NoneInEmpty(id); }
    forall p, id ensures Standing(s', p, id) ==> Standing(s, p, id) || (p == there && Standing(s, here, id)) { }
    forall p, id ensures Standing(s, p, id) ==> Standing(s', p, id) || (p == here && Standing(s', there, id)) { }
    forall id | id in s'.enqueued && id !in s'.woken ensures exists p :: Standing(s', p, id) {
      var p :| Standing(s, p, id);
      assert Standing(s', p, id) || Standing(s', there, id);
    }
    forall p, p', id | Standing(s', p, id) && Standing(s', p', id) ensures p == p' {
      assert !(Standing(s', here, id) && Standing(s', there, id));
    }
    forall p ensures UniqueIds(LineAt(s', p)) {
      if p != here && p != there { assert LineAt(s', p) == LineAt(s, p); }
    }
  }

  lemma ExtendInv(s: Store, r: nat)
    requires Inv(s) && r in s.transits && LiveGuard(s, s.transits[r].dst)
    ensures Inv(Extend(s, r))
  {
    hide TableOk, SlotsOk, EntryOk, HandleOk, GuardOk, TransitOk, WaitersOk, DirOk;
    var s' := Extend(s, r);
    SameTransits(s, s');
    SetQueueShape(s, s');
    ExtendWaiters(s, r);
  }

  lemma ExtendWaiters(s: Store, r: nat)
    requires WaitersOk(s) && r in s.transits && LiveGuard(s, s.transits[r].dst)
    ensures WaitersOk(Extend(s, r))
  {
    hide HasId, UniqueIds;
    var s' := Extend(s, r);
    var here, there := InTransit(r), InQueue(s.guards[s.transits[r].dst].entry);
    var q, m := QueueOf(s, s.transits[r].dst), s.transits[r].waiters;
    assert LineAt(s, here) == m && LineAt(s, there) == q && LineAt(s', there) == q + m && LineAt(s', here) == [];
    forall id ensures HasId(q + m, id) <==> HasId(q, id) || HasId(m, id) { HasAppend(q, m, id); }
    forall id ensures HasId(q, id) ==> !HasId(m, id) {
      assert !(Standing(s, here, id) && Standing(s, there, id));
    }
    UniqueAppend(q, m);
    NoneInEmpty(0);
    forall p ensures UniqueIds(LineAt(s', p)) {
      if p != here && p != there { assert LineAt(s', p) == LineAt(s, p); }
    }
    forall id ensures !Standing(s', here, id) { NoneInEmpty(id); }
    forall p, id ensures Standing(s', p, id) ==> Standing(s, p, id) || (p == there && Standing(s, here, id)) { }
    forall p, id ensures Standing(s, p, id) ==> Standing(s', p, id) || (p == here && Standing(s', there, id)) { }
    forall id | id in s'.enqueued && id !in s'.woken ensures exists p :: Standing(s', p, id) {
      var p :| Standing(s, p, id);
      assert Standing(s', p, id) || Standing(s', there, id);
    }
  }

  // ----------------------------------------------------------- dropping guards

  lemma LostGuardCount(s: Store, s': Store, g: nat)
    requires g in s.guards && s'.guards == s.guards - {g}
    ensures |GuardsOf(s', s.guards[g].entry)| == |GuardsOf(s, s.guards[g].entry)| - 1
    ensures forall e :: e != s.guards[g].entry ==> GuardsOf(s', e) == GuardsOf(s, e)
  {
    var e := s.guards[g].entry;
    assert GuardsOf(s', e) == GuardsOf(s, e) - {g};
    assert g in GuardsOf(s, e);
  }

  /** What a guard knows: its slot holds its entry, whose count it is part of. */
  lemma GuardFacts(s: Store, g: nat)
    requires ShapeOk(s) && LiveGuard(s, g)
    ensures var Guard(h, key, e) := s.guards[g];
      && s.entries[e].table == s.handles[h] && s.entries[e].key == key
      && key in s.tables[s.handles[h]].slots && s.tables[s.handles[h]].slots[key] == e
      && s.entries[e].refs == 1 + |GuardsOf(s, e)| && g in GuardsOf(s, e) && s.entries[e].refs >= 2
  {
    hide TableOk, SlotsOk, HandleOk, TransitOk, DirOk;
    assert GuardOk(s, g) && EntryOk(s, s.guards[g].entry);
    assert g in GuardsOf(s, s.guards[g].entry);
    assert |GuardsOf(s, s.guards[g].entry)| != 0;
  }

  lemma LessTransits(s: Store, s': Store, g: nat)
    requires (forall r :: r in s.transits ==> TransitOk(s, r)) && Unused(s, g)
    requires s'.guards == s.guards - {g} && s'.transits == s.transits && s'.nextId == s.nextId
    ensures forall r :: r in s'.transits ==> TransitOk(s', r)
  {
    forall r | r in s'.transits ensures TransitOk(s', r) { assert TransitOk(s, r); }
  }

  lemma LessGuards(s: Store, s': Store, g: nat)
    requires forall x :: x in s.guards ==> GuardOk(s, x)
    requires s'.guards == s.guards - {g} && s'.handles == s.handles && s'.nextId == s.nextId
    requires forall x :: x in s'.guards ==> s.guards[x].entry in s'.entries
    requires forall e :: e in s'.entries ==> e in s.entries && s'.entries[e].table == s.entries[e].table && s'.entries[e].key == s.entries[e].key
    ensures forall x :: x in s'.guards ==> GuardOk(s', x)
  {
    forall x | x in s'.guards ensures GuardOk(s', x) { assert GuardOk(s, x); }
  }

  lemma KeepShape(s: Store, g: nat)
    requires ShapeOk(s) && LiveGuard(s, g) && Unused(s, g)
    ensures ShapeOk(Finish(s, g, false))
  {
    hide GuardOk, TransitOk, TableOk, SlotsOk, EntryOk;
    var s' := Finish(s, g, false);
    GuardFacts(s, g);
    forall x | x in s'.tables ensures TableOk(s', x) && SlotsOk(s', x) { SlotsFrame(s, s', x); }
    forall x | x in s'.entries ensures EntryOk(s', x) { KeepEntry(s, g, x); }
    forall x | x in s'.handles ensures HandleOk(s', x) { assert HandleOk(s, x); }
    LessTransits(s, s', g);
    OldGuards(s);
    LessGuards(s, s', g);
  }

  lemma KeepEntry(s: Store, g: nat, x: nat)
    requires LiveGuard(s, g) && EntryOk(s, x) && s.entries[s.guards[g].entry].refs >= 2
    ensures EntryOk(Finish(s, g, false), x)
  {
    LostGuardCount(s, Finish(s, g, false), g);
  }

  /** What removing a guard's slot touches. */
  lemma RemoveEffect(s: Store, g: nat)
    requires LiveGuard(s, g)
    requires var Guard(h, key, e) := s.guards[g]; key in s.tables[s.handles[h]].slots && s.tables[s.handles[h]].slots[key] == e
    ensures var s' := Finish(s, g, true); var Guard(h, key, e) := s.guards[g]; var t := s.handles[h];
      && s'.dir == s.dir && s'.handles == s.handles && s'.nextId == s.nextId
      && s'.tables == s.tables[t := s.tables[t].(slots := s.tables[t].slots - {key})]
      && forall y :: y in s.entries && y != e ==> y in s'.entries && s'.entries[y] == s.entries[y]
  {
    hide Unref;
    var Guard(h, key, e) := s.guards[g];
    var t := s.handles[h];
    var s1 := s.(guards := s.guards - {g}).(tables := s.tables[t := s.tables[t].(slots := s.tables[t].slots - {key})]);
    UnrefEffect(s1, e);
    UnrefEffect(Unref(s1, e), e);
  }

  lemma UnrefEffect(s: Store, e: nat)
    ensures Unref(s, e) == s.(entries := Unref(s, e).entries)
    ensures forall y :: y in s.entries && y != e ==> y in Unref(s, e).entries && Unref(s, e).entries[y] == s.entries[y]
  {
    hide Released;
    forall y | y in s.entries && y != e ensures y in Released(s.entries, e) && Released(s.entries, e)[y] == s.entries[y] {
      ReleasedOther(s.entries, e, y);
    }
  }

  lemma ReleasedOther(entries: map<nat, Entry>, e: nat, y: nat)
    requires y in entries && y != e
    ensures y in Released(entries, e) && Released(entries, e)[y] == entries[y]
  {
  }

  lemma RemoveTable(s: Store, g: nat, x: nat)
    requires LiveGuard(s, g) && TableOk(s, x) && SlotsOk(s, x)
    requires var Guard(h, key, e) := s.guards[g]; key in s.tables[s.handles[h]].slots && s.tables[s.handles[h]].slots[key] == e
    requires s.entries[s.guards[g].entry].table == s.handles[s.guards[g].handle] && s.entries[s.guards[g].entry].key == s.guards[g].key
    ensures TableOk(Finish(s, g, true), x) && SlotsOk(Finish(s, g, true), x)
  {
    hide Finish;
    RemoveEffect(s, g);
    assert HandlesOf(Finish(s, g, true), x) == HandlesOf(s, x);
  }

  lemma RemoveEntry(s: Store, g: nat, x: nat)
    requires LiveGuard(s, g) && EntryOk(s, x) && x != s.guards[g].entry
    requires var Guard(h, key, e) := s.guards[g];
      key in s.tables[s.handles[h]].slots && s.tables[s.handles[h]].slots[key] == e && s.entries[e].refs == 2
    ensures EntryOk(Finish(s, g, true), x)
  {
    LostGuardCount(s, Finish(s, g, true), g);
  }

  lemma OnlyGuard(s: Store, g: nat, x: nat)
    requires g in s.guards && x in s.guards && |GuardsOf(s, s.guards[g].entry)| == 1
    ensures s.guards[x].entry == s.guards[g].entry ==> x == g
  {
    var gs := GuardsOf(s, s.guards[g].entry);
    assert g in gs;
    assert |gs - {g}| == 0;
    assert x !in gs - {g};
  }

  lemma RemoveShape(s: Store, g: nat)
    requires ShapeOk(s) && LiveGuard(s, g) && Unused(s, g) && s.entries[s.guards[g].entry].refs <= 2
    ensures ShapeOk(Finish(s, g, true))
  {
    hide GuardOk, TransitOk, TableOk, SlotsOk, EntryOk;
    var s' := Finish(s, g, true);
    GuardFacts(s, g);
    forall x | x in s'.tables ensures TableOk(s', x) && SlotsOk(s', x) { RemoveTable(s, g, x); }
    forall x | x in s'.entries ensures EntryOk(s', x) { RemoveEntry(s, g, x); }
    forall x | x in s'.handles ensures HandleOk(s', x) { assert HandleOk(s, x); }
    LessTransits(s, s', g);
    OldGuards(s);
    forall x | x in s'.guards ensures s.guards[x].entry in s'.entries { OnlyGuard(s, g, x); }
    LessGuards(s, s', g);
  }

  lemma DropLines(s: Store, g: nat)
    requires ShapeOk(s) && LiveGuard(s, g)
    ensures forall p :: LineAt(DropGuard(s, g), p) == LineAt(s, p)
    ensures DropGuard(s, g).enqueued == s.enqueued && DropGuard(s, g).woken == s.woken
  {
    hide ShapeOk;
    GuardFacts(s, g);
  }

  lemma DropGuardInv(s: Store, g: nat)
    requires Inv(s) && LiveGuard(s, g) && Unused(s, g)
    ensures Inv(DropGuard(s, g))
  {
    hide ShapeOk, WaitersOk, LineAt, Finish, Unused, LiveGuard;
    if Decide(s, g) { RemoveShape(s, g); } else { KeepShape(s, g); }
    DropLines(s, g);
    SameWaiters(s, DropGuard(s, g));
  }

  // ---------------------------------------------------------- dropping handles

  lemma DropHandleTable(s: Store, h: nat, x: nat)
    requires LiveHandle(s, h) && TableOk(s, x) && SlotsOk(s, x)
    ensures TableOk(DropHandle(s, h), x) && SlotsOk(DropHandle(s, h), x)
  {
    var s' := DropHandle(s, h);
    if x == s.handles[h] {
      assert h in HandlesOf(s, x) && HandlesOf(s', x) == HandlesOf(s, x) - {h};
    } else {
      assert HandlesOf(s', x) == HandlesOf(s, x);
    }
  }

  lemma DropHandleEntry(s: Store, h: nat, e: nat)
    requires LiveHandle(s, h) && EntryOk(s, e)
    ensures EntryOk(DropHandle(s, h), e)
  {
    assert GuardsOf(DropHandle(s, h), e) == GuardsOf(s, e);
  }

  lemma DropHandleGuards(s: Store, s': Store, h: nat)
    requires forall g :: g in s.guards ==> GuardOk(s, g) && s.guards[g].handle != h
    requires forall r :: r in s.transits ==> TransitOk(s, r)
    requires s'.handles == s.handles - {h} && s'.guards == s.guards && s'.entries == s.entries && s'.transits == s.transits && s'.nextId == s.nextId
    ensures forall g :: g in s'.guards ==> GuardOk(s', g)
    ensures forall r :: r in s'.transits ==> TransitOk(s', r)
  {
    forall g | g in s'.guards ensures GuardOk(s', g) { assert GuardOk(s, g); }
    forall r | r in s'.transits ensures TransitOk(s', r) { assert TransitOk(s, r); }
  }

  lemma DropHandleInv(s: Store, h: nat)
    requires Inv(s) && LiveHandle(s, h) && forall g :: g in s.guards ==> s.guards[g].handle != h
    ensures Inv(DropHandle(s, h))
  {
    hide GuardOk, TransitOk, TableOk, SlotsOk, EntryOk, WaitersOk;
    var s' := DropHandle(s, h);
    forall x | x in s'.tables ensures TableOk(s', x) && SlotsOk(s', x) { DropHandleTable(s, h, x); }
    forall x | x in s'.entries ensures EntryOk(s', x) { DropHandleEntry(s, h, x); }
    forall x | x in s'.handles ensures HandleOk(s', x) { assert HandleOk(s, x); }
    DropHandleGuards(s, s', h);
    SameWaiters(s, s');
  }

  // ---------------------------------------------------------------- every run

  /** Every step keeps the reference counts exact and every waiter accounted for. */
  lemma StepInv(s: Store, s': Store)
    requires Inv(s) && Next(s, s')
    ensures Inv(s')
  {
    hide Inv, Lookup, Get, GetOrInsert, Wait, Wake, Drain, Extend, DropGuard, DropHandle, LiveHandle, LiveGuard, Unused;
    if DirOk(s) && exists tk :: s' == Lookup(s, tk) {
      var tk :| s' == Lookup(s, tk);
      LookupInv(s, tk);
    } else if exists h, key :: LiveHandle(s, h) && s' == Get(s, h, key) {
      var h, key :| LiveHandle(s, h) && s' == Get(s, h, key);
      GuardInv(s, h, key);
    } else if exists h, key :: LiveHandle(s, h) && s' == GetOrInsert(s, h, key) {
      var h, key :| LiveHandle(s, h) && s' == GetOrInsert(s, h, key);
      GuardInv(s, h, key);
    } else if exists g, w: Waiter, condition :: LiveGuard(s, g) && w.id !in s.enqueued && s' == Wait(s, g, w, condition) {
      var g, w: Waiter, condition :| LiveGuard(s, g) && w.id !in s.enqueued && s' == Wait(s, g, w, condition);
      WaitInv(s, g, w, condition);
    } else if exists g, count, mask :: LiveGuard(s, g) && s' == Wake(s, g, count, mask) {
      var g, count, mask :| LiveGuard(s, g) && s' == Wake(s, g, count, mask);
      WakeInv(s, g, count, mask);
    } else if exists src, dst, count :: LiveGuard(s, src) && LiveGuard(s, dst) && s' == Drain(s, src, dst, count) {
      var src, dst, count :| LiveGuard(s, src) && LiveGuard(s, dst) && s' == Drain(s, src, dst, count);
      DrainInv(s, src, dst, count);
    } else if exists r :: r in s.transits && LiveGuard(s, s.transits[r].dst) && s' == Extend(s, r) {
      var r :| r in s.transits && LiveGuard(s, s.transits[r].dst) && s' == Extend(s, r);
      ExtendInv(s, r);
    } else if exists g :: LiveGuard(s, g) && Unused(s, g) && s' == DropGuard(s, g) {
      var g :| LiveGuard(s, g) && Unused(s, g) && s' == DropGuard(s, g);
      DropGuardInv(s, g);
    } else {
      var h :| LiveHandle(s, h) && (forall g :: g in s.guards ==> s.guards[g].handle != h) && s' == DropHandle(s, h);
      DropHandleInv(s, h);
    }
  }

  lemma EmptyInv()
    ensures Inv(Empty)
  {
    forall p, id ensures !Standing(Empty, p, id) { }
  }

  lemma {:induction false} RunInv(run: seq<Store>, i: nat)
    requires IsRun(run) && i < |run|
    ensures Inv(run[i])
  {
    hide Inv, Next;
    if i == 0 { EmptyInv(); } else { RunInv(run, i - 1); StepInv(run[i - 1], run[i]); }
  }

  // ------------------------------------------------------- addresses never move

  /** The directory key and slot key of entry `e`. */
  ghost predicate Lives(s: Store, e: nat, tk: TableKey, key: nat) {
    e in s.entries && s.entries[e].table in s.tables && s.tables[s.entries[e].table].home == tk && s.entries[e].key == key
  }

  ghost predicate SameHomes(s: Store, s': Store) {
    && (forall t :: t in s.tables ==> t in s'.tables && s'.tables[t].home == s.tables[t].home)
    && (forall e :: e in s.entries ==> e in s'.entries && s'.entries[e].table == s.entries[e].table && s'.entries[e].key == s.entries[e].key)
  }

  lemma QuietSteps(s: Store, h: nat, key: nat)
    requires ShapeOk(s) && LiveHandle(s, h)
    ensures SameHomes(s, Get(s, h, key)) && SameHomes(s, GetOrInsert(s, h, key)) && SameHomes(s, DropHandle(s, h))
  {
    hide TableOk, SlotsOk, HandleOk, GuardOk, TransitOk, EntryOk, Borrow, Insert, DropHandle, SameHomes, DirOk;
    FreshEntry(s, s.nextId + 1);
    if Holds(s, h, key) { BorrowHomes(s, h, key, s.tables[s.handles[h]].slots[key]); }
    InsertHomes(s, h, key);
    HandleHomes(s, h);
    SameHomesRefl(s);
  }

  lemma SameHomesRefl(s: Store)
    ensures SameHomes(s, s)
  {
  }

  lemma HandleHomes(s: Store, h: nat)
    requires LiveHandle(s, h)
    ensures SameHomes(s, DropHandle(s, h))
  {
  }

  lemma BorrowHomes(s: Store, h: nat, key: nat, e: nat)
    requires e in s.entries
    ensures SameHomes(s, Borrow(s, h, key, e))
  {
  }

  lemma InsertHomes(s: Store, h: nat, key: nat)
    requires LiveHandle(s, h) && s.nextId + 1 !in s.entries
    ensures SameHomes(s, Insert(s, h, key))
  {
  }

  lemma TickStays(s: Store, tk: TableKey, t: nat)
    requires DirOk(s) && t in s.tables && Survives(s.tables[t])
    ensures var s1 := Tick(s, tk); t in s1.tables && s1.tables[t] == s.tables[t] && s1.entries == s.entries
  {
    hide Survives, Sweep;
    SweepKeeps(s.(operations := 0), t);
  }

  lemma SweepKeeps(s: Store, t: nat)
    requires DirOk(s)
    ensures Sweep(s).entries == s.entries && Sweep(s).transits == s.transits && Sweep(s).address == s.address && Sweep(s).operations == s.operations
    ensures t in s.tables && Survives(s.tables[t]) ==> t in Sweep(s).tables && Sweep(s).tables[t] == s.tables[t]
  {
    hide Survives;
  }

  lemma LookupStays(s: Store, tk: TableKey, e: nat)
    requires DirOk(s) && EntryOk(s, e) && TableOk(s, s.entries[e].table)
    ensures var s' := Lookup(s, tk); var t := s.entries[e].table;
      e in s'.entries && s'.entries[e] == s.entries[e] && t in s'.tables && s'.tables[t].home == s.tables[t].home
  {
    hide Tick, DirOk;
    var t := s.entries[e].table;
    assert Survives(s.tables[t]);
    TickStays(s, tk, t);
  }

  lemma QueueSteps(s: Store, g: nat, w: Waiter, condition: bool, count: nat, mask: bv32, dst: nat)
    requires LiveGuard(s, g)
    ensures SameHomes(s, Wait(s, g, w, condition)) && SameHomes(s, Wake(s, g, count, mask)) && SameHomes(s, Drain(s, g, dst, count))
    ensures forall r :: r in s.transits && s.transits[r].dst == g ==> SameHomes(s, Extend(s, r))
  {
    hide SameHomes, Wait, Wake, Drain, Extend, LiveGuard;
    WaitHomes(s, g, w, condition);
    WakeHomes(s, g, count, mask);
    DrainHomes(s, g, dst, count);
    forall r | r in s.transits && s.transits[r].dst == g ensures SameHomes(s, Extend(s, r)) { ExtendHomes(s, r); }
  }

  lemma WaitHomes(s: Store, g: nat, w: Waiter, condition: bool)
    requires LiveGuard(s, g)
    ensures SameHomes(s, Wait(s, g, w, condition))
  {
    hide SetQueue, AddressOf;
    QueueHomes(s, s.guards[g].entry, QueueOf(s, g) + [w]);
  }

  lemma WakeHomes(s: Store, g: nat, count: nat, mask: bv32)
    requires LiveGuard(s, g)
    ensures SameHomes(s, Wake(s, g, count, mask))
  {
    hide SetQueue, Kept, Woken, Ids;
    QueueHomes(s, s.guards[g].entry, Kept(QueueOf(s, g), count, mask));
  }

  lemma DrainHomes(s: Store, g: nat, dst: nat, count: nat)
    requires LiveGuard(s, g)
    ensures SameHomes(s, Drain(s, g, dst, count))
  {
    hide SetQueue;
    QueueHomes(s, s.guards[g].entry, QueueOf(s, g)[Min(count, |QueueOf(s, g)|)..]);
  }

  lemma ExtendHomes(s: Store, r: nat)
    requires r in s.transits && LiveGuard(s, s.transits[r].dst)
    ensures SameHomes(s, Extend(s, r))
  {
    hide SetQueue, AddressOf, Ids;
    var g := s.transits[r].dst;
    QueueHomes(s, s.guards[g].entry, QueueOf(s, g) + s.transits[r].waiters);
  }

  lemma QueueHomes(s: Store, e: nat, q: seq<Waiter>)
    requires e in s.entries
    ensures SetQueue(s, e, q).tables == s.tables && SameHomes(s, SetQueue(s, e, q))
  {
  }

  lemma DropStays(s: Store, g: nat, e: nat)
    requires ShapeOk(s) && LiveGuard(s, g) && e in s.entries && s.entries[e].queue != []
    ensures var s' := DropGuard(s, g);
      e in s'.entries && s'.entries[e].table == s.entries[e].table && s'.entries[e].key == s.entries[e].key
    ensures forall t :: t in s.tables ==> t in DropGuard(s, g).tables && DropGuard(s, g).tables[t].home == s.tables[t].home
  {
    hide ShapeOk;
    GuardFacts(s, g);
  }

  /** Whatever the next step is, an entry with waiters keeps its address. */
  lemma AddressStays(s: Store, s': Store, e: nat, tk: TableKey, key: nat)
    requires Inv(s) && Next(s, s') && Lives(s, e, tk, key) && s.entries[e].queue != []
    ensures Lives(s', e, tk, key)
  {
    hide TableOk, SlotsOk, EntryOk, HandleOk, GuardOk, TransitOk, WaitersOk, DirOk, Lookup, Get, GetOrInsert, Wait, Wake, Drain, Extend, DropGuard, DropHandle, LiveHandle, LiveGuard, Unused;
    if DirOk(s) && exists k :: s' == Lookup(s, k) {
      var k :| s' == Lookup(s, k);
      LookupStays(s, k, e);
    } else if exists h, k :: LiveHandle(s, h) && s' == Get(s, h, k) {
      var h, k :| LiveHandle(s, h) && s' == Get(s, h, k);
      QuietSteps(s, h, k);
    } else if exists h, k :: LiveHandle(s, h) && s' == GetOrInsert(s, h, k) {
      var h, k :| LiveHandle(s, h) && s' == GetOrInsert(s, h, k);
      QuietSteps(s, h, k);
    } else if exists g, w: Waiter, condition :: LiveGuard(s, g) && s' == Wait(s, g, w, condition) {
      var g, w: Waiter, condition :| LiveGuard(s, g) && s' == Wait(s, g, w, condition);
      QueueSteps(s, g, w, condition, 0, 0, 0);
    } else if exists g, count, mask :: LiveGuard(s, g) && s' == Wake(s, g, count, mask) {
      var g, count, mask :| LiveGuard(s, g) && s' == Wake(s, g, count, mask);
      QueueSteps(s, g, Waiter(0, 0), false, count, mask, 0);
    } else if exists src, dst, count :: LiveGuard(s, src) && s' == Drain(s, src, dst, count) {
      var src, dst, count :| LiveGuard(s, src) && s' == Drain(s, src, dst, count);
      QueueSteps(s, src, Waiter(0, 0), false, count, 0, dst);
    } else if exists r :: r in s.transits && LiveGuard(s, s.transits[r].dst) && s' == Extend(s, r) {
      var r :| r in s.transits && LiveGuard(s, s.transits[r].dst) && s' == Extend(s, r);
      QueueSteps(s, s.transits[r].dst, Waiter(0, 0), false, 0, 0, 0);
    } else if exists g :: LiveGuard(s, g) && Unused(s, g) && s' == DropGuard(s, g) {
      var g :| LiveGuard(s, g) && Unused(s, g) && s' == DropGuard(s, g);
      DropStays(s, g, e);
    } else {
      var h :| LiveHandle(s, h) && s' == DropHandle(s, h);
      QuietSteps(s, h, 0);
    }
  }

  /** Whoever stands in a queue stands at the address last recorded for it. */
  ghost predicate Located(s: Store) {
    forall e, id :: Standing(s, InQueue(e), id) ==>
      id in s.address && Lives(s, e, s.address[id].home, s.address[id].key)
  }

  /** A step that only moves people out of queues, or leaves them, keeps them located. */
  lemma LocatedFrame(s: Store, s': Store)
    requires Inv(s) && Next(s, s') && Located(s) && s'.address == s.address
    requires forall e, id :: Standing(s', InQueue(e), id) ==> Standing(s, InQueue(e), id)
    ensures Located(s')
  {
    hide Inv, Next;
    forall e, id | Standing(s', InQueue(e), id)
      ensures id in s'.address && Lives(s', e, s'.address[id].home, s'.address[id].key)
    {
      assert Standing(s, InQueue(e), id);
      assert s.entries[e].queue != [] by { NoneInEmpty(id); }
      AddressStays(s, s', e, s.address[id].home, s.address[id].key);
    }
  }

  lemma WaitLocated(s: Store, g: nat, w: Waiter, condition: bool)
    requires Inv(s) && Located(s) && LiveGuard(s, g) && w.id !in s.enqueued
    ensures Located(Wait(s, g, w, condition))
  {
    hide TableOk, SlotsOk, EntryOk, HandleOk, TransitOk, DirOk, HasId, UniqueIds;
    if condition {
      var s' := Wait(s, g, w, condition);
      QueueSteps(s, g, w, condition, 0, 0, 0);
      assert GuardOk(s, g);
      var here := s.guards[g].entry;
      forall e, id | Standing(s', InQueue(e), id)
        ensures id in s'.address && Lives(s', e, s'.address[id].home, s'.address[id].key)
      {
        if e == here { HasAppend(QueueOf(s, g), [w], id); HasOne(w, id); }
        if !(e == here && id == w.id) { assert Standing(s, InQueue(e), id); }
      }
    }
  }

  lemma ExtendFacts(s: Store, r: nat, e: nat, id: nat)
    requires r in s.transits && LiveGuard(s, s.transits[r].dst) && Standing(Extend(s, r), InQueue(e), id)
    ensures var g := s.transits[r].dst; var m := s.transits[r].waiters;
      && (Standing(s, InQueue(e), id) || (e == s.guards[g].entry && Standing(s, InTransit(r), id)))
      && (Standing(s, InTransit(r), id) ==> id in Extend(s, r).address && Extend(s, r).address[id] == AddressOf(s, g))
      && (!Standing(s, InTransit(r), id) && id in s.address ==> id in Extend(s, r).address && Extend(s, r).address[id] == s.address[id])
  {
    hide HasId, Ids;
    var m := s.transits[r].waiters;
    IdsAre(m, id);
    if e == s.guards[s.transits[r].dst].entry { HasAppend(QueueOf(s, s.transits[r].dst), m, id); }
  }

  lemma ExtendLocated(s: Store, r: nat)
    requires Inv(s) && Located(s) && r in s.transits && LiveGuard(s, s.transits[r].dst)
    ensures Located(Extend(s, r))
  {
    hide TableOk, SlotsOk, EntryOk, HandleOk, TransitOk, DirOk, Standing, UniqueIds, Extend;
    var s', g := Extend(s, r), s.transits[r].dst;
    QueueSteps(s, g, Waiter(0, 0), false, 0, 0, 0);
    assert GuardOk(s, g);
    forall e, id | Standing(s', InQueue(e), id)
      ensures id in s'.address && Lives(s', e, s'.address[id].home, s'.address[id].key)
    {
      ExtendFacts(s, r, e, id);
      assert !(Standing(s, InTransit(r), id) && Standing(s, InQueue(e), id));
    }
  }

  lemma WakeLeaves(s: Store, g: nat, count: nat, mask: bv32, e: nat, id: nat)
    requires LiveGuard(s, g) && Standing(Wake(s, g, count, mask), InQueue(e), id)
    ensures Standing(s, InQueue(e), id)
  {
    hide HasId, Kept, Woken, Ids;
    if e == s.guards[g].entry { WakeIds(QueueOf(s, g), count, mask, id); }
  }

  lemma DrainLeaves(s: Store, src: nat, dst: nat, count: nat, e: nat, id: nat)
    requires LiveGuard(s, src) && Standing(Drain(s, src, dst, count), InQueue(e), id)
    ensures Standing(s, InQueue(e), id)
  {
    hide HasId;
    if e == s.guards[src].entry {
      var q := QueueOf(s, src);
      var n := Min(count, |q|);
      assert q == q[..n] + q[n..];
      HasAppend(q[..n], q[n..], id);
    }
  }

  lemma SameLines(s: Store, s': Store)
    requires forall p :: LineAt(s', p) == LineAt(s, p)
    ensures forall e, id :: Standing(s', InQueue(e), id) ==> Standing(s, InQueue(e), id)
  {
    forall e, id | Standing(s', InQueue(e), id) ensures Standing(s, InQueue(e), id) {
      assert LineAt(s', InQueue(e)) == LineAt(s, InQueue(e));
    }
  }

  /** Every step keeps every queued waiter at its recorded address. */
  lemma StepLocated(s: Store, s': Store)
    requires Inv(s) && Located(s) && Next(s, s')
    ensures Located(s')
  {
    hide Inv, Located, Standing, LiveGuard, Next, Wait, Extend;
    if exists g, w: Waiter, condition :: LiveGuard(s, g) && w.id !in s.enqueued && s' == Wait(s, g, w, condition) {
      var g, w: Waiter, condition :| LiveGuard(s, g) && w.id !in s.enqueued && s' == Wait(s, g, w, condition);
      WaitLocated(s, g, w, condition);
    } else if exists r :: r in s.transits && LiveGuard(s, s.transits[r].dst) && s' == Extend(s, r) {
      var r :| r in s.transits && LiveGuard(s, s.transits[r].dst) && s' == Extend(s, r);
      ExtendLocated(s, r);
    } else {
      OtherSteps(s, s');
      LocatedFrame(s, s');
    }
  }

  /** The steps that queue nobody. */
  lemma OtherSteps(s: Store, s': Store)
    requires Inv(s) && Next(s, s')
    requires !exists g, w: Waiter, condition :: LiveGuard(s, g) && w.id !in s.enqueued && s' == Wait(s, g, w, condition)
    requires !exists r :: r in s.transits && LiveGuard(s, s.transits[r].dst) && s' == Extend(s, r)
    ensures s'.address == s.address
    ensures forall e, id :: Standing(s', InQueue(e), id) ==> Standing(s, InQueue(e), id)
  {
    hide TableOk, SlotsOk, EntryOk, HandleOk, GuardOk, TransitOk, WaitersOk, DirOk, Standing, LineAt, Lookup, Get, GetOrInsert, Wait, Wake, Drain, Extend, DropGuard, DropHandle, LiveHandle, LiveGuard, Unused;
    if DirOk(s) && exists tk :: s' == Lookup(s, tk) {
      var tk :| s' == Lookup(s, tk);
      LookupAddress(s, tk);
      SameLines(s, s');
    } else if exists h, key :: LiveHandle(s, h) && s' == Get(s, h, key) {
      var h, key :| LiveHandle(s, h) && s' == Get(s, h, key);
      GuardLines(s, h, key);
      GuardAddress(s, h, key);
      SameLines(s, s');
    } else if exists h, key :: LiveHandle(s, h) && s' == GetOrInsert(s, h, key) {
      var h, key :| LiveHandle(s, h) && s' == GetOrInsert(s, h, key);
      GuardLines(s, h, key);
      GuardAddress(s, h, key);
      SameLines(s, s');
    } else if exists g, count, mask :: LiveGuard(s, g) && s' == Wake(s, g, count, mask) {
      var g, count, mask :| LiveGuard(s, g) && s' == Wake(s, g, count, mask);
      QueueAddress(s, g, count, mask, 0);
      forall e, id | Standing(s', InQueue(e), id) ensures Standing(s, InQueue(e), id) { WakeLeaves(s, g, count, mask, e, id); }
    } else if exists src, dst, count :: LiveGuard(s, src) && LiveGuard(s, dst) && s' == Drain(s, src, dst, count) {
      var src, dst, count :| LiveGuard(s, src) && LiveGuard(s, dst) && s' == Drain(s, src, dst, count);
      QueueAddress(s, src, count, 0, dst);
      forall e, id | Standing(s', InQueue(e), id) ensures Standing(s, InQueue(e), id) { DrainLeaves(s, src, dst, count, e, id); }
    } else if exists g :: LiveGuard(s, g) && Unused(s, g) && s' == DropGuard(s, g) {
      var g :| LiveGuard(s, g) && Unused(s, g) && s' == DropGuard(s, g);
      DropLines(s, g);
      DropAddress(s, g);
      SameLines(s, s');
    } else {
      var h :| LiveHandle(s, h) && s' == DropHandle(s, h);
      HandleAddress(s, h);
      SameLines(s, s');
    }
  }

  lemma LookupAddress(s: Store, tk: TableKey)
    requires DirOk(s)
    ensures Lookup(s, tk).address == s.address && forall p :: LineAt(Lookup(s, tk), p) == LineAt(s, p)
  {
    hide Tick, LineAt;
    TickAddress(s, tk);
    LookupLines(Tick(s, tk), tk);
  }

  lemma TickAddress(s: Store, tk: TableKey)
    requires DirOk(s)
    ensures Tick(s, tk).address == s.address && forall p :: LineAt(Tick(s, tk), p) == LineAt(s, p)
  {
    hide Survives, Sweep;
    SweepKeeps(s.(operations := 0), 0);
  }

  lemma GuardAddress(s: Store, h: nat, key: nat)
    requires LiveHandle(s, h)
    ensures Get(s, h, key).address == GetOrInsert(s, h, key).address == s.address
  {
  }

  lemma QueueAddress(s: Store, g: nat, count: nat, mask: bv32, dst: nat)
    requires LiveGuard(s, g)
    ensures Wake(s, g, count, mask).address == Drain(s, g, dst, count).address == s.address
  {
  }

  lemma DropAddress(s: Store, g: nat)
    requires LiveGuard(s, g)
    ensures DropGuard(s, g).address == s.address
  {
  }

  lemma HandleAddress(s: Store, h: nat)
    requires LiveHandle(s, h)
    ensures DropHandle(s, h).address == s.address && forall p :: LineAt(DropHandle(s, h), p) == LineAt(s, p)
  {
  }

  lemma {:induction false} RunLocated(run: seq<Store>, i: nat)
    requires IsRun(run) && i < |run|
    ensures Located(run[i])
  {
    hide Inv, Next, Located;
    if i == 0 { EmptyLocated(); } else { RunInv(run, i - 1); RunLocated(run, i - 1); StepLocated(run[i - 1], run[i]); }
  }

  lemma EmptyLocated()
    ensures Located(Empty)
  {
  }
}
