/**
  Futex storage: a directory of per-process and per-region tables, each mapping
  an address or offset to a reference-counted entry with a wait queue. Entries
  disappear when the last guard on an empty queue is dropped; shared tables
  disappear in a sweep run on every hundredth lookup.
*/
module FutexStoreSpec {
  import opened FutexQueue
  import opened Sums

  datatype TableKey = Private(proc: nat) | Shared(region: nat)

  /** A table, the directory key it was created for, and its reference count. */
  datatype Table = Table(home: TableKey, slots: map<nat, nat>, refs: nat)

  /** An entry, the slot it was created for, its queue and its reference count. */
  datatype Entry = Entry(table: nat, key: nat, queue: seq<Waiter>, refs: nat)

  /** A borrowed entry: the table handle it was reached through, its key, the entry. */
  datatype Guard = Guard(handle: nat, key: nat, entry: nat)

  /** Waiters taken from `src`'s queue and not yet appended to `dst`'s. */
  datatype Transit = Transit(waiters: seq<Waiter>, src: nat, dst: nat)

  /** Where a waiter waits: a directory key and a slot key. */
  datatype Address = Address(home: TableKey, key: nat)

  /** `enqueued`, `woken` and `address` are histories: every waiter ever queued, every
      one woken, and the address each was last queued or requeued at. */
  datatype Store = Store(
    dir: map<TableKey, nat>,
    operations: nat,
    tables: map<nat, Table>,
    entries: map<nat, Entry>,
    handles: map<nat, nat>,
    guards: map<nat, Guard>,
    transits: map<nat, Transit>,
    enqueued: set<nat>,
    woken: set<nat>,
    address: map<nat, Address>,
    nextId: nat)

  const Empty := Store(map[], 0, map[], map[], map[], map[], map[], {}, {}, map[], 0)

  const SWEEP_PERIOD: nat := 100

  /** The directory names existing tables. */
  predicate DirOk(s: Store) {
    forall tk :: tk in s.dir ==> s.dir[tk] in s.tables && s.tables[s.dir[tk]].home == tk
  }

  /** Tables that survive a sweep: private ones, and shared ones in use or non-empty. */
  predicate Survives(table: Table) {
    table.home.Private? || table.refs > 1 || table.slots != map[]
  }

  function Sweep(s: Store): Store
    requires DirOk(s)
  {
    s.(dir := map tk | tk in s.dir && Survives(s.tables[s.dir[tk]]) :: s.dir[tk],
       tables := map t | t in s.tables && Survives(s.tables[t]) :: s.tables[t])
  }

  /** Count the lookup and sweep on every hundredth. Private tables are not counted. */
  function Tick(s: Store, tk: TableKey): (s': Store)
    requires DirOk(s)
    ensures DirOk(s') && s'.nextId == s.nextId
  {
    if tk.Private? then s
    else if s.operations + 1 == SWEEP_PERIOD then Sweep(s.(operations := 0))
    else s.(operations := s.operations + 1)
  }

  /** Obtain a counted handle on the table for `tk`, creating the table if needed. */
  function Lookup(s: Store, tk: TableKey): Store
    requires DirOk(s)
  {
    var s1 := Tick(s, tk);
    if tk in s1.dir then Share(s1, s1.dir[tk]) else Open(s1, tk)
  }

  function Share(s: Store, t: nat): Store
    requires t in s.tables
  {
    s.(tables := s.tables[t := s.tables[t].(refs := s.tables[t].refs + 1)],
       handles := s.handles[s.nextId := t], nextId := s.nextId + 1)
  }

  function Open(s: Store, tk: TableKey): Store {
    var t := s.nextId + 1;
    s.(dir := s.dir[tk := t], tables := s.tables[t := Table(tk, map[], 2)],
       handles := s.handles[s.nextId := t], nextId := s.nextId + 2)
  }

  predicate LiveHandle(s: Store, h: nat) { h in s.handles && s.handles[h] in s.tables }

  function Borrow(s: Store, h: nat, key: nat, e: nat): Store
    requires e in s.entries
  {
    s.(entries := s.entries[e := s.entries[e].(refs := s.entries[e].refs + 1)],
       guards := s.guards[s.nextId := Guard(h, key, e)], nextId := s.nextId + 1)
  }

  function Insert(s: Store, h: nat, key: nat): Store
    requires LiveHandle(s, h)
  {
    var t, e := s.handles[h], s.nextId + 1;
    s.(tables := s.tables[t := s.tables[t].(slots := s.tables[t].slots[key := e])],
       entries := s.entries[e := Entry(t, key, [], 2)],
       guards := s.guards[s.nextId := Guard(h, key, e)], nextId := s.nextId + 2)
  }

  predicate Holds(s: Store, h: nat, key: nat) {
    LiveHandle(s, h) && key in s.tables[s.handles[h]].slots && s.tables[s.handles[h]].slots[key] in s.entries
  }

  function Get(s: Store, h: nat, key: nat): Store
    requires LiveHandle(s, h)
  {
    if Holds(s, h, key) then Borrow(s, h, key, s.tables[s.handles[h]].slots[key]) else s
  }

  function GetOrInsert(s: Store, h: nat, key: nat): Store
    requires LiveHandle(s, h)
  {
    if Holds(s, h, key) then Borrow(s, h, key, s.tables[s.handles[h]].slots[key]) else Insert(s, h, key)
  }

  predicate LiveGuard(s: Store, g: nat) {
    g in s.guards && LiveHandle(s, s.guards[g].handle) && s.guards[g].entry in s.entries
  }

  function SetQueue(s: Store, e: nat, q: seq<Waiter>): Store
    requires e in s.entries
  {
    s.(entries := s.entries[e := s.entries[e].(queue := q)])
  }

  function QueueOf(s: Store, g: nat): seq<Waiter>
    requires LiveGuard(s, g)
  {
    s.entries[s.guards[g].entry].queue
  }

  /** The address a guard was obtained for. */
  function AddressOf(s: Store, g: nat): Address
    requires LiveGuard(s, g)
  {
    Address(s.tables[s.handles[s.guards[g].handle]].home, s.guards[g].key)
  }

  function Wait(s: Store, g: nat, w: Waiter, condition: bool): Store
    requires LiveGuard(s, g)
  {
    if !condition then s
    else SetQueue(s, s.guards[g].entry, QueueOf(s, g) + [w])
           .(enqueued := s.enqueued + {w.id}, address := s.address[w.id := AddressOf(s, g)])
  }

  function Ids(q: seq<Waiter>): set<nat> { set i | 0 <= i < |q| :: q[i].id }

  function Wake(s: Store, g: nat, count: nat, mask: bv32): Store
    requires LiveGuard(s, g)
  {
    var q := QueueOf(s, g);
    SetQueue(s, s.guards[g].entry, Kept(q, count, mask)).(woken := s.woken + Ids(Woken(q, count, mask)))
  }

  /** First half of a requeue: take waiters off the source queue. */
  function Drain(s: Store, src: nat, dst: nat, count: nat): Store
    requires LiveGuard(s, src)
  {
    var q := QueueOf(s, src);
    var n := Min(count, |q|);
    SetQueue(s, s.guards[src].entry, q[n..])
      .(transits := s.transits[s.nextId := Transit(q[..n], src, dst)], nextId := s.nextId + 1)
  }

  /** Second half: append them to the target queue. */
  function Extend(s: Store, r: nat): Store
    requires r in s.transits && LiveGuard(s, s.transits[r].dst)
  {
    var g := s.transits[r].dst;
    SetQueue(s, s.guards[g].entry, QueueOf(s, g) + s.transits[r].waiters)
      .(transits := s.transits - {r}, address := s.address + map id | id in Ids(s.transits[r].waiters) :: AddressOf(s, g))
  }

  /** The test a dropped guard makes before touching the table. */
  predicate Decide(s: Store, g: nat)
    requires LiveGuard(s, g)
  {
    s.entries[s.guards[g].entry].refs <= 2 && QueueOf(s, g) == []
  }

  /** Release one count of entry `e`; the last one frees it together with its queue. */
  function Unref(s: Store, e: nat): Store { s.(entries := Released(s.entries, e)) }

  function Released(entries: map<nat, Entry>, e: nat): map<nat, Entry> {
    if e !in entries then entries
    else if entries[e].refs <= 1 then entries - {e}
    else entries[e := entries[e].(refs := entries[e].refs - 1)]
  }

  /** Drop guard `g` after its test came out as `remove`. */
  function Finish(s: Store, g: nat, remove: bool): Store
    requires LiveGuard(s, g)
  {
    var Guard(h, key, e) := s.guards[g];
    var t := s.handles[h];
    var s1 := s.(guards := s.guards - {g});
    var s2 := if remove && key in s.tables[t].slots
              then Unref(s1.(tables := s.tables[t := s.tables[t].(slots := s.tables[t].slots - {key})]), s.tables[t].slots[key])
              else s1;
    Unref(s2, e)
  }

  /** The test and the removal as one step. */
  function DropGuard(s: Store, g: nat): Store
    requires LiveGuard(s, g)
  {
    Finish(s, g, Decide(s, g))
  }

  predicate Unused(s: Store, g: nat) {
    forall r :: r in s.transits ==> s.transits[r].src != g && s.transits[r].dst != g
  }

  function DropHandle(s: Store, h: nat): Store
    requires LiveHandle(s, h)
  {
    var t := s.handles[h];
    s.(handles := s.handles - {h},
       tables := s.tables[t := s.tables[t].(refs := if s.tables[t].refs == 0 then 0 else s.tables[t].refs - 1)])
  }

  ghost predicate Next(s: Store, s': Store) {
    || (DirOk(s) && exists tk :: s' == Lookup(s, tk))
    || (exists h, key :: LiveHandle(s, h) && s' == Get(s, h, key))
    || (exists h, key :: LiveHandle(s, h) && s' == GetOrInsert(s, h, key))
    || (exists g, w: Waiter, condition :: LiveGuard(s, g) && w.id !in s.enqueued && s' == Wait(s, g, w, condition))
    || (exists g, count, mask :: LiveGuard(s, g) && s' == Wake(s, g, count, mask))
    || (exists src, dst, count :: LiveGuard(s, src) && LiveGuard(s, dst) && s' == Drain(s, src, dst, count))
    || (exists r :: r in s.transits && LiveGuard(s, s.transits[r].dst) && s' == Extend(s, r))
    || (exists g :: LiveGuard(s, g) && Unused(s, g) && s' == DropGuard(s, g))
    || (exists h :: LiveHandle(s, h) && (forall g :: g in s.guards ==> s.guards[g].handle != h) && s' == DropHandle(s, h))
  }

  ghost predicate IsRun(run: seq<Store>) {
    && run != [] && run[0] == Empty
    && forall i :: 0 <= i < |run| - 1 ==> Next(run[i], run[i + 1])
  }
}
