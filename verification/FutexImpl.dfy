/** The futex directory, tables, entries and guards as one object updated in place. */
module FutexImpl {
  import opened FutexQueue
  import opened FutexStoreSpec
  import opened Sums

  method RetainTables(tables: map<nat, Table>) returns (kept: map<nat, Table>)
    ensures kept == map t | t in tables && Survives(tables[t]) :: tables[t]
  {
    hide Survives;
    var todo := tables.Keys;
    kept := map[];
    while todo != {}
      invariant todo <= tables.Keys
      invariant forall t :: t in kept <==> t in tables && t !in todo && Survives(tables[t])
      invariant forall t :: t in kept ==> kept[t] == tables[t]
      decreases |todo|
    {
      var t: nat :| t in todo;
      todo := todo - {t};
      if Survives(tables[t]) {
        kept := kept[t := tables[t]];
      }
    }
  }

  method RetainNames(dir: map<TableKey, nat>, tables: map<nat, Table>) returns (kept: map<TableKey, nat>)
    requires forall tk :: tk in dir ==> dir[tk] in tables
    ensures kept == map tk | tk in dir && Survives(tables[dir[tk]]) :: dir[tk]
  {
    hide Survives;
    var todo := dir.Keys;
    kept := map[];
    while todo != {}
      invariant todo <= dir.Keys
      invariant forall tk :: tk in kept <==> tk in dir && tk !in todo && Survives(tables[dir[tk]])
      invariant forall tk :: tk in kept ==> kept[tk] == dir[tk]
      decreases |todo|
    {
      var tk: TableKey :| tk in todo;
      todo := todo - {tk};
      if Survives(tables[dir[tk]]) {
        kept := kept[tk := dir[tk]];
      }
    }
  }

  class FutexStorage {
    var dir: map<TableKey, nat>
    var operations: nat
    var tables: map<nat, Table>
    var entries: map<nat, Entry>
    var handles: map<nat, nat>
    var guards: map<nat, Guard>
    var transits: map<nat, Transit>
    ghost var enqueued: set<nat>
    ghost var woken: set<nat>
    ghost var address: map<nat, Address>
    var nextId: nat

    ghost function View(): Store
      reads this
    {
      Store(dir, operations, tables, entries, handles, guards, transits, enqueued, woken, address, nextId)
    }

    constructor ()
      ensures View() == Empty
    {
      dir, operations, tables, entries, handles, guards, transits := map[], 0, map[], map[], map[], map[], map[];
      enqueued, woken, address, nextId := {}, {}, map[], 0;
    }

    /** Drop every table that nobody uses and that holds nothing. */
    method SweepTables()
      requires DirOk(View())
      modifies this
      ensures View() == Sweep(old(View()))
    {
      hide Survives;
      var live := RetainNames(dir, tables);
      tables := RetainTables(tables);
      dir := live;
    }

    /** A handle on the table for `tk`; every hundredth shared lookup sweeps first. */
    method TableFor(tk: TableKey) returns (h: nat)
      requires DirOk(View())
      modifies this
      ensures View() == Lookup(old(View()), tk) && h == old(nextId)
    {
      hide Tick;
      Count(tk);
      h := nextId;
      if tk in dir {
        var t := dir[tk];
        tables := tables[t := tables[t].(refs := tables[t].refs + 1)];
        handles, nextId := handles[h := t], h + 1;
      } else {
        var t := h + 1;
        dir, tables := dir[tk := t], tables[t := Table(tk, map[], 2)];
        handles, nextId := handles[h := t], h + 2;
      }
    }

    method Count(tk: TableKey)
      requires DirOk(View())
      modifies this
      ensures View() == Tick(old(View()), tk)
    {
      hide Sweep;
      if tk.Shared? {
        operations := operations + 1;
        if operations == SWEEP_PERIOD {
          operations := 0;
          SweepTables();
        }
      }
    }

    method Lock(h: nat, key: nat, create: bool) returns (found: bool, g: nat)
      requires LiveHandle(View(), h)
      modifies this
      ensures View() == if create then GetOrInsert(old(View()), h, key) else Get(old(View()), h, key)
      ensures found <==> create || Holds(old(View()), h, key)
      ensures found ==> g == old(nextId) && g in guards && guards[g].handle == h && guards[g].key == key
    {
      var t := handles[h];
      g := nextId;
      if key in tables[t].slots && tables[t].slots[key] in entries {
        var e := tables[t].slots[key];
        entries := entries[e := entries[e].(refs := entries[e].refs + 1)];
        guards, nextId := guards[g := Guard(h, key, e)], g + 1;
        return true, g;
      }
      if !create {
        return false, g;
      }
      var e := g + 1;
      tables := tables[t := tables[t].(slots := tables[t].slots[key := e])];
      entries := entries[e := Entry(t, key, [], 2)];
      guards, nextId := guards[g := Guard(h, key, e)], g + 2;
      return true, g;
    }

    /** Wait on the locked entry's queue, if the condition holds under its lock. */
    method WaitOn(g: nat, w: Waiter, condition: bool) returns (waits: bool)
      requires LiveGuard(View(), g)
      modifies this
      ensures View() == Wait(old(View()), g, w, condition) && waits == condition
    {
      var e := guards[g].entry;
      ghost var at := AddressOf(View(), g);
      var wq := new WaitQueue.Holding(entries[e].queue);
      waits := wq.WaitIf(w, condition);
      if waits {
        entries := entries[e := entries[e].(queue := wq.queue)];
        enqueued, address := enqueued + {w.id}, address[w.id := at];
      }
    }

    /** Wake up to `count` matching waiters of the locked entry. */
    method WakeOn(g: nat, count: nat, mask: bv32) returns (woke: nat)
      requires LiveGuard(View(), g)
      modifies this
      ensures View() == Wake(old(View()), g, count, mask)
      ensures var q := QueueOf(old(View()), g); woke == |Woken(q, count, mask)| == Min(count, |Sharing(q, |q|, mask)|)
    {
      hide Kept, Woken, Sharing;
      var e := guards[g].entry;
      var wq := new WaitQueue.Holding(entries[e].queue);
      ghost var who;
      woke, who := wq.Wake(count, mask);
      entries := entries[e := entries[e].(queue := wq.queue)];
      woken := woken + Ids(who);
    }

    /** Take up to `count` waiters off the source's queue. */
    method DrainFrom(src: nat, dst: nat, count: nat) returns (r: nat)
      requires LiveGuard(View(), src)
      modifies this
      ensures View() == Drain(old(View()), src, dst, count) && r == old(nextId)
    {
      var e := guards[src].entry;
      var q := entries[e].queue;
      var n := Min(count, |q|);
      r := nextId;
      entries := entries[e := entries[e].(queue := q[n..])];
      transits, nextId := transits[r := Transit(q[..n], src, dst)], r + 1;
    }

    /** Append them to the target's queue. */
    method ExtendTo(r: nat)
      requires r in transits && LiveGuard(View(), transits[r].dst)
      modifies this
      ensures View() == Extend(old(View()), r)
    {
      var Transit(waiters, src, dst) := transits[r];
      var e := guards[dst].entry;
      ghost var at := AddressOf(View(), dst);
      entries := entries[e := entries[e].(queue := entries[e].queue + waiters)];
      transits := transits - {r};
      address := address + map id | id in Ids(waiters) :: at;
    }

    /** Requeue with nothing in between: the two steps, which leave the two queues as one
        wait queue's requeue onto another, or onto itself, does. */
    method RequeueOn(src: nat, dst: nat, count: nat) returns (moved: nat)
      requires LiveGuard(View(), src) && LiveGuard(View(), dst)
      modifies this
      ensures var s := Drain(old(View()), src, dst, count);
        LiveGuard(s, dst) && View() == Extend(s, old(nextId))
      ensures LiveGuard(View(), src) && LiveGuard(View(), dst)
      ensures var s, t := QueueOf(old(View()), src), QueueOf(old(View()), dst);
        && moved == Min(count, |s|)
        && if guards[src].entry == guards[dst].entry then QueueOf(View(), src) == s[moved..] + s[..moved]
           else QueueOf(View(), src) == s[moved..] && QueueOf(View(), dst) == t + s[..moved]
    {
      var r := DrainFrom(src, dst, count);
      moved := |transits[r].waiters|;
      ExtendTo(r);
    }

    method Release(e: nat)
      modifies this
      ensures View() == Unref(old(View()), e)
    {
      if e in entries {
        if entries[e].refs <= 1 {
          entries := entries - {e};
        } else {
          entries := entries[e := entries[e].(refs := entries[e].refs - 1)];
        }
      }
    }

    /** Test the entry, remove its slot if nobody else needs it, release the count. */
    method Unlock(g: nat) returns (removed: bool)
      requires LiveGuard(View(), g)
      modifies this
      ensures View() == DropGuard(old(View()), g) && removed == Decide(old(View()), g)
    {
      var Guard(h, key, e) := guards[g];
      removed := entries[e].refs <= 2 && entries[e].queue == [];
      guards := guards - {g};
      if removed {
        var t := handles[h];
        if key in tables[t].slots {
          var held := tables[t].slots[key];
          tables := tables[t := tables[t].(slots := tables[t].slots - {key})];
          Release(held);
        }
      }
      Release(e);
    }

    method Close(h: nat)
      requires LiveHandle(View(), h)
      modifies this
      ensures View() == DropHandle(old(View()), h)
    {
      var t := handles[h];
      tables := tables[t := tables[t].(refs := if tables[t].refs == 0 then 0 else tables[t].refs - 1)];
      handles := handles - {h};
    }
  }
}
