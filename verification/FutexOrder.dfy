/** Waiters of one queue are woken in the order they joined it. */
module FutexOrder {
  import opened FutexQueue
  import opened FutexStoreSpec
  import opened FutexProofs
  import opened FutexTheorems
  import opened Sums

  ghost predicate Ahead(q: seq<Waiter>, x: nat, y: nat) {
    exists i, j :: 0 <= i < j < |q| && q[i].id == x && q[j].id == y
  }

  /** From queue `a` to queue `b`: whoever stays keeps its place relative to the others who
      stay, and whoever joins stands behind them. */
  ghost predicate InOrder(a: seq<Waiter>, b: seq<Waiter>) {
    && (forall x, y :: Ahead(a, x, y) && HasId(b, x) && HasId(b, y) ==> Ahead(b, x, y))
    && (forall x, y :: HasId(a, x) && HasId(b, x) && HasId(b, y) && !HasId(a, y) ==> Ahead(b, x, y))
  }

  lemma SameInOrder(a: seq<Waiter>)
    ensures InOrder(a, a)
  {
  }

  lemma AppendInOrder(a: seq<Waiter>, c: seq<Waiter>)
    ensures InOrder(a, a + c)
  {
    var b := a + c;
    forall x, y | Ahead(a, x, y) ensures Ahead(b, x, y) {
      var i, j :| 0 <= i < j < |a| && a[i].id == x && a[j].id == y;
      assert b[i].id == x && b[j].id == y;
    }
    forall x, y | HasId(a, x) && HasId(b, y) && !HasId(a, y) ensures Ahead(b, x, y) {
      var i :| 0 <= i < |a| && a[i].id == x;
      var j :| 0 <= j < |b| && b[j].id == y;
      assert b[i].id == x && j >= |a|;
    }
  }

  lemma AheadCons(w: Waiter, q: seq<Waiter>, x: nat, y: nat)
    ensures Ahead([w] + q, x, y) <==> (w.id == x && HasId(q, y)) || Ahead(q, x, y)
  {
    var all := [w] + q;
    if Ahead(all, x, y) {
      var i, j :| 0 <= i < j < |all| && all[i].id == x && all[j].id == y;
      assert q[j - 1].id == y;
      if i > 0 { assert q[i - 1].id == x; }
    }
    if w.id == x && HasId(q, y) {
      var j :| 0 <= j < |q| && q[j].id == y;
      assert all[0].id == x && all[j + 1].id == y;
    }
    if Ahead(q, x, y) {
      var i, j :| 0 <= i < j < |q| && q[i].id == x && q[j].id == y;
      assert all[i + 1].id == x && all[j + 1].id == y;
    }
  }

  /** Dropping waiters leaves the others in order. */
  lemma {:induction false} DropInOrder(b: seq<Waiter>, a: seq<Waiter>, x: nat, y: nat)
    requires Subsequence(b, a) && UniqueIds(a)
    ensures HasId(b, x) ==> HasId(a, x)
    ensures Ahead(a, x, y) && HasId(b, x) && HasId(b, y) ==> Ahead(b, x, y)
  {
    hide UniqueIds, HasId, Ahead;
    if b == [] {
      NoneInEmpty(x);
    } else {
      var rest := a[1..];
      assert a == [a[0]] + rest && b == [b[0]] + b[1..];
      UniqueAppend([a[0]], rest);
      HasCons(a[0], rest, x);
      HasCons(a[0], rest, y);
      HasCons(b[0], b[1..], x);
      HasCons(b[0], b[1..], y);
      AheadCons(a[0], rest, x, y);
      AheadCons(b[0], b[1..], x, y);
      HasOne(a[0], a[0].id);
      if a[0] == b[0] && Subsequence(b[1..], rest) {
        DropInOrder(b[1..], rest, x, y);
        DropInOrder(b[1..], rest, y, x);
        if Ahead(rest, x, y) { BothStand(rest, x, y); }
      } else {
        DropInOrder(b, rest, x, y);
        DropInOrder(b, rest, y, x);
      }
    }
  }

  lemma BothStand(q: seq<Waiter>, x: nat, y: nat)
    requires Ahead(q, x, y)
    ensures HasId(q, x) && HasId(q, y)
  {
  }

  lemma SubsequenceInOrder(b: seq<Waiter>, a: seq<Waiter>)
    requires Subsequence(b, a) && UniqueIds(a)
    ensures InOrder(a, b)
  {
    hide UniqueIds, HasId, Ahead, Subsequence;
    forall x, y | Ahead(a, x, y) && HasId(b, x) && HasId(b, y) ensures Ahead(b, x, y) { DropInOrder(b, a, x, y); }
    forall y | HasId(b, y) ensures HasId(a, y) { DropInOrder(b, a, y, y); }
  }

  lemma {:induction false} SuffixSubsequence(q: seq<Waiter>, n: nat)
    requires n <= |q|
    ensures Subsequence(q[n..], q)
  {
    if n == 0 {
      assert q[0..] == q;
      WholeSubsequence(q);
    } else {
      SuffixSubsequence(q[1..], n - 1);
      assert q[1..][n - 1..] == q[n..];
    }
  }

  lemma {:induction false} WholeSubsequence(q: seq<Waiter>)
    ensures Subsequence(q, q)
  {
    if q != [] { WholeSubsequence(q[1..]); }
  }

  // ------------------------------------------------------------------------ every step

  ghost predicate Ordered(s: Store, s': Store, e: nat) {
    InOrder(LineAt(s, InQueue(e)), LineAt(s', InQueue(e)))
  }

  lemma SetInOrder(s: Store, s': Store, x: nat, q: seq<Waiter>, e: nat)
    requires x in s.entries && s'.entries == SetQueue(s, x, q).entries && InOrder(s.entries[x].queue, q)
    ensures Ordered(s, s', e)
  {
    hide InOrder;
    SameInOrder(LineAt(s, InQueue(e)));
  }

  lemma Unique(s: Store, e: nat)
    requires WaitersOk(s) && e in s.entries
    ensures UniqueIds(s.entries[e].queue)
  {
    hide Standing, UniqueIds;
    assert LineAt(s, InQueue(e)) == s.entries[e].queue;
  }

  lemma WaitInOrder(s: Store, g: nat, w: Waiter, condition: bool, e: nat)
    requires LiveGuard(s, g)
    ensures Ordered(s, Wait(s, g, w, condition), e)
  {
    hide InOrder, AddressOf;
    SameInOrder(LineAt(s, InQueue(e)));
    if condition {
      AppendInOrder(QueueOf(s, g), [w]);
      SetInOrder(s, Wait(s, g, w, condition), s.guards[g].entry, QueueOf(s, g) + [w], e);
    }
  }

  lemma WakeInOrder(s: Store, g: nat, count: nat, mask: bv32, e: nat)
    requires WaitersOk(s) && LiveGuard(s, g)
    ensures Ordered(s, Wake(s, g, count, mask), e)
  {
    hide InOrder, WaitersOk, Kept, Woken, Ids;
    var q := QueueOf(s, g);
    Unique(s, s.guards[g].entry);
    WakeKeepsRest(q, count, mask);
    SubsequenceInOrder(Kept(q, count, mask), q);
    SetInOrder(s, Wake(s, g, count, mask), s.guards[g].entry, Kept(q, count, mask), e);
  }

  lemma DrainInOrder(s: Store, src: nat, dst: nat, count: nat, e: nat)
    requires WaitersOk(s) && LiveGuard(s, src)
    ensures Ordered(s, Drain(s, src, dst, count), e)
  {
    hide InOrder, WaitersOk;
    var q := QueueOf(s, src);
    var n := Min(count, |q|);
    Unique(s, s.guards[src].entry);
    SuffixSubsequence(q, n);
    SubsequenceInOrder(q[n..], q);
    SetInOrder(s, Drain(s, src, dst, count), s.guards[src].entry, q[n..], e);
  }

  lemma ExtendInOrder(s: Store, r: nat, e: nat)
    requires r in s.transits && LiveGuard(s, s.transits[r].dst)
    ensures Ordered(s, Extend(s, r), e)
  {
    hide InOrder, AddressOf, Ids;
    var g := s.transits[r].dst;
    AppendInOrder(QueueOf(s, g), s.transits[r].waiters);
    SetInOrder(s, Extend(s, r), s.guards[g].entry, QueueOf(s, g) + s.transits[r].waiters, e);
  }

  /** No step lets a waiter overtake another of its queue. */
  lemma StepInOrder(s: Store, s': Store, e: nat)
    requires Inv(s) && Next(s, s')
    ensures Ordered(s, s', e)
  {
    hide TableOk, SlotsOk, EntryOk, HandleOk, GuardOk, TransitOk, WaitersOk, DirOk, InOrder, LineAt, Lookup, Get, GetOrInsert, Wait, Wake, Drain, Extend, DropGuard, DropHandle, LiveHandle, LiveGuard, Unused;
    SameInOrder(LineAt(s, InQueue(e)));
    if DirOk(s) && exists tk :: s' == Lookup(s, tk) {
      var tk :| s' == Lookup(s, tk);
      LookupAddress(s, tk);
    } else if exists h, key :: LiveHandle(s, h) && s' == Get(s, h, key) {
      var h, key :| LiveHandle(s, h) && s' == Get(s, h, key);
      GuardLines(s, h, key);
    } else if exists h, key :: LiveHandle(s, h) && s' == GetOrInsert(s, h, key) {
      var h, key :| LiveHandle(s, h) && s' == GetOrInsert(s, h, key);
      GuardLines(s, h, key);
    } else if exists g, w: Waiter, condition :: LiveGuard(s, g) && w.id !in s.enqueued && s' == Wait(s, g, w, condition) {
      var g, w: Waiter, condition :| LiveGuard(s, g) && w.id !in s.enqueued && s' == Wait(s, g, w, condition);
      WaitInOrder(s, g, w, condition, e);
    } else if exists g, count, mask :: LiveGuard(s, g) && s' == Wake(s, g, count, mask) {
      var g, count, mask :| LiveGuard(s, g) && s' == Wake(s, g, count, mask);
      WakeInOrder(s, g, count, mask, e);
    } else if exists src, dst, count :: LiveGuard(s, src) && LiveGuard(s, dst) && s' == Drain(s, src, dst, count) {
      var src, dst, count :| LiveGuard(s, src) && LiveGuard(s, dst) && s' == Drain(s, src, dst, count);
      DrainInOrder(s, src, dst, count, e);
    } else if exists r :: r in s.transits && LiveGuard(s, s.transits[r].dst) && s' == Extend(s, r) {
      var r :| r in s.transits && LiveGuard(s, s.transits[r].dst) && s' == Extend(s, r);
      ExtendInOrder(s, r, e);
    } else if exists g :: LiveGuard(s, g) && Unused(s, g) && s' == DropGuard(s, g) {
      var g :| LiveGuard(s, g) && Unused(s, g) && s' == DropGuard(s, g);
      DropLines(s, g);
    } else {
      var h :| LiveHandle(s, h) && s' == DropHandle(s, h);
      HandleAddress(s, h);
    }
  }

  // ------------------------------------------------------------------------- every run

  /** While `x` stays in a queue, whoever joins it later stands behind `x`. */
  lemma {:induction false} StaysAhead(run: seq<Store>, i: nat, j: nat, e: nat, x: nat, y: nat)
    requires IsRun(run) && i <= j < |run|
    requires (forall k :: i <= k <= j ==> HasId(LineAt(run[k], InQueue(e)), x)) && !HasId(LineAt(run[i], InQueue(e)), y)
    ensures HasId(LineAt(run[j], InQueue(e)), y) ==> Ahead(LineAt(run[j], InQueue(e)), x, y)
    decreases j - i
  {
    hide Inv, Next, HasId, Ahead, LineAt;
    if i < j {
      RunInv(run, j - 1);
      assert Next(run[j - 1], run[j - 1 + 1]);
      StepInOrder(run[j - 1], run[j], e);
      StaysAhead(run, i, j - 1, e, x, y);
      assert HasId(LineAt(run[j - 1], InQueue(e)), x) && HasId(LineAt(run[j], InQueue(e)), x);
    }
  }

  /** A wake that takes a waiter takes every waiter ahead of it that shares a bit. */
  lemma WakeTakesAhead(q: seq<Waiter>, count: nat, mask: bv32, k: nat, l: nat)
    requires UniqueIds(q) && k < l < |q| && SharesBit(q[k], mask) && HasId(Woken(q, count, mask), q[l].id)
    ensures HasId(Woken(q, count, mask), q[k].id)
  {
    hide SharesBit, UniqueIds, HasId;
    WokenAt(q, count, mask, k);
    WokenAt(q, count, mask, l);
    assert k in Sharing(q, l, mask) && k !in Sharing(q, k, mask);
    assert Sharing(q, k, mask) <= Sharing(q, l, mask) - {k};
    Smaller(Sharing(q, k, mask), Sharing(q, l, mask) - {k});
  }

  lemma {:induction false} Smaller(a: set<nat>, b: set<nat>)
    requires a <= b
    ensures |a| <= |b|
  {
    if a != {} {
      var x :| x in a;
      Smaller(a - {x}, b - {x});
    }
  }

  /** First come, first woken, over every run: if a wake on a queue takes `y`, it also takes
      every waiter sharing a bit with the mask that has stood there since before `y` came. */
  lemma FirstComeFirstWoken(run: seq<Store>, i: nat, j: nat, e: nat, x: nat, y: nat, count: nat, mask: bv32, k: nat)
    requires IsRun(run) && i <= j < |run| && e in run[j].entries
    requires (forall k :: i <= k <= j ==> HasId(LineAt(run[k], InQueue(e)), x)) && !HasId(LineAt(run[i], InQueue(e)), y)
    requires k < |run[j].entries[e].queue| && run[j].entries[e].queue[k].id == x && SharesBit(run[j].entries[e].queue[k], mask)
    requires HasId(Woken(run[j].entries[e].queue, count, mask), y)
    ensures HasId(Woken(run[j].entries[e].queue, count, mask), x)
  {
    hide Inv, IsRun, SharesBit, Woken, HasId, Ahead;
    RunInv(run, j);
    var q := run[j].entries[e].queue;
    assert q == LineAt(run[j], InQueue(e));
    Unique(run[j], e) by { InvWaiters(run[j]); }
    WakeIds(q, count, mask, y);
    StaysAhead(run, i, j, e, x, y);
    var l := PlaceBehind(q, x, y, k);
    WakeTakesAhead(q, count, mask, k, l);
  }

  lemma InvWaiters(s: Store)
    requires Inv(s)
    ensures WaitersOk(s)
  {
  }

  lemma PlaceOf(q: seq<Waiter>, x: nat, y: nat, k: nat)
    requires UniqueIds(q) && k < |q| && q[k].id == x && Ahead(q, x, y)
    ensures exists l :: k < l < |q| && q[l].id == y
  {
    var i, j :| 0 <= i < j < |q| && q[i].id == x && q[j].id == y;
    assert i == k;
  }

  lemma PlaceBehind(q: seq<Waiter>, x: nat, y: nat, k: nat) returns (l: nat)
    requires UniqueIds(q) && k < |q| && q[k].id == x && Ahead(q, x, y)
    ensures k < l < |q| && q[l].id == y
  {
    PlaceOf(q, x, y, k);
    l :| k < l < |q| && q[l].id == y;
  }
}
