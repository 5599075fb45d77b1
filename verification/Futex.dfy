/**
  Futex wait queues: FIFO queues of waiters, each with a bitset, that are woken
  from the front and moved between queues.
*/
module FutexQueue {
  import opened Sums

  datatype Waiter = Waiter(id: nat, bitset: bv32)

  /** The bitset test, by name so that proofs about order need not look inside it. */
  predicate Matches(w: Waiter, mask: bv32) { w.bitset & mask != 0 }

  /** Waiters left queued after waking at most `count` matching ones, front first. */
  function Kept(q: seq<Waiter>, count: nat, mask: bv32): seq<Waiter> {
    if q == [] then []
    else if count > 0 && Matches(q[0], mask) then Kept(q[1..], count - 1, mask)
    else [q[0]] + Kept(q[1..], count, mask)
  }

  function Woken(q: seq<Waiter>, count: nat, mask: bv32): seq<Waiter> {
    if q == [] then []
    else if count > 0 && Matches(q[0], mask) then [q[0]] + Woken(q[1..], count - 1, mask)
    else Woken(q[1..], count, mask)
  }

  function Matching(q: seq<Waiter>, mask: bv32): seq<Waiter> {
    if q == [] then []
    else if Matches(q[0], mask) then [q[0]] + Matching(q[1..], mask)
    else Matching(q[1..], mask)
  }

  /** Some bit is set in both the waiter's bitset and the mask. */
  predicate SharesBit(w: Waiter, mask: bv32) { w.bitset & mask != 0 }

  lemma MatchesIff(w: Waiter, mask: bv32)
    ensures Matches(w, mask) <==> SharesBit(w, mask)
  {
  }

  /** Positions before `k` of the waiters that share a bit with the mask. */
  ghost function Sharing(q: seq<Waiter>, k: nat, mask: bv32): set<nat>
    requires k <= |q|
  {
    set i | 0 <= i < k && SharesBit(q[i], mask)
  }

  lemma {:induction false} MatchingCounts(q: seq<Waiter>, k: nat, mask: bv32)
    requires k <= |q|
    ensures |Matching(q[..k], mask)| == |Sharing(q, k, mask)|
  {
    if k == 0 {
      assert q[..0] == [] && Sharing(q, 0, mask) == {};
    } else {
      MatchingCounts(q, k - 1, mask);
      assert q[..k] == q[..k - 1] + [q[k - 1]];
      MatchingAppend(q[..k - 1], q[k - 1], mask);
      SharingStep(q, k, mask);
    }
  }

  lemma {:induction false} MatchingAppend(q: seq<Waiter>, w: Waiter, mask: bv32)
    ensures Matching(q + [w], mask) == Matching(q, mask) + if Matches(w, mask) then [w] else []
  {
    hide Matches;
    if q == [] {
      assert [] + [w] == [w];
    } else {
      assert (q + [w])[1..] == q[1..] + [w];
      MatchingAppend(q[1..], w, mask);
    }
  }

  lemma SharingStep(q: seq<Waiter>, k: nat, mask: bv32)
    requires 0 < k <= |q|
    ensures |Sharing(q, k, mask)| == |Sharing(q, k - 1, mask)| + if Matches(q[k - 1], mask) then 1 else 0
  {
    hide Matches, SharesBit;
    MatchesIff(q[k - 1], mask);
    assert Sharing(q, k, mask) == Sharing(q, k - 1, mask) + if SharesBit(q[k - 1], mask) then {k - 1} else {};
  }

  /** `a` is `q` with some elements dropped: order is kept. */
  ghost predicate Subsequence(a: seq<Waiter>, q: seq<Waiter>) {
    if a == [] then true
    else if q == [] then false
    else (a[0] == q[0] && Subsequence(a[1..], q[1..])) || Subsequence(a, q[1..])
  }

  /** Waking takes exactly the first min(count, matches) matching waiters in
      order and leaves the remaining matching ones, also in order. */
  lemma {:induction false} WakeTakesFirst(q: seq<Waiter>, count: nat, mask: bv32)
    ensures Woken(q, count, mask) == Matching(q, mask)[..Min(count, |Matching(q, mask)|)]
    ensures Matching(Kept(q, count, mask), mask) == Matching(q, mask)[Min(count, |Matching(q, mask)|)..]
  {
    hide Matches;
    if q != [] {
      var m := Matching(q[1..], mask);
      if count > 0 && Matches(q[0], mask) {
        WakeTakesFirst(q[1..], count - 1, mask);
        assert ([q[0]] + m)[..1 + Min(count - 1, |m|)] == [q[0]] + m[..Min(count - 1, |m|)];
        assert ([q[0]] + m)[1 + Min(count - 1, |m|)..] == m[Min(count - 1, |m|)..];
      } else {
        WakeTakesFirst(q[1..], count, mask);
        var k := Kept(q[1..], count, mask);
        assert ([q[0]] + k)[0] == q[0] && ([q[0]] + k)[1..] == k;
        if Matches(q[0], mask) {
          assert count == 0;
        }
      }
    }
  }

  /** A wake takes only waiters that share a bit with the mask, and as many as the count
      allows. */
  lemma WokenShare(q: seq<Waiter>, count: nat, mask: bv32)
    ensures |Woken(q, count, mask)| == Min(count, |Sharing(q, |q|, mask)|)
    ensures forall w :: w in Woken(q, count, mask) ==> w in q && SharesBit(w, mask)
  {
    hide Matches, SharesBit, Sharing;
    WakeTakesFirst(q, count, mask);
    MatchingCounts(q, |q|, mask);
    assert q[..|q|] == q;
    MatchingShare(q, mask);
  }

  lemma {:induction false} MatchingShare(q: seq<Waiter>, mask: bv32)
    ensures forall w :: w in Matching(q, mask) <==> w in q && SharesBit(w, mask)
  {
    hide Matches, SharesBit;
    if q != [] {
      assert q == [q[0]] + q[1..];
      MatchingShare(q[1..], mask);
      MatchesIff(q[0], mask);
    }
  }

  /** Everyone else stays in order, and nobody is lost or duplicated. */
  lemma {:induction false} WakeKeepsRest(q: seq<Waiter>, count: nat, mask: bv32)
    ensures Subsequence(Kept(q, count, mask), q)
    ensures multiset(Kept(q, count, mask)) + multiset(Woken(q, count, mask)) == multiset(q)
  {
    hide Matches;
    if q != [] {
      assert q == [q[0]] + q[1..];
      if count > 0 && Matches(q[0], mask) {
        WakeKeepsRest(q[1..], count - 1, mask);
      } else {
        WakeKeepsRest(q[1..], count, mask);
        var k := Kept(q[1..], count, mask);
        assert ([q[0]] + k)[0] == q[0] && ([q[0]] + k)[1..] == k;
      }
    }
  }

  class WaitQueue {
    var queue: seq<Waiter>

    constructor ()
      ensures queue == []
    {
      queue := [];
    }

    constructor Holding(waiters: seq<Waiter>)
      ensures queue == waiters
    {
      queue := waiters;
    }

    /** Queue the caller if the condition still holds under the queue lock. */
    method WaitIf(w: Waiter, condition: bool) returns (waits: bool)
      modifies this
      ensures waits == condition
      ensures queue == if condition then old(queue) + [w] else old(queue)
    {
      if !condition {
        return false;
      }
      queue := queue + [w];
      return true;
    }

    method Wake(count: nat, mask: bv32) returns (woke: nat, ghost who: seq<Waiter>)
      modifies this
      ensures queue == Kept(old(queue), count, mask) && who == Woken(old(queue), count, mask)
      ensures woke == |who| == Min(count, |Sharing(old(queue), |old(queue)|, mask)|)
    {
      hide Matches;
      woke, who := 0, [];
      ghost var q := queue;
      var kept: seq<Waiter> := [];
      for i := 0 to |queue|
        invariant queue == q && woke == |who| <= count
        invariant kept + Kept(q[i..], count - woke, mask) == Kept(q, count, mask)
        invariant who + Woken(q[i..], count - woke, mask) == Woken(q, count, mask)
      {
        assert q[i..][0] == q[i] && q[i..][1..] == q[i + 1..];
        if woke >= count || !Matches(queue[i], mask) {
          kept := kept + [queue[i]];
        } else {
          woke := woke + 1;
          who := who + [queue[i]];
        }
      }
      queue := kept;
      WakeTakesFirst(q, count, mask);
      MatchingCounts(q, |q|, mask);
      assert q[..|q|] == q;
    }

    /** Move at most `count` waiters from the front to the target's back. The two
        queues are locked one after the other, so the target may be this queue. */
    method Requeue(count: nat, target: WaitQueue) returns (moved: nat)
      modifies this, target
      ensures moved == Min(count, |old(queue)|)
      ensures target != this ==> queue == old(queue)[moved..] && target.queue == old(target.queue) + old(queue)[..moved]
      ensures target == this ==> queue == old(queue)[moved..] + old(queue)[..moved]
    {
      moved := Min(count, |queue|);
      var tasks := queue[..moved];
      queue := queue[moved..];
      if tasks != [] {
        target.queue := target.queue + tasks;
      }
    }
  }
}
