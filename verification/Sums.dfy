/** The 32-bit word size, minima and sums of natural numbers. */
module Sums {
  const U32: nat := 0x1_0000_0000

  function Min(a: nat, b: nat): nat { if a < b then a else b }

  function Sum(s: seq<nat>): nat {
    if s == [] then 0 else Sum(s[..|s|-1]) + s[|s|-1]
  }

  lemma {:induction false} SumUpdate(s: seq<nat>, i: nat, v: nat)
    requires i < |s|
    ensures Sum(s[i := v]) + s[i] == Sum(s) + v
  {
    var n := |s| - 1;
    if i == n {
      assert s[i := v][..n] == s[..n];
    } else {
      assert s[i := v][..n] == s[..n][i := v];
      SumUpdate(s[..n], i, v);
    }
  }

  lemma {:induction false} SumLeq(s: seq<nat>, t: seq<nat>)
    requires |s| == |t| && forall i :: 0 <= i < |s| ==> s[i] <= t[i]
    ensures Sum(s) <= Sum(t)
  {
    if s != [] {
      SumLeq(s[..|s|-1], t[..|t|-1]);
    }
  }

  /** Pointwise-bounded sequences with the same sum are equal. */
  lemma {:induction false} SumTight(s: seq<nat>, t: seq<nat>)
    requires |s| == |t| && forall i :: 0 <= i < |s| ==> s[i] <= t[i]
    requires Sum(s) >= Sum(t)
    ensures s == t
  {
    if s != [] {
      var n := |s| - 1;
      SumLeq(s[..n], t[..n]);
      SumTight(s[..n], t[..n]);
      assert s == s[..n] + [s[n]] && t == t[..n] + [t[n]];
    }
  }

  lemma {:induction false} SumAt(s: seq<nat>, i: nat)
    requires i < |s|
    ensures s[i] <= Sum(s)
  {
    if i < |s| - 1 {
      SumAt(s[..|s|-1], i);
    }
  }

  lemma {:induction false} SumZeros(s: seq<nat>)
    requires forall i :: 0 <= i < |s| ==> s[i] == 0
    ensures Sum(s) == 0
  {
    if s != [] {
      SumZeros(s[..|s|-1]);
    }
  }
}
