/** Nearest-rank percentiles of benchmark latencies. */
module Stats {
  import opened Options
  import opened Sums

  /** Position of the p-th percentile in sorted order, computed without forming p times
      the sample count. */
  function NearestRank(n: nat, p: nat): int { n / 100 * p + (n % 100 * p + 99) / 100 - 1 }

  /** It is the exact rounded-up rank, in range, and computed from products that stay
      below the sample count and ten thousand. */
  lemma RankIsCeiling(n: nat, p: nat)
    requires n > 0 && 0 < p <= 100
    ensures 0 <= NearestRank(n, p) < n
    ensures 100 * NearestRank(n, p) < p * n <= 100 * (NearestRank(n, p) + 1)
    ensures n / 100 * p <= n && n % 100 * p + 99 < 10_000
  {
    var q: nat, r: nat := n / 100, n % 100;
    assert p * n == 100 * (q * p) + r * p by { assert n == 100 * q + r; assert p * (100 * q) == 100 * (q * p); }
    assert q * p <= q * 100;
    assert r * p <= r * 100;
  }

  function CountAtMost(s: seq<nat>, v: nat): nat {
    if s == [] then 0 else CountAtMost(s[..|s| - 1], v) + if s[|s| - 1] <= v then 1 else 0
  }

  predicate IsSorted(s: seq<nat>) { forall i, j :: 0 <= i < j < |s| ==> s[i] <= s[j] }

  /** In sorted order at least `i + 1` samples are at most the i-th, and at most `i` are
      below it. */
  lemma {:induction false} CountSorted(s: seq<nat>, i: nat, v: nat)
    requires IsSorted(s) && i < |s|
    ensures v >= s[i] ==> CountAtMost(s, v) >= i + 1
    ensures v < s[i] ==> CountAtMost(s, v) <= i
  {
    var n := |s| - 1;
    if i < n {
      CountSorted(s[..n], i, v);
    } else if n > 0 {
      CountSorted(s[..n], n - 1, v);
      CountBound(s[..n], v);
    }
  }

  lemma {:induction false} CountBound(s: seq<nat>, v: nat)
    ensures CountAtMost(s, v) <= |s|
  {
    if s != [] { CountBound(s[..|s| - 1], v); }
  }

  /** Counting does not depend on order. */
  lemma {:induction false} CountPermuted(s: seq<nat>, t: seq<nat>, v: nat)
    requires multiset(s) == multiset(t)
    ensures CountAtMost(s, v) == CountAtMost(t, v) && |s| == |t|
  {
    if s == [] {
      assert |multiset(t)| == 0;
    } else {
      var n := |s| - 1;
      assert s == s[..n] + [s[n]];
      assert s[n] in multiset(t);
      var j :| 0 <= j < |t| && t[j] == s[n];
      var u := t[..j] + t[j + 1..];
      assert multiset(s[..n]) == multiset(u) by { OneLess(s[..n], s[n], t, j); }
      CountPermuted(s[..n], u, v);
      CountRemoved(t, j, v);
    }
  }

  lemma OneLess(s: seq<nat>, x: nat, t: seq<nat>, j: nat)
    requires j < |t| && t[j] == x && multiset(s + [x]) == multiset(t)
    ensures multiset(t[..j] + t[j + 1..]) == multiset(s)
  {
    assert t == t[..j] + [t[j]] + t[j + 1..];
    assert multiset(s) == multiset(s + [x]) - multiset{x};
    assert multiset(t[..j] + t[j + 1..]) == multiset(t) - multiset{x};
  }

  lemma {:induction false} CountRemoved(t: seq<nat>, j: nat, v: nat)
    requires j < |t|
    ensures CountAtMost(t, v) == CountAtMost(t[..j] + t[j + 1..], v) + if t[j] <= v then 1 else 0
  {
    var n := |t| - 1;
    if j == n {
      assert t[..j] + t[j + 1..] == t[..n];
    } else {
      CountRemoved(t[..n], j, v);
      assert (t[..j] + t[j + 1..])[..n - 1] == t[..n][..j] + t[..n][j + 1..];
    }
  }

  /** What a nearest-rank percentile is: the least value that p percent of the samples do
      not exceed. */
  ghost predicate IsPercentile(samples: seq<nat>, p: nat, v: nat) {
    && v in samples
    && 100 * CountAtMost(samples, v) >= p * |samples|
    && forall w: nat :: w < v ==> 100 * CountAtMost(samples, w) < p * |samples|
  }

  lemma SortedPercentile(samples: seq<nat>, sorted: seq<nat>, p: nat)
    requires samples != [] && 0 < p <= 100 && IsSorted(sorted) && multiset(sorted) == multiset(samples)
    ensures |sorted| == |samples| && 0 <= NearestRank(|samples|, p) < |samples|
    ensures IsPercentile(samples, p, sorted[NearestRank(|samples|, p)])
  {
    hide NearestRank;
    CountPermuted(samples, sorted, 0);
    var n := |samples|;
    RankIsCeiling(n, p);
    var i := NearestRank(n, p);
    var v := sorted[i];
    assert v in multiset(sorted);
    CountPermuted(samples, sorted, v);
    CountSorted(sorted, i, v);
    forall w: nat | w < v ensures 100 * CountAtMost(samples, w) < p * n {
      CountPermuted(samples, sorted, w);
      CountSorted(sorted, i, w);
    }
  }

  /** Samples above one and a half times `v`. */
  function CountOver(s: seq<nat>, v: nat): nat {
    if s == [] then 0 else CountOver(s[..|s| - 1], v) + if 2 * s[|s| - 1] > 3 * v then 1 else 0
  }

  /** Where the samples above one and a half times `v` are. */
  ghost function FarAbove(s: seq<nat>, v: nat): set<nat> { set i | 0 <= i < |s| && s[i] as real > v as real * 1.5 }

  lemma {:induction false} CountOverIs(s: seq<nat>, v: nat)
    ensures CountOver(s, v) == |FarAbove(s, v)|
  {
    if s == [] {
      assert FarAbove(s, v) == {};
    } else {
      var n := |s| - 1;
      CountOverIs(s[..n], v);
      assert FarAbove(s, v) == FarAbove(s[..n], v) + if 2 * s[n] > 3 * v then {n} else {};
    }
  }

  /** Insert into sorted order, after equal values. */
  function Inserted(s: seq<nat>, x: nat): seq<nat> {
    if s == [] || s[|s| - 1] <= x then s + [x] else Inserted(s[..|s| - 1], x) + [s[|s| - 1]]
  }

  lemma {:induction false} InsertedKeeps(s: seq<nat>, x: nat)
    ensures multiset(Inserted(s, x)) == multiset(s) + multiset{x}
  {
    if s != [] && s[|s| - 1] > x {
      InsertedKeeps(s[..|s| - 1], x);
      assert s == s[..|s| - 1] + [s[|s| - 1]];
    }
  }

  lemma {:induction false} InsertedSorted(s: seq<nat>, x: nat, top: nat)
    requires IsSorted(s) && x <= top && forall i :: 0 <= i < |s| ==> s[i] <= top
    ensures IsSorted(Inserted(s, x)) && forall i :: 0 <= i < |Inserted(s, x)| ==> Inserted(s, x)[i] <= top
  {
    if s != [] && s[|s| - 1] > x { InsertedSorted(s[..|s| - 1], x, s[|s| - 1]); }
  }

  /** A sorted copy of the samples. */
  method SortCopy(samples: seq<nat>) returns (sorted: seq<nat>)
    ensures IsSorted(sorted) && multiset(sorted) == multiset(samples)
  {
    sorted := [];
    for i := 0 to |samples|
      invariant IsSorted(sorted) && multiset(sorted) == multiset(samples[..i])
    {
      assert samples[..i + 1] == samples[..i] + [samples[i]];
      InsertedKeeps(sorted, samples[i]);
      InsertedSorted(sorted, samples[i], if sorted == [] || sorted[|sorted| - 1] <= samples[i] then samples[i] else sorted[|sorted| - 1]);
      sorted := Inserted(sorted, samples[i]);
    }
    assert samples[..|samples|] == samples;
  }

  datatype Ranks = Ranks(min: nat, p50: nat, p95: nat, p99: nat, max: nat)

  datatype Latency = Latency(ranks: Ranks, above: nat, mean: real, p95OverP50: real, p99OverP50: real)

  ghost predicate RanksOk(samples: seq<nat>, r: Ranks) {
    && IsPercentile(samples, 50, r.p50) && IsPercentile(samples, 95, r.p95) && IsPercentile(samples, 99, r.p99)
    && r.min in samples && r.max in samples && (forall i :: 0 <= i < |samples| ==> r.min <= samples[i] <= r.max)
    && r.min <= r.p50 <= r.p95 <= r.p99 <= r.max
  }

  function Times(x: real, n: nat): real { x * n as real }

  function Over(a: nat, b: nat): real
    requires b > 0
  {
    a as real / b as real
  }

  /** The mean as an exact quotient. */
  ghost predicate MeanOk(samples: seq<nat>, r: Ranks, mean: real) {
    Times(mean, |samples|) == Sum(samples) as real && r.min as real <= mean <= r.max as real
  }

  ghost predicate RatiosOk(r: Ranks, a: real, b: real) {
    if r.p50 == 0 then a == b == 0.0
    else Times(a, r.p50) == r.p95 as real && Times(b, r.p50) == r.p99 as real && 1.0 <= a <= b
  }

  method ComputeRanks(samples: seq<nat>) returns (r: Ranks)
    requires samples != []
    ensures RanksOk(samples, r)
  {
    hide NearestRank, IsPercentile;
    var n := |samples|;
    var sorted := SortCopy(samples);
    SortedPercentile(samples, sorted, 50);
    SortedPercentile(samples, sorted, 95);
    SortedPercentile(samples, sorted, 99);
    RanksAscend(n);
    Extremes(samples, sorted);
    r := Ranks(sorted[0], sorted[NearestRank(n, 50)], sorted[NearestRank(n, 95)], sorted[NearestRank(n, 99)], sorted[n - 1]);
  }

  /** Latency statistics, or nothing when there are no samples. */
  method ComputeStats(samples: seq<nat>) returns (out: Option<Latency>)
    ensures out.None? <==> samples == []
    ensures out.Some? ==> RanksOk(samples, out.value.ranks)
    ensures out.Some? ==> out.value.above == |FarAbove(samples, out.value.ranks.p50)| && 2 * out.value.above <= |samples|
    ensures out.Some? ==> MeanOk(samples, out.value.ranks, out.value.mean)
    ensures out.Some? ==> RatiosOk(out.value.ranks, out.value.p95OverP50, out.value.p99OverP50)
  {
    if samples == [] {
      return None;
    }
    hide IsPercentile, CountOver, FarAbove, Sum, Times, Over;
    var r := ComputeRanks(samples);
    var total, above := CountLoop(samples, r.p50);
    HalfAbove(samples, r.p50);
    CountOverIs(samples, r.p50);
    MeanBounds(samples, r.min, r.max);
    Between(r.min, r.max, total, |samples|);
    var mean := Over(total, |samples|);
    var a, b := 0.0, 0.0;
    if r.p50 != 0 {
      Ratios(r.p50, r.p95, r.p99);
      a, b := Over(r.p95, r.p50), Over(r.p99, r.p50);
    }
    out := Some(Latency(r, above, mean, a, b));
  }

  /** Add the samples up and count those far above the median. */
  method CountLoop(samples: seq<nat>, p50: nat) returns (total: nat, above: nat)
    ensures total == Sum(samples) && above == CountOver(samples, p50)
  {
    total, above := 0, 0;
    for i := 0 to |samples|
      invariant total == Sum(samples[..i]) && above == CountOver(samples[..i], p50)
    {
      assert samples[..i + 1][..i] == samples[..i];
      total := total + samples[i];
      if 2 * samples[i] > 3 * p50 {
        above := above + 1;
      }
    }
    assert samples[..|samples|] == samples;
  }

  lemma RanksAscend(n: nat)
    requires n > 0
    ensures 0 <= NearestRank(n, 50) <= NearestRank(n, 95) <= NearestRank(n, 99) < n
  {
    RankIsCeiling(n, 50);
    RankIsCeiling(n, 95);
    RankIsCeiling(n, 99);
  }

  lemma {:induction false} OverOrAtMost(s: seq<nat>, v: nat)
    ensures CountOver(s, v) + CountAtMost(s, v) <= |s|
  {
    if s != [] { OverOrAtMost(s[..|s| - 1], v); }
  }

  lemma HalfAbove(samples: seq<nat>, p50: nat)
    requires IsPercentile(samples, 50, p50)
    ensures 2 * CountOver(samples, p50) <= |samples|
  {
    OverOrAtMost(samples, p50);
  }

  lemma {:induction false} MeanBounds(s: seq<nat>, lo: nat, hi: nat)
    requires forall i :: 0 <= i < |s| ==> lo <= s[i] <= hi
    ensures Scaled(lo, |s|) <= Sum(s) <= Scaled(hi, |s|)
  {
    if s != [] { MeanBounds(s[..|s| - 1], lo, hi); }
  }

  /** `n` times `x`, by repeated addition. */
  ghost function Scaled(x: nat, n: nat): nat { if n == 0 then 0 else Scaled(x, n - 1) + x }

  lemma {:induction false} ScaledIsTimes(x: nat, n: nat)
    ensures Scaled(x, n) as real == Times(x as real, n)
  {
    if n > 0 {
      ScaledIsTimes(x, n - 1);
      assert n as real == (n - 1) as real + 1.0;
      TimesStep(x as real, (n - 1) as real);
    }
  }

  lemma TimesStep(x: real, y: real)
    ensures x * (y + 1.0) == x * y + x
  {
  }

  lemma Between(lo: nat, hi: nat, total: nat, n: nat)
    requires n > 0 && Scaled(lo, n) <= total <= Scaled(hi, n)
    ensures Times(Over(total, n), n) == total as real && lo as real <= Over(total, n) <= hi as real
  {
    hide Times, Over;
    ScaledIsTimes(lo, n);
    ScaledIsTimes(hi, n);
    DivideBoth(lo as real, total, n);
    DivideBoth(hi as real, total, n);
  }

  lemma DivideBoth(a: real, x: nat, n: nat)
    requires n > 0
    ensures Times(Over(x, n), n) == x as real
    ensures Times(a, n) <= x as real ==> a <= Over(x, n)
    ensures x as real <= Times(a, n) ==> Over(x, n) <= a
  {
    var q, y := Over(x, n), n as real;
    assert q * y == x as real;
    Compare(a, q, y);
    Compare(q, a, y);
  }

  lemma Compare(a: real, b: real, y: real)
    requires y > 0.0
    ensures a * y <= b * y ==> a <= b
  {
    if a > b { assert (a - b) * y > 0.0; }
  }

  lemma Ratios(p50: nat, p95: nat, p99: nat)
    requires 0 < p50 <= p95 <= p99
    ensures Times(Over(p95, p50), p50) == p95 as real && Times(Over(p99, p50), p50) == p99 as real
    ensures 1.0 <= Over(p95, p50) <= Over(p99, p50)
  {
    assert Times(1.0, p50) == p50 as real;
    hide Times, Over;
    DivideBoth(1.0, p95, p50);
    DivideBoth(Over(p95, p50), p99, p50);
  }

  lemma Extremes(samples: seq<nat>, sorted: seq<nat>)
    requires samples != [] && IsSorted(sorted) && multiset(sorted) == multiset(samples) && |sorted| == |samples|
    ensures sorted[0] in samples && sorted[|sorted| - 1] in samples
    ensures forall i :: 0 <= i < |samples| ==> sorted[0] <= samples[i] <= sorted[|sorted| - 1]
  {
    assert sorted[0] in multiset(sorted) && sorted[|sorted| - 1] in multiset(sorted);
    forall i | 0 <= i < |samples| ensures sorted[0] <= samples[i] <= sorted[|sorted| - 1] {
      assert samples[i] in multiset(samples);
      assert samples[i] in sorted;
    }
  }
}
