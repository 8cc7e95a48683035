/** Duration histograms and the percentiles estimated from them. */
module Telemetry {
  const BOUNDS: seq<int> := [10, 25, 50, 100, 250, 500, 1000, 2500]

  // The first bucket whose bound the duration does not exceed, or the overflow bucket.
  function Bucket(d: int): (b: nat)
    ensures b <= |BOUNDS|
    ensures b < |BOUNDS| ==> d <= BOUNDS[b]
    ensures forall i :: 0 <= i < b ==> BOUNDS[i] < d
  {
    if d <= 10 then 0 else if d <= 25 then 1 else if d <= 50 then 2 else if d <= 100 then 3
    else if d <= 250 then 4 else if d <= 500 then 5 else if d <= 1000 then 6 else if d <= 2500 then 7 else 8
  }

  // The bound reported for a bucket; one past the last stands for the overflow bucket.
  function Ceiling(bucket: nat): int
    requires bucket <= |BOUNDS|
  {
    if bucket < |BOUNDS| then BOUNDS[bucket] else BOUNDS[|BOUNDS| - 1] + 1
  }

  method HistogramCounts(d: int) returns (counts: seq<int>)
    ensures |counts| == |BOUNDS| + 1 && forall i :: 0 <= i < |counts| ==> counts[i] == if i == Bucket(d) then 1 else 0
  {
    counts := [0, 0, 0, 0, 0, 0, 0, 0, 0];
    for index := 0 to |BOUNDS|
      invariant counts == [0, 0, 0, 0, 0, 0, 0, 0, 0]
      invariant forall i :: 0 <= i < index ==> BOUNDS[i] < d
    {
      if d <= BOUNDS[index] {
        counts := counts[index := 1];
        return;
      }
    }
    counts := counts[|counts| - 1 := 1];
  }

  // How many of the durations fall into the bucket.
  function InBucket(ds: seq<int>, bucket: nat): nat {
    if ds == [] then 0 else InBucket(ds[..|ds| - 1], bucket) + if Bucket(ds[|ds| - 1]) == bucket then 1 else 0
  }

  // Into the first buckets, up to but excluding the given one.
  function Below(ds: seq<int>, bucket: nat): nat {
    if ds == [] then 0 else Below(ds[..|ds| - 1], bucket) + if Bucket(ds[|ds| - 1]) < bucket then 1 else 0
  }

  // The per-event histograms, added up.
  ghost predicate Summed(counts: seq<int>, ds: seq<int>) {
    |counts| == |BOUNDS| + 1 && forall i :: 0 <= i < |counts| ==> counts[i] == InBucket(ds, i)
  }

  // Adding an event's histogram keeps the sum.
  method AddEvent(counts: seq<int>, d: int, ghost ds: seq<int>) returns (next: seq<int>)
    requires Summed(counts, ds)
    ensures Summed(next, ds + [d])
  {
    var event := HistogramCounts(d);
    next := [];
    assert (ds + [d])[..|ds|] == ds;
    for i := 0 to |counts|
      invariant |next| == i && forall j :: 0 <= j < i ==> next[j] == InBucket(ds + [d], j)
    {
      next := next + [counts[i] + event[i]];
    }
  }

  lemma {:induction false} BelowStep(ds: seq<int>, bucket: nat)
    ensures Below(ds, bucket + 1) == Below(ds, bucket) + InBucket(ds, bucket)
    decreases |ds|
  {
    if ds != [] { BelowStep(ds[..|ds| - 1], bucket); }
  }

  lemma {:induction false} BelowEnds(ds: seq<int>)
    ensures Below(ds, 0) == 0 && Below(ds, |BOUNDS| + 1) == |ds|
    decreases |ds|
  {
    if ds != [] { BelowEnds(ds[..|ds| - 1]); }
  }

  lemma {:induction false} BelowAtMost(ds: seq<int>, bucket: nat)
    ensures Below(ds, bucket) <= |ds|
    decreases |ds|
  {
    if ds != [] { BelowAtMost(ds[..|ds| - 1], bucket); }
  }

  // The rank asked for: at least one, rounded down.
  function Rank(p: real, n: nat): int {
    var target := (p * n as real).Floor;
    if target <= 0 then 1 else target
  }

  ghost predicate Sorted(s: seq<int>) {
    forall i, j :: 0 <= i < j < |s| ==> s[i] <= s[j]
  }

  lemma BucketMonotone(a: int, b: int)
    requires a <= b
    ensures Bucket(a) <= Bucket(b)
  {
  }

  // In a sorted sequence the elements below a bucket are exactly the first ones.
  lemma {:induction false} SortedBelow(s: seq<int>, bucket: nat)
    requires Sorted(s)
    ensures Below(s, bucket) <= |s|
    ensures forall i :: 0 <= i < |s| ==> (Bucket(s[i]) < bucket <==> i < Below(s, bucket))
    decreases |s|
  {
    if s != [] {
      var n := |s| - 1;
      SortedBelow(s[..n], bucket);
      assert forall i :: 0 <= i < n ==> s[..n][i] == s[i];
      if Bucket(s[n]) < bucket {
        forall i | 0 <= i < n
          ensures Bucket(s[i]) < bucket
        {
          BucketMonotone(s[i], s[n]);
        }
        assert forall i :: 0 <= i < n ==> Bucket(s[..n][i]) < bucket;
        assert n > 0 ==> n - 1 < Below(s[..n], bucket);
      }
    }
  }

  lemma {:induction false} BelowConcat(a: seq<int>, b: seq<int>, bucket: nat)
    ensures Below(a + b, bucket) == Below(a, bucket) + Below(b, bucket)
    decreases |b|
  {
    if b == [] {
      assert a + b == a;
    } else {
      assert (a + b)[..|a + b| - 1] == a + b[..|b| - 1];
      BelowConcat(a, b[..|b| - 1], bucket);
    }
  }

  // Counting does not depend on the order.
  lemma {:induction false} BelowSameForAnyOrder(a: seq<int>, b: seq<int>, bucket: nat)
    requires multiset(a) == multiset(b)
    ensures Below(a, bucket) == Below(b, bucket)
    decreases |a|
  {
    if a == [] {
      assert |multiset(b)| == |b|;
    } else {
      var n := |a| - 1;
      var x := a[n];
      assert a == a[..n] + [x];
      assert x in multiset(b);
      var j :| 0 <= j < |b| && b[j] == x;
      assert b == b[..j] + [x] + b[j + 1..];
      assert multiset(a) == multiset(a[..n]) + multiset{x};
      assert multiset(b) == multiset(b[..j] + b[j + 1..]) + multiset{x};
      assert multiset(a[..n]) == multiset(a) - multiset{x};
      assert multiset(b[..j] + b[j + 1..]) == multiset(b) - multiset{x};
      BelowSameForAnyOrder(a[..n], b[..j] + b[j + 1..], bucket);
      BelowConcat(b[..j], b[j + 1..], bucket);
      BelowConcat(b[..j] + [x], b[j + 1..], bucket);
      BelowConcat(b[..j], [x], bucket);
      BelowConcat(a[..n], [x], bucket);
    }
  }

  // The bucket found is that of the rank-th smallest duration.
  lemma FoundBucket(ds: seq<int>, s: seq<int>, p: real, b: nat)
    requires Sorted(s) && multiset(s) == multiset(ds) && b <= |BOUNDS|
    requires 1 <= Rank(p, |ds|) <= |ds| && Below(ds, b) < Rank(p, |ds|) <= Below(ds, b + 1)
    ensures |s| == |ds| && b == Bucket(s[Rank(p, |ds|) - 1])
  {
    assert |multiset(s)| == |s| && |multiset(ds)| == |ds|;
    BelowSameForAnyOrder(s, ds, b);
    BelowSameForAnyOrder(s, ds, b + 1);
    SortedBelow(s, b);
    SortedBelow(s, b + 1);
  }

  lemma SameLength(a: seq<int>, b: seq<int>)
    requires multiset(a) == multiset(b)
    ensures |a| == |b|
  {
    assert |multiset(a)| == |a| && |multiset(b)| == |b|;
  }

  lemma RankIs(p: real, n: nat)
    ensures Rank(p, n) == if (p * n as real).Floor <= 0 then 1 else (p * n as real).Floor
  {
  }

  // The percentile is the bound of the bucket of the rank-th smallest duration; nothing
  // when there is none. It is a real number here, so that the rank is exact.
  method EstimatePercentile(counts: seq<int>, p: real, ghost ds: seq<int>, ghost sorted: seq<int>) returns (r: int)
    requires Summed(counts, ds) && Sorted(sorted) && multiset(sorted) == multiset(ds)
    ensures ds == [] ==> r == 0
    ensures |sorted| == |ds|
    ensures ds != [] && Rank(p, |ds|) <= |ds| ==> r == Ceiling(Bucket(sorted[Rank(p, |ds|) - 1]))
    ensures ds != [] && Rank(p, |ds|) > |ds| ==> r == Ceiling(|BOUNDS|)
  {
    hide Below, InBucket, Bucket, Sorted, Rank;
    SameLength(ds, sorted);
    var total := 0;
    BelowEnds(ds);
    for i := 0 to |counts|
      invariant total == Below(ds, i)
    {
      BelowStep(ds, i);
      total := total + counts[i];
    }
    if total == 0 {
      return 0;
    }
    var target := (p * total as real).Floor;
    if target <= 0 {
      target := 1;
    }
    RankIs(p, total);
    var running := 0;
    for index := 0 to |counts|
      invariant running == Below(ds, index) < target
    {
      BelowStep(ds, index);
      BelowAtMost(ds, index + 1);
      running := running + counts[index];
      if running >= target {
        FoundBucket(ds, sorted, p, index);
        return if index < |BOUNDS| then BOUNDS[index] else BOUNDS[|BOUNDS| - 1] + 1;
      }
    }
    r := BOUNDS[|BOUNDS| - 1] + 1;
  }

  // A percentile of at most the whole asks for a rank that exists.
  lemma RankExists(p: real, n: nat)
    requires p <= 1.0 && n > 0
    ensures 1 <= Rank(p, n) <= n
  {
    assert p * n as real <= 1.0 * n as real;
  }
}
