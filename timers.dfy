/** The statsd-style summary of a timer's samples:
    `Series._aggregate_timer_values` (basescript/stats.py). */
module Timers {
  import opened Values
  import Text

  /** Each sample is at most the next one. */
  predicate Ascending(s: seq<int>) {
    |s| <= 1 || (s[0] <= s[1] && Ascending(s[1..]))
  }

  /** In an ascending sequence every sample is at most every later one. */
  lemma {:induction false} AscendingPairs(s: seq<int>)
    requires Ascending(s)
    ensures forall i, j :: 0 <= i < j < |s| ==> s[i] <= s[j]
  {
    if |s| > 1 {
      var t := s[1..];
      AscendingPairs(t);
      forall i, j | 0 <= i < j < |s| ensures s[i] <= s[j] {
        if i == 0 {
          if j > 1 { assert t[0] <= t[j - 1]; }
        } else {
          assert t[i - 1] <= t[j - 1];
        }
      }
    }
  }

  lemma {:induction false} AscendingFromNeighbours(s: seq<int>)
    requires forall i :: 0 <= i < |s| - 1 ==> s[i] <= s[i + 1]
    ensures Ascending(s)
  {
    if |s| > 1 {
      var t := s[1..];
      assert forall i :: 0 <= i < |t| - 1 ==> t[i] <= t[i + 1] by {
        forall i | 0 <= i < |t| - 1 ensures t[i] <= t[i + 1] {
          assert t[i] == s[i + 1] && t[i + 1] == s[i + 2];
        }
      }
      AscendingFromNeighbours(t);
    }
  }

  /** Places `x` among ascending samples, before the first greater one. */
  function Insert(x: int, s: seq<int>): (r: seq<int>)
    requires Ascending(s)
    ensures Ascending(r) && multiset(r) == multiset(s) + multiset{x} && |r| == |s| + 1
    ensures r[0] == if |s| == 0 || x <= s[0] then x else s[0]
  {
    if |s| == 0 || x <= s[0] then
      assert ([x] + s)[1..] == s;
      [x] + s
    else
      var t := Insert(x, s[1..]);
      assert s == [s[0]] + s[1..];
      assert ([s[0]] + t)[1..] == t;
      [s[0]] + t
  }

  /** `sorted(values)` on numbers. */
  function SortInts(xs: seq<int>): (r: seq<int>)
    ensures Ascending(r) && multiset(r) == multiset(xs) && |r| == |xs|
  {
    if |xs| == 0 then []
    else
      assert xs == [xs[0]] + xs[1..];
      Insert(xs[0], SortInts(xs[1..]))
  }

  /** There is only one ascending arrangement of a collection of numbers. */
  lemma {:induction false} AscendingUnique(a: seq<int>, b: seq<int>)
    requires Ascending(a) && Ascending(b) && multiset(a) == multiset(b)
    ensures a == b
    decreases |a|
  {
    if |a| > 0 {
      HeadsEqual(a, b);
      AscendingTail(a);
      AscendingTail(b);
      TailsPermuted(a, b);
      AscendingUnique(a[1..], b[1..]);
      Text.SameHeadAndTail(a, b);
    }
  }

  lemma HeadsEqual(a: seq<int>, b: seq<int>)
    requires Ascending(a) && Ascending(b) && multiset(a) == multiset(b) && |a| > 0
    ensures |b| > 0 && a[0] == b[0]
  {
    var i := IndexOf(b, a[0]);
    var j := IndexOf(a, b[0]);
    AscendingPairs(a);
    AscendingPairs(b);
    if i > 0 { assert b[0] <= b[i]; }
    if j > 0 { assert a[0] <= a[j]; }
  }

  lemma TailsPermuted(a: seq<int>, b: seq<int>)
    requires multiset(a) == multiset(b) && |a| > 0 && |b| > 0 && a[0] == b[0]
    ensures multiset(a[1..]) == multiset(b[1..])
  {
    assert a == [a[0]] + a[1..] && b == [b[0]] + b[1..];
    assert multiset(a[1..]) == multiset(a) - multiset{a[0]};
    assert multiset(b[1..]) == multiset(b) - multiset{b[0]};
  }

  function Sum(xs: seq<int>): int {
    if |xs| == 0 then 0 else Sum(xs[..|xs| - 1]) + xs[|xs| - 1]
  }

  lemma {:induction false} SumAppend(a: seq<int>, b: seq<int>)
    ensures Sum(a + b) == Sum(a) + Sum(b)
    decreases |b|
  {
    if |b| == 0 {
      assert a + b == a;
    } else {
      assert (a + b)[..|a + b| - 1] == a + b[..|b| - 1];
      SumAppend(a, b[..|b| - 1]);
    }
  }

  lemma {:induction false} SumPermutation(a: seq<int>, b: seq<int>)
    requires multiset(a) == multiset(b)
    ensures Sum(a) == Sum(b)
    decreases |a|
  {
    if |a| == 0 {
      assert |b| == |multiset(b)| == 0;
    } else {
      var x := a[|a| - 1];
      var a' := a[..|a| - 1];
      assert a == a' + [x];
      var i := IndexOf(b, x);
      var p, q := b[..i], b[i + 1..];
      assert b == p + ([x] + q);
      RemoveAt(a, |a| - 1);
      RemoveAt(b, i);
      SumPermutation(a', p + q);
      SumSplit(p, x, q);
    }
  }

  lemma AscendingTail(s: seq<int>)
    requires Ascending(s) && |s| > 0
    ensures Ascending(s[1..])
  {
  }

  /** Where a member of a sequence occurs. */
  lemma IndexOf(s: seq<int>, x: int) returns (i: int)
    requires x in multiset(s)
    ensures 0 <= i < |s| && s[i] == x
  {
    i :| 0 <= i < |s| && s[i] == x;
  }

  lemma RemoveAt(s: seq<int>, i: int)
    requires 0 <= i < |s|
    ensures multiset(s[..i] + s[i + 1..]) == multiset(s) - multiset{s[i]}
  {
    assert s == s[..i] + [s[i]] + s[i + 1..];
  }

  lemma SumSplit(p: seq<int>, x: int, q: seq<int>)
    ensures Sum(p + ([x] + q)) == Sum(p + q) + x
  {
    SumAppend(p, [x] + q);
    SumAppend([x], q);
    SumAppend(p, q);
    assert [x][..0] == [];
  }

  /** `int(round(0.1 * count))`: a tenth of the count, rounded to the
      nearest integer with ties going away from zero, as Python 2's `round`
      does (the count is never negative, so ties go up). */
  function ThresholdIndex(count: nat): (k: nat)
    ensures 10 * k - 5 <= count < 10 * k + 5
  {
    (count + 5) / 10
  }

  /** `num_in_threshold`: how many of the smallest samples fall within the
      90th percentile. For two or more samples it is at least one and at most
      all of them. */
  function ThresholdCount(count: nat): (n: int)
    ensures count >= 1 ==> 1 <= n <= count
  {
    count - ThresholdIndex(count)
  }

  /** `float(total) / count` */
  function Mean(total: int, count: int): real
    requires count > 0
  {
    total as real / count as real
  }

  /** The `_90` entries: total, mean and greatest of the smallest samples. */
  datatype Percentile = Percentile(sum: int, mean: real, upper: int)

  /** The entries of the dictionary `_aggregate_timer_values` returns for one
      or more samples; `ninety` holds the `_90` entries, present for two or
      more samples. */
  datatype TimerSummary = TimerSummary(sum: int, mean: real, lower: int, upper: int, count: int,
                                       ninety: Option<Percentile>)

  /** What `_aggregate_timer_values(values)` returns; `None` is the empty
      dictionary returned for no samples. */
  function TimerAggregates(values: seq<int>): (r: Option<TimerSummary>)
    ensures r.None? <==> |values| == 0
    ensures r.Some? ==> (r.value.ninety.Some? <==> |values| >= 2)
  {
    if |values| == 0 then None else Some(Summarize(SortInts(values)))
  }

  /** The summary of samples already in ascending order. */
  function Summarize(s: seq<int>): (a: TimerSummary)
    requires |s| >= 1
    ensures a.ninety.Some? <==> |s| >= 2
  {
    TimerSummary(Sum(s), Mean(Sum(s), |s|), s[0], s[|s| - 1], |s|,
                 if |s| == 1 then None else Some(Ninety(s)))
  }

  /** The `_90` entries of samples in ascending order. */
  function Ninety(s: seq<int>): (p: Percentile)
    requires |s| >= 2
    ensures p.upper in s
  {
    var n := ThresholdCount(|s|);
    Percentile(Sum(s[..n]), Mean(Sum(s[..n]), n), s[n - 1])
  }

  /** A single sample is its own sum, mean, lower and upper bound, and there
      are no `_90` entries. */
  lemma AggregateOne(values: seq<int>)
    requires |values| == 1
    ensures TimerAggregates(values) == Some(TimerSummary(values[0], values[0] as real, values[0], values[0], 1, None))
  {
    var s := SortInts(values);
    assert |s| == |multiset(s)| == 1;
    assert s[0] in multiset(values);
    assert s[..0] == [];
    assert s == values;
    assert Sum(s) == values[0];
    assert Mean(values[0], 1) == values[0] as real;
    assert TimerAggregates(values) == Some(Summarize(s));
  }

  /** The summary as the dictionary it is: one entry per statistic, the keys
      of the `_90` entries only when those are present. */
  function SummaryFields(r: Option<TimerSummary>): (d: map<string, Value>)
    ensures r.None? ==> d == map[]
    ensures r.Some? && r.value.ninety.None? ==> d.Keys == {"sum", "mean", "lower", "upper", "count"}
    ensures r.Some? && r.value.ninety.Some? ==>
      d.Keys == {"sum", "mean", "lower", "upper", "count", "sum_90", "mean_90", "upper_90"}
  {
    match r
    case None => map[]
    case Some(a) =>
      var base := map["sum" := Int(a.sum), "mean" := Real(a.mean), "lower" := Int(a.lower),
                      "upper" := Int(a.upper), "count" := Int(a.count)];
      match a.ninety
      case None => base
      case Some(p) => base["sum_90" := Int(p.sum)]["mean_90" := Real(p.mean)]["upper_90" := Int(p.upper)]
  }

  /** The summary of one or more samples: `lower` and `upper` are the least
      and greatest sample, `sum` their total and `mean` the total over
      `count`. */
  lemma AggregateStatistics(values: seq<int>)
    requires |values| >= 1
    ensures var a := TimerAggregates(values).value;
      && a.count == |values|
      && a.lower in values && (forall v :: v in values ==> a.lower <= v)
      && a.upper in values && (forall v :: v in values ==> v <= a.upper)
      && a.sum == Sum(values)
      && a.mean == Mean(Sum(values), |values|)
  {
    var s := SortInts(values);
    SumPermutation(s, values);
    Extremes(values, s);
  }

  /** For two or more samples the `_90` entries describe the `n` smallest
      samples, `n` at least one and at most all of them: their total, their
      mean and the greatest of them, which lies between `lower` and
      `upper`. */
  lemma PercentileStatistics(values: seq<int>)
    requires |values| >= 2
    ensures var a := TimerAggregates(values).value;
      var n := ThresholdCount(|values|);
      var s := SortInts(values);
      && 1 <= n <= |values|
      && a.ninety == Some(Percentile(Sum(s[..n]), Mean(Sum(s[..n]), n), s[n - 1]))
      && a.lower <= s[n - 1] <= a.upper
  {
    var s := SortInts(values);
    var n := ThresholdCount(|values|);
    var a := TimerAggregates(values).value;
    assert a == Summarize(s) && |s| == |values|;
    assert a.ninety == Some(Percentile(Sum(s[..n]), Mean(Sum(s[..n]), n), s[n - 1])) by {
      assert Summarize(s).ninety == Some(Ninety(s));
    }
    Prefix(s, n);
  }

  /** The samples the `_90` entries describe are taken from the samples, and
      none of them exceeds any sample left out. */
  lemma PercentileIsSmallest(values: seq<int>)
    requires |values| >= 2
    ensures multiset(SortInts(values)[..ThresholdCount(|values|)]) <= multiset(values)
    ensures forall i, j :: 0 <= i < ThresholdCount(|values|) <= j < |values| ==>
      SortInts(values)[i] <= SortInts(values)[j]
  {
    var s := SortInts(values);
    var n := ThresholdCount(|values|);
    Prefix(s, n);
    assert multiset(s[..n]) <= multiset(values);
  }

  lemma Prefix(s: seq<int>, n: int)
    requires Ascending(s) && 1 <= n <= |s|
    ensures multiset(s[..n]) <= multiset(s)
    ensures forall i, j :: 0 <= i < n <= j < |s| ==> s[i] <= s[j]
    ensures s[0] <= s[n - 1] <= s[|s| - 1]
  {
    AscendingPairs(s);
    assert s == s[..n] + s[n..];
    assert multiset(s) == multiset(s[..n]) + multiset(s[n..]);
  }

  lemma Extremes(values: seq<int>, s: seq<int>)
    requires |s| >= 1 && Ascending(s) && multiset(s) == multiset(values)
    ensures s[0] in values && s[|s| - 1] in values
    ensures forall v :: v in values ==> s[0] <= v <= s[|s| - 1]
  {
    AscendingPairs(s);
    assert s[0] in multiset(values) && s[|s| - 1] in multiset(values);
    forall v | v in values ensures s[0] <= v <= s[|s| - 1] {
      assert v in multiset(s);
      var k := IndexOf(s, v);
    }
  }

  /** `_aggregate_timer_values` itself: sort, then the running totals
      `cum_val` in one pass. */
  method AggregateTimerValues(values: seq<int>) returns (r: Option<TimerSummary>)
    ensures r == TimerAggregates(values)
  {
    if |values| == 0 {
      return None;
    }
    var s := SortInts(values);
    var count := |s|;
    var minVal, maxVal := s[0], s[count - 1];
    var cum := [minVal];
    var i := 1;
    assert s[..1] == [s[0]];
    while i < count
      invariant 1 <= i <= count
      invariant |cum| == i
      invariant RunningSums(s, cum)
    {
      PrefixSum(s, i);
      RunningSumsExtend(s, cum, s[i] + cum[i - 1]);
      cum := cum + [s[i] + cum[i - 1]];
      i := i + 1;
    }
    SummaryFromSums(s, cum);
    assert TimerAggregates(values) == Some(Summarize(s));
    var total := cum[count - 1];
    var mean := Mean(total, count);
    if count == 1 {
      return Some(TimerSummary(total, mean, minVal, maxVal, count, None));
    }
    var thresholdIndex := ThresholdIndex(count);
    var numInThreshold := count - thresholdIndex;
    var maxAtThreshold := s[numInThreshold - 1];
    var part := cum[numInThreshold - 1];
    r := Some(TimerSummary(total, mean, minVal, maxVal, count,
                           Some(Percentile(part, Mean(part, numInThreshold), maxAtThreshold))));
  }

  /** The summary read off the running sums, as the source reads it. */
  lemma SummaryFromSums(s: seq<int>, cum: seq<int>)
    requires |s| >= 1 && |cum| == |s| && RunningSums(s, cum)
    ensures Summarize(s).sum == cum[|s| - 1] && Summarize(s).mean == Mean(cum[|s| - 1], |s|)
    ensures Summarize(s).lower == s[0] && Summarize(s).upper == s[|s| - 1] && Summarize(s).count == |s|
    ensures |s| >= 2 ==> Summarize(s).ninety == Some(Percentile(cum[ThresholdCount(|s|) - 1],
      Mean(cum[ThresholdCount(|s|) - 1], ThresholdCount(|s|)), s[ThresholdCount(|s|) - 1]))
  {
    assert s[..|s|] == s;
  }

  /** The summary depends only on which samples were recorded, not on the
      order they arrived in. */
  lemma AggregateIgnoresOrder(a: seq<int>, b: seq<int>)
    requires multiset(a) == multiset(b)
    ensures TimerAggregates(a) == TimerAggregates(b)
  {
    assert |a| == |multiset(a)| == |multiset(b)| == |b|;
    AscendingUnique(SortInts(a), SortInts(b));
  }

  /** The eight-sample fixture of the source's tests, in any arrival order
      (the tests record them as 450, 120, 553, 994, 334, 844, 675, 496). */
  lemma AggregateExample(values: seq<int>, sorted: seq<int>)
    requires sorted == [120, 334, 450, 496, 553, 675, 844, 994]
    requires multiset(values) == multiset(sorted)
    ensures TimerAggregates(values) == Some(TimerSummary(4466, 558.25, 120, 994, 8, Some(Percentile(3472, 496.0, 844))))
  {
    ExampleAscending(sorted);
    AscendingUnique(SortInts(values), sorted);
    SortedExample(SortInts(values));
    assert TimerAggregates(values) == Some(Summarize(SortInts(values)));
  }

  lemma ExampleAscending(sorted: seq<int>)
    requires sorted == [120, 334, 450, 496, 553, 675, 844, 994]
    ensures Ascending(sorted)
  {
    AscendingFromNeighbours(sorted);
  }

  lemma SortedExample(s: seq<int>)
    requires s == [120, 334, 450, 496, 553, 675, 844, 994]
    ensures Summarize(s) == TimerSummary(4466, 558.25, 120, 994, 8, Some(Percentile(3472, 496.0, 844)))
  {
    assert s[..0] == [];
    PrefixSum(s, 0);
    PrefixSum(s, 1);
    PrefixSum(s, 2);
    PrefixSum(s, 3);
    PrefixSum(s, 4);
    PrefixSum(s, 5);
    PrefixSum(s, 6);
    PrefixSum(s, 7);
    assert s[..8] == s;
    assert ThresholdCount(8) == 7;
    assert Sum(s[..7]) == 3472;
  }

  /** `cum[j]` is the sum of the first `j + 1` samples. */
  predicate RunningSums(s: seq<int>, cum: seq<int>) {
    |cum| <= |s| && forall j :: 0 <= j < |cum| ==> cum[j] == Sum(s[..j + 1])
  }

  lemma RunningSumsExtend(s: seq<int>, cum: seq<int>, x: int)
    requires RunningSums(s, cum) && |cum| < |s| && x == Sum(s[..|cum| + 1])
    ensures RunningSums(s, cum + [x])
  {
  }

  lemma PrefixSum(s: seq<int>, k: int)
    requires 0 <= k < |s|
    ensures Sum(s[..k + 1]) == Sum(s[..k]) + s[k]
  {
    assert s[..k + 1][..k] == s[..k];
  }
}
