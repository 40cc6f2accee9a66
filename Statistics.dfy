/**
 * `numericValues` and the summary statistics of `compute_stats_json` in
 * src/services/youtubeTools.js: count, mean, population variance, min, max
 * and the median of the ascending sort. Mean and variance are exact rationals
 * (the source rounds them to four decimals through floating point).
 */
module Statistics {
  import opened Wrappers
  import opened JsText
  import opened JsValues
  import opened Durations
  import opened Sorting

  /** The number one record contributes for `field`, or `None` when the source's
      callback yields `null` or NaN: a number is kept, `duration` is parsed as an
      ISO 8601 duration, a truthy `release_date` goes through the date parser,
      anything else through `parseFloat`. */
  function ExtractValue(v: Record, field: Option<Value>, parseDate: Value -> Option<int>): Option<int> {
    var val := Get(v, StringOf(field));
    if val.Some? && val.value.Num? then Some(val.value.n)
    else if field == Some(Str("duration")) then
      match ParseDuration(val)
      case Some(n) => Some(n)
      case None => None
    else if field == Some(Str("release_date")) && Truthy(val) then parseDate(val.value)
    else ParseFloatOf(val)
  }

  /** `f` applied to each record, in record order. */
  function MapRecords(videos: seq<Record>, f: Record -> Option<int>): (xs: seq<Option<int>>)
    ensures |xs| == |videos|
    ensures forall i :: 0 <= i < |videos| ==> xs[i] == f(videos[i])
  {
    seq(|videos|, i requires 0 <= i < |videos| => f(videos[i]))
  }

  lemma MapRecordsAppend(a: seq<Record>, b: seq<Record>, f: Record -> Option<int>)
    ensures MapRecords(a + b, f) == MapRecords(a, f) + MapRecords(b, f)
  {
    var x, xa, xb := MapRecords(a + b, f), MapRecords(a, f), MapRecords(b, f);
    forall i | 0 <= i < |x| ensures x[i] == (xa + xb)[i] {
      if i < |a| {
        assert (a + b)[i] == a[i];
      } else {
        assert (a + b)[i] == b[i - |a|];
      }
    }
  }

  /** What each record yields, in record order. */
  function Extracted(videos: seq<Record>, field: Option<Value>, parseDate: Value -> Option<int>): (xs: seq<Option<int>>)
    ensures |xs| == |videos|
    ensures forall i :: 0 <= i < |videos| ==> xs[i] == ExtractValue(videos[i], field, parseDate)
  {
    MapRecords(videos, v => ExtractValue(v, field, parseDate))
  }

  /** The present values, in order: the `.filter` that drops `null` and NaN. */
  function Present(xs: seq<Option<int>>): (vals: seq<int>)
    ensures |vals| <= |xs|
  {
    if |xs| == 0 then []
    else (if xs[0].Some? then [xs[0].value] else []) + Present(xs[1..])
  }

  /** `numericValues(videos, field)`: the extracted numbers, in record order. */
  function NumericValues(videos: seq<Record>, field: Option<Value>, parseDate: Value -> Option<int>): (vals: seq<int>)
    ensures |vals| <= |videos|
  {
    Present(Extracted(videos, field, parseDate))
  }

  function Shift(ix: seq<nat>): (r: seq<nat>)
    ensures |r| == |ix| && forall k :: 0 <= k < |ix| ==> r[k] == ix[k] + 1
  {
    seq(|ix|, k requires 0 <= k < |ix| => ix[k] + 1)
  }

  /** The positions of the present values. */
  function PresentIndices(xs: seq<Option<int>>): (ix: seq<nat>)
    ensures |ix| == |Present(xs)|
    decreases |xs|
  {
    if |xs| == 0 then []
    else if xs[0].Some? then [0] + Shift(PresentIndices(xs[1..]))
    else Shift(PresentIndices(xs[1..]))
  }

  /** The k-th position holds the k-th present value. */
  lemma {:induction false} PresentIndicesSound(xs: seq<Option<int>>)
    ensures forall k :: 0 <= k < |PresentIndices(xs)| ==>
              PresentIndices(xs)[k] < |xs| && xs[PresentIndices(xs)[k]] == Some(Present(xs)[k])
    decreases |xs|
  {
    if |xs| > 0 {
      var tail := xs[1..];
      PresentIndicesSound(tail);
      var rest := PresentIndices(tail);
      var ix := PresentIndices(xs);
      var vals := Present(xs);
      var d := if xs[0].Some? then 1 else 0;
      assert vals == (if xs[0].Some? then [xs[0].value] else []) + Present(tail);
      assert ix == (if xs[0].Some? then [0] else []) + Shift(rest);
      forall k | d <= k < |ix|
        ensures ix[k] < |xs| && xs[ix[k]] == Some(vals[k])
      {
        assert ix[k] == rest[k - d] + 1;
        assert vals[k] == Present(tail)[k - d];
        assert xs[ix[k]] == tail[rest[k - d]];
      }
    }
  }

  lemma {:induction false} PresentIndicesIncreasing(xs: seq<Option<int>>)
    ensures forall k, l :: 0 <= k < l < |PresentIndices(xs)| ==> PresentIndices(xs)[k] < PresentIndices(xs)[l]
    decreases |xs|
  {
    if |xs| > 0 {
      PresentIndicesIncreasing(xs[1..]);
      var sh := Shift(PresentIndices(xs[1..]));
      assert forall k, l :: 0 <= k < l < |sh| ==> sh[k] < sh[l];
      assert forall k :: 0 <= k < |sh| ==> 0 < sh[k];
    }
  }

  lemma {:induction false} PresentIndicesComplete(xs: seq<Option<int>>, i: nat)
    requires i < |xs| && xs[i].Some?
    ensures i in PresentIndices(xs)
    decreases |xs|
  {
    if i > 0 {
      assert xs[1..][i - 1] == xs[i];
      PresentIndicesComplete(xs[1..], i - 1);
      var rest := PresentIndices(xs[1..]);
      var k :| 0 <= k < |rest| && rest[k] == i - 1;
      assert Shift(rest)[k] == i;
    }
  }

  /** Where each extracted number comes from: the positions of the records
      that yield a number. With `SourceIndicesIncreasing` and
      `SourceIndicesComplete` this says that `numericValues` keeps exactly
      those records' numbers, in record order. */
  function SourceIndices(videos: seq<Record>, field: Option<Value>, parseDate: Value -> Option<int>): (ix: seq<nat>)
    ensures |ix| == |NumericValues(videos, field, parseDate)|
    ensures forall k :: 0 <= k < |ix| ==>
              ix[k] < |videos| && ExtractValue(videos[ix[k]], field, parseDate) == Some(NumericValues(videos, field, parseDate)[k])
  {
    PresentIndicesSound(Extracted(videos, field, parseDate));
    PresentIndices(Extracted(videos, field, parseDate))
  }

  lemma SourceIndicesIncreasing(videos: seq<Record>, field: Option<Value>, parseDate: Value -> Option<int>)
    ensures forall k, l :: 0 <= k < l < |SourceIndices(videos, field, parseDate)| ==>
              SourceIndices(videos, field, parseDate)[k] < SourceIndices(videos, field, parseDate)[l]
  {
    PresentIndicesIncreasing(Extracted(videos, field, parseDate));
  }

  lemma SourceIndicesComplete(videos: seq<Record>, field: Option<Value>, parseDate: Value -> Option<int>, i: nat)
    requires i < |videos| && ExtractValue(videos[i], field, parseDate).Some?
    ensures i in SourceIndices(videos, field, parseDate)
  {
    PresentIndicesComplete(Extracted(videos, field, parseDate), i);
  }

  lemma {:induction false} PresentAllSome(xs: seq<Option<int>>)
    requires forall i :: 0 <= i < |xs| ==> xs[i].Some?
    ensures |Present(xs)| == |xs|
    ensures forall i :: 0 <= i < |xs| ==> Present(xs)[i] == xs[i].value
    decreases |xs|
  {
    if |xs| > 0 {
      PresentAllSome(xs[1..]);
      assert forall i :: 1 <= i < |xs| ==> xs[1..][i - 1] == xs[i];
    }
  }

  /** Records that hold numbers contribute those numbers unchanged. */
  lemma NumbersKept(videos: seq<Record>, field: Option<Value>, parseDate: Value -> Option<int>)
    requires forall i :: 0 <= i < |videos| ==> Get(videos[i], StringOf(field)).Some? && Get(videos[i], StringOf(field)).value.Num?
    ensures |NumericValues(videos, field, parseDate)| == |videos|
    ensures forall i :: 0 <= i < |videos| ==> NumericValues(videos, field, parseDate)[i] == Get(videos[i], StringOf(field)).value.n
  {
    PresentAllSome(Extracted(videos, field, parseDate));
  }

  lemma {:induction false} PresentAppend(a: seq<Option<int>>, b: seq<Option<int>>)
    ensures Present(a + b) == Present(a) + Present(b)
    decreases |a|
  {
    if |a| == 0 {
      assert a + b == b;
    } else {
      assert (a + b)[0] == a[0] && (a + b)[1..] == a[1..] + b;
      PresentAppend(a[1..], b);
    }
  }

  /** The values of a concatenation are the concatenation of the values. */
  lemma NumericValuesAppend(a: seq<Record>, b: seq<Record>, field: Option<Value>, parseDate: Value -> Option<int>)
    ensures NumericValues(a + b, field, parseDate) == NumericValues(a, field, parseDate) + NumericValues(b, field, parseDate)
  {
    MapRecordsAppend(a, b, v => ExtractValue(v, field, parseDate));
    PresentAppend(Extracted(a, field, parseDate), Extracted(b, field, parseDate));
  }

  // ---------------------------------------------------------------------------
  // Summary statistics

  function Sum(s: seq<int>): int {
    if |s| == 0 then 0 else s[0] + Sum(s[1..])
  }

  /** The arithmetic mean. */
  function Mean(s: seq<int>): real
    requires |s| > 0
  {
    Sum(s) as real / |s| as real
  }

  /** The sum of squared deviations from `m`. */
  function SquaredDeviations(s: seq<int>, m: real): (r: real)
    ensures r >= 0.0
  {
    if |s| == 0 then 0.0
    else (s[0] as real - m) * (s[0] as real - m) + SquaredDeviations(s[1..], m)
  }

  /** The population variance (the source divides by the count). */
  function Variance(s: seq<int>): (r: real)
    requires |s| > 0
    ensures r >= 0.0
  {
    SquaredDeviations(s, Mean(s)) / |s| as real
  }

  /** `Math.min(...s)`: an element no larger than any other. */
  function MinOf(s: seq<int>): (m: int)
    requires |s| > 0
    ensures m in s
    ensures forall i :: 0 <= i < |s| ==> m <= s[i]
  {
    if |s| == 1 then s[0]
    else
      var r := MinOf(s[1..]);
      if s[0] <= r then s[0] else r
  }

  /** `Math.max(...s)`: an element no smaller than any other. */
  function MaxOf(s: seq<int>): (m: int)
    requires |s| > 0
    ensures m in s
    ensures forall i :: 0 <= i < |s| ==> s[i] <= m
  {
    if |s| == 1 then s[0]
    else
      var r := MaxOf(s[1..]);
      if s[0] >= r then s[0] else r
  }

  /** `median(sorted)`: the middle element for an odd count, the mean of the
      two middle elements for an even count. */
  function Median(sorted: seq<int>): real
    requires |sorted| > 0
  {
    if |sorted| % 2 == 0 then (sorted[|sorted| / 2 - 1] + sorted[|sorted| / 2]) as real / 2.0
    else sorted[|sorted| / 2] as real
  }

  /** The sort key of `(a, b) => a - b`. */
  function Ascending(x: int): int { x }

  /** The ascending copy of the values that `compute_stats_json` takes the median of. */
  function SortedValues(vals: seq<int>): seq<int> {
    SortBy(vals, Ascending)
  }

  /** The ends of the ascending copy are the minimum and the maximum. */
  lemma SortedEnds(vals: seq<int>)
    requires |vals| > 0
    ensures |SortedValues(vals)| == |vals|
    ensures SortedValues(vals)[0] == MinOf(vals)
    ensures SortedValues(vals)[|vals| - 1] == MaxOf(vals)
  {
    var t := SortedValues(vals);
    SortByCorrect(vals, Ascending);
    assert t[0] in multiset(vals) && t[|t| - 1] in multiset(vals);
    assert MinOf(vals) in multiset(t) && MaxOf(vals) in multiset(t);
    var i :| 0 <= i < |t| && t[i] == MinOf(vals);
    var j :| 0 <= j < |t| && t[j] == MaxOf(vals);
    assert Ascending(t[0]) <= Ascending(t[i]);
    assert Ascending(t[j]) <= Ascending(t[|t| - 1]);
  }

  /** min ≤ median ≤ max. */
  lemma MedianBounds(vals: seq<int>)
    requires |vals| > 0
    ensures |SortedValues(vals)| == |vals|
    ensures MinOf(vals) as real <= Median(SortedValues(vals)) <= MaxOf(vals) as real
  {
    var t := SortedValues(vals);
    SortByCorrect(vals, Ascending);
    SortedEnds(vals);
    var n := |t|;
    if n % 2 == 0 {
      assert Ascending(t[0]) <= Ascending(t[n / 2 - 1]) <= Ascending(t[n / 2]) <= Ascending(t[n - 1]);
    } else {
      assert Ascending(t[0]) <= Ascending(t[n / 2]) <= Ascending(t[n - 1]);
    }
  }

  lemma {:induction false} SumAtLeast(s: seq<int>, m: int)
    requires forall i :: 0 <= i < |s| ==> m <= s[i]
    ensures |s| * m <= Sum(s)
    decreases |s|
  {
    if |s| > 0 {
      SumAtLeast(s[1..], m);
      assert |s| * m == m + (|s| - 1) * m;
    }
  }

  lemma {:induction false} SumAtMost(s: seq<int>, m: int)
    requires forall i :: 0 <= i < |s| ==> s[i] <= m
    ensures Sum(s) <= |s| * m
    decreases |s|
  {
    if |s| > 0 {
      SumAtMost(s[1..], m);
      assert |s| * m == m + (|s| - 1) * m;
    }
  }

  lemma DivideBounds(lo: int, sum: int, hi: int, n: nat)
    requires n > 0 && n * lo <= sum <= n * hi
    ensures lo as real <= sum as real / n as real <= hi as real
  {
    var q := sum as real / n as real;
    assert q * n as real == sum as real;
    assert (n * lo) as real == n as real * lo as real;
    assert (n * hi) as real == n as real * hi as real;
  }

  /** The mean lies between the minimum and the maximum. */
  lemma MeanBounds(s: seq<int>)
    requires |s| > 0
    ensures MinOf(s) as real <= Mean(s) <= MaxOf(s) as real
  {
    SumAtLeast(s, MinOf(s));
    SumAtMost(s, MaxOf(s));
    DivideBounds(MinOf(s), Sum(s), MaxOf(s), |s|);
  }

  lemma HeadsEqual(a: seq<int>, b: seq<int>)
    requires |a| > 0 && |b| > 0
    requires SortedBy(a, Ascending) && SortedBy(b, Ascending)
    requires multiset(a) == multiset(b)
    ensures a[0] == b[0]
  {
    assert a[0] in multiset(b) && b[0] in multiset(a);
    var i :| 0 <= i < |b| && b[i] == a[0];
    var j :| 0 <= j < |a| && a[j] == b[0];
    assert Ascending(b[0]) <= Ascending(b[i]);
    assert Ascending(a[0]) <= Ascending(a[j]);
  }

  lemma TailsSame(a: seq<int>, b: seq<int>)
    requires |a| > 0 && |b| > 0 && a[0] == b[0]
    requires multiset(a) == multiset(b)
    ensures multiset(a[1..]) == multiset(b[1..])
  {
    assert a == [a[0]] + a[1..];
    assert b == [b[0]] + b[1..];
    assert multiset(a) == multiset{a[0]} + multiset(a[1..]);
    assert multiset(b) == multiset{a[0]} + multiset(b[1..]);
    forall x ensures multiset(a[1..])[x] == multiset(b[1..])[x] {
      assert multiset(a)[x] == multiset{a[0]}[x] + multiset(a[1..])[x];
      assert multiset(b)[x] == multiset{a[0]}[x] + multiset(b[1..])[x];
    }
  }

  /** Two ascending sequences with the same elements are equal, so the median
      depends only on the values and not on the order of the records. */
  lemma {:induction false} SortedUnique(a: seq<int>, b: seq<int>)
    requires SortedBy(a, Ascending) && SortedBy(b, Ascending)
    requires multiset(a) == multiset(b)
    ensures a == b
    decreases |a|
  {
    assert |a| == |multiset(a)| == |b|;
    if |a| > 0 {
      HeadsEqual(a, b);
      TailsSame(a, b);
      assert SortedBy(a[1..], Ascending) && SortedBy(b[1..], Ascending);
      SortedUnique(a[1..], b[1..]);
      assert a == [a[0]] + a[1..] && b == [b[0]] + b[1..];
    }
  }

  /** Reordering the inputs does not change the median. */
  lemma MedianOrderIndependent(a: seq<int>, b: seq<int>)
    requires |a| > 0 && multiset(a) == multiset(b)
    ensures |b| > 0 && Median(SortedValues(a)) == Median(SortedValues(b))
  {
    assert |a| == |multiset(a)| == |b|;
    SortByCorrect(a, Ascending);
    SortByCorrect(b, Ascending);
    SortedUnique(SortedValues(a), SortedValues(b));
  }
}
