// Percentiles: of a list of samples by interpolation, and of a histogram with cumulative buckets.

module Sorting {

  ghost predicate TotalOrder<T(!new)>(leq: (T, T) -> bool) {
    && (forall x, y :: leq(x, y) || leq(y, x))
    && (forall x, y, z :: leq(x, y) && leq(y, z) ==> leq(x, z))
  }

  ghost predicate SortedBy<T>(leq: (T, T) -> bool, s: seq<T>) {
    forall i, j :: 0 <= i < j < |s| ==> leq(s[i], s[j])
  }

  function Insert<T>(leq: (T, T) -> bool, x: T, s: seq<T>): seq<T> {
    if s == [] || leq(x, s[0]) then [x] + s else [s[0]] + Insert(leq, x, s[1..])
  }

  /** The stable sorting the language offers. */
  function Sort<T>(leq: (T, T) -> bool, s: seq<T>): seq<T> {
    if s == [] then [] else Insert(leq, s[0], Sort(leq, s[1..]))
  }

  lemma {:induction false} InsertKeeps<T(!new)>(leq: (T, T) -> bool, x: T, s: seq<T>)
    ensures multiset(Insert(leq, x, s)) == multiset(s) + multiset{x}
    ensures TotalOrder(leq) && SortedBy(leq, s) ==> SortedBy(leq, Insert(leq, x, s))
  {
    if s != [] && !leq(x, s[0]) {
      var rest := Insert(leq, x, s[1..]);
      InsertKeeps(leq, x, s[1..]);
      assert s == [s[0]] + s[1..];
      if TotalOrder(leq) && SortedBy(leq, s) {
        forall i | 0 <= i < |rest| ensures leq(s[0], rest[i]) {
          assert rest[i] in multiset(rest);
          assert rest[i] in multiset(s[1..]) || rest[i] == x;
          if rest[i] in multiset(s[1..]) {
            var j :| 0 <= j < |s[1..]| && s[1..][j] == rest[i];
            assert leq(s[0], s[j + 1]);
          }
        }
      }
    }
  }

  lemma {:induction false} SortSorts<T(!new)>(leq: (T, T) -> bool, s: seq<T>)
    ensures multiset(Sort(leq, s)) == multiset(s) && |Sort(leq, s)| == |s|
    ensures TotalOrder(leq) ==> SortedBy(leq, Sort(leq, s))
  {
    if s != [] {
      SortSorts(leq, s[1..]);
      InsertKeeps(leq, s[0], Sort(leq, s[1..]));
      assert s == [s[0]] + s[1..];
    }
    assert |multiset(Sort(leq, s))| == |multiset(s)|;
  }
}

/** Points on the line between two values. */
module Interpolation {

  /** The point that has come this share of the way from a to b. */
  function Mix(a: real, b: real, share: real): real {
    a + share * (b - a)
  }

  lemma Times(x: real, y: real, d: real)
    requires x <= y && d >= 0.0
    ensures x * d <= y * d
  {
  }

  lemma MixGrows(a: real, b: real, f: real, g: real)
    requires a <= b && f <= g
    ensures Mix(a, b, f) <= Mix(a, b, g)
  {
    Times(f, g, b - a);
  }

  lemma MixEnds(a: real, b: real)
    ensures Mix(a, b, 0.0) == a && Mix(a, b, 1.0) == b && Mix(a, b, 0.5) == (a + b) / 2.0
  {
  }

  lemma MixBetween(a: real, b: real, f: real)
    requires a <= b && 0.0 <= f <= 1.0
    ensures a <= Mix(a, b, f) <= b
  {
    MixEnds(a, b);
    MixGrows(a, b, 0.0, f);
    MixGrows(a, b, f, 1.0);
  }

  /** The point that has come x of w steps from a to b. */
  function Rise(a: real, b: real, x: real, w: real): real
    requires w != 0.0
  {
    a + (b - a) * x / w
  }

  lemma Share(x: real, y: real, w: real)
    requires x <= y && w > 0.0
    ensures x / w <= y / w
  {
  }

  lemma WholeShare(d: real, w: real)
    requires w > 0.0
    ensures d * w / w == d && d * 0.0 / w == 0.0
  {
  }

  lemma RiseGrows(a: real, b: real, x: real, y: real, w: real)
    requires a <= b && x <= y && w > 0.0
    ensures Rise(a, b, x, w) <= Rise(a, b, y, w)
  {
    var d := b - a;
    Times(x, y, d);
    assert d * x <= d * y;
    Share(d * x, d * y, w);
  }

  lemma RiseBetween(a: real, b: real, x: real, w: real)
    requires a <= b && 0.0 <= x <= w && w > 0.0
    ensures a <= Rise(a, b, x, w) <= b
  {
    RiseGrows(a, b, 0.0, x, w);
    RiseGrows(a, b, x, w, w);
    RiseEnds(a, b, w);
  }

  lemma RiseEnds(a: real, b: real, w: real)
    requires w > 0.0
    ensures Rise(a, b, 0.0, w) == a && Rise(a, b, w, w) == b
  {
    WholeShare(b - a, w);
    assert Rise(a, b, 0.0, w) == a + (b - a) * 0.0 / w;
    assert Rise(a, b, w, w) == a + (b - a) * w / w;
  }
}

module SampleQuantiles {
  import opened Sorting
  import opened Interpolation

  predicate AtMost(x: real, y: real) {
    x <= y
  }

  function Ascending(data: seq<real>): (s: seq<real>)
    ensures |s| == |data|
  {
    SortSorts(AtMost, data);
    Sort(AtMost, data)
  }

  lemma AscendingIsSorted(data: seq<real>)
    ensures SortedBy(AtMost, Ascending(data)) && multiset(Ascending(data)) == multiset(data)
  {
    SortSorts(AtMost, data);
  }

  lemma InOrder(s: seq<real>, i: nat, j: nat)
    requires SortedBy(AtMost, s) && i <= j < |s|
    ensures s[i] <= s[j]
  {
    assert i < j ==> AtMost(s[i], s[j]);
  }

  /** The next position, or the last. */
  function Next(n: nat, i: nat): (j: nat)
    requires i < n
    ensures i <= j < n
  {
    if i + 1 < n - 1 then i + 1 else n - 1
  }

  /** Linear interpolation between the elements of a list. */
  function Interpolated(s: seq<real>, x: real): real
    requires 0.0 <= x <= (|s| - 1) as real
  {
    var lo := x.Floor;
    Mix(s[lo], s[Next(|s|, lo)], x - lo as real)
  }

  function Position(n: nat, q: real): (x: real)
    requires n > 0 && 0.0 <= q <= 1.0
    ensures 0.0 <= x <= (n - 1) as real
  {
    PartOf(q, (n - 1) as real);
    q * (n - 1) as real
  }

  lemma PartOf(q: real, d: real)
    requires 0.0 <= q <= 1.0 && d >= 0.0
    ensures 0.0 <= q * d <= d
  {
    Times(0.0, q, d);
    Times(q, 1.0, d);
    assert 1.0 * d == d && 0.0 * d == 0.0;
  }

  function Quantile(data: seq<real>, q: real): real
    requires 0.0 <= q <= 1.0
  {
    if data == [] then 0.0 else Interpolated(Ascending(data), Position(|data|, q))
  }

  function Median(data: seq<real>): real
    requires data != []
  {
    var s, n := Ascending(data), |data|;
    if n % 2 == 1 then s[n / 2] else (s[n / 2 - 1] + s[n / 2]) / 2.0
  }

  /** The interpolated value lies between its two neighbours. */
  lemma BetweenNeighbours(s: seq<real>, x: real)
    requires SortedBy(AtMost, s) && 0.0 <= x <= (|s| - 1) as real
    ensures s[x.Floor] <= Interpolated(s, x) <= s[Next(|s|, x.Floor)]
  {
    var lo := x.Floor;
    InOrder(s, lo, Next(|s|, lo));
    MixBetween(s[lo], s[Next(|s|, lo)], x - lo as real);
  }

  lemma InterpolationGrows(s: seq<real>, x: real, y: real)
    requires SortedBy(AtMost, s) && 0.0 <= x <= y <= (|s| - 1) as real
    ensures Interpolated(s, x) <= Interpolated(s, y)
  {
    var a, b := x.Floor, y.Floor;
    if a == b {
      InOrder(s, a, Next(|s|, a));
      MixGrows(s[a], s[Next(|s|, a)], x - a as real, y - a as real);
    } else {
      BetweenNeighbours(s, x);
      BetweenNeighbours(s, y);
      InOrder(s, Next(|s|, a), b);
    }
  }

  lemma AtInteger(s: seq<real>, k: nat)
    requires k < |s|
    ensures Interpolated(s, k as real) == s[k]
  {
    assert (k as real).Floor == k;
    MixEnds(s[k], s[Next(|s|, k)]);
  }

  lemma PositionGrows(n: nat, p: real, q: real)
    requires n > 0 && 0.0 <= p <= q <= 1.0
    ensures Position(n, p) <= Position(n, q)
  {
    Times(p, q, (n - 1) as real);
  }

  lemma PositionEnds(n: nat)
    requires n > 0
    ensures Position(n, 0.0) == 0.0 && Position(n, 1.0) == (n - 1) as real
    ensures Position(n, 0.5) == (n - 1) as real / 2.0
  {
  }

  /** Quantiles grow with q ... */
  lemma QuantileGrows(data: seq<real>, p: real, q: real)
    requires 0.0 <= p <= q <= 1.0
    ensures Quantile(data, p) <= Quantile(data, q)
  {
    if data != [] {
      AscendingIsSorted(data);
      PositionGrows(|data|, p, q);
      InterpolationGrows(Ascending(data), Position(|data|, p), Position(|data|, q));
    }
  }

  lemma EndsOfQuantile(data: seq<real>)
    requires data != []
    ensures Quantile(data, 0.0) == Ascending(data)[0] && Quantile(data, 1.0) == Ascending(data)[|data| - 1]
  {
    PositionEnds(|data|);
    AtInteger(Ascending(data), 0);
    AtInteger(Ascending(data), |data| - 1);
  }

  lemma EndsAreExtremes(data: seq<real>)
    requires data != []
    ensures var s := Ascending(data);
      s[0] in data && s[|s| - 1] in data && forall x :: x in data ==> s[0] <= x <= s[|s| - 1]
  {
    AscendingIsSorted(data);
    var s := Ascending(data);
    assert s[0] in multiset(s) && s[|s| - 1] in multiset(s);
    assert s[0] in multiset(data) && s[|s| - 1] in multiset(data);
    forall x | x in data ensures s[0] <= x <= s[|s| - 1] {
      assert x in multiset(data) && x in multiset(s);
      var i :| 0 <= i < |s| && s[i] == x;
      InOrder(s, 0, i);
      InOrder(s, i, |s| - 1);
    }
  }

  /** ... and lie between the smallest and the largest sample. */
  lemma QuantileIsBounded(data: seq<real>, q: real)
    requires data != [] && 0.0 <= q <= 1.0
    ensures Quantile(data, 0.0) <= Quantile(data, q) <= Quantile(data, 1.0)
    ensures Quantile(data, 0.0) in data && Quantile(data, 1.0) in data
    ensures forall x :: x in data ==> Quantile(data, 0.0) <= x <= Quantile(data, 1.0)
  {
    QuantileGrows(data, 0.0, q);
    QuantileGrows(data, q, 1.0);
    EndsOfQuantile(data);
    EndsAreExtremes(data);
  }

  /** The samples in order are the quantiles at the ranks, and between two ranks runs a straight line. */
  lemma RanksAreReached(data: seq<real>, k: nat, share: real, q: real)
    requires k < |data| && 0.0 <= share < 1.0 && (k == |data| - 1 ==> share == 0.0)
    requires 0.0 <= q <= 1.0 && q * (|data| - 1) as real == k as real + share
    ensures
      var s := Ascending(data);
      Quantile(data, q) == s[k] + share * (s[if k + 1 < |data| then k + 1 else k] - s[k])
  {
    assert Position(|data|, q) == k as real + share;
    BetweenRanks(Ascending(data), k, share);
  }

  lemma BetweenRanks(s: seq<real>, k: nat, share: real)
    requires k < |s| && 0.0 <= share < 1.0 && (k == |s| - 1 ==> share == 0.0)
    ensures Interpolated(s, k as real + share) == s[k] + share * (s[if k + 1 < |s| then k + 1 else k] - s[k])
  {
    var x := k as real + share;
    assert x.Floor == k && x - k as real == share;
    if k + 1 < |s| {
      assert Next(|s|, k) == k + 1;
    } else {
      assert Next(|s|, k) == k;
    }
  }

  /** At one half it is the median. */
  lemma HalfIsMedian(data: seq<real>)
    requires data != []
    ensures Quantile(data, 0.5) == Median(data)
  {
    var s, n := Ascending(data), |data|;
    PositionEnds(n);
    if n % 2 == 1 {
      assert Position(n, 0.5) == (n / 2) as real;
      AtInteger(s, n / 2);
    } else {
      var k := n / 2 - 1;
      assert Position(n, 0.5) == k as real + 0.5 && (k as real + 0.5).Floor == k;
      assert Next(n, k) == k + 1;
      MixEnds(s[k], s[k + 1]);
    }
  }

  /** So the reported percentiles are ordered. */
  lemma ReportedPercentilesAreOrdered(data: seq<real>)
    requires data != []
    ensures Median(data) <= Quantile(data, 0.95) <= Quantile(data, 0.99)
  {
    HalfIsMedian(data);
    QuantileGrows(data, 0.5, 0.95);
    QuantileGrows(data, 0.95, 0.99);
  }
}

module HistogramQuantiles {
  import opened Wrappers
  import opened Sorting
  import opened Interpolation
  import opened Prometheus

  type Bucket = (Bound, int)

  predicate BoundAtMost(a: Bound, b: Bound) {
    b.Infinite? || (a.Finite? && a.value <= b.value)
  }

  predicate EarlierBucket(a: Bucket, b: Bucket) {
    BoundAtMost(a.0, b.0)
  }

  function Half(b: Bound): Bound {
    if b.Infinite? then Infinite else Finite(b.value / 2.0)
  }

  /** The first bucket whose cumulative count reaches the target, or the number of buckets. */
  function Reaching(buckets: seq<Bucket>, target: real, i: nat): (r: nat)
    requires i <= |buckets|
    ensures i <= r <= |buckets|
    ensures forall k :: i <= k < r ==> buckets[k].1 as real < target
    ensures r < |buckets| ==> target <= buckets[r].1 as real
    decreases |buckets| - i
  {
    if i < |buckets| && (buckets[i].1 as real) < target then Reaching(buckets, target, i + 1) else i
  }

  /** The value inside the bucket after an earlier one. */
  function Inside(earlier: Bucket, bucket: Bucket, target: real): Bound
    requires earlier.0.Finite? || bucket.0.Infinite?
  {
    if bucket.0.Finite? && bucket.1 > earlier.1
    then Finite(Rise(earlier.0.value, bucket.0.value, target - earlier.1 as real, (bucket.1 - earlier.1) as real))
    else earlier.0
  }

  function ValueIn(buckets: seq<Bucket>, target: real, i: nat): Bound
    requires buckets != [] && i <= |buckets| && SortedBy(EarlierBucket, buckets)
  {
    if i == |buckets| then buckets[i - 1].0
    else if i == 0 then Half(buckets[0].0)
    else
      assert EarlierBucket(buckets[i - 1], buckets[i]);
      Inside(buckets[i - 1], buckets[i], target)
  }

  function Ordered(buckets: seq<Bucket>): (s: seq<Bucket>)
    ensures SortedBy(EarlierBucket, s) && |s| == |buckets| && multiset(s) == multiset(buckets)
  {
    SortSorts(EarlierBucket, buckets);
    Sort(EarlierBucket, buckets)
  }

  function QuantileOf(buckets: seq<Bucket>, count: int, q: real): Option<Bound> {
    if count == 0 || buckets == [] then None
    else
      var s, target := Ordered(buckets), count as real * q;
      Some(ValueIn(s, target, Reaching(s, target, 0)))
  }

  method Quantile(buckets: seq<Bucket>, count: int, q: real) returns (r: Option<Bound>)
    ensures r == QuantileOf(buckets, count, q)
  {
    if count == 0 || buckets == [] { return None; }
    var s, target := Ordered(buckets), count as real * q;
    var v := Scan(s, target);
    r := Some(v);
  }

  method Scan(s: seq<Bucket>, target: real) returns (v: Bound)
    requires s != [] && SortedBy(EarlierBucket, s)
    ensures v == ValueIn(s, target, Reaching(s, target, 0))
  {
    for i := 0 to |s|
      invariant Reaching(s, target, 0) == Reaching(s, target, i)
    {
      if s[i].1 as real >= target {
        if i == 0 { return Half(s[0].0); }
        assert EarlierBucket(s[i - 1], s[i]);
        if s[i].0.Finite? && s[i].1 > s[i - 1].1 {
          var x := Rise(s[i - 1].0.value, s[i].0.value, target - s[i - 1].1 as real, (s[i].1 - s[i - 1].1) as real);
          return Finite(x);
        }
        return s[i - 1].0;
      }
    }
    v := s[|s| - 1].0;
  }

  // ---------------------------------------------------------------- where the value lies

  lemma RiseIs(a: real, b: real, x: real, w: real)
    requires w != 0.0
    ensures (Rise(a, b, x, w) - a) * w == x * (b - a)
  {
    var y := (b - a) * x;
    assert Rise(a, b, x, w) - a == y / w;
    assert y / w * w == y;
  }

  /** Between the bounds of a bucket the counts are taken to rise in a straight line: the value is where they
      reach the target, so at the full count of the bucket it is its bound. */
  lemma ValueHitsTarget(s: seq<Bucket>, target: real)
    requires SortedBy(EarlierBucket, s)
    requires var i := Reaching(s, target, 0); 0 < i < |s| && s[i].0.Finite?
    ensures
      var i := Reaching(s, target, 0);
      var v := ValueIn(s, target, i);
      && v.Finite? && s[i - 1].0.Finite? && s[i].1 > s[i - 1].1
      && (v.value - s[i - 1].0.value) * (s[i].1 - s[i - 1].1) as real
         == (target - s[i - 1].1 as real) * (s[i].0.value - s[i - 1].0.value)
      && (target == s[i].1 as real ==> v == s[i].0)
  {
    var i := Reaching(s, target, 0);
    assert EarlierBucket(s[i - 1], s[i]);
    var w := (s[i].1 - s[i - 1].1) as real;
    RiseIs(s[i - 1].0.value, s[i].0.value, target - s[i - 1].1 as real, w);
    WholeShare(s[i].0.value - s[i - 1].0.value, w);
  }

  // ---------------------------------------------------------------- growing in q

  ghost predicate NonNegative(buckets: seq<Bucket>) {
    forall i :: 0 <= i < |buckets| ==> BoundAtMost(Finite(0.0), buckets[i].0)
  }

  lemma InsideIsBetween(earlier: Bucket, bucket: Bucket, target: real)
    requires EarlierBucket(earlier, bucket) && (earlier.1 as real) < target <= bucket.1 as real
    ensures BoundAtMost(earlier.0, Inside(earlier, bucket, target))
    ensures BoundAtMost(Inside(earlier, bucket, target), bucket.0)
  {
    if bucket.0.Finite? {
      RiseBetween(earlier.0.value, bucket.0.value, target - earlier.1 as real, (bucket.1 - earlier.1) as real);
    }
  }

  lemma InsideGrows(earlier: Bucket, bucket: Bucket, t: real, u: real)
    requires EarlierBucket(earlier, bucket) && t <= u
    ensures BoundAtMost(Inside(earlier, bucket, t), Inside(earlier, bucket, u))
  {
    if bucket.0.Finite? && bucket.1 > earlier.1 {
      RiseGrows(earlier.0.value, bucket.0.value, t - earlier.1 as real, u - earlier.1 as real,
                (bucket.1 - earlier.1) as real);
    }
  }

  lemma InOrder(s: seq<Bucket>, i: nat, j: nat)
    requires SortedBy(EarlierBucket, s) && i <= j < |s|
    ensures BoundAtMost(s[i].0, s[j].0)
  {
    assert i < j ==> EarlierBucket(s[i], s[j]);
  }

  /** The value found in bucket i lies between the bounds of bucket i - 1 and of bucket i. */
  lemma ValueIsInBucket(s: seq<Bucket>, target: real)
    requires SortedBy(EarlierBucket, s) && NonNegative(s) && s != []
    ensures
      var i := Reaching(s, target, 0);
      var v := ValueIn(s, target, i);
      && (i > 0 ==> BoundAtMost(s[i - 1].0, v))
      && (i < |s| ==> BoundAtMost(v, s[i].0))
      && BoundAtMost(v, s[|s| - 1].0) && BoundAtMost(Finite(0.0), v)
  {
    var i := Reaching(s, target, 0);
    assert BoundAtMost(Finite(0.0), s[0].0);
    if 0 < i < |s| {
      assert EarlierBucket(s[i - 1], s[i]);
      InsideIsBetween(s[i - 1], s[i], target);
      assert BoundAtMost(Finite(0.0), s[i - 1].0);
    }
    if i < |s| { InOrder(s, i, |s| - 1); }
    if i == |s| { InOrder(s, 0, |s| - 1); }
  }

  lemma ReachingGrows(s: seq<Bucket>, t: real, u: real)
    requires t <= u
    ensures Reaching(s, t, 0) <= Reaching(s, u, 0)
  {
    var i, j := Reaching(s, t, 0), Reaching(s, u, 0);
    if j < |s| { assert t <= s[j].1 as real; }
  }

  lemma ValueGrows(s: seq<Bucket>, t: real, u: real)
    requires SortedBy(EarlierBucket, s) && NonNegative(s) && s != [] && t <= u
    ensures BoundAtMost(ValueIn(s, t, Reaching(s, t, 0)), ValueIn(s, u, Reaching(s, u, 0)))
  {
    ReachingGrows(s, t, u);
    var i, j := Reaching(s, t, 0), Reaching(s, u, 0);
    if i == j {
      if 0 < i < |s| {
        assert EarlierBucket(s[i - 1], s[i]);
        InsideGrows(s[i - 1], s[i], t, u);
      }
    } else {
      ValueIsInBucket(s, t);
      ValueIsInBucket(s, u);
      InOrder(s, i, j - 1);
    }
  }

  lemma OrderedIsNonNegative(buckets: seq<Bucket>)
    requires NonNegative(buckets)
    ensures NonNegative(Ordered(buckets))
    ensures forall i :: 0 <= i < |buckets| ==> Ordered(buckets)[i] in buckets
  {
    var s := Ordered(buckets);
    forall i | 0 <= i < |s| ensures s[i] in buckets && BoundAtMost(Finite(0.0), s[i].0) {
      assert s[i] in multiset(s) && s[i] in multiset(buckets);
    }
  }

  lemma QuantileIsInRange(buckets: seq<Bucket>, count: nat, q: real)
    requires NonNegative(buckets) && count > 0 && buckets != []
    ensures
      var r := QuantileOf(buckets, count, q);
      && r.Some? && BoundAtMost(Finite(0.0), r.value)
      && exists b :: b in buckets && BoundAtMost(r.value, b.0)
  {
    var s := Ordered(buckets);
    OrderedIsNonNegative(buckets);
    ValueIsInBucket(s, count as real * q);
    assert s[|s| - 1] in buckets;
  }

  lemma TargetGrows(count: nat, p: real, q: real)
    requires p <= q
    ensures count as real * p <= count as real * q
  {
    Times(p, q, count as real);
  }

  /** The histogram quantile grows with q and stays between zero and the largest bound, the infinite one
      included. It needs no more of the counts: not even that they are cumulative. */
  lemma HistogramQuantileGrows(buckets: seq<Bucket>, count: nat, p: real, q: real)
    requires p <= q && NonNegative(buckets) && count > 0 && buckets != []
    ensures
      var low, high := QuantileOf(buckets, count, p), QuantileOf(buckets, count, q);
      && low.Some? && high.Some? && BoundAtMost(low.value, high.value)
      && BoundAtMost(Finite(0.0), low.value)
      && exists b :: b in buckets && BoundAtMost(high.value, b.0)
  {
    OrderedIsNonNegative(buckets);
    TargetGrows(count, p, q);
    ValueGrows(Ordered(buckets), count as real * p, count as real * q);
    QuantileIsInRange(buckets, count, p);
    QuantileIsInRange(buckets, count, q);
  }
}
