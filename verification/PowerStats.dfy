// Time buckets aligned to the wall clock, and the energy of a series of power samples per bucket.

module Bucketing {

  /** A left-closed, right-open stretch of time. */
  datatype Slot = Slot(start: int, end: int)

  predicate In(slot: Slot, t: real) {
    slot.start as real <= t < slot.end as real
  }

  const MINUTE_WIN_BUCKETS := 12
  const MINUTE_BUCKET_SEC := 300
  const HOUR_WIN_BUCKETS := 24
  const HOUR_BUCKET_SEC := 3600

  /** The last n slots of the given width, the last one holding now. */
  function WallSlots(now: int, n: nat, width: nat): (slots: seq<Slot>)
    requires width > 0
    ensures |slots| == n
  {
    var current := now - now % width;
    seq(n, i => Slot(current - (n - 1 - i) * width, current - (n - 2 - i) * width))
  }

  function MinuteSlots(now: int): seq<Slot> {
    WallSlots(now, MINUTE_WIN_BUCKETS, MINUTE_BUCKET_SEC)
  }

  function HourSlots(now: int): seq<Slot> {
    WallSlots(now, HOUR_WIN_BUCKETS, HOUR_BUCKET_SEC)
  }

  ghost predicate Contiguous(slots: seq<Slot>) {
    && (forall i :: 0 <= i < |slots| ==> slots[i].start < slots[i].end)
    && (forall i :: 0 <= i < |slots| - 1 ==> slots[i].end == slots[i + 1].start)
  }

  lemma {:induction false} StartsAscend(slots: seq<Slot>, i: nat, j: nat)
    requires Contiguous(slots) && i < j < |slots|
    ensures slots[i].end <= slots[j].start
    decreases j
  {
    if i < j - 1 { StartsAscend(slots, i, j - 1); }
  }

  function IndexFrom(slots: seq<Slot>, t: real, i: nat): int
    requires i <= |slots|
    decreases |slots| - i
  {
    if i == |slots| then -1 else if In(slots[i], t) then i else IndexFrom(slots, t, i + 1)
  }

  method BucketIndex(slots: seq<Slot>, t: real) returns (r: int)
    ensures r == IndexFrom(slots, t, 0)
    ensures -1 <= r < |slots|
    ensures r >= 0 ==> In(slots[r], t) && forall i :: 0 <= i < r ==> !In(slots[i], t)
    ensures r == -1 <==> forall i :: 0 <= i < |slots| ==> !In(slots[i], t)
  {
    for i := 0 to |slots|
      invariant IndexFrom(slots, t, 0) == IndexFrom(slots, t, i)
      invariant forall k :: 0 <= k < i ==> !In(slots[k], t)
    {
      if In(slots[i], t) { return i; }
    }
    r := -1;
  }

  lemma {:induction false} IndexIsSlot(slots: seq<Slot>, t: real, i: nat, from: nat)
    requires Contiguous(slots) && from <= i < |slots|
    ensures IndexFrom(slots, t, from) == i <==> In(slots[i], t)
    decreases i - from
  {
    if from < i {
      StartsAscend(slots, from, i);
      IndexIsSlot(slots, t, i, from + 1);
    } else if !In(slots[i], t) {
      IndexIsLater(slots, t, i + 1);
    }
  }

  lemma {:induction false} IndexIsLater(slots: seq<Slot>, t: real, from: nat)
    requires from <= |slots|
    ensures IndexFrom(slots, t, from) == -1 || IndexFrom(slots, t, from) >= from
    decreases |slots| - from
  {
    if from < |slots| { IndexIsLater(slots, t, from + 1); }
  }

  lemma Shift(a: int, b: int, width: int)
    ensures (a + b) * width == a * width + b * width
  {
  }

  lemma WallSlotsAreContiguous(now: int, n: nat, width: nat)
    requires width > 0
    ensures Contiguous(WallSlots(now, n, width))
  {
    var slots := WallSlots(now, n, width);
    forall i | 0 <= i < n ensures slots[i].end == slots[i].start + width {
      Shift(n - 2 - i, 1, width);
    }
  }

  /** The slots are contiguous and now lies in the last one. */
  lemma WallSlotsHoldNow(now: int, n: nat, width: nat)
    requires width > 0 && n > 0
    ensures Contiguous(WallSlots(now, n, width))
    ensures In(WallSlots(now, n, width)[n - 1], now as real)
    ensures IndexFrom(WallSlots(now, n, width), now as real, 0) == n - 1
  {
    WallSlotsAreContiguous(now, n, width);
    var last := WallSlots(now, n, width)[n - 1];
    assert last.start == now - now % width by { assert (n - 1 - (n - 1)) * width == 0; }
    assert last.end == last.start + width by { Shift(-1, 1, width); }
    IndexIsSlot(WallSlots(now, n, width), now as real, n - 1, 0);
  }

  /** Every moment of the window lies in exactly one slot. */
  lemma {:induction false} SlotsPartition(slots: seq<Slot>, t: real)
    requires Contiguous(slots) && |slots| > 0
    ensures slots[0].start as real <= t < slots[|slots| - 1].end as real <==> IndexFrom(slots, t, 0) >= 0
    ensures forall i, j :: 0 <= i < |slots| && 0 <= j < |slots| && In(slots[i], t) && In(slots[j], t) ==> i == j
  {
    forall i, j | 0 <= i < |slots| && 0 <= j < |slots| && In(slots[i], t) && In(slots[j], t) ensures i == j {
      IndexIsSlot(slots, t, i, 0);
      IndexIsSlot(slots, t, j, 0);
    }
    var last := |slots| - 1;
    if slots[0].start as real <= t < slots[last].end as real {
      var i := HolderOf(slots, t, last);
      IndexIsSlot(slots, t, i, 0);
    } else if IndexFrom(slots, t, 0) >= 0 {
      var r := BelowLength(slots, t, 0);
      IndexIsSlot(slots, t, r, 0);
      if 0 < r { StartsAscend(slots, 0, r); }
      if r < last { StartsAscend(slots, r, last); }
    }
  }

  lemma {:induction false} BelowLength(slots: seq<Slot>, t: real, from: nat) returns (r: nat)
    requires from <= |slots| && IndexFrom(slots, t, from) >= 0
    ensures r == IndexFrom(slots, t, from) && r < |slots|
    decreases |slots| - from
  {
    if In(slots[from], t) { r := from; } else { r := BelowLength(slots, t, from + 1); }
  }

  lemma {:induction false} HolderOf(slots: seq<Slot>, t: real, i: nat) returns (r: nat)
    requires Contiguous(slots) && i < |slots| && slots[0].start as real <= t < slots[i].end as real
    ensures r <= i && In(slots[r], t)
    decreases i
  {
    if i == 0 || slots[i].start as real <= t { r := i; } else { r := HolderOf(slots, t, i - 1); }
  }

  lemma MultipleBetween(a: int, b: int, width: nat)
    requires width > 0 && a <= b
    ensures var d := b / width - a / width;
      d >= 0 && b - b % width == a - a % width + d * width
  {
    var p, q := a / width, b / width;
    assert a == p * width + a % width && b == q * width + b % width;
    assert (q - p) * width == q * width - p * width;
    assert (q - p + 1) * width == (q - p) * width + width > 0;
    assert q - p + 1 > 0 by { PositiveFactor(q - p + 1, width); }
  }

  lemma PositiveFactor(x: int, width: nat)
    requires x * width > 0
    ensures x > 0
  {
  }

  /** As now advances the slots of the old list move down the new one unchanged: d steps for d slots
      that have been opened since. */
  lemma ClosedSlotsStay(now: int, later: int, n: nat, width: nat)
    requires width > 0 && now <= later
    ensures var d := later / width - now / width;
      d >= 0 && forall i {:trigger WallSlots(later, n, width)[i]} :: 0 <= i < n - d ==>
        WallSlots(later, n, width)[i] == WallSlots(now, n, width)[i + d]
  {
    MultipleBetween(now, later, width);
    var d := later / width - now / width;
    forall i | 0 <= i < n - d ensures WallSlots(later, n, width)[i] == WallSlots(now, n, width)[i + d] {
      Shift(n - 1 - (i + d), d, width);
      Shift(n - 2 - (i + d), d, width);
    }
  }

  /** The window is as long as its slots together, and it ends where a slot ends. */
  lemma WindowSpan(now: int, n: nat, width: nat)
    requires width > 0 && n > 0
    ensures var slots := WallSlots(now, n, width);
      slots[n - 1].end - slots[0].start == n * width && slots[n - 1].end == (now / width + 1) * width
  {
    var slots, current := WallSlots(now, n, width), now - now % width;
    assert slots[0].start == current - (n - 1) * width;
    assert slots[n - 1].end == current + width by { Shift(-1, 1, width); }
    Shift(n - 1, 1, width);
    Shift(now / width, 1, width);
    assert current == now / width * width;
  }

  /** The two windows the dashboard asks for: sixty minutes of five-minute slots and a day of hours, up to
      the end of the slot that holds now. */
  lemma DashboardWindows(now: int)
    ensures var minutes := MinuteSlots(now);
      && Contiguous(minutes) && IndexFrom(minutes, now as real, 0) == 11
      && minutes[11].end - minutes[0].start == 3600 && minutes[11].end == (now / 300 + 1) * 300
    ensures var hours := HourSlots(now);
      && Contiguous(hours) && IndexFrom(hours, now as real, 0) == 23
      && hours[23].end - hours[0].start == 86400 && hours[23].end == (now / 3600 + 1) * 3600
  {
    WallSlotsHoldNow(now, MINUTE_WIN_BUCKETS, MINUTE_BUCKET_SEC);
    WindowSpan(now, MINUTE_WIN_BUCKETS, MINUTE_BUCKET_SEC);
    WallSlotsHoldNow(now, HOUR_WIN_BUCKETS, HOUR_BUCKET_SEC);
    WindowSpan(now, HOUR_WIN_BUCKETS, HOUR_BUCKET_SEC);
  }
}

module PowerStats {
  import opened Wrappers
  import opened Bucketing

  datatype Sample = Sample(ts: int, watts: real)

  datatype Bucket = Bucket(t: int, avg: Option<real>, kwh: real, cumKwh: real, cumYuan: real)

  const SAMPLE_INTERVAL_SEC := 60.0
  const JOULES_PER_KWH := 3600000.0
  const PRICE_YUAN_PER_KWH := 1.0

  ghost predicate Sorted(samples: seq<Sample>) {
    forall i, j :: 0 <= i < j < |samples| ==> samples[i].ts <= samples[j].ts
  }

  // ---------------------------------------------------------------- which samples belong to a slot

  function Inside(samples: seq<Sample>, slot: Slot): seq<Sample> {
    if samples == [] then []
    else
      var last := samples[|samples| - 1];
      Inside(samples[..|samples| - 1], slot) + if In(slot, last.ts as real) then [last] else []
  }

  /** The samples the bucket index assigns to bucket i, in order. */
  function Assigned(samples: seq<Sample>, slots: seq<Slot>, i: nat): seq<Sample> {
    if samples == [] then []
    else
      var last := samples[|samples| - 1];
      Assigned(samples[..|samples| - 1], slots, i) + if IndexFrom(slots, last.ts as real, 0) == i then [last] else []
  }

  lemma {:induction false} AssignedIsInside(samples: seq<Sample>, slots: seq<Slot>, i: nat)
    requires Contiguous(slots) && i < |slots|
    ensures Assigned(samples, slots, i) == Inside(samples, slots[i])
  {
    if samples != [] {
      AssignedIsInside(samples[..|samples| - 1], slots, i);
      IndexIsSlot(slots, samples[|samples| - 1].ts as real, i, 0);
    }
  }

  /** In a sorted series the samples of a slot are one range. */
  lemma {:induction false} InsideIsRange(samples: seq<Sample>, slot: Slot, lo: nat, hi: nat, n: nat)
    requires lo <= hi <= |samples| && n <= |samples|
    requires forall k :: 0 <= k < lo ==> samples[k].ts < slot.start
    requires forall k :: lo <= k < hi ==> In(slot, samples[k].ts as real)
    requires forall k :: hi <= k < |samples| ==> samples[k].ts >= slot.end
    ensures Inside(samples[..n], slot) == if n <= lo then [] else if n <= hi then samples[lo..n] else samples[lo..hi]
    decreases n
  {
    if n > 0 {
      assert samples[..n][..n - 1] == samples[..n - 1];
      InsideIsRange(samples, slot, lo, hi, n - 1);
    }
  }

  // ---------------------------------------------------------------- energy

  function Area(a: Sample, b: Sample): real {
    (a.watts + b.watts) / 2.0 * (b.ts - a.ts) as real
  }

  function Trapezoids(pts: seq<Sample>): real {
    if |pts| < 2 then 0.0
    else Trapezoids(pts[..|pts| - 1]) + Area(pts[|pts| - 2], pts[|pts| - 1])
  }

  function Energy(pts: seq<Sample>): real {
    if pts == [] then 0.0
    else if |pts| == 1 then pts[0].watts * SAMPLE_INTERVAL_SEC / JOULES_PER_KWH
    else Trapezoids(pts) / JOULES_PER_KWH
  }

  function Watts(pts: seq<Sample>): real {
    if pts == [] then 0.0 else Watts(pts[..|pts| - 1]) + pts[|pts| - 1].watts
  }

  function Average(pts: seq<Sample>): Option<real> {
    if pts == [] then None else Some(Watts(pts) / |pts| as real)
  }

  function Sum(values: seq<real>): real {
    if values == [] then 0.0 else Sum(values[..|values| - 1]) + values[|values| - 1]
  }

  lemma {:induction false} SumNeverDecreases(values: seq<real>, i: nat, j: nat)
    requires i <= j <= |values| && forall k :: 0 <= k < |values| ==> values[k] >= 0.0
    ensures Sum(values[..i]) <= Sum(values[..j])
    decreases j
  {
    if i < j {
      assert values[..j][..j - 1] == values[..j - 1];
      SumNeverDecreases(values, i, j - 1);
    }
  }

  function Energies(samples: seq<Sample>, slots: seq<Slot>): (energies: seq<real>)
    ensures |energies| == |slots|
  {
    seq(|slots|, i requires 0 <= i < |slots| => Energy(Assigned(samples, slots, i)))
  }

  /** The energy of the first i buckets together. */
  function Cumulated(samples: seq<Sample>, slots: seq<Slot>, i: nat): real
    requires i <= |slots|
  {
    Sum(Energies(samples, slots)[..i])
  }

  lemma CumulatedStep(samples: seq<Sample>, slots: seq<Slot>, i: nat)
    requires i < |slots|
    ensures Cumulated(samples, slots, i + 1) == Cumulated(samples, slots, i) + Energy(Assigned(samples, slots, i))
  {
    var energies := Energies(samples, slots);
    assert energies[..i + 1][..i] == energies[..i];
    assert energies[..i + 1][i] == energies[i];
  }

  /** What bucket i must hold. */
  function BucketOf(samples: seq<Sample>, slots: seq<Slot>, i: nat): Bucket
    requires i < |slots|
  {
    var pts, cum := Assigned(samples, slots, i), Cumulated(samples, slots, i + 1);
    Bucket(slots[i].start, Average(pts), Energy(pts), cum, cum * PRICE_YUAN_PER_KWH)
  }

  /** A kilowatt hour costs one yuan. */
  lemma CostIsEnergy(samples: seq<Sample>, slots: seq<Slot>, i: nat)
    requires i < |slots|
    ensures BucketOf(samples, slots, i).cumYuan == BucketOf(samples, slots, i).cumKwh
  {
  }

  /** The sweep with two pointers gives each bucket exactly the samples its index claims. */
  method BucketStats(samples: seq<Sample>, slots: seq<Slot>) returns (buckets: seq<Bucket>)
    requires Sorted(samples) && Contiguous(slots)
    ensures |buckets| == |slots|
    ensures forall i :: 0 <= i < |slots| ==> buckets[i] == BucketOf(samples, slots, i)
  {
    buckets := [];
    var cum: real, si: nat := 0.0, 0;
    for s := 0 to |slots|
      invariant |buckets| == s && cum == Cumulated(samples, slots, s)
      invariant si <= |samples| && (s < |slots| ==> AllBefore(samples, si, slots[s].start))
      invariant forall i :: 0 <= i < s ==> buckets[i] == BucketOf(samples, slots, i)
    {
      var bucket;
      assert s < |slots|;
      si, bucket := FillBucket(samples, slots, s, si, cum);
      cum := bucket.cumKwh;
      buckets := buckets + [bucket];
    }
  }

  method FillBucket(samples: seq<Sample>, slots: seq<Slot>, s: nat, start: nat, cum: real)
    returns (si: nat, bucket: Bucket)
    requires Sorted(samples) && Contiguous(slots) && s < |slots| && start <= |samples|
    requires AllBefore(samples, start, slots[s].start) && cum == Cumulated(samples, slots, s)
    ensures si <= |samples| && (s + 1 < |slots| ==> AllBefore(samples, si, slots[s + 1].start))
    ensures bucket == BucketOf(samples, slots, s)
  {
    var pts;
    si, pts := Sweep(samples, slots, s, start);
    var avg, en := Summarize(pts);
    CumulatedStep(samples, slots, s);
    bucket := Bucket(slots[s].start, avg, en, cum + en, (cum + en) * PRICE_YUAN_PER_KWH);
  }

  ghost predicate AllBefore(samples: seq<Sample>, n: nat, t: int) {
    forall k :: 0 <= k < n && k < |samples| ==> samples[k].ts < t
  }

  lemma TakenIsInside(samples: seq<Sample>, slot: Slot, lo: nat, hi: nat)
    requires Sorted(samples) && lo <= hi <= |samples| && AllBefore(samples, lo, slot.start)
    requires forall k :: lo <= k < hi ==> In(slot, samples[k].ts as real)
    requires hi < |samples| ==> samples[hi].ts >= slot.end
    ensures Inside(samples, slot) == samples[lo..hi]
  {
    InsideIsRange(samples, slot, lo, hi, |samples|);
    assert samples[..|samples|] == samples;
  }

  /** One bucket of the sweep: skips what lies before the slot and collects what lies in it. */
  method Sweep(samples: seq<Sample>, slots: seq<Slot>, s: nat, start: nat) returns (si: nat, pts: seq<Sample>)
    requires Sorted(samples) && Contiguous(slots) && s < |slots| && start <= |samples|
    requires AllBefore(samples, start, slots[s].start)
    ensures start <= si <= |samples| && AllBefore(samples, si, slots[s].start)
    ensures pts == Assigned(samples, slots, s)
  {
    var slot, n := slots[s], |samples|;
    si := start;
    while si < n && samples[si].ts < slot.start
      invariant si <= n && AllBefore(samples, si, slot.start)
    {
      si := si + 1;
    }
    var j := si;
    pts := [];
    while j < n && samples[j].ts < slot.end
      invariant si <= j <= n && pts == samples[si..j]
      invariant forall k :: si <= k < j ==> In(slot, samples[k].ts as real)
    {
      pts := pts + [samples[j]];
      j := j + 1;
    }
    TakenIsInside(samples, slot, si, j);
    AssignedIsInside(samples, slots, s);
  }

  method Summarize(pts: seq<Sample>) returns (avg: Option<real>, en: real)
    ensures avg == Average(pts) && en == Energy(pts)
  {
    if pts == [] { return None, 0.0; }
    var sum := 0.0;
    for i := 0 to |pts|
      invariant sum == Watts(pts[..i])
    {
      assert pts[..i + 1][..i] == pts[..i];
      sum := sum + pts[i].watts;
    }
    assert pts[..|pts|] == pts;
    avg := Some(sum / |pts| as real);
    if |pts| == 1 {
      en := pts[0].watts * SAMPLE_INTERVAL_SEC / JOULES_PER_KWH;
    } else {
      var area := 0.0;
      for i := 0 to |pts| - 1
        invariant area == Trapezoids(pts[..i + 1])
      {
        assert pts[..i + 2][..i + 1] == pts[..i + 1];
        area := area + Area(pts[i], pts[i + 1]);
      }
      en := area / JOULES_PER_KWH;
    }
  }

  // ---------------------------------------------------------------- what the energy is

  predicate Between(pts: seq<Sample>, low: real, high: real) {
    forall i :: 0 <= i < |pts| ==> low <= pts[i].watts <= high
  }

  function Span(pts: seq<Sample>): real
    requires pts != []
  {
    (pts[|pts| - 1].ts - pts[0].ts) as real
  }

  lemma Scale(x: real, y: real, t: real)
    requires x <= y && t >= 0.0
    ensures x * t <= y * t
  {
  }

  lemma AreaIsBounded(a: Sample, b: Sample, low: real, high: real)
    requires a.ts <= b.ts && low <= a.watts <= high && low <= b.watts <= high
    ensures low * (b.ts - a.ts) as real <= Area(a, b) <= high * (b.ts - a.ts) as real
  {
    Scale(low, (a.watts + b.watts) / 2.0, (b.ts - a.ts) as real);
    Scale((a.watts + b.watts) / 2.0, high, (b.ts - a.ts) as real);
  }

  lemma Distribute(c: real, s: real, t: real)
    ensures c * (s + t) == c * s + c * t
  {
  }

  lemma SpanGrows(pts: seq<Sample>, c: real)
    requires |pts| > 1
    ensures c * Span(pts) == c * Span(pts[..|pts| - 1]) + c * (pts[|pts| - 1].ts - pts[|pts| - 2].ts) as real
  {
    var earlier, dt := pts[..|pts| - 1], (pts[|pts| - 1].ts - pts[|pts| - 2].ts) as real;
    assert Span(pts) == Span(earlier) + dt;
    Distribute(c, Span(earlier), dt);
  }

  /** The energy of several samples lies between the lowest and the highest power over their span. */
  lemma {:induction false} TrapezoidsAreBounded(pts: seq<Sample>, low: real, high: real)
    requires Sorted(pts) && pts != [] && Between(pts, low, high)
    ensures low * Span(pts) <= Trapezoids(pts) <= high * Span(pts)
  {
    if |pts| > 1 {
      var earlier, a, b := pts[..|pts| - 1], pts[|pts| - 2], pts[|pts| - 1];
      TrapezoidsAreBounded(earlier, low, high);
      AreaIsBounded(a, b, low, high);
      SpanGrows(pts, low);
      SpanGrows(pts, high);
      assert Trapezoids(pts) == Trapezoids(earlier) + Area(a, b);
    } else {
      assert Span(pts) == 0.0;
    }
  }

  lemma EnergyIsBounded(pts: seq<Sample>, low: real, high: real)
    requires Sorted(pts) && |pts| >= 2 && Between(pts, low, high)
    ensures low * Span(pts) <= Energy(pts) * JOULES_PER_KWH <= high * Span(pts)
  {
    TrapezoidsAreBounded(pts, low, high);
  }

  lemma {:induction false} WattsAreBounded(pts: seq<Sample>, low: real, high: real)
    requires Between(pts, low, high)
    ensures low * |pts| as real <= Watts(pts) <= high * |pts| as real
  {
    if pts != [] {
      WattsAreBounded(pts[..|pts| - 1], low, high);
      Distribute(low, (|pts| - 1) as real, 1.0);
      Distribute(high, (|pts| - 1) as real, 1.0);
    }
  }

  lemma Quotient(low: real, x: real, high: real, n: real)
    requires n > 0.0 && low * n <= x <= high * n
    ensures low <= x / n <= high
  {
    if x / n < low { Scale(x / n, low, n); }
    if high < x / n { Scale(high, x / n, n); }
  }

  /** The average lies between the lowest and the highest power; only an empty bucket has none. */
  lemma AverageIsBounded(pts: seq<Sample>, low: real, high: real)
    requires Between(pts, low, high)
    ensures Average(pts).Some? <==> pts != []
    ensures pts != [] ==> low <= Average(pts).value <= high
  {
    if pts != [] {
      WattsAreBounded(pts, low, high);
      Quotient(low, Watts(pts), high, |pts| as real);
    }
  }

  /** At a constant power: that power on average, and the kilowatt hours of the span, of a minute for a single
      sample. */
  lemma ConstantPower(pts: seq<Sample>, w: real)
    requires Sorted(pts) && pts != [] && Between(pts, w, w)
    ensures Average(pts) == Some(w)
    ensures Energy(pts) * 3600000.0 == w * if |pts| == 1 then 60.0 else Span(pts)
  {
    AverageIsBounded(pts, w, w);
    if |pts| >= 2 { EnergyIsBounded(pts, w, w); }
  }

  /** The power runs in a straight line from a over m to b. */
  predicate OnLine(a: Sample, m: Sample, b: Sample) {
    (m.watts - a.watts) * (b.ts - a.ts) as real == (b.watts - a.watts) * (m.ts - a.ts) as real
  }

  lemma Expand(x: real, y: real, t: real)
    ensures (x + y) / 2.0 * t == (x * t + y * t) / 2.0
    ensures (x - y) * t == x * t - y * t
  {
  }

  lemma LineKeepsArea(a: Sample, m: Sample, b: Sample)
    requires OnLine(a, m, b)
    ensures Area(a, m) + Area(m, b) == Area(a, b)
  {
    var s, t := (m.ts - a.ts) as real, (b.ts - m.ts) as real;
    var st := (b.ts - a.ts) as real;
    assert st == s + t;
    Expand(a.watts, m.watts, s);
    Expand(m.watts, b.watts, t);
    Expand(a.watts, b.watts, st);
    Expand(m.watts, a.watts, st);
    Expand(b.watts, a.watts, s);
    Distribute(m.watts, s, t);
    Distribute(a.watts, s, t);
    Distribute(b.watts, s, t);
  }

  lemma AreaSnoc(pts: seq<Sample>, a: Sample, b: Sample)
    ensures Trapezoids(pts + [a] + [b]) == Trapezoids(pts + [a]) + Area(a, b)
  {
    assert (pts + [a] + [b])[..|pts| + 1] == pts + [a];
  }

  /** The energy is that of the straight lines between the samples: one more sample on such a line does not
      change it. */
  lemma {:induction false} SampleOnLineChangesNothing(before: seq<Sample>, a: Sample, m: Sample, b: Sample,
                                                     after: seq<Sample>)
    requires OnLine(a, m, b)
    ensures Trapezoids(before + [a] + [m] + [b] + after) == Trapezoids(before + [a] + [b] + after)
    decreases |after|
  {
    if after == [] {
      LineKeepsArea(a, m, b);
      AreaSnoc(before + [a], m, b);
      AreaSnoc(before, a, m);
      AreaSnoc(before, a, b);
      assert before + [a] + [m] + [b] + [] == before + [a] + [m] + [b];
      assert before + [a] + [b] + [] == before + [a] + [b];
    } else {
      var init, last := after[..|after| - 1], after[|after| - 1];
      SampleOnLineChangesNothing(before, a, m, b, init);
      LastArea(before + [a] + [m] + [b], init, last);
      LastArea(before + [a] + [b], init, last);
      assert after == init + [last];
      assert before + [a] + [m] + [b] + after == before + [a] + [m] + [b] + init + [last];
      assert before + [a] + [b] + after == before + [a] + [b] + init + [last];
    }
  }

  lemma LastArea(front: seq<Sample>, init: seq<Sample>, last: Sample)
    requires front != []
    ensures var previous := if init == [] then front[|front| - 1] else init[|init| - 1];
      Trapezoids(front + init + [last]) == Trapezoids(front + init) + Area(previous, last)
  {
    var pts := front + init;
    assert pts == pts[..|pts| - 1] + [pts[|pts| - 1]];
    AreaSnoc(pts[..|pts| - 1], pts[|pts| - 1], last);
  }

  ghost predicate NonNegative(pts: seq<Sample>) {
    forall i :: 0 <= i < |pts| ==> pts[i].watts >= 0.0
  }

  lemma {:induction false} TrapezoidsAreNonNegative(pts: seq<Sample>)
    requires Sorted(pts) && NonNegative(pts)
    ensures Trapezoids(pts) >= 0.0
  {
    if |pts| >= 2 {
      var a, b := pts[|pts| - 2], pts[|pts| - 1];
      TrapezoidsAreNonNegative(pts[..|pts| - 1]);
      AreaIsBounded(a, b, 0.0, a.watts + b.watts);
    }
  }

  lemma {:induction false} AssignedIsSorted(samples: seq<Sample>, slots: seq<Slot>, i: nat)
    requires Sorted(samples) && NonNegative(samples)
    ensures var pts := Assigned(samples, slots, i);
      && Sorted(pts) && NonNegative(pts)
      && forall k :: 0 <= k < |pts| && samples != [] ==> pts[k].ts <= samples[|samples| - 1].ts
  {
    if samples != [] { AssignedIsSorted(samples[..|samples| - 1], slots, i); }
  }

  lemma EnergyIsNonNegative(samples: seq<Sample>, slots: seq<Slot>, i: nat)
    requires Sorted(samples) && NonNegative(samples)
    ensures Energy(Assigned(samples, slots, i)) >= 0.0
  {
    AssignedIsSorted(samples, slots, i);
    TrapezoidsAreNonNegative(Assigned(samples, slots, i));
  }

  /** With powers that are not negative the cumulated energy never decreases, and it ends at the sum of
      the energies of all buckets. */
  lemma CumulatedNeverDecreases(samples: seq<Sample>, slots: seq<Slot>, i: nat, j: nat)
    requires Sorted(samples) && NonNegative(samples) && i <= j <= |slots|
    ensures Cumulated(samples, slots, i) <= Cumulated(samples, slots, j)
    ensures Cumulated(samples, slots, |slots|) == Sum(Energies(samples, slots))
  {
    var energies := Energies(samples, slots);
    forall k | 0 <= k < |energies| ensures energies[k] >= 0.0 {
      EnergyIsNonNegative(samples, slots, k);
    }
    SumNeverDecreases(energies, i, j);
    assert energies[..|slots|] == energies;
  }

  // ---------------------------------------------------------------- nothing lost, nothing twice

  /** The samples of the first n buckets, one bucket after the other. */
  function Collected(samples: seq<Sample>, slots: seq<Slot>, n: nat): seq<Sample>
    requires n <= |slots|
  {
    if n == 0 then [] else Collected(samples, slots, n - 1) + Assigned(samples, slots, n - 1)
  }

  /** The number of samples before a moment. */
  function Before(samples: seq<Sample>, t: int, i: nat): (n: nat)
    requires i <= |samples|
    ensures i <= n <= |samples|
    ensures forall k :: i <= k < n ==> samples[k].ts < t
    ensures n < |samples| ==> samples[n].ts >= t
    decreases |samples| - i
  {
    if i < |samples| && samples[i].ts < t then Before(samples, t, i + 1) else i
  }

  /** Together the buckets hold the samples of the window, each once and in order. */
  lemma {:induction false} BucketsPartitionSamples(samples: seq<Sample>, slots: seq<Slot>, n: nat)
    requires Sorted(samples) && Contiguous(slots) && 0 < n <= |slots|
    ensures Before(samples, slots[0].start, 0) <= Before(samples, slots[n - 1].end, 0)
    ensures Collected(samples, slots, n)
         == samples[Before(samples, slots[0].start, 0)..Before(samples, slots[n - 1].end, 0)]
  {
    SlotIsRange(samples, slots[n - 1]);
    AssignedIsInside(samples, slots, n - 1);
    if n > 1 {
      var start := Before(samples, slots[0].start, 0);
      BucketsPartitionSamples(samples, slots, n - 1);
      assert slots[n - 2].end == slots[n - 1].start;
      RangesJoin(samples, start, Before(samples, slots[n - 1].start, 0), Before(samples, slots[n - 1].end, 0));
    }
  }

  lemma RangesJoin(samples: seq<Sample>, a: nat, b: nat, c: nat)
    requires a <= b <= c <= |samples|
    ensures samples[a..b] + samples[b..c] == samples[a..c]
  {
  }

  lemma BeforeGrows(samples: seq<Sample>, t: int, u: int)
    requires t <= u
    ensures Before(samples, t, 0) <= Before(samples, u, 0)
  {
    var i, j := Before(samples, t, 0), Before(samples, u, 0);
    if j < |samples| { assert samples[j].ts >= u >= t; }
  }

  lemma AllAfter(samples: seq<Sample>, t: int)
    requires Sorted(samples)
    ensures forall k :: Before(samples, t, 0) <= k < |samples| ==> samples[k].ts >= t
  {
  }

  lemma AllInside(samples: seq<Sample>, slot: Slot)
    requires Sorted(samples) && slot.start < slot.end
    ensures forall k :: Before(samples, slot.start, 0) <= k < Before(samples, slot.end, 0) ==>
      In(slot, samples[k].ts as real)
  {
    AllAfter(samples, slot.start);
  }

  lemma SlotIsRange(samples: seq<Sample>, slot: Slot)
    requires Sorted(samples) && slot.start < slot.end
    ensures Before(samples, slot.start, 0) <= Before(samples, slot.end, 0)
    ensures Inside(samples, slot) == samples[Before(samples, slot.start, 0)..Before(samples, slot.end, 0)]
  {
    var lo, hi := Before(samples, slot.start, 0), Before(samples, slot.end, 0);
    BeforeGrows(samples, slot.start, slot.end);
    AllAfter(samples, slot.end);
    AllInside(samples, slot);
    InsideIsRange(samples, slot, lo, hi, |samples|);
    assert samples[..|samples|] == samples;
  }
}
