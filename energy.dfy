/** The reduction a capture session undergoes when it is stopped
    (`IpmiSessionManager._compute_session` in ipmisession.py): per registered
    sensor, the samples in arrival order, flat-clamped to the session window,
    converted to seconds since its start and integrated with the trapezoidal
    rule; the session total sums every sensor except the accelerator ones. */
module Energy {
  import opened Wrappers
  import opened Format

  /** A sensor id as the manager keys it: an int (a chassis record) or a
      string (names such as "nvidia-0" and "apu-01"). */
  datatype SensorId = Num(n: int) | Name(s: string)

  /** One row `[dt, sensor_id, value]` of a session buffer; `dt` is a point in
      time in microseconds, the resolution of Python's `datetime`. */
  datatype Sample = Sample(dt: int, sensor: SensorId, value: real)

  /** One `(dt, value)` pair of a single sensor. */
  datatype Point = Point(t: int, v: real)

  /** A clamped per-sensor series: elapsed seconds and values, side by side. */
  datatype Series = Series(elapsed: seq<real>, values: seq<real>)

  /** What a successful stop with `all_stats` hands back. */
  datatype Stats = Stats(
    perSensor: map<SensorId, Series>,
    powers: map<SensorId, real>,
    totPower: real,
    startTime: int,
    endTime: int)

  /** The reduction fails on the first registered sensor the buffer has no sample of. */
  datatype SessionError = EmptySensorWindow(sensor: SensorId)


  /** `timedelta.total_seconds()` of `t - origin`. */
  function Seconds(t: int, origin: int): real {
    (t - origin) as real / 1000000.0
  }

  /** Sensor ids the session total skips: strings starting with "nvidia" or "apu". */
  predicate Excluded(id: SensorId) {
    id.Name? && (StartsWith(id.s, "nvidia") || StartsWith(id.s, "apu"))
  }

  /** The `(dt, value)` pairs of sensor `id`, in arrival order. */
  function Readings(samples: seq<Sample>, id: SensorId): (r: seq<Point>)
    ensures |r| <= |samples|
    decreases |samples|
  {
    if samples == [] then []
    else
      var last := samples[|samples| - 1];
      Readings(samples[..|samples| - 1], id)
        + (if last.sensor == id then [Point(last.dt, last.value)] else [])
  }

  /** Appending one row to a buffer adds at most one point, at the end, of
      that row's sensor only. */
  lemma ReadingsSnoc(samples: seq<Sample>, x: Sample, id: SensorId)
    ensures Readings(samples + [x], id)
         == Readings(samples, id) + (if x.sensor == id then [Point(x.dt, x.value)] else [])
  {
    assert (samples + [x])[..|samples|] == samples;
  }

  /** A sensor has no readings exactly when no row names it. */
  lemma {:induction false} ReadingsEmpty(samples: seq<Sample>, id: SensorId)
    ensures Readings(samples, id) == [] <==> forall i :: 0 <= i < |samples| ==> samples[i].sensor != id
    decreases |samples|
  {
    if samples != [] {
      var n := |samples| - 1;
      ReadingsEmpty(samples[..n], id);
      assert forall i :: 0 <= i < n ==> samples[..n][i] == samples[i];
    }
  }

  /** A point is a reading of `id` exactly when some row of `id` carries it. */
  lemma {:induction false} ReadingsMembers(samples: seq<Sample>, id: SensorId, p: Point)
    ensures p in Readings(samples, id) <==>
              exists i :: 0 <= i < |samples| && samples[i] == Sample(p.t, id, p.v)
    decreases |samples|
  {
    if samples != [] {
      var n := |samples| - 1;
      var init := samples[..n];
      ReadingsMembers(init, id, p);
      if p in Readings(init, id) {
        var i :| 0 <= i < n && init[i] == Sample(p.t, id, p.v);
        assert samples[i] == init[i];
      }
      if exists i :: 0 <= i < |samples| && samples[i] == Sample(p.t, id, p.v) {
        var i :| 0 <= i < |samples| && samples[i] == Sample(p.t, id, p.v);
        if i < n { assert init[i] == samples[i]; }
      }
    }
  }

  /** The values of `pts`, in order. */
  function ValuesOf(pts: seq<Point>): (r: seq<real>)
    ensures |r| == |pts| && forall i :: 0 <= i < |pts| ==> r[i] == pts[i].v
  {
    seq(|pts|, i requires 0 <= i < |pts| => pts[i].v)
  }

  /** The times of `pts` as seconds elapsed since `origin`, in order. */
  function OffsetsOf(pts: seq<Point>, origin: int): (r: seq<real>)
    ensures |r| == |pts| && forall i :: 0 <= i < |pts| ==> r[i] == Seconds(pts[i].t, origin)
  {
    seq(|pts|, i requires 0 <= i < |pts| => Seconds(pts[i].t, origin))
  }

  /** The clamped series of one sensor: the window's start and end are added
      as points carrying the first and the last value, and times become
      seconds elapsed since the first point, which is the start. */
  function SeriesOf(start: int, end: int, pts: seq<Point>): (r: Series)
    requires pts != []
    ensures |r.elapsed| == |r.values| == |pts| + 2
    ensures r.elapsed[0] == 0.0 && r.elapsed[|pts| + 1] == Seconds(end, start)
    ensures r.values[0] == pts[0].v && r.values[|pts| + 1] == pts[|pts| - 1].v
    ensures forall i :: 0 <= i < |pts| ==>
              r.elapsed[i + 1] == Seconds(pts[i].t, start) && r.values[i + 1] == pts[i].v
  {
    var n := |pts|;
    Series(
      seq(n + 2, i requires 0 <= i < n + 2 =>
        Seconds(if i == 0 then start else if i <= n then pts[i - 1].t else end, start)),
      seq(n + 2, i requires 0 <= i < n + 2 =>
        if i == 0 then pts[0].v else if i <= n then pts[i - 1].v else pts[n - 1].v))
  }

  /** Dropping the clamped start point leaves the samples and the end point. */
  lemma SeriesTail(start: int, end: int, pts: seq<Point>)
    requires pts != []
    ensures SeriesOf(start, end, pts).values[1..] == ValuesOf(pts) + [pts[|pts| - 1].v]
    ensures SeriesOf(start, end, pts).elapsed[1..] == OffsetsOf(pts, start) + [Seconds(end, start)]
  {
    var s := SeriesOf(start, end, pts);
    assert s.values[1..] == ValuesOf(pts) + [pts[|pts| - 1].v] by {
      forall i | 0 <= i < |pts| + 1
        ensures s.values[1..][i] == (ValuesOf(pts) + [pts[|pts| - 1].v])[i] {
      }
    }
    assert s.elapsed[1..] == OffsetsOf(pts, start) + [Seconds(end, start)] by {
      forall i | 0 <= i < |pts| + 1
        ensures s.elapsed[1..][i] == (OffsetsOf(pts, start) + [Seconds(end, start)])[i] {
      }
    }
  }

  /** `numpy.trapz(y, x)`: the sum over consecutive pairs of (x[i+1] - x[i])
      times the mean of y[i] and y[i+1]. */
  function Trapezoid(y: seq<real>, x: seq<real>): real
    requires |y| == |x|
    decreases |y|
  {
    if |y| < 2 then 0.0
    else Segment(x[0], x[1], y[0], y[1]) + Trapezoid(y[1..], x[1..])
  }

  /** The area of one trapezoid. */
  function Segment(x0: real, x1: real, y0: real, y1: real): real {
    (x1 - x0) * (y0 + y1) / 2.0
  }

  /** A trapezoid with equal sides is a rectangle. */
  lemma FlatSegment(x0: real, x1: real, y: real)
    ensures Segment(x0, x1, y, y) == y * (x1 - x0)
  {
  }

  /** Samples whose times never decrease. */
  predicate InTimeOrder(pts: seq<Point>) {
    forall i, j :: 0 <= i <= j < |pts| ==> pts[i].t <= pts[j].t
  }

  /** Abscissae that never decrease. */
  predicate NonDecreasing(x: seq<real>) {
    forall i, j :: 0 <= i <= j < |x| ==> x[i] <= x[j]
  }

  /** The integral of one sensor over the session window. */
  function SensorEnergy(start: int, end: int, pts: seq<Point>): real
    requires pts != []
  {
    var s := SeriesOf(start, end, pts);
    Trapezoid(s.values, s.elapsed)
  }

  /** The sum of `powers` over `ids`, skipping excluded ids. */
  function Total(ids: seq<SensorId>, powers: map<SensorId, real>): real
    requires forall i :: 0 <= i < |ids| ==> ids[i] in powers
    decreases |ids|
  {
    if ids == [] then 0.0
    else (if Excluded(ids[0]) then 0.0 else powers[ids[0]]) + Total(ids[1..], powers)
  }

  /** The position of the first id in `ids`, from position `from` on, that
      the buffer has no sample of. */
  function FirstMissing(samples: seq<Sample>, ids: seq<SensorId>, from: nat): (r: Option<nat>)
    requires from <= |ids|
    ensures r.Some? ==> from <= r.value < |ids| && Readings(samples, ids[r.value]) == []
                        && forall j :: from <= j < r.value ==> Readings(samples, ids[j]) != []
    ensures r.None? ==> forall j :: from <= j < |ids| ==> Readings(samples, ids[j]) != []
    decreases |ids| - from
  {
    if from == |ids| then None
    else if Readings(samples, ids[from]) == [] then Some(from)
    else FirstMissing(samples, ids, from + 1)
  }

  /** The clamped series of every registered sensor. */
  function PerSensor(start: int, end: int, samples: seq<Sample>, ids: seq<SensorId>)
    : (m: map<SensorId, Series>)
    requires forall id :: id in ids ==> Readings(samples, id) != []
    ensures forall id :: id in m <==> id in ids
    ensures forall id :: id in m ==> m[id] == SeriesOf(start, end, Readings(samples, id))
  {
    map id | id in ids :: SeriesOf(start, end, Readings(samples, id))
  }

  /** The integral of every registered sensor over the window. */
  function Powers(start: int, end: int, samples: seq<Sample>, ids: seq<SensorId>)
    : (m: map<SensorId, real>)
    requires forall id :: id in ids ==> Readings(samples, id) != []
    ensures forall id :: id in m <==> id in ids
    ensures forall id :: id in m ==> m[id] == SensorEnergy(start, end, Readings(samples, id))
  {
    map id | id in ids :: SensorEnergy(start, end, Readings(samples, id))
  }

  /** `_compute_session(start_time, end_time, session_id)` over the session's
      buffer `samples` and the registered sensor ids `ids`, in registration order. */
  function ComputeSession(start: int, end: int, samples: seq<Sample>, ids: seq<SensorId>)
    : (r: Result<Stats, SessionError>)
    ensures r.Failure? <==> exists i :: 0 <= i < |ids| && Readings(samples, ids[i]) == []
    ensures r.Failure? ==> r.error.sensor in ids && Readings(samples, r.error.sensor) == []
    ensures r.Success? ==>
              && (forall id :: id in r.value.powers <==> id in ids)
              && (forall id :: id in r.value.perSensor <==> id in ids)
              && (forall id :: id in r.value.perSensor ==>
                    r.value.perSensor[id] == SeriesOf(start, end, Readings(samples, id)))
              && r.value.startTime == start && r.value.endTime == end
              && (forall id :: id in r.value.powers ==>
                    r.value.powers[id] == SensorEnergy(start, end, Readings(samples, id)))
              && r.value.totPower == Total(ids, r.value.powers)
  {
    match FirstMissing(samples, ids, 0)
    case Some(k) => Failure(EmptySensorWindow(ids[k]))
    case None =>
      var powers := Powers(start, end, samples, ids);
      Success(Stats(PerSensor(start, end, samples, ids), powers, Total(ids, powers), start, end))
  }

  // ---------------------------------------------------------------------------
  // The trapezoidal rule

  lemma {:induction false} TrapezoidSnoc(y: seq<real>, x: seq<real>, a: real, b: real)
    requires |y| == |x| >= 1
    ensures Trapezoid(y + [a], x + [b])
         == Trapezoid(y, x) + Segment(x[|x| - 1], b, y[|y| - 1], a)
    decreases |y|
  {
    if |y| > 1 {
      assert (y + [a])[1..] == y[1..] + [a];
      assert (x + [b])[1..] == x[1..] + [b];
      TrapezoidSnoc(y[1..], x[1..], a, b);
    }
  }

  lemma SegmentAtLeast(x0: real, x1: real, y0: real, y1: real, lo: real)
    requires x0 <= x1 && lo <= y0 && lo <= y1
    ensures lo * (x1 - x0) <= Segment(x0, x1, y0, y1)
  {
    var d := x1 - x0;
    var m := (y0 + y1) / 2.0;
    assert d * m - d * lo == d * (m - lo);
  }

  lemma SegmentAtMost(x0: real, x1: real, y0: real, y1: real, hi: real)
    requires x0 <= x1 && y0 <= hi && y1 <= hi
    ensures Segment(x0, x1, y0, y1) <= hi * (x1 - x0)
  {
    var d := x1 - x0;
    var m := (y0 + y1) / 2.0;
    assert d * hi - d * m == d * (hi - m);
  }

  /** Over non-decreasing abscissae, the trapezoidal integral lies between the
      least and the greatest ordinate times the width of the range. */
  lemma TrapezoidBounds(y: seq<real>, x: seq<real>, lo: real, hi: real)
    requires |y| == |x| >= 1
    requires forall i :: 0 <= i < |y| ==> lo <= y[i] <= hi
    requires NonDecreasing(x)
    ensures lo * (x[|x| - 1] - x[0]) <= Trapezoid(y, x) <= hi * (x[|x| - 1] - x[0])
  {
    TrapezoidAtLeast(y, x, lo);
    TrapezoidAtMost(y, x, hi);
  }

  lemma {:induction false} TrapezoidAtLeast(y: seq<real>, x: seq<real>, lo: real)
    requires |y| == |x| >= 1
    requires forall i :: 0 <= i < |y| ==> lo <= y[i]
    requires NonDecreasing(x)
    ensures lo * (x[|x| - 1] - x[0]) <= Trapezoid(y, x)
    decreases |y|
  {
    if |y| >= 2 {
      TrapezoidAtLeast(y[1..], x[1..], lo);
      SegmentAtLeast(x[0], x[1], y[0], y[1], lo);
      assert x[1..][|x| - 2] == x[|x| - 1];
      Distribute(lo, x[0], x[1], x[|x| - 1]);
    } else {
      ZeroWidth(lo, x[|x| - 1], x[0]);
    }
  }

  lemma {:induction false} TrapezoidAtMost(y: seq<real>, x: seq<real>, hi: real)
    requires |y| == |x| >= 1
    requires forall i :: 0 <= i < |y| ==> y[i] <= hi
    requires NonDecreasing(x)
    ensures Trapezoid(y, x) <= hi * (x[|x| - 1] - x[0])
    decreases |y|
  {
    if |y| >= 2 {
      TrapezoidAtMost(y[1..], x[1..], hi);
      SegmentAtMost(x[0], x[1], y[0], y[1], hi);
      assert x[1..][|x| - 2] == x[|x| - 1];
      Distribute(hi, x[0], x[1], x[|x| - 1]);
    } else {
      ZeroWidth(hi, x[|x| - 1], x[0]);
    }
  }

  lemma ZeroWidth(c: real, a: real, b: real)
    requires a == b
    ensures c * (a - b) == 0.0
  {
  }

  lemma Distribute(c: real, a: real, b: real, d: real)
    ensures c * (d - a) == c * (b - a) + c * (d - b)
  {
  }

  // ---------------------------------------------------------------------------
  // Properties of the reduction

  /** Clamping is flat extrapolation: the energy is the rectangle of the first
      value up to the first sample, the trapezoids between samples, and the
      rectangle of the last value up to the end. */
  lemma Clamping(start: int, end: int, pts: seq<Point>)
    requires pts != []
    ensures SensorEnergy(start, end, pts)
         == pts[0].v * OffsetsOf(pts, start)[0]
          + Trapezoid(ValuesOf(pts), OffsetsOf(pts, start))
          + pts[|pts| - 1].v * (Seconds(end, start) - OffsetsOf(pts, start)[|pts| - 1])
  {
    var n := |pts|;
    var xs := OffsetsOf(pts, start);
    ClampedEnds(start, end, pts);
    FlatEnds(SensorEnergy(start, end, pts), Trapezoid(ValuesOf(pts), xs),
             pts[0].v, pts[n - 1].v, xs[0], xs[n - 1], Seconds(end, start));
  }

  /** The clamped series adds one trapezoid before the first sample and one
      after the last. */
  lemma ClampedEnds(start: int, end: int, pts: seq<Point>)
    requires pts != []
    ensures SensorEnergy(start, end, pts)
         == Segment(0.0, OffsetsOf(pts, start)[0], pts[0].v, pts[0].v)
          + Trapezoid(ValuesOf(pts), OffsetsOf(pts, start))
          + Segment(OffsetsOf(pts, start)[|pts| - 1], Seconds(end, start),
                    pts[|pts| - 1].v, pts[|pts| - 1].v)
  {
    var s := SeriesOf(start, end, pts);
    var n := |pts|;
    var first, last := pts[0].v, pts[n - 1].v;
    var xs := OffsetsOf(pts, start);
    var e := Seconds(end, start);
    SeriesTail(start, end, pts);
    assert Trapezoid(s.values, s.elapsed)
        == Segment(0.0, xs[0], first, first) + Trapezoid(ValuesOf(pts) + [last], xs + [e]);
    TrapezoidSnoc(ValuesOf(pts), xs, last, e);
  }

  /** The arithmetic of `Clamping`: the two clamped ends are rectangles. */
  lemma FlatEnds(total: real, inner: real, first: real, last: real, x0: real, xn: real, e: real)
    requires total == Segment(0.0, x0, first, first) + inner + Segment(xn, e, last, last)
    ensures total == first * x0 + inner + last * (e - xn)
  {
    FlatSegment(0.0, x0, first);
    FlatSegment(xn, e, last);
    assert first * (x0 - 0.0) == first * x0;
  }

  /** When the samples arrive in time order inside the window, a sensor's
      energy lies between its least and greatest reading times the window's
      length in seconds. */
  lemma EnergyBounds(start: int, end: int, pts: seq<Point>, lo: real, hi: real)
    requires pts != []
    requires start <= pts[0].t && pts[|pts| - 1].t <= end
    requires InTimeOrder(pts)
    requires forall i :: 0 <= i < |pts| ==> lo <= pts[i].v <= hi
    ensures lo * Seconds(end, start) <= SensorEnergy(start, end, pts) <= hi * Seconds(end, start)
  {
    EnergyAtLeast(start, end, pts, lo);
    EnergyAtMost(start, end, pts, hi);
  }

  lemma EnergyAtLeast(start: int, end: int, pts: seq<Point>, lo: real)
    requires pts != []
    requires start <= pts[0].t && pts[|pts| - 1].t <= end
    requires InTimeOrder(pts)
    requires forall i :: 0 <= i < |pts| ==> lo <= pts[i].v
    ensures lo * Seconds(end, start) <= SensorEnergy(start, end, pts)
  {
    var s := SeriesOf(start, end, pts);
    var y, x := s.values, s.elapsed;
    assert forall i :: 0 <= i < |y| ==> lo <= y[i] by { SeriesAtLeast(start, end, pts, lo); }
    assert NonDecreasing(x) by { SeriesSorted(start, end, pts); }
    WindowAtLeast(y, x, lo, Seconds(end, start));
  }

  lemma EnergyAtMost(start: int, end: int, pts: seq<Point>, hi: real)
    requires pts != []
    requires start <= pts[0].t && pts[|pts| - 1].t <= end
    requires InTimeOrder(pts)
    requires forall i :: 0 <= i < |pts| ==> pts[i].v <= hi
    ensures SensorEnergy(start, end, pts) <= hi * Seconds(end, start)
  {
    var s := SeriesOf(start, end, pts);
    var y, x := s.values, s.elapsed;
    assert forall i :: 0 <= i < |y| ==> y[i] <= hi by { SeriesAtMost(start, end, pts, hi); }
    assert NonDecreasing(x) by { SeriesSorted(start, end, pts); }
    WindowAtMost(y, x, hi, Seconds(end, start));
  }

  /** The bounds of the trapezoidal rule over a window from 0 to `w` seconds. */
  lemma WindowAtLeast(y: seq<real>, x: seq<real>, lo: real, w: real)
    requires |y| == |x| >= 1 && x[0] == 0.0 && x[|x| - 1] == w
    requires forall i :: 0 <= i < |y| ==> lo <= y[i]
    requires NonDecreasing(x)
    ensures lo * w <= Trapezoid(y, x)
  {
    TrapezoidAtLeast(y, x, lo);
  }

  lemma WindowAtMost(y: seq<real>, x: seq<real>, hi: real, w: real)
    requires |y| == |x| >= 1 && x[0] == 0.0 && x[|x| - 1] == w
    requires forall i :: 0 <= i < |y| ==> y[i] <= hi
    requires NonDecreasing(x)
    ensures Trapezoid(y, x) <= hi * w
  {
    TrapezoidAtMost(y, x, hi);
  }

  /** Samples in time order inside the window give non-decreasing elapsed seconds. */
  lemma SeriesSorted(start: int, end: int, pts: seq<Point>)
    requires pts != []
    requires start <= pts[0].t && pts[|pts| - 1].t <= end
    requires InTimeOrder(pts)
    ensures NonDecreasing(SeriesOf(start, end, pts).elapsed)
  {
    var e := SeriesOf(start, end, pts).elapsed;
    var n := |pts|;
    forall i, j | 0 <= i <= j < n + 2
      ensures e[i] <= e[j]
    {
      if 0 < i <= j <= n {
        assert pts[i - 1].t <= pts[j - 1].t;
      }
    }
  }

  /** Clamping adds no value below the least reading ... */
  lemma SeriesAtLeast(start: int, end: int, pts: seq<Point>, lo: real)
    requires pts != []
    requires forall i :: 0 <= i < |pts| ==> lo <= pts[i].v
    ensures forall i :: 0 <= i < |SeriesOf(start, end, pts).values| ==> lo <= SeriesOf(start, end, pts).values[i]
  {
    var v := SeriesOf(start, end, pts).values;
    forall i | 0 <= i < |v|
      ensures lo <= v[i]
    {
      if 0 < i <= |pts| {
        assert v[i] == pts[i - 1].v;
      }
    }
  }

  /** ... and none above the greatest. */
  lemma SeriesAtMost(start: int, end: int, pts: seq<Point>, hi: real)
    requires pts != []
    requires forall i :: 0 <= i < |pts| ==> pts[i].v <= hi
    ensures forall i :: 0 <= i < |SeriesOf(start, end, pts).values| ==> SeriesOf(start, end, pts).values[i] <= hi
  {
    var v := SeriesOf(start, end, pts).values;
    forall i | 0 <= i < |v|
      ensures v[i] <= hi
    {
      if 0 < i <= |pts| {
        assert v[i] == pts[i - 1].v;
      }
    }
  }

  /** Over a constant ordinate the trapezoids telescope, whatever the order
      of the abscissae: `c` times the distance from the first to the last. */
  lemma {:induction false} ConstantTrapezoid(y: seq<real>, x: seq<real>, c: real)
    requires |y| == |x| >= 1
    requires forall i :: 0 <= i < |y| ==> y[i] == c
    ensures Trapezoid(y, x) == c * (x[|x| - 1] - x[0])
    decreases |y|
  {
    if |y| >= 2 {
      ConstantTrapezoid(y[1..], x[1..], c);
      FlatSegment(x[0], x[1], c);
      assert y[0] == c && y[1] == c;
    }
  }

  /** A sensor that reads a constant `c` throughout draws `c` times the window
      length, in whatever order and wherever the readings lie. */
  lemma ConstantEnergy(start: int, end: int, pts: seq<Point>, c: real)
    requires pts != []
    requires forall p :: p in pts ==> p.v == c
    ensures SensorEnergy(start, end, pts) == c * Seconds(end, start)
  {
    var s := SeriesOf(start, end, pts);
    forall i | 0 <= i < |s.values|
      ensures s.values[i] == c
    {
      if i == 0 {
        assert pts[0] in pts;
      } else if i <= |pts| {
        assert pts[i - 1] in pts;
      } else {
        assert pts[|pts| - 1] in pts;
      }
    }
    ConstantTrapezoid(s.values, s.elapsed, c);
  }

  /** A session that saw one reading of its only sensor totals the energy of
      that reading (which `SinglePoint` gives as the value times the window),
      or nothing for an excluded sensor. */
  lemma SingleReading(start: int, end: int, x: Sample)
    ensures ComputeSession(start, end, [x], [x.sensor]).Success?
    ensures ComputeSession(start, end, [x], [x.sensor]).value.totPower
         == if Excluded(x.sensor) then 0.0 else SensorEnergy(start, end, [Point(x.dt, x.value)])
  {
    SingleReadingPower(start, end, x);
    TotalSingle(x.sensor, ComputeSession(start, end, [x], [x.sensor]).value.powers);
  }

  /** The energy of the only sensor of a one-row buffer. */
  lemma SingleReadingPower(start: int, end: int, x: Sample)
    ensures ComputeSession(start, end, [x], [x.sensor]).Success?
    ensures x.sensor in ComputeSession(start, end, [x], [x.sensor]).value.powers
    ensures ComputeSession(start, end, [x], [x.sensor]).value.powers[x.sensor]
         == SensorEnergy(start, end, [Point(x.dt, x.value)])
  {
    ReadingsSnoc([], x, x.sensor);
    assert [] + [x] == [x];
    assert Readings([x], x.sensor) == [Point(x.dt, x.value)];
  }

  /** One reading is held constant over the whole window. */
  lemma SinglePoint(start: int, end: int, t: int, v: real)
    ensures SensorEnergy(start, end, [Point(t, v)]) == v * Seconds(end, start)
  {
    ConstantEnergy(start, end, [Point(t, v)], v);
  }

  lemma TotalSingle(id: SensorId, powers: map<SensorId, real>)
    requires id in powers
    ensures Total([id], powers) == if Excluded(id) then 0.0 else powers[id]
  {
    assert [id][1..] == [];
  }

  /** The energy of excluded sensors never reaches the total. */
  lemma {:induction false} TotalIgnoresExcluded(ids: seq<SensorId>, p: map<SensorId, real>, q: map<SensorId, real>)
    requires forall i :: 0 <= i < |ids| ==> ids[i] in p && ids[i] in q
    requires forall i :: 0 <= i < |ids| && !Excluded(ids[i]) ==> p[ids[i]] == q[ids[i]]
    ensures Total(ids, p) == Total(ids, q)
    decreases |ids|
  {
    if ids != [] {
      TotalIgnoresExcluded(ids[1..], p, q);
    }
  }

  /** With only excluded ids registered the total is 0. */
  lemma {:induction false} TotalAllExcluded(ids: seq<SensorId>, p: map<SensorId, real>)
    requires forall i :: 0 <= i < |ids| ==> ids[i] in p && Excluded(ids[i])
    ensures Total(ids, p) == 0.0
    decreases |ids|
  {
    if ids != [] {
      TotalAllExcluded(ids[1..], p);
    }
  }

  /** Registering one more id adds its power to the total unless it is excluded. */
  lemma {:induction false} TotalSnoc(ids: seq<SensorId>, id: SensorId, p: map<SensorId, real>)
    requires forall i :: 0 <= i < |ids| ==> ids[i] in p
    requires id in p
    ensures Total(ids + [id], p) == Total(ids, p) + (if Excluded(id) then 0.0 else p[id])
    decreases |ids|
  {
    if ids != [] {
      assert (ids + [id])[1..] == ids[1..] + [id];
      TotalSnoc(ids[1..], id, p);
    }
  }

  /** The window from 0 s to 3 s with samples 3.0 at 1 s and 5.0 at 2 s
      clamps to (0, 3), (1, 3), (2, 5), (3, 5) and integrates to 3 + 4 + 5 = 12. */
  lemma ClampingExample()
    ensures SensorEnergy(0, 3000000, [Point(1000000, 3.0), Point(2000000, 5.0)]) == 12.0
  {
    var s := SeriesOf(0, 3000000, [Point(1000000, 3.0), Point(2000000, 5.0)]);
    assert s.values == [3.0, 3.0, 5.0, 5.0];
    assert s.elapsed == [0.0, 1.0, 2.0, 3.0];
  }

  /** When both sessions succeed, rows of accelerator sensors do not move the
      total: two buffers with the same readings for every regular sensor
      total the same. Success itself still needs a reading of every
      registered sensor, accelerators included (`MissingAcceleratorFails`). */
  lemma ExcludedRowsIgnored(start: int, end: int, s1: seq<Sample>, s2: seq<Sample>, ids: seq<SensorId>)
    requires ComputeSession(start, end, s1, ids).Success?
    requires ComputeSession(start, end, s2, ids).Success?
    requires forall i :: 0 <= i < |ids| && !Excluded(ids[i]) ==> Readings(s1, ids[i]) == Readings(s2, ids[i])
    ensures ComputeSession(start, end, s1, ids).value.totPower
         == ComputeSession(start, end, s2, ids).value.totPower
  {
    var r1 := ComputeSession(start, end, s1, ids).value;
    var r2 := ComputeSession(start, end, s2, ids).value;
    forall i | 0 <= i < |ids|
      ensures ids[i] in r1.powers && ids[i] in r2.powers
      ensures !Excluded(ids[i]) ==> r1.powers[ids[i]] == r2.powers[ids[i]]
    {
      assert ids[i] in ids;
    }
    TotalIgnoresExcluded(ids, r1.powers, r2.powers);
  }

  /** An accelerator sensor is skipped by the total but not by the check for
      readings: a registered "nvidia-0" without a row makes the session fail,
      while the same buffer with one row of it succeeds. */
  lemma MissingAcceleratorFails()
    ensures ComputeSession(0, 3000000, [Sample(1000000, Num(18), 3.0)],
                           [Num(18), Name("nvidia-0")]).Failure?
    ensures ComputeSession(0, 3000000, [Sample(1000000, Num(18), 3.0), Sample(1000000, Name("nvidia-0"), 9.0)],
                           [Num(18), Name("nvidia-0")]).Success?
  {
    var a := Sample(1000000, Num(18), 3.0);
    var b := Sample(1000000, Name("nvidia-0"), 9.0);
    ReadingsSnoc([], a, Name("nvidia-0"));
    assert [] + [a] == [a];
    assert Readings([a], Name("nvidia-0")) == [];
    ReadingsSnoc([a], b, Num(18));
    ReadingsSnoc([a], b, Name("nvidia-0"));
    ReadingsSnoc([], a, Num(18));
    assert [a] + [b] == [a, b];
    assert Readings([a, b], Num(18)) != [];
    assert Readings([a, b], Name("nvidia-0")) != [];
  }

  /** Two equal readings out of time order still integrate to their value
      times the window: 4.0 over 3 s gives 12. */
  lemma ConstantOutOfOrderExample()
    ensures SensorEnergy(0, 3000000, [Point(2000000, 4.0), Point(1000000, 4.0)]) == 12.0
  {
    ConstantEnergy(0, 3000000, [Point(2000000, 4.0), Point(1000000, 4.0)], 4.0);
  }

  /** A regular sensor with energy 12 and an accelerator sensor with energy 99
      total 12. */
  lemma ExclusionExample()
    ensures Total([Num(18), Name("nvidia-0")], map[Num(18) := 12.0, Name("nvidia-0") := 99.0]) == 12.0
  {
    assert StartsWith("nvidia-0", "nvidia");
  }
}
