/**
 Time windows over data points. Timestamps and window lengths are whole milliseconds, values are exact
 reals. Windows are half open and start at `first`, `first + step`, ... up to the last timestamp.
 */
module AggregationWindow {
  import opened Arithmetic
  import opened Wrappers

  datatype Config = Config(sizeMs: int, stepMs: Option<int>, originMs: Option<int>)

  datatype Bounds = Bounds(sizeMs: int, stepMs: int, originMs: int)

  datatype ConfigError = BadSize(value: int) | BadStep(value: int)

  datatype DataPoint = DataPoint(timestamp: int, value: real)

  datatype AggregatedWindow = AggregatedWindow(
    start: int, end: int, count: nat, sum: real, min: Option<real>, max: Option<real>, avg: Option<real>)

  datatype WindowType = Tumbling | Sliding

  function ValidateConfig(c: Config): (r: Result<Bounds, ConfigError>)
    ensures r.Ok? <==> c.sizeMs > 0 && (c.stepMs.Some? ==> c.stepMs.value > 0)
    ensures r.Ok? ==> r.value.sizeMs > 0 && r.value.stepMs > 0
  {
    var step := if c.stepMs.Some? then c.stepMs.value else c.sizeMs;
    var origin := if c.originMs.Some? then c.originMs.value else 0;
    if c.sizeMs <= 0 then Err(BadSize(c.sizeMs))
    else if step <= 0 then Err(BadStep(step))
    else Ok(Bounds(c.sizeMs, step, origin))
  }

  /** Whether a configuration is rejected and why, by its own values: the size is looked at before the step. */
  predicate Rejects(c: Config, e: ConfigError) {
    if c.sizeMs <= 0 then e == BadSize(c.sizeMs)
    else c.stepMs.Some? && c.stepMs.value <= 0 && e == BadStep(c.stepMs.value)
  }

  /** The step in use: that of the configuration, or the size, for sliding windows; always the size otherwise. */
  predicate IsStep(c: Config, kind: WindowType, step: int) {
    if kind.Sliding? && c.stepMs.Some? then step == c.stepMs.value else step == c.sizeMs
  }

  /** The configured origin, 0 when there is none. */
  predicate IsOrigin(c: Config, origin: int) {
    match c.originMs
    case None => origin == 0
    case Some(o) => origin == o
  }

  /** The aligned window of length `size` that holds `timestamp`; alignment makes it the only one. */
  function WindowStart(timestamp: int, size: int, origin: int): (start: int)
    requires size > 0
    ensures start <= timestamp < start + size
    ensures (start - origin) % size == 0
  {
    AlignedStart(timestamp - origin, size);
    origin + (timestamp - origin) / size * size
  }

  lemma AlignedStart(offset: int, size: int)
    requires size > 0
    ensures offset / size * size <= offset < offset / size * size + size
    ensures (offset / size * size) % size == 0
  {
    var q := offset / size;
    assert offset == q * size + offset % size;
    MultipleHasNoRest(q, size);
  }

  lemma MultipleHasNoRest(q: int, size: int)
    requires size > 0
    ensures (q * size) % size == 0
  {
    QuotientIs(q * size, q, size);
  }

  /** `q` is the floor of `x / size` when `x` lies in the q-th stretch. */
  lemma QuotientIs(x: int, q: int, size: int)
    requires size > 0 && q * size <= x < q * size + size
    ensures x / size == q && x % size == x - q * size
  {
    FloorBelow(x, size, q);
    FloorBelow(x, size, q + 1);
    assert (q + 1) * size == q * size + size;
  }

  method WindowStartFor(timestamp: int, config: Config) returns (r: Result<int, ConfigError>)
    ensures r.Ok? <==> ValidateConfig(config).Ok?
    ensures r.Err? ==> r.error == ValidateConfig(config).error
    ensures r.Ok? ==> r.value <= timestamp < r.value + config.sizeMs
    ensures r.Ok? ==> (r.value - ValidateConfig(config).value.originMs) % config.sizeMs == 0
    ensures r.Ok? ==> forall origin | IsOrigin(config, origin) :: (r.value - origin) % config.sizeMs == 0
    ensures r.Err? ==> Rejects(config, r.error)
  {
    var v := ValidateConfig(config);
    if v.Err? {
      return Err(v.error);
    }
    r := Ok(WindowStart(timestamp, v.value.sizeMs, v.value.originMs));
  }

  // ---------------------------------------------------------------------------------------------
  // One window
  // ---------------------------------------------------------------------------------------------

  predicate Within(p: DataPoint, start: int, end: int) {
    start <= p.timestamp < end
  }

  /** The values of the points of a window, in input order. */
  function ValuesIn(points: seq<DataPoint>, start: int, end: int): seq<real> {
    if points == [] then
      []
    else
      var last := points[|points| - 1];
      ValuesIn(points[..|points| - 1], start, end) + (if Within(last, start, end) then [last.value] else [])
  }

  function Sum(values: seq<real>): real {
    if values == [] then 0.0 else Sum(values[..|values| - 1]) + values[|values| - 1]
  }

  predicate IsLeast(values: seq<real>, m: Option<real>) {
    if values == [] then m == None
    else m.Some? && m.value in values && forall v | v in values :: m.value <= v
  }

  predicate IsGreatest(values: seq<real>, m: Option<real>) {
    if values == [] then m == None
    else m.Some? && m.value in values && forall v | v in values :: v <= m.value
  }

  /** What a window must say about the points between its bounds. */
  predicate Describes(w: AggregatedWindow, points: seq<DataPoint>, start: int, end: int) {
    var values := ValuesIn(points, start, end);
    && w.start == start && w.end == end
    && w.count == |values| && w.sum == Sum(values)
    && IsLeast(values, w.min) && IsGreatest(values, w.max)
    && w.avg == if |values| > 0 then Some(Sum(values) / |values| as real) else None
  }

  method Aggregate(points: seq<DataPoint>, start: int, end: int) returns (w: AggregatedWindow)
    ensures Describes(w, points, start, end)
  {
    var count := 0;
    var sum := 0.0;
    var min: Option<real> := None;
    var max: Option<real> := None;
    ghost var values := [];
    var i := 0;
    while i < |points|
      invariant 0 <= i <= |points|
      invariant values == ValuesIn(points[..i], start, end)
      invariant count == |values| && sum == Sum(values)
      invariant IsLeast(values, min) && IsGreatest(values, max)
    {
      var p := points[i];
      assert points[..i + 1][..i] == points[..i];
      if start <= p.timestamp && p.timestamp < end {
        count := count + 1;
        sum := sum + p.value;
        min := if min == None || p.value < min.value then Some(p.value) else min;
        max := if max == None || p.value > max.value then Some(p.value) else max;
        assert (values + [p.value])[..|values|] == values;
        values := values + [p.value];
      }
      i := i + 1;
    }
    assert points[..i] == points;
    w := AggregatedWindow(start, end, count, sum, min, max, if count > 0 then Some(sum / count as real) else None);
  }

  /** The average of a non-empty window lies between its extremes. */
  lemma AverageIsBetween(w: AggregatedWindow, points: seq<DataPoint>, start: int, end: int)
    requires Describes(w, points, start, end) && w.count > 0
    ensures w.min.value <= w.avg.value <= w.max.value
  {
    hide ValuesIn, Sum;
    var values := ValuesIn(points, start, end);
    var n := |values| as real;
    SumBounds(values, w.min.value, w.max.value);
    QuotientBetween(w.sum, n, w.min.value, w.max.value);
  }

  lemma QuotientBetween(sum: real, n: real, low: real, high: real)
    requires n > 0.0 && low * n <= sum <= high * n
    ensures low <= sum / n <= high
  {
    var q := sum / n;
    assert q * n == sum;
    assert q < low ==> (low - q) * n > 0.0;
    assert q > high ==> (q - high) * n > 0.0;
  }

  lemma {:induction false} SumBounds(values: seq<real>, low: real, high: real)
    requires forall v | v in values :: low <= v <= high
    ensures low * |values| as real <= Sum(values) <= high * |values| as real
  {
    if values != [] {
      var front := values[..|values| - 1];
      assert forall v | v in front :: v in values;
      assert values[|values| - 1] in values;
      SumBounds(front, low, high);
      var n := |front| as real;
      assert |values| as real == n + 1.0;
      assert low * (n + 1.0) == low * n + low && high * (n + 1.0) == high * n + high;
    }
  }

  // ---------------------------------------------------------------------------------------------
  // All windows
  // ---------------------------------------------------------------------------------------------

  function MinTimestamp(points: seq<DataPoint>): (m: int)
    requires points != []
    ensures forall i | 0 <= i < |points| :: m <= points[i].timestamp
    ensures exists i | 0 <= i < |points| :: m == points[i].timestamp
  {
    if |points| == 1 then
      points[0].timestamp
    else
      var m := MinTimestamp(points[1..]);
      assert forall i | 1 <= i < |points| :: points[i] == points[1..][i - 1];
      assert forall i | 0 <= i < |points| - 1 :: points[1..][i] == points[i + 1];
      if points[0].timestamp < m then points[0].timestamp else m
  }

  function MaxTimestamp(points: seq<DataPoint>): (m: int)
    requires points != []
    ensures forall i | 0 <= i < |points| :: points[i].timestamp <= m
    ensures exists i | 0 <= i < |points| :: m == points[i].timestamp
  {
    if |points| == 1 then
      points[0].timestamp
    else
      var m := MaxTimestamp(points[1..]);
      assert forall i | 1 <= i < |points| :: points[i] == points[1..][i - 1];
      assert forall i | 0 <= i < |points| - 1 :: points[1..][i] == points[i + 1];
      if points[0].timestamp > m then points[0].timestamp else m
  }

  /** `ws` are the windows `[first + k * step, first + k * step + size)` of `points`, up to `last`. */
  ghost predicate AreWindows(
    ws: seq<AggregatedWindow>, points: seq<DataPoint>, first: int, step: int, size: int, last: int)
    requires step > 0
  {
    && |ws| == (if last < first then 0 else (last - first) / step + 1)
    && forall k | 0 <= k < |ws| :: Describes(ws[k], points, first + k * step, first + k * step + size)
  }

  /** The loop shared by both kinds of window. */
  method Windows(points: seq<DataPoint>, first: int, step: int, size: int, last: int)
    returns (ws: seq<AggregatedWindow>)
    requires step > 0 && first <= last
    ensures AreWindows(ws, points, first, step, size, last)
  {
    ws := [];
    var start := first;
    while start <= last
      invariant start == first + |ws| * step
      invariant |ws| == 0 || start - step <= last
      invariant forall k | 0 <= k < |ws| :: Describes(ws[k], points, first + k * step, first + k * step + size)
      decreases last - start
    {
      var w := Aggregate(points, start, start + size);
      ws := ws + [w];
      assert (|ws| - 1) * step + step == |ws| * step;
      start := start + step;
    }
    QuotientIs(last - first, |ws| - 1, step);
  }

  /** The windows of `points` by the configuration's own values: aligned to its origin, of its size, at its step. */
  ghost predicate FitConfig(ws: seq<AggregatedWindow>, points: seq<DataPoint>, c: Config, kind: WindowType)
    requires c.sizeMs > 0
  {
    if points == [] then ws == []
    else
      forall origin, step, first |
        IsOrigin(c, origin) && IsStep(c, kind, step) && IsFirst(points, first, origin, c.sizeMs) ::
        step > 0 && AreWindows(ws, points, first, step, c.sizeMs, MaxTimestamp(points))
  }

  /** The aligned start of the window that holds the earliest point. */
  ghost predicate IsFirst(points: seq<DataPoint>, first: int, origin: int, size: int)
    requires size > 0 && points != []
  {
    first <= MinTimestamp(points) < first + size && (first - origin) % size == 0
  }

  lemma AlignedIs(first: int, t: int, origin: int, size: int)
    requires size > 0 && first <= t < first + size && (first - origin) % size == 0
    ensures first == WindowStart(t, size, origin)
  {
    var q := (first - origin) / size;
    assert first - origin == q * size;
    QuotientIs(t - origin, q, size);
  }

  lemma FitsConfig(ws: seq<AggregatedWindow>, points: seq<DataPoint>, config: Config, kind: WindowType)
    requires ValidateConfig(config).Ok?
    requires points == [] ==> ws == []
    requires points != [] ==>
      var c := ValidateConfig(config).value;
      AreWindows(
        ws, points, WindowStart(MinTimestamp(points), c.sizeMs, c.originMs),
        if kind.Sliding? then c.stepMs else c.sizeMs, c.sizeMs, MaxTimestamp(points))
    ensures FitConfig(ws, points, config, kind)
  {
    hide AreWindows, MinTimestamp, MaxTimestamp;
    var c := ValidateConfig(config).value;
    if points != [] {
      var start := WindowStart(MinTimestamp(points), c.sizeMs, c.originMs);
      forall origin, step, first |
        IsOrigin(config, origin) && IsStep(config, kind, step) && IsFirst(points, first, origin, c.sizeMs)
        ensures first == start
      {
        AlignedIs(first, MinTimestamp(points), origin, c.sizeMs);
      }
    }
  }

  method AggregateTumbling(points: seq<DataPoint>, config: Config)
    returns (r: Result<seq<AggregatedWindow>, ConfigError>)
    ensures r.Ok? <==> ValidateConfig(config).Ok?
    ensures r.Err? ==> r.error == ValidateConfig(config).error
    ensures r.Ok? && points == [] ==> r.value == []
    ensures r.Ok? && points != [] ==>
      var c := ValidateConfig(config).value;
      AreWindows(
        r.value, points, WindowStart(MinTimestamp(points), c.sizeMs, c.originMs), c.sizeMs, c.sizeMs,
        MaxTimestamp(points))
    ensures r.Ok? ==> config.sizeMs > 0 && FitConfig(r.value, points, config, Tumbling)
    ensures r.Err? ==> Rejects(config, r.error)
  {
    var v := ValidateConfig(config);
    if v.Err? {
      return Err(v.error);
    }
    if points == [] {
      FitsConfig([], points, config, Tumbling);
      return Ok([]);
    }
    var c := v.value;
    var firstStart := WindowStart(MinTimestamp(points), c.sizeMs, c.originMs);
    var windows := Windows(points, firstStart, c.sizeMs, c.sizeMs, MaxTimestamp(points));
    FitsConfig(windows, points, config, Tumbling);
    r := Ok(windows);
  }

  method AggregateSliding(points: seq<DataPoint>, config: Config)
    returns (r: Result<seq<AggregatedWindow>, ConfigError>)
    ensures r.Ok? <==> ValidateConfig(config).Ok?
    ensures r.Err? ==> r.error == ValidateConfig(config).error
    ensures r.Ok? && points == [] ==> r.value == []
    ensures r.Ok? && points != [] ==>
      var c := ValidateConfig(config).value;
      AreWindows(
        r.value, points, WindowStart(MinTimestamp(points), c.sizeMs, c.originMs), c.stepMs, c.sizeMs,
        MaxTimestamp(points))
    ensures r.Ok? ==> config.sizeMs > 0 && FitConfig(r.value, points, config, Sliding)
    ensures r.Err? ==> Rejects(config, r.error)
  {
    var v := ValidateConfig(config);
    if v.Err? {
      return Err(v.error);
    }
    if points == [] {
      FitsConfig([], points, config, Sliding);
      return Ok([]);
    }
    var c := v.value;
    var firstStart := WindowStart(MinTimestamp(points), c.sizeMs, c.originMs);
    var windows := Windows(points, firstStart, c.stepMs, c.sizeMs, MaxTimestamp(points));
    FitsConfig(windows, points, config, Sliding);
    r := Ok(windows);
  }

  // ---------------------------------------------------------------------------------------------
  // How many windows hold a point
  // ---------------------------------------------------------------------------------------------

  predicate Hits(t: int, first: int, step: int, size: int, k: int) {
    first + k * step <= t < first + k * step + size
  }

  /** How many of the first `n` windows hold time `t`. */
  function HitCount(t: int, first: int, step: int, size: int, n: nat): nat {
    if n == 0 then 0
    else HitCount(t, first, step, size, n - 1) + (if Hits(t, first, step, size, n - 1) then 1 else 0)
  }

  /** Window `k` holds a point `d` after the first start exactly when `k` is in the half-open stretch. */
  lemma HitsWhen(d: int, step: int, size: int, k: int)
    requires step > 0
    ensures k * step <= d <==> k <= d / step
    ensures d < k * step + size <==> (d - size) / step < k
  {
    FloorBelow(d, step, k);
    FloorBelow(d - size, step, k);
  }

  lemma {:induction false} HitCountOfFirst(t: int, first: int, step: int, size: int, n: nat)
    requires step > 0 && size > 0 && t >= first
    ensures var d := t - first;
      HitCount(t, first, step, size, n) == Min(n - 1, d / step) - Max(-1, Min(n - 1, (d - size) / step))
  {
    var d := t - first;
    FloorBelow(d - size, step, d / step + 1);
    assert (d - size) / step <= d / step by {
      FloorBelow(d, step, (d - size) / step);
      FloorBelow(d - size, step, (d - size) / step);
    }
    FloorBelow(d, step, 0);
    if n > 0 {
      HitCountOfFirst(t, first, step, size, n - 1);
      HitsWhen(d, step, size, n - 1);
    }
  }

  /** For any step and size: the number of windows a point lies in depends on its offset alone. */
  lemma PointIsInWindows(t: int, first: int, step: int, size: int, last: int)
    requires step > 0 && size > 0 && first <= t <= last
    ensures var d := t - first;
      HitCount(t, first, step, size, (last - first) / step + 1) == d / step - Max(-1, (d - size) / step)
  {
    var d := t - first;
    HitCountOfFirst(t, first, step, size, (last - first) / step + 1);
    FloorBelow(last - first, step, d / step);
    FloorBelow(d, step, d / step);
    FloorBelow(d, step, (d - size) / step);
    FloorBelow(d - size, step, (d - size) / step);
    FloorBelow(last - first, step, 0);
  }

  /** When the step divides the size: `min(size / step, floor(d / step) + 1)` windows. */
  lemma SlidingOverlap(t: int, first: int, step: int, m: int, last: int)
    requires step > 0 && m > 0 && first <= t <= last
    ensures HitCount(t, first, step, m * step, (last - first) / step + 1) == Min(m, (t - first) / step + 1)
  {
    var d := t - first;
    assert m * step > 0;
    PointIsInWindows(t, first, step, m * step, last);
    QuotientLess(d, m, step);
    FloorBelow(d, step, 0);
  }

  lemma QuotientLess(d: int, m: int, step: int)
    requires step > 0
    ensures (d - m * step) / step == d / step - m
  {
    AlignedStart(d, step);
    assert (d / step - m) * step == d / step * step - m * step;
    QuotientIs(d - m * step, d / step - m, step);
  }

  /** Tumbling windows hold every point exactly once. */
  lemma TumblingHoldsOnce(t: int, first: int, size: int, last: int)
    requires size > 0 && first <= t <= last
    ensures HitCount(t, first, size, size, (last - first) / size + 1) == 1
  {
    SlidingOverlap(t, first, size, 1, last);
    FloorBelow(t - first, size, 0);
  }

  predicate IsHeld(t: int, first: int, step: int, size: int, last: int)
    requires step > 0 && first <= last
  {
    FloorBelow(last - first, step, 0);
    HitCount(t, first, step, size, (last - first) / step + 1) > 0
  }

  /** No time between the first start and the last timestamp is missed exactly when no step leaves a gap. */
  lemma NothingIsMissedIff(first: int, step: int, size: int, last: int)
    requires step > 0 && size > 0 && first + size <= last
    ensures (forall t | first <= t <= last :: IsHeld(t, first, step, size, last)) <==> step <= size
  {
    if step <= size {
      forall t | first <= t <= last
        ensures IsHeld(t, first, step, size, last)
      {
        PointIsInWindows(t, first, step, size, last);
        NoGap(t - first, step, size);
      }
    } else {
      PointIsInWindows(first + size, first, step, size, last);
      QuotientIs(size, 0, step);
      assert !IsHeld(first + size, first, step, size, last);
    }
  }

  lemma NoGap(d: int, step: int, size: int)
    requires 0 < step <= size && d >= 0
    ensures d / step > Max(-1, (d - size) / step)
  {
    FloorBelow(d, step, 0);
    FloorBelow(d - size, step, (d - size) / step);
    FloorBelow(d, step, (d - size) / step + 1);
    assert ((d - size) / step + 1) * step == (d - size) / step * step + step;
  }

  // ---------------------------------------------------------------------------------------------
  // Conservation over all windows
  // ---------------------------------------------------------------------------------------------

  function TotalCount(ws: seq<AggregatedWindow>): nat {
    if ws == [] then 0 else TotalCount(ws[..|ws| - 1]) + ws[|ws| - 1].count
  }

  function TotalSum(ws: seq<AggregatedWindow>): real {
    if ws == [] then 0.0 else TotalSum(ws[..|ws| - 1]) + ws[|ws| - 1].sum
  }

  function ValuesOf(points: seq<DataPoint>): (r: seq<real>)
    ensures |r| == |points|
  {
    seq(|points|, i requires 0 <= i < |points| => points[i].value)
  }

  /** The counts of the first `n` windows, point by point. */
  function HitsOfAll(points: seq<DataPoint>, first: int, step: int, size: int, n: nat): nat {
    if points == [] then
      0
    else
      HitsOfAll(points[..|points| - 1], first, step, size, n)
        + HitCount(points[|points| - 1].timestamp, first, step, size, n)
  }

  function Weight(h: nat, value: real): real {
    h as real * value
  }

  function WeightOfAll(points: seq<DataPoint>, first: int, step: int, size: int, n: nat): real {
    if points == [] then
      0.0
    else
      var last := points[|points| - 1];
      WeightOfAll(points[..|points| - 1], first, step, size, n)
        + Weight(HitCount(last.timestamp, first, step, size, n), last.value)
  }

  /** One more window adds its own points. */
  lemma {:induction false} OneMoreWindow(points: seq<DataPoint>, first: int, step: int, size: int, n: nat)
    ensures var values := ValuesIn(points, first + n * step, first + n * step + size);
      HitsOfAll(points, first, step, size, n + 1) == HitsOfAll(points, first, step, size, n) + |values|
  {
    if points != [] {
      OneMoreWindow(points[..|points| - 1], first, step, size, n);
    }
  }

  lemma {:induction false} OneMoreWindowSum(points: seq<DataPoint>, first: int, step: int, size: int, n: nat)
    ensures var values := ValuesIn(points, first + n * step, first + n * step + size);
      WeightOfAll(points, first, step, size, n + 1) == WeightOfAll(points, first, step, size, n) + Sum(values)
  {
    if points != [] {
      var front, last := points[..|points| - 1], points[|points| - 1];
      var start := first + n * step;
      var h := HitCount(last.timestamp, first, step, size, n);
      OneMoreWindowSum(front, first, step, size, n);
      OneMoreHit(h, last.value);
      var inFront := ValuesIn(front, start, start + size);
      var more := if Within(last, start, start + size) then last.value else 0.0;
      assert Sum(ValuesIn(points, start, start + size)) == Sum(inFront) + more by {
        assert (inFront + [last.value])[..|inFront|] == inFront;
        assert inFront + [] == inFront;
      }
      assert Weight(HitCount(last.timestamp, first, step, size, n + 1), last.value) ==
        Weight(h, last.value) + more;
    }
  }

  lemma OneMoreHit(h: nat, value: real)
    ensures Weight(h + 1, value) == Weight(h, value) + value
  {
  }

  lemma {:induction false} NoWindows(points: seq<DataPoint>, first: int, step: int, size: int)
    ensures HitsOfAll(points, first, step, size, 0) == 0 && WeightOfAll(points, first, step, size, 0) == 0.0
  {
    if points != [] {
      NoWindows(points[..|points| - 1], first, step, size);
    }
  }

  /** Counting by windows and counting by points agree, for tumbling and sliding windows alike. */
  lemma {:induction false} TotalsByPoint(
    ws: seq<AggregatedWindow>, points: seq<DataPoint>, first: int, step: int, size: int)
    requires forall k | 0 <= k < |ws| :: Describes(ws[k], points, first + k * step, first + k * step + size)
    ensures TotalCount(ws) == HitsOfAll(points, first, step, size, |ws|)
    ensures TotalSum(ws) == WeightOfAll(points, first, step, size, |ws|)
  {
    if ws == [] {
      NoWindows(points, first, step, size);
    } else {
      var n := |ws| - 1;
      TotalsByPoint(ws[..n], points, first, step, size);
      OneMoreWindow(points, first, step, size, n);
      OneMoreWindowSum(points, first, step, size, n);
      assert Describes(ws[n], points, first + n * step, first + n * step + size);
    }
  }

  lemma {:induction false} EveryPointOnce(points: seq<DataPoint>, first: int, size: int, last: int)
    requires size > 0 && first <= last
    requires forall i | 0 <= i < |points| :: first <= points[i].timestamp <= last
    ensures var n := (last - first) / size + 1;
      n >= 0 && HitsOfAll(points, first, size, size, n) == |points|
      && WeightOfAll(points, first, size, size, n) == Sum(ValuesOf(points))
  {
    FloorBelow(last - first, size, 0);
    if points != [] {
      var front, p := points[..|points| - 1], points[|points| - 1];
      EveryPointOnce(front, first, size, last);
      TumblingHoldsOnce(p.timestamp, first, size, last);
      assert ValuesOf(points)[..|front|] == ValuesOf(front);
    }
  }

  /** The counts and sums of the tumbling windows are those of the input. */
  lemma TumblingConserves(ws: seq<AggregatedWindow>, points: seq<DataPoint>, c: Bounds)
    requires points != [] && c.sizeMs > 0
    requires AreWindows(
      ws, points, WindowStart(MinTimestamp(points), c.sizeMs, c.originMs), c.sizeMs, c.sizeMs,
      MaxTimestamp(points))
    ensures TotalCount(ws) == |points| && TotalSum(ws) == Sum(ValuesOf(points))
  {
    var first, last := WindowStart(MinTimestamp(points), c.sizeMs, c.originMs), MaxTimestamp(points);
    assert MinTimestamp(points) <= points[0].timestamp <= last;
    TotalsByPoint(ws, points, first, c.sizeMs, c.sizeMs);
    EveryPointOnce(points, first, c.sizeMs, last);
  }

  /** The same start, step, size and end leave no choice, so sliding by the size is tumbling. */
  lemma WindowsAreDetermined(
    ws: seq<AggregatedWindow>, ws': seq<AggregatedWindow>, points: seq<DataPoint>, first: int, step: int,
    size: int, last: int)
    requires step > 0
    requires AreWindows(ws, points, first, step, size, last) && AreWindows(ws', points, first, step, size, last)
    ensures ws == ws'
  {
    hide Describes;
    forall k | 0 <= k < |ws|
      ensures ws[k] == ws'[k]
    {
      assert Describes(ws[k], points, first + k * step, first + k * step + size);
      assert Describes(ws'[k], points, first + k * step, first + k * step + size);
      DescribedOnce(ws[k], ws'[k], points, first + k * step, first + k * step + size);
    }
  }

  lemma DescribedOnce(w: AggregatedWindow, w': AggregatedWindow, points: seq<DataPoint>, start: int, end: int)
    requires Describes(w, points, start, end) && Describes(w', points, start, end)
    ensures w == w'
  {
    hide ValuesIn, Sum;
    var values := ValuesIn(points, start, end);
    if values != [] {
      assert w.min.value <= w'.min.value <= w.min.value && w.max.value <= w'.max.value <= w.max.value;
    }
  }

  method AggregateWindows(points: seq<DataPoint>, kind: WindowType, config: Config)
    returns (r: Result<seq<AggregatedWindow>, ConfigError>)
    ensures r.Ok? <==> ValidateConfig(config).Ok?
    ensures r.Err? ==> r.error == ValidateConfig(config).error
    ensures r.Ok? && points == [] ==> r.value == []
    ensures r.Ok? && points != [] ==>
      var c := ValidateConfig(config).value;
      var step := if kind.Sliding? then c.stepMs else c.sizeMs;
      AreWindows(
        r.value, points, WindowStart(MinTimestamp(points), c.sizeMs, c.originMs), step, c.sizeMs,
        MaxTimestamp(points))
    ensures r.Ok? && kind.Tumbling? ==>
      TotalCount(r.value) == |points| && TotalSum(r.value) == Sum(ValuesOf(points))
    ensures r.Ok? ==> config.sizeMs > 0 && FitConfig(r.value, points, config, kind)
    ensures r.Err? ==> Rejects(config, r.error)
  {
    if kind.Sliding? {
      r := AggregateSliding(points, config);
    } else {
      r := AggregateTumbling(points, config);
      if r.Ok? && points != [] {
        TumblingConserves(r.value, points, ValidateConfig(config).value);
      }
    }
  }
}
