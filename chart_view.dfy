/** The informative chart view: it projects a chart buffer into the plotting area of
    its rectangle, labels the axes, shows the newest value with a coloured status band
    and names the chart, refreshing every `updateInterval`-th frame. */
module ChartView {
  import opened Unity
  import opened Text
  import opened Generators
  import opened EnhancedChart

  /** Status colour of the current-value panel: red, yellow or green. */
  datatype Band = Low | Mid | High

  function Rank(b: Band): int
  {
    match b
    case Low => 0
    case Mid => 1
    case High => 2
  }

  /** A value as the current-value display formats it. */
  datatype Reading = Reading(value: real, unit: string, minValue: real, maxValue: real)

  /** The plotting area inside the rectangle, after the four margins. */
  datatype Area = Area(left: real, bottom: real, width: real, height: real)

  function PlotArea(r: Rect, labelMargin: real, rightMargin: real, topMargin: real, bottomMargin: real): (a: Area)
    ensures a.left == r.xMin + labelMargin && a.bottom == r.yMin + bottomMargin
    ensures a.left + a.width == r.xMax() - rightMargin && a.bottom + a.height == r.yMax() - topMargin
  {
    Area(r.xMin + labelMargin, r.yMin + bottomMargin,
         r.width - labelMargin - rightMargin, r.height - topMargin - bottomMargin)
  }

  function Times(a: real, b: real): real
  {
    a * b
  }

  /** One data point in the plotting area: x relative to the buffer's own first and
      last x, y relative to the declared [minY, maxY]; neither is clamped. */
  function Project(p: Vector2, a: Area, x0: real, xn: real, minY: real, maxY: real): Vector2
  {
    Vector2(a.left + Times((p.x - x0) / Max(0.0001, xn - x0), a.width),
            a.bottom + Times((p.y - minY) / Max(0.0001, maxY - minY), a.height))
  }

  /** The first point lands on the left edge and, when the x span is at least 0.0001,
      the last on the right edge; a value at minY lands on the bottom edge and one at
      maxY on the top edge, and a value above maxY lands above the area. */
  lemma ProjectEdges(a: Area, x0: real, xn: real, y: real, minY: real, maxY: real)
    ensures Project(Vector2(x0, y), a, x0, xn, minY, maxY).x == a.left
    ensures xn - x0 >= 0.0001 ==> Project(Vector2(xn, y), a, x0, xn, minY, maxY).x == a.left + a.width
    ensures Project(Vector2(x0, minY), a, x0, xn, minY, maxY).y == a.bottom
    ensures maxY - minY >= 0.0001 ==> Project(Vector2(x0, maxY), a, x0, xn, minY, maxY).y == a.bottom + a.height
    ensures maxY - minY >= 0.0001 && a.height > 0.0 && y > maxY ==>
      Project(Vector2(x0, y), a, x0, xn, minY, maxY).y > a.bottom + a.height
  {
    Scale(x0 - x0, Max(0.0001, xn - x0), a.width);
    Scale(xn - x0, Max(0.0001, xn - x0), a.width);
    Scale(minY - minY, Max(0.0001, maxY - minY), a.height);
    Scale(maxY - minY, Max(0.0001, maxY - minY), a.height);
    Scale(y - minY, Max(0.0001, maxY - minY), a.height);
  }

  /** Scaling `n / d` of a length `w`: nothing for 0, all of it for `d`, and more
      than all of a positive length for more than `d`. */
  lemma Scale(n: real, d: real, w: real)
    requires d > 0.0
    ensures n == 0.0 ==> Times(n / d, w) == 0.0
    ensures n == d ==> Times(n / d, w) == w
    ensures n > d && w > 0.0 ==> Times(n / d, w) > w
  {
    if n > d && w > 0.0 {
      assert n / d > 1.0 by {
        assert n / d * d == n;
      }
      assert (n / d) * w - w == (n / d - 1.0) * w;
      MulNonNegative(n / d - 1.0, w);
      assert (n / d - 1.0) * w != 0.0;
    }
  }

  /** `ui` holds one point per data point, in order, each projected with the data's
      own first and last x. */
  predicate ProjectionOf(ui: seq<Vector2>, points: seq<Vector2>, a: Area, minY: real, maxY: real)
    requires |points| >= 2
  {
    |ui| == |points| && forall k :: 0 <= k < |points| ==> ProjectedAt(ui, points, a, minY, maxY, k)
  }

  predicate ProjectedAt(ui: seq<Vector2>, points: seq<Vector2>, a: Area, minY: real, maxY: real, k: int)
    requires |points| >= 2 && 0 <= k < |points| && |ui| == |points|
  {
    ui[k] == Project(points[k], a, points[0].x, points[|points| - 1].x, minY, maxY)
  }

  /** The projection loop of `UpdateLine`. */
  method ProjectLine(points: seq<Vector2>, a: Area, minY: real, maxY: real) returns (ui: seq<Vector2>)
    requires |points| >= 2
    ensures ProjectionOf(ui, points, a, minY, maxY)
  {
    var minX := points[0].x;
    var maxX := points[|points| - 1].x;
    ui := [];
    var k := 0;
    while k < |points|
      invariant 0 <= k <= |points| && |ui| == k
      invariant forall j :: 0 <= j < k ==> ui[j] == Project(points[j], a, minX, maxX, minY, maxY)
    {
      ui := ui + [Project(points[k], a, minX, maxX, minY, maxY)];
      k := k + 1;
    }
    forall j | 0 <= j < |points|
      ensures ProjectedAt(ui, points, a, minY, maxY, j)
    {
    }
  }

  /** Value of y tick i of `count`: evenly spread from minValue to maxValue,
      whatever the data. */
  function YTickValue(minValue: real, maxValue: real, count: int, i: int): real
    requires count >= 2
  {
    CurveAt(minValue, maxValue, count, i)
  }

  /** The bottom tick shows minValue, the top one maxValue, and the ticks run in
      order between them. */
  lemma YTicks(minValue: real, maxValue: real, count: int, i: int, j: int)
    requires count >= 2 && 0 <= i <= j < count
    ensures YTickValue(minValue, maxValue, count, 0) == minValue
    ensures YTickValue(minValue, maxValue, count, count - 1) == maxValue
    ensures minValue <= maxValue ==>
      minValue <= YTickValue(minValue, maxValue, count, i) <= YTickValue(minValue, maxValue, count, j) <= maxValue
  {
    var sp := Span(minValue, maxValue);
    CurveEnds(sp, count);
    CurveMonotone(sp, count, i, j);
    assert BaseCurve(sp, count)[i] == YTickValue(minValue, maxValue, count, i);
    assert BaseCurve(sp, count)[j] == YTickValue(minValue, maxValue, count, j);
  }

  /** A y label: the value without decimals, followed by the unit when units are
      shown and the unit is not empty. */
  function YLabel(value: real, unit: string, showUnits: bool): (r: string)
    ensures showUnits && unit != [] ==> |r| > |unit| && r[|r| - |unit|..] == unit && NumberChars(r[..|r| - |unit|])
    ensures !(showUnits && unit != []) ==> NumberChars(r) && '.' !in r
  {
    var digits := FormatFixed(value, 0);
    if showUnits && unit != [] then
      var r := digits + unit;
      assert r[..|r| - |unit|] == digits;
      r
    else
      assert '.' !in digits by { FormatFixedWhole(value); }
      digits
  }

  /** Formatting without decimals prints no decimal point. */
  lemma FormatFixedWhole(x: real)
    ensures '.' !in FormatFixed(x, 0)
  {
    var scaled := RoundHalfUp(Shift((if x < 0.0 then -x else x), 0));
    assert FixedDigits(scaled, 0) == NatToString(scaled);
  }

  /** An x label for a time in seconds: under a minute `"<seconds>s"`, otherwise
      `m:ss` with whole minutes and two-digit whole seconds. */
  function XLabel(t: real): string
  {
    if t < 60.0 then FormatFixed(t, 0) + "s"
    else NatToString(Minutes(t)) + ":" + PadZeros(NatToString(Seconds(t)), 2)
  }

  /** Under a minute the label is a number followed by 's'. */
  lemma XLabelSeconds(t: real)
    requires t < 60.0
    ensures var r := XLabel(t); |r| >= 2 && r[|r| - 1] == 's' && NumberChars(r[..|r| - 1])
  {
    var d := FormatFixed(t, 0);
    var r := d + "s";
    assert r[..|r| - 1] == d;
  }

  /** From a minute on the label is digits, a ':' and two more digits. */
  lemma XLabelMinutes(t: real)
    requires t >= 60.0
    ensures var r := XLabel(t);
      |r| >= 4 && r[|r| - 3] == ':' && AllDigits(r[|r| - 2..]) && AllDigits(r[..|r| - 3])
  {
    var m := NatToString(Minutes(t));
    var s := PadZeros(NatToString(Seconds(t)), 2);
    NatToStringLength(Seconds(t), 2);
    var r := m + ":" + s;
    assert r[|r| - 2..] == s && r[..|r| - 3] == m;
  }

  /** Whole minutes of a time of at least a minute. */
  function Minutes(t: real): (m: nat)
    requires t >= 60.0
    ensures m >= 1 && m as real * 60.0 <= t < (m + 1) as real * 60.0
  {
    var q := t / 60.0;
    assert q * 60.0 == t;
    FloorToInt(q)
  }

  /** Whole seconds within the minute: the floor of the time modulo 60. */
  function Seconds(t: real): (s: nat)
    requires t >= 60.0
    ensures s < 60 && Minutes(t) * 60 + s == t.Floor
  {
    var rest := t - Minutes(t) as real * 60.0;
    var s := FloorToInt(rest);
    assert (Minutes(t) * 60 + s) as real <= t < (Minutes(t) * 60 + s) as real + 1.0;
    s
  }

  /** Reading an m:ss label back gives the whole seconds of the time. */
  lemma XLabelClock(t: real)
    requires t >= 60.0
    ensures var r := XLabel(t);
      |r| >= 4 && AllDigits(r[..|r| - 3]) && AllDigits(r[|r| - 2..])
      && ParseNat(r[..|r| - 3]) * 60 + ParseNat(r[|r| - 2..]) == t.Floor
  {
    XLabelMinutes(t);
    var r := XLabel(t);
    var m := NatToString(Minutes(t));
    var s := PadZeros(NatToString(Seconds(t)), 2);
    NatToStringLength(Seconds(t), 2);
    assert r == m + ":" + s;
    assert r[..|r| - 3] == m && r[|r| - 2..] == s;
    ParseNatToString(Minutes(t));
    ParsePadZeros(Seconds(t), 2);
  }

  /** Decimals of the current-value text: one for percentages or a 0-100 scale,
      otherwise two. */
  function ValueDecimals(unit: string, maxValue: real): nat
  {
    if unit == "%" || maxValue == 100.0 then 1 else 2
  }

  /** The current-value text: the newest value with `ValueDecimals` decimals,
      followed by the unit. */
  function ValueText(v: real, unit: string, maxValue: real): string
  {
    FormatFixed(v, ValueDecimals(unit, maxValue)) + unit
  }

  /** The value text ends in the unit, right after a '.' and exactly one decimal
      (percentages and 0-100 scales) or two (anything else). */
  lemma ValueTextShape(v: real, unit: string, maxValue: real)
    ensures var r := ValueText(v, unit, maxValue);
      var d := if unit == "%" || maxValue == 100.0 then 1 else 2;
      |r| >= |unit| + d + 2 && r[|r| - |unit|..] == unit
      && r[|r| - |unit| - d - 1] == '.' && AllDigits(r[|r| - |unit| - d..|r| - |unit|])
  {
    var d := ValueDecimals(unit, maxValue);
    var digits := FormatFixed(v, d);
    var r := digits + unit;
    assert r[..|digits|] == digits;
    assert r[|r| - |unit| - d..|r| - |unit|] == digits[|digits| - d..];
  }

  /** The status band of the newest value: its position in [minValue, maxValue]
      below 0.33 is red, below 0.66 yellow, otherwise green. */
  function StatusBand(minValue: real, maxValue: real, v: real): (b: Band)
    ensures minValue < maxValue && v <= minValue ==> b == Low
    ensures minValue < maxValue && maxValue <= v ==> b == High
    ensures minValue == maxValue ==> b == Low
  {
    var t := InverseLerp(minValue, maxValue, v);
    if t < 0.33 then Low else if t < 0.66 then Mid else High
  }

  /** A higher value never gets a worse band. */
  lemma StatusBandMonotone(minValue: real, maxValue: real, v1: real, v2: real)
    requires minValue <= maxValue && v1 <= v2
    ensures Rank(StatusBand(minValue, maxValue, v1)) <= Rank(StatusBand(minValue, maxValue, v2))
  {
    var t1 := InverseLerp(minValue, maxValue, v1);
    var t2 := InverseLerp(minValue, maxValue, v2);
    if minValue < maxValue {
      InverseLerpMonotone(minValue, maxValue, v1, v2);
    }
    assert t1 <= t2;
  }

  lemma InverseLerpMonotone(a: real, b: real, v1: real, v2: real)
    requires a < b && v1 <= v2
    ensures InverseLerp(a, b, v1) <= InverseLerp(a, b, v2)
  {
    var d := b - a;
    var q1 := (v1 - a) / d;
    var q2 := (v2 - a) / d;
    assert q1 * d == v1 - a && q2 * d == v2 - a;
    assert q1 <= q2;
  }

  /** The title: the custom title, else the source chart's title, else "Chart";
      never empty. */
  function DisplayTitle(customTitle: string, chartTitle: Option<string>): (r: string)
    ensures r != []
    ensures customTitle != [] ==> r == customTitle
    ensures customTitle == [] && chartTitle.Some? && chartTitle.value != [] ==> r == chartTitle.value
    ensures customTitle == [] && !(chartTitle.Some? && chartTitle.value != []) ==> r == "Chart"
  {
    if customTitle != [] then customTitle
    else if chartTitle.Some? && chartTitle.value != [] then chartTitle.value
    else "Chart"
  }

  /** The metric a title names: the first of ACCURACY, VELOCITY, FATIGUE, CONFIDENCE
      it contains, else its first word when the title has a space after the first
      character, else the whole title; "Value" without a title. */
  function MetricName(chartTitle: Option<string>): (r: string)
    ensures r != []
    ensures !(chartTitle.Some? && chartTitle.value != []) ==> r == "Value"
    ensures chartTitle.Some? && Contains(chartTitle.value, "ACCURACY") ==> r == "Accuracy"
    ensures (chartTitle.Some? && chartTitle.value != [] && !Contains(chartTitle.value, "ACCURACY")
             && Contains(chartTitle.value, "VELOCITY")) ==> r == "Velocity"
    ensures (chartTitle.Some? && chartTitle.value != [] && !Contains(chartTitle.value, "ACCURACY")
             && !Contains(chartTitle.value, "VELOCITY") && Contains(chartTitle.value, "FATIGUE")) ==> r == "Fatigue"
    ensures (chartTitle.Some? && chartTitle.value != [] && !Contains(chartTitle.value, "ACCURACY")
             && !Contains(chartTitle.value, "VELOCITY") && !Contains(chartTitle.value, "FATIGUE")
             && Contains(chartTitle.value, "CONFIDENCE")) ==> r == "Confidence"
    ensures (chartTitle.Some? && chartTitle.value != [] && !Contains(chartTitle.value, "ACCURACY")
             && !Contains(chartTitle.value, "VELOCITY") && !Contains(chartTitle.value, "FATIGUE")
             && !Contains(chartTitle.value, "CONFIDENCE")) ==>
      var title := chartTitle.value;
      (r == title && (' ' !in title || title[0] == ' '))
      || (|r| < |title| && r == title[..|r|] && title[|r|] == ' ' && ' ' !in r)
  {
    if !(chartTitle.Some? && chartTitle.value != []) then "Value"
    else
      var title := chartTitle.value;
      if Contains(title, "ACCURACY") then "Accuracy"
      else if Contains(title, "VELOCITY") then "Velocity"
      else if Contains(title, "FATIGUE") then "Fatigue"
      else if Contains(title, "CONFIDENCE") then "Confidence"
      else
        var space := IndexOf(title, ' ');
        if space > 0 then title[..space] else title
  }

  /** The y-axis title: the metric name, followed by the unit in parentheses when
      there is one. */
  function AxisTitle(chartTitle: string, unit: string): (r: string)
    ensures unit == [] ==> r == MetricName(Some(chartTitle))
    ensures unit != [] ==> |r| == |MetricName(Some(chartTitle))| + |unit| + 3
                           && r[..|MetricName(Some(chartTitle))|] == MetricName(Some(chartTitle))
                           && r[|MetricName(Some(chartTitle))|..|MetricName(Some(chartTitle))| + 2] == " ("
                           && r[|r| - |unit| - 1..] == unit + ")"
  {
    var name := MetricName(Some(chartTitle));
    if unit != [] then name + " (" + unit + ")" else name
  }

  /** The texts of `count` y labels (none when there are fewer than two). */
  function YLabels(count: int, minValue: real, maxValue: real, unit: string, showUnits: bool): seq<string>
  {
    if count < 2 then []
    else seq(count, i requires 0 <= i < count => YLabel(YTickValue(minValue, maxValue, count, i), unit, showUnits))
  }

  /** The texts of `count` x labels over the times from x0 to xn. */
  function XLabels(count: int, x0: real, xn: real): seq<string>
  {
    if count < 2 then []
    else seq(count, i requires 0 <= i < count => XLabel(CurveAt(x0, xn, count, i)))
  }

  /** The first `i` values of `f`, one appended per step as a label loop does. */
  function Run<T>(f: int -> T, i: nat): seq<T>
  {
    if i == 0 then [] else Run(f, i - 1) + [f(i - 1)]
  }

  /** A run of `i` values holds `f(0)` .. `f(i - 1)` in order. */
  lemma {:induction false} RunAt<T>(f: int -> T, i: nat)
    ensures |Run(f, i)| == i && forall j :: 0 <= j < i ==> Run(f, i)[j] == f(j)
  {
    if i > 0 {
      RunAt(f, i - 1);
    }
  }

  /** The loop that fills `n` label slots: slot `i` gets `f(i)`, in order. */
  method Tabulate<T>(f: int -> T, n: int) returns (r: seq<T>)
    requires n >= 0
    ensures r == Run(f, n)
  {
    r := [];
    var i := 0;
    while i < n
      invariant 0 <= i <= n && r == Run(f, i)
    {
      r := r + [f(i)];
      i := i + 1;
    }
  }

  /** Label `j` of `count` y labels ("" outside the ticks). */
  function YLabelOf(count: int, minValue: real, maxValue: real, unit: string, showUnits: bool): int -> string
  {
    j => if count >= 2 && 0 <= j < count then YLabel(YTickValue(minValue, maxValue, count, j), unit, showUnits) else ""
  }

  /** The y labels appended one by one are the labels of `YLabels`. */
  lemma YLabelsRun(count: int, minValue: real, maxValue: real, unit: string, showUnits: bool)
    requires count == 0 || count >= 2
    ensures Run(YLabelOf(count, minValue, maxValue, unit, showUnits), count)
      == YLabels(count, minValue, maxValue, unit, showUnits)
  {
    RunAt(YLabelOf(count, minValue, maxValue, unit, showUnits), count);
  }

  /** The y-label loop of `UpdateAxisLabels`. */
  method UpdateYLabels(count: int, minValue: real, maxValue: real, unit: string, showUnits: bool)
    returns (labels: seq<string>)
    requires count == 0 || count >= 2
    ensures labels == YLabels(count, minValue, maxValue, unit, showUnits) && |labels| == count
  {
    labels := Tabulate(YLabelOf(count, minValue, maxValue, unit, showUnits), count);
    YLabelsRun(count, minValue, maxValue, unit, showUnits);
  }

  /** Label `j` of `count` x labels over the times from x0 to xn ("" outside them). */
  function XLabelOf(count: int, x0: real, xn: real): int -> string
  {
    j => if count >= 2 && 0 <= j < count then XLabel(CurveAt(x0, xn, count, j)) else ""
  }

  /** The x labels appended one by one are the labels of `XLabels`. */
  lemma XLabelsRun(count: int, x0: real, xn: real)
    requires count == 0 || count >= 2
    ensures Run(XLabelOf(count, x0, xn), count) == XLabels(count, x0, xn)
  {
    RunAt(XLabelOf(count, x0, xn), count);
  }

  /** The x-label loop of `UpdateAxisLabels`. */
  method UpdateXLabels(count: int, x0: real, xn: real) returns (labels: seq<string>)
    requires count == 0 || count >= 2
    ensures labels == XLabels(count, x0, xn) && |labels| == count
  {
    labels := Tabulate(XLabelOf(count, x0, xn), count);
    XLabelsRun(count, x0, xn);
  }

  /** One `LateUpdate` of the throttle: the next frame counter, and whether the chart
      refreshes on this frame. */
  function Tick(counter: int, interval: int): (int, bool)
  {
    if counter + 1 < interval then (counter + 1, false) else (0, true)
  }

  /** The counter and the number of refreshes after `n` frames from a fresh view. */
  function RunTicks(n: nat, interval: int): (int, nat)
  {
    if n == 0 then (0, 0)
    else
      var (c, f) := RunTicks(n - 1, interval);
      var (c2, fire) := Tick(c, interval);
      (c2, if fire then f + 1 else f)
  }

  /** The chart refreshes on every `interval`-th frame: after n frames the counter is
      n mod interval and there have been n div interval refreshes. */
  lemma {:induction false} RunTicksCount(n: nat, interval: int)
    requires interval >= 1
    ensures RunTicks(n, interval) == (n % interval, n / interval)
  {
    if n > 0 {
      RunTicksCount(n - 1, interval);
      RunTicksStep(n, interval, (n - 1) / interval, (n - 1) % interval);
    }
  }

  /** One more frame after `n - 1` frames that left counter `r` and `q` refreshes,
      where `n - 1` is `q * interval + r`. */
  lemma RunTicksStep(n: nat, interval: int, q: int, r: int)
    requires interval >= 1 && n > 0 && 0 <= r < interval && n - 1 == q * interval + r
    requires RunTicks(n - 1, interval) == (r, q)
    ensures RunTicks(n, interval) == (n % interval, n / interval)
  {
    if r + 1 < interval {
      assert RunTicks(n, interval) == (r + 1, q);
      DivModUnique(n, interval, q, r + 1);
    } else {
      assert RunTicks(n, interval) == (0, q + 1);
      assert n == (q + 1) * interval by { assert (q + 1) * interval == q * interval + interval; }
      DivModUnique(n, interval, q + 1, 0);
    }
  }

  class InformativeChartUI {
    const sourceChart: EnhancedLineChart?
    var hasLineRenderer: bool
    /** The line renderer's points; None stands for null. */
    var linePoints: Option<seq<Vector2>>
    /** The view's own rectangle. */
    var rect: Rect
    var labelMargin: real
    var topMargin: real
    var bottomMargin: real
    var rightMargin: real
    var customTitle: string
    var showTitle: bool
    var showCurrentValue: bool
    var showAxisLabels: bool
    var showUnitsOnAxis: bool
    var numberOfAxisLabels: int
    var updateInterval: int
    var frameCounter: int
    var uiBuilt: bool
    /** The title text, once a title has been built. */
    var title: Option<string>
    var hasValueText: bool
    var yLabels: seq<string>
    var xLabels: seq<string>
    var yAxisTitle: string
    /** The newest value on display, with the unit and scale it is formatted with;
        its text is `ValueLabel()`. */
    var reading: Option<Reading>
    /** Number of refreshes that drew a line from the data. */
    var refreshes: nat

    /** The inspector ranges hold, the frame counter stays below the interval, and
        both axes have the same number of labels: none, or one per configured label. */
    ghost predicate Valid()
      reads this
    {
      1 <= updateInterval <= 10 && 0 <= frameCounter < updateInterval
      && 3 <= numberOfAxisLabels <= 10
      && |yLabels| == |xLabels| && (|yLabels| == 0 || |yLabels| == numberOfAxisLabels)
    }

    constructor (sourceChart: EnhancedLineChart?, hasLineRenderer: bool, rect: Rect)
      ensures Valid() && this.sourceChart == sourceChart && this.hasLineRenderer == hasLineRenderer
      ensures this.rect == rect && linePoints == None && !uiBuilt && frameCounter == 0
      ensures updateInterval == 2 && numberOfAxisLabels == 5 && customTitle == []
      ensures labelMargin == 65.0 && topMargin == 45.0 && bottomMargin == 35.0 && rightMargin == 15.0
      ensures showTitle && showCurrentValue && showAxisLabels && showUnitsOnAxis
      ensures yLabels == [] && xLabels == [] && refreshes == 0
    {
      this.sourceChart := sourceChart;
      this.hasLineRenderer := hasLineRenderer;
      this.rect := rect;
      linePoints := None;
      labelMargin := 65.0;
      topMargin := 45.0;
      bottomMargin := 35.0;
      rightMargin := 15.0;
      customTitle := [];
      showTitle := true;
      showCurrentValue := true;
      showAxisLabels := true;
      showUnitsOnAxis := true;
      numberOfAxisLabels := 5;
      updateInterval := 2;
      frameCounter := 0;
      uiBuilt := false;
      title := None;
      hasValueText := false;
      yLabels := [];
      xLabels := [];
      yAxisTitle := [];
      reading := None;
      refreshes := 0;
    }

    /** Builds the title, value display and axis labels once, as configured. */
    method BuildUI()
      requires Valid()
      modifies this
      ensures Valid() && uiBuilt
      ensures old(uiBuilt) ==> title == old(title) && hasValueText == old(hasValueText) && yLabels == old(yLabels)
      ensures !old(uiBuilt) ==>
        (title == if showTitle then Some(DisplayTitle(customTitle, ChartTitle())) else old(title))
        && hasValueText == (old(hasValueText) || showCurrentValue)
        && |yLabels| == if showAxisLabels then numberOfAxisLabels else |old(yLabels)|
      ensures frameCounter == old(frameCounter) && linePoints == old(linePoints) && refreshes == old(refreshes)
      ensures updateInterval == old(updateInterval)
      ensures hasLineRenderer == old(hasLineRenderer) && showAxisLabels == old(showAxisLabels)
      ensures numberOfAxisLabels == old(numberOfAxisLabels)
      ensures old(uiBuilt) ==> unchanged(this)
    {
      if uiBuilt {
        return;
      }
      if showTitle {
        title := Some(DisplayTitle(customTitle, ChartTitle()));
      }
      if showCurrentValue {
        hasValueText := true;
      }
      if showAxisLabels {
        yLabels := seq(numberOfAxisLabels, _ => []);
        xLabels := seq(numberOfAxisLabels, _ => []);
      }
      uiBuilt := true;
    }

    /** The current-value text on display, if any. */
    function ValueLabel(): Option<string>
      reads this
    {
      match reading
      case None => None
      case Some(m) => Some(ValueText(m.value, m.unit, m.maxValue))
    }

    /** The status band the value text is coloured with, if a value is on display. */
    function ValueBand(): Option<Band>
      reads this
    {
      match reading
      case None => None
      case Some(m) => Some(StatusBand(m.minValue, m.maxValue, m.value))
    }

    /** The source chart's title, if there is a source chart. */
    function ChartTitle(): Option<string>
      reads this, sourceChart
    {
      if sourceChart == null then None else Some(sourceChart.chartTitle)
    }

    /** What a refresh from `points` in [minY, maxY] with `count` axis labels leaves on
        display: the line is the projection of the points into the plotting area, the
        y labels run over the declared range, the x labels over the data's time
        span, the axis title names the metric and its unit, and the newest value is
        the reading on display when there is a value text. */
    ghost predicate Drawn(points: seq<Vector2>, minY: real, maxY: real, unit: string, chartTitle: string, count: int)
      reads this
    {
      |points| >= 2 && linePoints.Some?
      && ProjectionOf(linePoints.value, points, PlotArea(rect, labelMargin, rightMargin, topMargin, bottomMargin), minY, maxY)
      && yLabels == YLabels(count, minY, maxY, unit, showUnitsOnAxis)
      && xLabels == XLabels(count, points[0].x, points[|points| - 1].x)
      && yAxisTitle == AxisTitle(chartTitle, unit)
      && (hasValueText ==> reading == Some(Reading(points[|points| - 1].y, unit, minY, maxY)))
    }

    /** Redraws from the source chart. Without a chart or a line renderer nothing
        changes; with fewer than two points the line is cleared and nothing else
        changes; otherwise the line is the projection of the points into the plotting
        area, the axis labels and title follow the declared range and the data's time
        span, and the newest value is the reading on display, which sets the value
        text and its band. */
    method UpdateChart()
      requires Valid()
      modifies this
      ensures Valid() && hasLineRenderer == old(hasLineRenderer)
      ensures frameCounter == old(frameCounter) && uiBuilt == old(uiBuilt) && title == old(title)
      ensures updateInterval == old(updateInterval)
      ensures !(sourceChart != null && hasLineRenderer && |sourceChart.Points| >= 2) ==>
        yLabels == old(yLabels) && xLabels == old(xLabels) && reading == old(reading)
        && refreshes == old(refreshes)
      ensures sourceChart == null || !hasLineRenderer ==> unchanged(this)
      ensures sourceChart != null && hasLineRenderer && |sourceChart.Points| < 2 ==> linePoints == None
      ensures sourceChart != null && hasLineRenderer && |sourceChart.Points| >= 2 ==>
        Drawn(sourceChart.Points, sourceChart.minValue, sourceChart.maxValue, sourceChart.unit,
              sourceChart.chartTitle, |old(yLabels)|)
        && refreshes == old(refreshes) + 1
    {
      if sourceChart == null || !hasLineRenderer {
        return;
      }
      var points := sourceChart.Points;
      if |points| < 2 {
        linePoints := None;
        return;
      }
      Redraw(points, sourceChart.minValue, sourceChart.maxValue, sourceChart.unit, sourceChart.chartTitle);
    }

    /** The plotting rectangle and margins, the display switches and the throttle are
        as they were. */
    twostate predicate SettingsKept()
      reads this
    {
      rect == old(rect) && labelMargin == old(labelMargin) && rightMargin == old(rightMargin)
      && topMargin == old(topMargin) && bottomMargin == old(bottomMargin)
      && showUnitsOnAxis == old(showUnitsOnAxis) && hasValueText == old(hasValueText)
      && hasLineRenderer == old(hasLineRenderer) && numberOfAxisLabels == old(numberOfAxisLabels)
      && frameCounter == old(frameCounter) && uiBuilt == old(uiBuilt) && title == old(title)
      && updateInterval == old(updateInterval)
    }

    /** Every field but the frame counter is as it was. */
    twostate predicate AllButCounterKept()
      reads this
    {
      hasLineRenderer == old(hasLineRenderer) && linePoints == old(linePoints) && rect == old(rect)
      && labelMargin == old(labelMargin) && topMargin == old(topMargin)
      && bottomMargin == old(bottomMargin) && rightMargin == old(rightMargin)
      && customTitle == old(customTitle) && showTitle == old(showTitle)
      && showCurrentValue == old(showCurrentValue) && showAxisLabels == old(showAxisLabels)
      && showUnitsOnAxis == old(showUnitsOnAxis) && numberOfAxisLabels == old(numberOfAxisLabels)
      && updateInterval == old(updateInterval) && uiBuilt == old(uiBuilt) && title == old(title)
      && hasValueText == old(hasValueText) && yLabels == old(yLabels) && xLabels == old(xLabels)
      && yAxisTitle == old(yAxisTitle) && reading == old(reading) && refreshes == old(refreshes)
    }

    /** The refresh of `UpdateChart` from the source chart's points, range, unit and
        title. */
    method Redraw(points: seq<Vector2>, minY: real, maxY: real, unit: string, chartTitle: string)
      requires Valid() && |points| >= 2
      modifies this
      ensures Valid() && hasLineRenderer == old(hasLineRenderer)
      ensures frameCounter == old(frameCounter) && uiBuilt == old(uiBuilt) && title == old(title)
      ensures updateInterval == old(updateInterval)
      ensures Drawn(points, minY, maxY, unit, chartTitle, |old(yLabels)|)
      ensures !hasValueText ==> reading == old(reading)
      ensures refreshes == old(refreshes) + 1
    {
      DrawLine(points, minY, maxY);
      DrawLabels(points, minY, maxY, unit, chartTitle);
      refreshes := refreshes + 1;
    }

    /** The line of `UpdateLine`. */
    method DrawLine(points: seq<Vector2>, minY: real, maxY: real)
      requires |points| >= 2
      modifies this
      ensures linePoints.Some?
      ensures ProjectionOf(linePoints.value, points, PlotArea(rect, labelMargin, rightMargin, topMargin, bottomMargin), minY, maxY)
      ensures yLabels == old(yLabels) && xLabels == old(xLabels) && yAxisTitle == old(yAxisTitle)
      ensures reading == old(reading) && refreshes == old(refreshes) && SettingsKept()
    {
      var area := PlotArea(rect, labelMargin, rightMargin, topMargin, bottomMargin);
      var ui := ProjectLine(points, area, minY, maxY);
      linePoints := Some(ui);
    }

    /** The axis labels, axis title and current value of `UpdateAxisLabels`,
        `UpdateAxisTitles` and `UpdateCurrentValue`. */
    method DrawLabels(points: seq<Vector2>, minY: real, maxY: real, unit: string, chartTitle: string)
      requires Valid() && |points| >= 2
      modifies this
      ensures Valid()
      ensures yLabels == YLabels(|old(yLabels)|, minY, maxY, unit, showUnitsOnAxis)
      ensures xLabels == XLabels(|old(yLabels)|, points[0].x, points[|points| - 1].x)
      ensures yAxisTitle == AxisTitle(chartTitle, unit)
      ensures hasValueText ==> reading == Some(Reading(points[|points| - 1].y, unit, minY, maxY))
      ensures !hasValueText ==> reading == old(reading)
      ensures linePoints == old(linePoints) && refreshes == old(refreshes) && SettingsKept()
    {
      var count := |yLabels|;
      var ys := UpdateYLabels(count, minY, maxY, unit, showUnitsOnAxis);
      var xs := UpdateXLabels(count, points[0].x, points[|points| - 1].x);
      yLabels, xLabels, yAxisTitle := ys, xs, AxisTitle(chartTitle, unit);
      if hasValueText {
        var latest := points[|points| - 1].y;
        reading := Some(Reading(latest, unit, minY, maxY));
      }
    }

    /** One engine frame: the counter advances as `Tick` says, and on a refresh frame
        the UI is built if needed and the chart redrawn as `UpdateChart` says: with
        the labels `BuildUI` made, the line and labels are drawn from two or more
        points, and a line over fewer points is cleared. */
    method LateUpdate()
      requires Valid()
      modifies this
      ensures Valid() && frameCounter == Tick(old(frameCounter), updateInterval).0
      ensures !Tick(old(frameCounter), updateInterval).1 ==> AllButCounterKept()
      ensures Tick(old(frameCounter), updateInterval).1 ==> uiBuilt
      ensures Tick(old(frameCounter), updateInterval).1 && (sourceChart == null || !hasLineRenderer) ==>
        linePoints == old(linePoints) && refreshes == old(refreshes)
      ensures Tick(old(frameCounter), updateInterval).1 && sourceChart != null && hasLineRenderer
              && |sourceChart.Points| < 2 ==>
        linePoints == None && refreshes == old(refreshes)
      ensures Tick(old(frameCounter), updateInterval).1 && sourceChart != null && hasLineRenderer
              && |sourceChart.Points| >= 2 ==>
        var count := if !old(uiBuilt) && old(showAxisLabels) then old(numberOfAxisLabels) else |old(yLabels)|;
        Drawn(sourceChart.Points, sourceChart.minValue, sourceChart.maxValue, sourceChart.unit,
              sourceChart.chartTitle, count)
        && refreshes == old(refreshes) + 1
    {
      ghost var before := frameCounter;
      frameCounter := frameCounter + 1;
      if frameCounter < updateInterval {
        assert Tick(before, updateInterval) == (frameCounter, false);
        return;
      }
      frameCounter := 0;
      if !uiBuilt {
        BuildUI();
      }
      UpdateChart();
    }
  }
}
