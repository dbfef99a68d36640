/** A scalar chart series: values clamped into [minValue, maxValue] on entry, at most
    `maxDataPoints` of the newest kept, and each consecutive pair drawn as a segment
    inside the graphic's rectangle. */
module LineChart {
  import opened Unity
  import opened Buffers

  datatype Segment = Segment(from: Vector2, to: Vector2)

  /** The capacity `TrimIfNeeded` leaves: a non-positive one is repaired to 1. */
  function Repaired(cap: int): (r: int)
    ensures r >= 1 && (cap >= 1 ==> r == cap)
  {
    if cap <= 0 then 1 else cap
  }

  /** Horizontal step between consecutive points: the width over `n - 1` gaps. */
  function StepX(width: real, n: int): real
  {
    width / MaxInt(1, n - 1) as real
  }

  function Offset(step: real, i: int): real
  {
    step * i as real
  }

  /** The vertex of point `i` of `n` with value `v`: evenly spaced across the width,
      and the value's position in [minValue, maxValue] lerped over the height. */
  function Vertex(r: Rect, n: int, i: int, v: real, minValue: real, maxValue: real): (p: Vector2)
    ensures r.height >= 0.0 ==> r.yMin <= p.y <= r.yMax()
  {
    var range := Max(0.0001, maxValue - minValue);
    Vector2(r.xMin + Offset(StepX(r.width, n), i), Lerp(r.yMin, r.yMax(), (v - minValue) / range))
  }

  /** The first point sits on the left edge and, with two or more points, the last
      one on the right edge; with a positive width the points run left to right. */
  lemma VertexSpan(r: Rect, n: int, i: int, j: int, vi: real, vj: real, minValue: real, maxValue: real)
    requires n >= 2 && 0 <= i < j < n
    ensures Vertex(r, n, 0, vi, minValue, maxValue).x == r.xMin
    ensures Vertex(r, n, n - 1, vi, minValue, maxValue).x == r.xMax()
    ensures r.width > 0.0 ==> Vertex(r, n, i, vi, minValue, maxValue).x < Vertex(r, n, j, vj, minValue, maxValue).x
  {
    var step := StepX(r.width, n);
    assert step * (n - 1) as real == r.width;
    if r.width > 0.0 {
      assert step > 0.0;
      assert step * j as real - step * i as real == step * (j - i) as real;
      assert step * (j - i) as real > 0.0;
    }
  }

  class LineChartRenderer {
    var maxDataPoints: int
    var minValue: real
    var maxValue: real
    var points: seq<real>

    /** Once any operation has repaired the capacity, the series fits it; a series
        whose capacity was never repaired is empty. */
    ghost predicate Valid()
      reads this
    {
      (maxDataPoints >= 1 ==> |points| <= maxDataPoints)
      && (maxDataPoints < 1 ==> points == [])
    }

    /** The serialised settings, whatever they hold; the series starts empty. */
    constructor (maxDataPoints: int, minValue: real, maxValue: real)
      ensures Valid() && points == []
      ensures this.maxDataPoints == maxDataPoints && this.minValue == minValue && this.maxValue == maxValue
    {
      this.maxDataPoints := maxDataPoints;
      this.minValue := minValue;
      this.maxValue := maxValue;
      points := [];
    }

    /** Stores at least 1 and evicts the oldest values beyond the new capacity. */
    method SetMaxDataPoints(value: int)
      requires Valid()
      modifies this
      ensures Valid() && maxDataPoints == MaxInt(1, value)
      ensures points == KeepLast(old(points), maxDataPoints)
      ensures minValue == old(minValue) && maxValue == old(maxValue)
    {
      maxDataPoints := MaxInt(1, value);
      TrimIfNeeded();
    }

    /** Changes the lower bound for later values only: stored values are kept. */
    method SetMinValue(value: real)
      modifies this
      ensures minValue == value && points == old(points)
      ensures maxValue == old(maxValue) && maxDataPoints == old(maxDataPoints)
    {
      minValue := value;
    }

    /** Changes the upper bound for later values only: stored values are kept. */
    method SetMaxValue(value: real)
      modifies this
      ensures maxValue == value && points == old(points)
      ensures minValue == old(minValue) && maxDataPoints == old(maxDataPoints)
    {
      maxValue := value;
    }

    /** Appends the value clamped into [minValue, maxValue] (compared with the lower
        bound first, as `Mathf.Clamp` does) and trims to the repaired capacity. */
    method AddPoint(value: real)
      requires Valid()
      modifies this
      ensures Valid() && maxDataPoints == Repaired(old(maxDataPoints))
      ensures points == KeepLast(old(points) + [Clamp(value, minValue, maxValue)], maxDataPoints)
      ensures 1 <= |points| <= maxDataPoints && points[|points| - 1] == Clamp(value, minValue, maxValue)
      ensures minValue <= maxValue ==> minValue <= points[|points| - 1] <= maxValue
      ensures minValue == old(minValue) && maxValue == old(maxValue)
    {
      var v := Clamp(value, minValue, maxValue);
      points := points + [v];
      TrimIfNeeded();
    }

    /** The same as `AddPoint`. */
    method AddDataPoint(value: real)
      requires Valid()
      modifies this
      ensures Valid() && maxDataPoints == Repaired(old(maxDataPoints))
      ensures points == KeepLast(old(points) + [Clamp(value, minValue, maxValue)], maxDataPoints)
      ensures minValue == old(minValue) && maxValue == old(maxValue)
    {
      AddPoint(value);
    }

    method Clear()
      modifies this
      ensures Valid() && points == []
      ensures maxDataPoints == old(maxDataPoints) && minValue == old(minValue) && maxValue == old(maxValue)
    {
      points := [];
    }

    method ClearDataPoints()
      modifies this
      ensures Valid() && points == []
      ensures maxDataPoints == old(maxDataPoints) && minValue == old(minValue) && maxValue == old(maxValue)
    {
      Clear();
    }

    method ClearData()
      modifies this
      ensures Valid() && points == []
      ensures maxDataPoints == old(maxDataPoints) && minValue == old(minValue) && maxValue == old(maxValue)
    {
      Clear();
    }

    /** Repairs a non-positive capacity to 1, then drops the oldest values beyond it. */
    method TrimIfNeeded()
      modifies this
      ensures Valid() && maxDataPoints == Repaired(old(maxDataPoints))
      ensures points == KeepLast(old(points), maxDataPoints)
      ensures minValue == old(minValue) && maxValue == old(maxValue)
    {
      if maxDataPoints <= 0 {
        maxDataPoints := 1;
      }
      var extra := |points| - maxDataPoints;
      if extra > 0 {
        points := points[extra..];
      }
    }

    /** The line segments the mesh is built from, in the graphic's rectangle `r`:
        none for fewer than two values, otherwise one from each value's vertex to the
        next one's. */
    method Segments(r: Rect) returns (segs: seq<Segment>)
      ensures |points| < 2 ==> segs == []
      ensures |points| >= 2 ==> |segs| == |points| - 1
      ensures forall k :: 0 <= k < |segs| ==>
        segs[k] == Segment(Vertex(r, |points|, k, points[k], minValue, maxValue),
                           Vertex(r, |points|, k + 1, points[k + 1], minValue, maxValue))
    {
      segs := [];
      if |points| < 2 {
        return;
      }
      var n := |points|;
      var prev := Vector2(0.0, 0.0);
      var hasPrev := false;
      var i := 0;
      while i < n
        invariant 0 <= i <= n
        invariant hasPrev == (i > 0) && |segs| == if i == 0 then 0 else i - 1
        invariant i > 0 ==> prev == Vertex(r, n, i - 1, points[i - 1], minValue, maxValue)
        invariant forall k :: 0 <= k < |segs| ==>
          segs[k] == Segment(Vertex(r, n, k, points[k], minValue, maxValue),
                             Vertex(r, n, k + 1, points[k + 1], minValue, maxValue))
      {
        var current := Vertex(r, n, i, points[i], minValue, maxValue);
        if hasPrev {
          segs := segs + [Segment(prev, current)];
        }
        prev := current;
        hasPrev := true;
        i := i + 1;
      }
    }
  }
}
