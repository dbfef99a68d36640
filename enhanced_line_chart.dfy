/** A chart buffer of (x, y) points that keeps at most `maxDataPoints` of the newest
    points and announces every change. */
module EnhancedChart {
  import opened Unity
  import opened Buffers

  class EnhancedLineChart {
    var chartTitle: string
    var minValue: real
    var maxValue: real
    var unit: string
    /** Capacity; zero or less disables trimming. */
    var maxDataPoints: int
    var Points: seq<Vector2>
    /** Number of `OnDataChanged` notifications raised so far. */
    var changes: nat
    /** Every point added since the last clear, oldest first. */
    ghost var history: seq<Vector2>

    /** The buffer is a suffix of the points added since the last clear: trimming
        never reorders, duplicates or invents a point. */
    ghost predicate Valid()
      reads this
    {
      |Points| <= |history| && Points == history[|history| - |Points|..]
    }

    /** The title, range, unit and capacity are as they were. */
    twostate predicate Labelled()
      reads this
    {
      chartTitle == old(chartTitle) && minValue == old(minValue) && maxValue == old(maxValue)
      && unit == old(unit) && maxDataPoints == old(maxDataPoints)
    }

    constructor ()
      ensures Valid() && chartTitle == "Chart" && minValue == 0.0 && maxValue == 100.0
      ensures unit == "%" && maxDataPoints == 300
      ensures Points == [] && history == [] && changes == 0
    {
      chartTitle := "Chart";
      minValue := 0.0;
      maxValue := 100.0;
      unit := "%";
      maxDataPoints := 300;
      Points := [];
      changes := 0;
      history := [];
    }

    /** Empties the buffer (keeping the capacity) and announces it once. */
    method ClearChart()
      modifies this
      ensures Valid() && Points == [] && history == [] && changes == old(changes) + 1
      ensures Labelled()
    {
      Points := [];
      history := [];
      changes := changes + 1;
    }

    /** Appends (x, y), trims the oldest points beyond the capacity and announces the
        change once; with a positive capacity the new point is the last one and the
        buffer fits the capacity. */
    method AddDataPoint(x: real, y: real)
      requires Valid()
      modifies this
      ensures Valid() && Labelled() && changes == old(changes) + 1
      ensures history == old(history) + [Vector2(x, y)]
      ensures Points == KeepLast(old(Points) + [Vector2(x, y)], maxDataPoints)
      ensures maxDataPoints > 0 ==> 1 <= |Points| <= maxDataPoints && Points[|Points| - 1] == Vector2(x, y)
    {
      SuffixAppend(Points, history, [Vector2(x, y)]);
      Points := Points + [Vector2(x, y)];
      history := history + [Vector2(x, y)];
      TrimIfNeeded();
      changes := changes + 1;
    }

    /** The `Vector2` overload of `AddDataPoint`. */
    method AddVector(p: Vector2)
      requires Valid()
      modifies this
      ensures Valid() && Labelled() && changes == old(changes) + 1
      ensures history == old(history) + [p]
      ensures Points == KeepLast(old(Points) + [p], maxDataPoints)
    {
      AddDataPoint(p.x, p.y);
    }

    /** Appends all of `pts`, trims once and announces the change once. */
    method AddDataPoints(pts: seq<Vector2>)
      requires Valid()
      modifies this
      ensures Valid() && Labelled() && changes == old(changes) + 1
      ensures history == old(history) + pts
      ensures Points == KeepLast(old(Points) + pts, maxDataPoints)
    {
      SuffixAppend(Points, history, pts);
      Points := Points + pts;
      history := history + pts;
      TrimIfNeeded();
      changes := changes + 1;
    }

    /** Drops `Count - maxDataPoints` points from the front when over a positive
        capacity. */
    method TrimIfNeeded()
      requires |Points| <= |history| && Points == history[|history| - |Points|..]
      modifies this
      ensures Valid() && Points == KeepLast(old(Points), maxDataPoints)
      ensures history == old(history) && Labelled() && changes == old(changes)
    {
      if maxDataPoints <= 0 {
        return;
      }
      if |Points| <= maxDataPoints {
        return;
      }
      var overflow := |Points| - maxDataPoints;
      Points := Points[overflow..];
    }
  }

  /** Appending the same points to a suffix and to the whole keeps it a suffix. */
  lemma SuffixAppend(points: seq<Vector2>, history: seq<Vector2>, added: seq<Vector2>)
    requires |points| <= |history| && points == history[|history| - |points|..]
    ensures |points + added| <= |history + added|
    ensures points + added == (history + added)[|history + added| - |points + added|..]
  {
    var h := history + added;
    var p := points + added;
    forall i | 0 <= i < |p|
      ensures p[i] == h[|h| - |p| + i]
    {
      if i < |points| {
        assert p[i] == history[|history| - |points| + i];
      }
    }
  }

  /** While the capacity stays fixed, the buffer is exactly the last `cap` points
      added since the last clear, however the additions were batched. */
  lemma BufferIsNewestHistory(points: seq<Vector2>, added: seq<Vector2>, history: seq<Vector2>, cap: int)
    requires points == KeepLast(history, cap)
    ensures KeepLast(points + added, cap) == KeepLast(history + added, cap)
  {
    KeepLastAppend(history, added, cap);
  }
}
