/** The chart feeder: while the simulation plays, each tick pushes the bus's
    accuracy, velocity and fatigue (never confidence) into three chart buffers, all
    at x = elapsed seconds. */
module Feeder {
  import opened Unity
  import opened Buffers
  import opened States
  import opened Metrics
  import opened EnhancedChart

  /** The value pushed for a metric: divided by `scale` when normalising, raw
      otherwise. */
  function Pushed(v: real, normalize01: bool, scale: real): (r: real)
    requires normalize01 ==> scale != 0.0
    ensures !normalize01 ==> r == v
    ensures normalize01 ==> r * scale == v
  {
    if normalize01 then v / scale else v
  }

  /** The three points one feed tick pushes, for the accuracy, velocity and fatigue
      charts in that order. */
  function FeedPoints(m: Snapshot, normalize01: bool, velocityMax: real): (ps: seq<Vector2>)
    requires normalize01 ==> velocityMax != 0.0
    ensures |ps| == 3 && ps[0].x == ps[1].x == ps[2].x == m.elapsedSeconds
    ensures !normalize01 ==> ps[0].y == m.accuracy && ps[1].y == m.velocity && ps[2].y == m.fatigue
    ensures normalize01 ==> ps[0].y * 100.0 == m.accuracy && ps[1].y * velocityMax == m.velocity
                            && ps[2].y * 100.0 == m.fatigue
  {
    [Vector2(m.elapsedSeconds, Pushed(m.accuracy, normalize01, 100.0)),
     Vector2(m.elapsedSeconds, Pushed(m.velocity, normalize01, velocityMax)),
     Vector2(m.elapsedSeconds, Pushed(m.fatigue, normalize01, 100.0))]
  }

  class ChartFeederUI {
    const accuracyChart: EnhancedLineChart?
    const velocityChart: EnhancedLineChart?
    const fatigueChart: EnhancedLineChart?
    const metricsBus: MetricsBus?
    const stateProvider: SimulationStateProvider?
    var feedHz: real
    var normalize01: bool
    var velocityMax: real
    /** Whether a feed loop handle is held. */
    var feeding: bool
    /** Number of feed loops started so far. */
    var started: nat

    /** Every wired chart is a valid buffer of its own. */
    ghost predicate ChartsValid()
      reads this, accuracyChart, velocityChart, fatigueChart
    {
      (accuracyChart != null ==> accuracyChart.Valid())
      && (velocityChart != null ==> velocityChart.Valid())
      && (fatigueChart != null ==> fatigueChart.Valid())
    }

    constructor (accuracyChart: EnhancedLineChart?, velocityChart: EnhancedLineChart?,
                 fatigueChart: EnhancedLineChart?, metricsBus: MetricsBus?,
                 stateProvider: SimulationStateProvider?)
      ensures this.accuracyChart == accuracyChart && this.velocityChart == velocityChart
      ensures this.fatigueChart == fatigueChart && this.metricsBus == metricsBus
      ensures this.stateProvider == stateProvider
      ensures feedHz == 30.0 && !normalize01 && velocityMax == 2.0 && !feeding && started == 0
    {
      this.accuracyChart := accuracyChart;
      this.velocityChart := velocityChart;
      this.fatigueChart := fatigueChart;
      this.metricsBus := metricsBus;
      this.stateProvider := stateProvider;
      feedHz := 30.0;
      normalize01 := false;
      velocityMax := 2.0;
      feeding := false;
      started := 0;
    }

    /** Starts a feed loop unless one is already held. */
    method StartFeeding()
      modifies this
      ensures feeding
      ensures started == if old(feeding) then old(started) else old(started) + 1
    {
      if !feeding {
        feeding := true;
        started := started + 1;
      }
    }

    /** Stops the held feed loop, if any, and drops the handle. */
    method StopFeeding()
      modifies this
      ensures !feeding && started == old(started)
    {
      if feeding {
        feeding := false;
      }
    }

    /** Clears every wired chart, each announcing once. */
    method ClearAll()
      requires accuracyChart != velocityChart || accuracyChart == null
      requires accuracyChart != fatigueChart || accuracyChart == null
      requires velocityChart != fatigueChart || velocityChart == null
      modifies accuracyChart, velocityChart, fatigueChart
      ensures ChartsValid()
      ensures accuracyChart != null ==> accuracyChart.Points == [] && accuracyChart.changes == old(accuracyChart.changes) + 1
      ensures velocityChart != null ==> velocityChart.Points == [] && velocityChart.changes == old(velocityChart.changes) + 1
      ensures fatigueChart != null ==> fatigueChart.Points == [] && fatigueChart.changes == old(fatigueChart.changes) + 1
    {
      if accuracyChart != null {
        accuracyChart.ClearChart();
      }
      if velocityChart != null {
        velocityChart.ClearChart();
      }
      if fatigueChart != null {
        fatigueChart.ClearChart();
      }
    }

    /** One iteration of the feed loop: only while Playing with a bus, each wired
        chart receives its point from `FeedPoints` and trims to its capacity. */
    method FeedStep()
      requires ChartsValid()
      requires accuracyChart != velocityChart || accuracyChart == null
      requires accuracyChart != fatigueChart || accuracyChart == null
      requires velocityChart != fatigueChart || velocityChart == null
      requires normalize01 ==> velocityMax != 0.0
      modifies accuracyChart, velocityChart, fatigueChart
      ensures ChartsValid()
      ensures !(stateProvider != null && stateProvider.Current == Playing && metricsBus != null) ==>
        (accuracyChart != null ==> unchanged(accuracyChart))
        && (velocityChart != null ==> unchanged(velocityChart))
        && (fatigueChart != null ==> unchanged(fatigueChart))
      ensures (accuracyChart != null ==> accuracyChart.Labelled())
        && (velocityChart != null ==> velocityChart.Labelled())
        && (fatigueChart != null ==> fatigueChart.Labelled())
      ensures stateProvider != null && stateProvider.Current == Playing && metricsBus != null ==>
        var ps := FeedPoints(old(metricsBus.Current()), normalize01, velocityMax);
        (accuracyChart != null ==>
          accuracyChart.Points == KeepLast(old(accuracyChart.Points) + [ps[0]], accuracyChart.maxDataPoints))
        && (velocityChart != null ==>
          velocityChart.Points == KeepLast(old(velocityChart.Points) + [ps[1]], velocityChart.maxDataPoints))
        && (fatigueChart != null ==>
          fatigueChart.Points == KeepLast(old(fatigueChart.Points) + [ps[2]], fatigueChart.maxDataPoints))
    {
      if stateProvider != null && stateProvider.Current == Playing && metricsBus != null {
        var ps := FeedPoints(metricsBus.Current(), normalize01, velocityMax);
        Push(accuracyChart, ps[0]);
        Push(velocityChart, ps[1]);
        Push(fatigueChart, ps[2]);
      }
    }
  }

  /** Adds `p` to `chart` when it is wired. */
  method Push(chart: EnhancedLineChart?, p: Vector2)
    requires chart != null ==> chart.Valid()
    modifies chart
    ensures chart != null ==> chart.Valid() && chart.Points == KeepLast(old(chart.Points) + [p], chart.maxDataPoints)
    ensures chart != null ==> chart.Labelled() && chart.changes == old(chart.changes) + 1
  {
    if chart != null {
      chart.AddDataPoint(p.x, p.y);
    }
  }
}
