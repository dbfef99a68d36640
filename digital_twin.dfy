/** The digital-twin coordinator: the button handlers that generate, play, pause,
    stop and export a session and switch the model, and the metrics poller that
    publishes the current frame's metrics, with the anomaly matcher of module Cursor,
    to the bus, the dashboard and the header while the session plays. Time, the
    random draws of generation and the export's line break and time stamp are
    parameters. */
module Twin {
  import opened Unity
  import opened States
  import opened Session
  import opened Playback
  import opened Cursor
  import Metrics
  import Generators
  import Switcher
  import Exporter
  import Header
  import Dashboard
  import EnhancedChart
  import Feeder
  import AnomalyPanel
  import InsightPanel
  import ModelA
  import ModelB
  import ModelC

  /** The draws fit the profile of the generator that consumes them. */
  predicate DrawsFit(g: Generators.Generator, d: Generators.Draws)
  {
    match g.profile
    case Baseline => ModelA.ValidDraws(d)
    case Fatigued => ModelB.ValidDraws(d)
    case HighPerformer => ModelC.ValidDraws(d)
  }

  /** A session's anomaly schedule: the event frames and their reasons. */
  datatype Schedule = Schedule(frames: seq<int>, reasons: seq<string>)

  /** The schedule the generator of the active model builds from the draws. What
      it looks like is `ScheduleForShape`. */
  function ScheduleFor(g: Generators.Generator, d: Generators.Draws): Schedule
    requires DrawsFit(g, d)
  {
    match g.profile
    case Baseline => Schedule(ModelA.ScheduleFrames(d), ModelA.ScheduleReasons(d))
    case Fatigued => Schedule(ModelB.ScheduleFrames(d), ModelB.ScheduleReasons(d))
    case HighPerformer => Schedule(ModelC.ScheduleFrames(d), [ModelC.FirstReason, ModelC.SecondReason])
  }

  /** Whichever model builds it, a schedule has at least two events, one reason per
      event, and every event inside the session. */
  lemma ScheduleForShape(g: Generators.Generator, d: Generators.Draws)
    requires DrawsFit(g, d)
    ensures var s := ScheduleFor(g, d);
      |s.frames| == |s.reasons| >= 2
      && forall k :: 0 <= k < |s.frames| ==> 0 <= s.frames[k] < Generators.TotalFrames
  {
    match g.profile
    case Baseline => ModelA.ScheduleShape(d);
    case Fatigued => ModelB.ScheduleShape(d);
    case HighPerformer => ModelC.ScheduleShape(d);
  }

  /** `s` is the session generator `g` builds from the draws `d`: it carries the
      generator's model name and the schedule of `ScheduleFor`. */
  ghost predicate BuiltBy(s: SessionData, g: Generators.Generator, d: Generators.Draws)
    requires DrawsFit(g, d)
    reads s
  {
    s.modelName == g.ModelName()
    && s.anomalyFrames == Some(ScheduleFor(g, d).frames)
    && s.anomalyReasons == Some(ScheduleFor(g, d).reasons)
  }

  /** `generator.GenerateSessionData()`: the call dispatched to the generator's
      profile. */
  method GenerateWith(g: Generators.Generator, d: Generators.Draws, timestamp: int) returns (data: SessionData)
    requires DrawsFit(g, d)
    ensures fresh(data) && data.Valid() && data.totalFrames == Generators.TotalFrames
    ensures BuiltBy(data, g, d) && data.timestamp == timestamp
    ensures data.anomalyFrames.Some? && data.anomalyReasons.Some?
    ensures |data.anomalyReasons.value| == |data.anomalyFrames.value|
  {
    ScheduleForShape(g, d);
    match g.profile
    case Baseline => data := ModelA.GenerateSessionData(g, d, timestamp);
    case Fatigued => data := ModelB.GenerateSessionData(g, d, timestamp);
    case HighPerformer => data := ModelC.GenerateSessionData(g, d, timestamp);
  }

  /** A loaded session: 9000 frames, a present schedule with one reason per event,
      and the cursor where polling the frames `polled` from the first event leaves
      it. */
  ghost predicate Loaded(s: SessionData, cursor: int, polled: seq<int>)
    reads s
  {
    s.Valid() && s.totalFrames == Generators.TotalFrames
    && s.anomalyFrames.Some? && s.anomalyReasons.Some?
    && |s.anomalyReasons.value| == |s.anomalyFrames.value|
    && cursor == Run(polled, 0, s.anomalyFrames.value, s.anomalyReasons.value).cursor
  }

  /** The three charts a feeder clears. */
  function ChartsOf(f: Feeder.ChartFeederUI?): set<EnhancedChart.EnhancedLineChart?>
  {
    if f == null then {} else {f.accuracyChart, f.velocityChart, f.fatigueChart}
  }

  /** No wired chart of the feeder changed. */
  twostate predicate ChartsKept(f: Feeder.ChartFeederUI?)
    reads ChartsOf(f)
  {
    f != null ==>
      (f.accuracyChart != null ==> unchanged(f.accuracyChart))
      && (f.velocityChart != null ==> unchanged(f.velocityChart))
      && (f.fatigueChart != null ==> unchanged(f.fatigueChart))
  }

  /** Every wired chart of the feeder is empty. */
  ghost predicate ChartsEmpty(f: Feeder.ChartFeederUI?)
    reads ChartsOf(f)
  {
    f != null ==>
      (f.accuracyChart != null ==> f.accuracyChart.Points == [])
      && (f.velocityChart != null ==> f.velocityChart.Points == [])
      && (f.fatigueChart != null ==> f.fatigueChart.Points == [])
  }

  /** A feeder's wired charts are three different charts. */
  ghost predicate DistinctCharts(f: Feeder.ChartFeederUI?)
    reads f
  {
    f != null ==>
      (f.accuracyChart != f.velocityChart || f.accuracyChart == null)
      && (f.accuracyChart != f.fatigueChart || f.accuracyChart == null)
      && (f.velocityChart != f.fatigueChart || f.velocityChart == null)
  }

  /** The time of a frame at 30 frames per second. */
  function FrameSeconds(frame: int): (t: real)
    ensures frame >= 0 ==> t >= 0.0
  {
    frame as real / 30.0
  }

  /** How far through a session of `total` frames its frame `frame` is: 0 at the
      first frame, 1 at the last. */
  function Progress(frame: int, total: int): (q: real)
    requires total > 1
    ensures 0 <= frame < total ==> 0.0 <= q <= 1.0
    ensures frame == 0 ==> q == 0.0
    ensures frame == total - 1 ==> q == 1.0
  {
    frame as real / (total - 1) as real
  }

  /** What the poller publishes for `frame`: the four channels' samples, the frame,
      its time at 30 frames per second, and the poll's anomaly and reason. */
  function FrameMetrics(s: SessionData, frame: int, p: Match): Metrics.Snapshot
    reads s, s.accuracyData, s.velocityData, s.fatigueData, s.confidenceData
    requires s.Valid() && 0 <= frame < s.totalFrames
  {
    Metrics.Snapshot(s.accuracyData[frame], s.velocityData[frame], s.fatigueData[frame],
                     s.confidenceData[frame], frame, FrameSeconds(frame),
                     p.active, if p.active then p.reason else [])
  }

  /** Frames polled in order: each is no earlier than the one before it. Stated on
      the last pair so that extending the list needs no more than one step; what it
      means for every pair is `AscendingOrdered`. */
  ghost predicate Ascending(frames: seq<int>)
    decreases |frames|
  {
    |frames| < 2
    || (frames[|frames| - 2] <= frames[|frames| - 1] && Ascending(frames[..|frames| - 1]))
  }

  /** Frames are in order exactly when no frame is earlier than one before it. */
  lemma {:induction false} AscendingOrdered(frames: seq<int>)
    ensures Ascending(frames) <==> forall j, k :: 0 <= j < k < |frames| ==> frames[j] <= frames[k]
    decreases |frames|
  {
    if |frames| >= 2 {
      var init := frames[..|frames| - 1];
      AscendingOrdered(init);
      assert forall k :: 0 <= k < |init| ==> init[k] == frames[k];
    }
  }

  /** Every frame polled is one of the session's `total` frames. */
  ghost predicate InRange(frames: seq<int>, total: int)
    decreases |frames|
  {
    |frames| == 0 || (0 <= frames[|frames| - 1] < total && InRange(frames[..|frames| - 1], total))
  }

  /** The frames are in range exactly when each of them is. */
  lemma {:induction false} InRangeEach(frames: seq<int>, total: int)
    ensures InRange(frames, total) <==> forall k :: 0 <= k < |frames| ==> 0 <= frames[k] < total
    decreases |frames|
  {
    if |frames| > 0 {
      var init := frames[..|frames| - 1];
      InRangeEach(init, total);
      assert forall k :: 0 <= k < |init| ==> init[k] == frames[k];
    }
  }

  lemma InRangeExtend(before: seq<int>, visit: seq<int>, total: int)
    requires InRange(before, total) && |visit| <= 1 && (visit != [] ==> 0 <= visit[0] < total)
    ensures InRange(before + visit, total)
  {
    var after := before + visit;
    if visit == [] {
      assert after == before;
    } else {
      assert after[..|after| - 1] == before;
    }
  }

  /** The frames a resumed poller has polled so far while the clock stands at
      `frame`: within the session's `total` frames when there is a session, and,
      when nothing can run the clock backwards, in order and none after the clock. */
  ghost predicate Trace(visits: seq<int>, frame: int, total: int, loaded: bool, monotone: bool)
  {
    (loaded ==> InRange(visits, total))
    && (monotone ==> Ascending(visits) && (visits != [] ==> visits[|visits| - 1] <= frame))
  }

  /** One more wait keeps the trace, given the clock did not run backwards when
      nothing can make it. */
  lemma TraceStep(visits: seq<int>, visit: seq<int>, previous: int, current: int, total: int,
                  loaded: bool, monotone: bool)
    requires Trace(visits, previous, total, loaded, monotone)
    requires |visit| <= 1 && (visit != [] ==> visit[0] == current)
    requires loaded && visit != [] ==> 0 <= visit[0] < total
    requires monotone ==> previous <= current
    ensures Trace(visits + visit, current, total, loaded, monotone)
  {
    if loaded {
      InRangeExtend(visits, visit, total);
    }
    if monotone {
      AscendingExtend(visits, visit, previous, current);
    }
  }

  /** Polling at most one more frame, no earlier than the clock's previous frame,
      keeps the polled frames in order and none later than the clock. */
  lemma AscendingExtend(before: seq<int>, visit: seq<int>, previous: int, current: int)
    requires Ascending(before) && (before != [] ==> before[|before| - 1] <= previous)
    requires previous <= current && |visit| <= 1 && (visit != [] ==> visit[0] == current)
    ensures Ascending(before + visit)
    ensures before + visit != [] ==> (before + visit)[|before + visit| - 1] <= current
  {
    var after := before + visit;
    if visit == [] {
      assert after == before;
    } else if before != [] {
      assert after[..|after| - 1] == before;
      assert after[|after| - 2] == before[|before| - 1] && after[|after| - 1] == current;
    }
  }

  /** The views a new or stopped session starts from: the dashboard shows no data
      (`ResetDashboard`, which also empties its own feeder's charts), the anomaly
      pop-up is reset (hidden, nothing counted), and the coordinator's feeder's
      charts are emptied. */
  method ClearViews(dashboard: Dashboard.ConsolidatedDashboard, anomalyPanel: AnomalyPanel.AnomalyPanelUI?,
                    chartFeeder: Feeder.ChartFeederUI?)
    requires dashboard.Valid() && DistinctCharts(dashboard.chartFeeder) && DistinctCharts(chartFeeder)
    modifies dashboard, anomalyPanel, ChartsOf(dashboard.chartFeeder), ChartsOf(chartFeeder)
    ensures dashboard.Valid() && dashboard.ShowsNoData() && dashboard.insightIcon == old(dashboard.insightIcon)
    ensures ChartsEmpty(dashboard.chartFeeder) && ChartsEmpty(chartFeeder)
    ensures anomalyPanel != null ==> anomalyPanel.IsReset() && anomalyPanel.holdSeconds == old(anomalyPanel.holdSeconds)
  {
    dashboard.ResetDashboard();
    if anomalyPanel != null {
      anomalyPanel.ResetAnomalyCount();
    }
    if chartFeeder != null {
      chartFeeder.ClearAll();
    }
  }

  /** `OnMetricsUpdated?.Invoke()` raised by `bus`, heard at time `now` by each panel
      subscribed to it, that is wired to that bus (a panel wired to another bus, or
      to none, hears nothing): the anomaly pop-up runs `HandleMetricsUpdated` and
      the insight panel `OnMetricsUpdated`. Each handler touches only its own
      panel, so their order does not matter. */
  method NotifyMetrics(bus: Metrics.MetricsBus, anomalyPanel: AnomalyPanel.AnomalyPanelUI?,
                       insightPanel: InsightPanel.InsightPanelUI?, now: real)
    requires anomalyPanel != null ==> anomalyPanel.Valid()
    requires insightPanel != null ==> insightPanel.Valid()
    modifies anomalyPanel, insightPanel
    ensures anomalyPanel != null ==> anomalyPanel.Valid()
    ensures anomalyPanel != null && anomalyPanel.metricsBus == bus ==>
      var flag := bus.AnomalyDetected;
      var rising := flag && !old(anomalyPanel.lastAnomalyFlag);
      anomalyPanel.seen == old(anomalyPanel.seen) + [flag] && anomalyPanel.holdSeconds == old(anomalyPanel.holdSeconds)
      && anomalyPanel.lastAnomalyTime == (if rising then now else old(anomalyPanel.lastAnomalyTime))
      && (rising ==> anomalyPanel.alpha == 1.0 && anomalyPanel.reasonText == AnomalyPanel.ShownReason(bus.AnomalyReason))
      && (flag && !rising ==> anomalyPanel.alpha == old(anomalyPanel.alpha))
      && (!flag ==> anomalyPanel.alpha == if AnomalyPanel.HidesAt(flag, old(anomalyPanel.alpha), now,
                                                                  anomalyPanel.lastAnomalyTime, anomalyPanel.holdSeconds)
                                           then 0.0 else old(anomalyPanel.alpha))
    ensures anomalyPanel != null && anomalyPanel.metricsBus != bus ==> unchanged(anomalyPanel)
    ensures insightPanel != null ==> insightPanel.Valid()
    ensures insightPanel != null && insightPanel.metricsBus == bus ==>
      var flag := bus.AnomalyDetected;
      insightPanel.seen == old(insightPanel.seen) + [flag]
      && insightPanel.lastAnomalyDetectedTime
         == (if flag && !old(insightPanel.lastAnomalyState) then now else old(insightPanel.lastAnomalyDetectedTime))
      && (insightPanel.stateProvider != null ==> insightPanel.ShowsCurrent(now))
    ensures insightPanel != null && insightPanel.metricsBus != bus ==> unchanged(insightPanel)
  {
    if anomalyPanel != null && anomalyPanel.metricsBus == bus {
      anomalyPanel.HandleMetricsUpdated(now);
    }
    if insightPanel != null && insightPanel.metricsBus == bus {
      insightPanel.OnMetricsUpdated(now);
    }
  }

  /** `SetState(newState)` on `state` at time `now`: a change is stored and raised
      once, and an insight panel subscribed to `state` hears it (`OnStateChanged`),
      refreshing its message unless the new state is Playing; a repeated state
      raises nothing. */
  method ChangeState(state: SimulationStateProvider, insightPanel: InsightPanel.InsightPanelUI?,
                     newState: SimState, now: real)
    requires state.Valid() && (insightPanel != null ==> insightPanel.Valid())
    modifies state, insightPanel
    ensures state.Valid() && state.Current == newState
    ensures state.raised == if old(state.Current) == newState then old(state.raised) else old(state.raised) + [newState]
    ensures insightPanel != null ==>
      insightPanel.Valid() && insightPanel.seen == old(insightPanel.seen)
      && insightPanel.anomalyCount == old(insightPanel.anomalyCount)
      && insightPanel.lastAnomalyDetectedTime == old(insightPanel.lastAnomalyDetectedTime)
    ensures (insightPanel != null && insightPanel.stateProvider == state && insightPanel.metricsBus != null
             && old(state.Current) != newState && newState != Playing) ==> insightPanel.ShowsCurrent(now)
    ensures (insightPanel != null
             && (insightPanel.stateProvider != state || old(state.Current) == newState || newState == Playing))
            ==> insightPanel.insight == old(insightPanel.insight)
  {
    var before := state.Current;
    state.SetState(newState);
    if insightPanel != null && insightPanel.stateProvider == state && before != newState {
      insightPanel.OnStateChanged(newState, now);
    }
  }

  /** The clock rewound to its first frame and the state set to Stopped, which an
      insight panel subscribed to the state hears. */
  method Rewind(clock: SimulationController, state: SimulationStateProvider,
                insightPanel: InsightPanel.InsightPanelUI?, now: real)
    requires clock.Valid() && state.Valid() && (insightPanel != null ==> insightPanel.Valid())
    modifies clock, state, insightPanel
    ensures clock.Valid() && clock.Session == old(clock.Session) && clock.playbackSpeed == old(clock.playbackSpeed)
    ensures clock.playbackTime == 0.0 && clock.CurrentFrame == 0 && !clock.IsPlaying
    ensures state.Valid() && state.Current == Stopped
    ensures state.raised == if old(state.Current) == Stopped then old(state.raised) else old(state.raised) + [Stopped]
    ensures insightPanel != null ==> insightPanel.Valid() && insightPanel.seen == old(insightPanel.seen)
  {
    clock.StopPlayback();
    ChangeState(state, insightPanel, Stopped, now);
  }

  /** `ChangeState` as the coordinator relies on it: the state and its events,
      what the insight panel has heard and counted, the ready message once a
      subscribed panel hears a change to Stopped, and an untouched message on a
      change to Playing. */
  method EnterState(state: SimulationStateProvider, insightPanel: InsightPanel.InsightPanelUI?,
                    newState: SimState, now: real)
    requires state.Valid() && (insightPanel != null ==> insightPanel.Valid())
    modifies state, insightPanel
    ensures state.Valid() && state.Current == newState
    ensures state.raised == if old(state.Current) == newState then old(state.raised) else old(state.raised) + [newState]
    ensures insightPanel != null ==>
      insightPanel.Valid() && insightPanel.seen == old(insightPanel.seen)
      && insightPanel.anomalyCount == old(insightPanel.anomalyCount)
    ensures (newState == Stopped && old(state.Current) != Stopped && insightPanel != null
             && insightPanel.stateProvider == state && insightPanel.metricsBus != null)
            ==> insightPanel.insight == InsightPanel.ReadyInsight
    ensures newState == Playing && insightPanel != null ==> insightPanel.insight == old(insightPanel.insight)
  {
    ChangeState(state, insightPanel, newState, now);
  }

  /** The end of a generation: the header shows the rewound clock (`ShowStart`)
      and the state goes back to Stopped, so that an insight panel subscribed to
      the state shows the ready message. */
  method ShowGenerated(header: Header.HeaderBarUI, state: SimulationStateProvider,
                       insightPanel: InsightPanel.InsightPanelUI?, total: int, now: real)
    requires state.Valid() && state.Current == Generating && (insightPanel != null ==> insightPanel.Valid())
    modifies header, state, insightPanel
    ensures header.ShowsStart(total)
    ensures state.Valid() && state.Current == Stopped && state.raised == old(state.raised) + [Stopped]
    ensures insightPanel != null ==>
      insightPanel.Valid() && insightPanel.seen == old(insightPanel.seen)
      && insightPanel.anomalyCount == old(insightPanel.anomalyCount)
    ensures insightPanel != null && insightPanel.stateProvider == state && insightPanel.metricsBus != null ==>
      insightPanel.insight == InsightPanel.ReadyInsight
  {
    ShowStart(header, total);
    ChangeState(state, insightPanel, Stopped, now);
  }

  /** What a stop leaves behind: `ClearViews`, then the bus publishes an all-zero
      frame with no anomaly, which the subscribed panels hear (`NotifyMetrics`). */
  method ResetOutputs(dashboard: Dashboard.ConsolidatedDashboard, anomalyPanel: AnomalyPanel.AnomalyPanelUI?,
                      insightPanel: InsightPanel.InsightPanelUI?, chartFeeder: Feeder.ChartFeederUI?,
                      metricsBus: Metrics.MetricsBus, now: real)
    requires dashboard.Valid() && DistinctCharts(dashboard.chartFeeder) && DistinctCharts(chartFeeder)
    requires insightPanel != null ==> insightPanel.Valid()
    modifies dashboard, anomalyPanel, insightPanel, ChartsOf(dashboard.chartFeeder), ChartsOf(chartFeeder), metricsBus
    ensures dashboard.Valid() && dashboard.ShowsNoData() && metricsBus.Valid()
    ensures ChartsEmpty(dashboard.chartFeeder) && ChartsEmpty(chartFeeder)
    ensures metricsBus.Current() == Metrics.Snapshot(0.0, 0.0, 0.0, 0.0, 0, 0.0, false, [])
    ensures anomalyPanel != null ==>
      anomalyPanel.Valid() && anomalyPanel.totalAnomalies == 0 && anomalyPanel.alpha == 0.0
      && anomalyPanel.seen == (if anomalyPanel.metricsBus == metricsBus then [false] else [])
    ensures insightPanel != null ==> insightPanel.Valid()
    ensures insightPanel != null && insightPanel.metricsBus == metricsBus ==>
      insightPanel.seen == old(insightPanel.seen) + [false]
      && (insightPanel.stateProvider != null ==> insightPanel.ShowsCurrent(now))
    ensures insightPanel != null && insightPanel.metricsBus != metricsBus ==> unchanged(insightPanel)
  {
    ClearViews(dashboard, anomalyPanel, chartFeeder);
    metricsBus.UpdateFromFrame(0.0, 0.0, 0.0, 0.0, 0, 0.0, false, []);
    NotifyMetrics(metricsBus, anomalyPanel, insightPanel, now);
  }

  /** The views a fresh session starts from: `ClearViews`, and the insight panel's
      count restarts from zero (`ResetAnomalyCount`, which refreshes its
      message). */
  method ClearAllViews(dashboard: Dashboard.ConsolidatedDashboard, anomalyPanel: AnomalyPanel.AnomalyPanelUI?,
                       insightPanel: InsightPanel.InsightPanelUI?, chartFeeder: Feeder.ChartFeederUI?, now: real)
    requires dashboard.Valid() && DistinctCharts(dashboard.chartFeeder) && DistinctCharts(chartFeeder)
    modifies dashboard, anomalyPanel, insightPanel, ChartsOf(dashboard.chartFeeder), ChartsOf(chartFeeder)
    ensures dashboard.Valid() && dashboard.ShowsNoData()
    ensures ChartsEmpty(dashboard.chartFeeder) && ChartsEmpty(chartFeeder)
    ensures anomalyPanel != null ==> anomalyPanel.IsReset()
    ensures insightPanel != null ==> insightPanel.Valid() && insightPanel.seen == [] && insightPanel.anomalyCount == 0
    ensures insightPanel != null && insightPanel.stateProvider != null && insightPanel.metricsBus != null ==>
      insightPanel.ShowsCurrent(now)
  {
    ClearViews(dashboard, anomalyPanel, chartFeeder);
    if insightPanel != null {
      insightPanel.ResetAnomalyCount(now);
    }
  }

  method StopOutputs(clock: SimulationController, state: SimulationStateProvider,
                     dashboard: Dashboard.ConsolidatedDashboard, anomalyPanel: AnomalyPanel.AnomalyPanelUI?,
                     insightPanel: InsightPanel.InsightPanelUI?, chartFeeder: Feeder.ChartFeederUI?,
                     metricsBus: Metrics.MetricsBus, now: real)
    requires clock.Valid() && state.Valid()
    requires dashboard.Valid() && DistinctCharts(dashboard.chartFeeder) && DistinctCharts(chartFeeder)
    requires insightPanel != null ==> insightPanel.Valid()
    modifies clock, state, dashboard, anomalyPanel, insightPanel, ChartsOf(dashboard.chartFeeder), ChartsOf(chartFeeder), metricsBus
    ensures clock.Valid() && clock.Session == old(clock.Session) && clock.playbackSpeed == old(clock.playbackSpeed)
    ensures clock.playbackTime == 0.0 && clock.CurrentFrame == 0 && !clock.IsPlaying
    ensures state.Valid() && state.Current == Stopped
    ensures dashboard.Valid() && dashboard.ShowsNoData() && metricsBus.Valid()
    ensures ChartsEmpty(dashboard.chartFeeder) && ChartsEmpty(chartFeeder)
    ensures metricsBus.Current() == Metrics.Snapshot(0.0, 0.0, 0.0, 0.0, 0, 0.0, false, [])
    ensures anomalyPanel != null ==>
      anomalyPanel.Valid() && anomalyPanel.totalAnomalies == 0 && anomalyPanel.alpha == 0.0
      && anomalyPanel.seen == (if anomalyPanel.metricsBus == metricsBus then [false] else [])
    ensures insightPanel != null ==> insightPanel.Valid()
    ensures insightPanel != null && insightPanel.metricsBus == metricsBus && insightPanel.stateProvider == state ==>
      insightPanel.seen == old(insightPanel.seen) + [false] && insightPanel.insight == InsightPanel.ReadyInsight
  {
    Rewind(clock, state, insightPanel, now);
    ResetOutputs(dashboard, anomalyPanel, insightPanel, chartFeeder, metricsBus, now);
  }

  /** The header once the clock has been rewound: time 0, which reads
      "Time: 00:00", an empty bar, and frame 0 of `total`. */
  method ShowStart(header: Header.HeaderBarUI, total: int)
    modifies header
    ensures header.ShowsStart(total)
  {
    header.SetTime(0.0);
    header.SetProgress(0.0);
    header.SetProgressFrames(0, total);
    Header.ZeroTime(0.0);
  }

  /** The poller's publication of `frame`: the bus receives the frame's samples,
      time and anomaly and notifies the subscribed panels (`NotifyMetrics`), then
      the dashboard shows the bus (`UpdateFromMetrics`). */
  method PublishFrame(bus: Metrics.MetricsBus, dashboard: Dashboard.ConsolidatedDashboard,
                      anomalyPanel: AnomalyPanel.AnomalyPanelUI?, insightPanel: InsightPanel.InsightPanelUI?,
                      s: SessionData, frame: int, p: Match, now: real)
    requires s.Valid() && 0 <= frame < s.totalFrames
    requires bus.Valid() && dashboard.Valid() && dashboard.metricsBus == bus
    requires anomalyPanel != null ==> anomalyPanel.Valid()
    requires insightPanel != null ==> insightPanel.Valid()
    modifies bus, dashboard, anomalyPanel, insightPanel
    ensures bus.Valid() && dashboard.Valid() && bus.Current() == FrameMetrics(s, frame, p)
    ensures dashboard.ShowsMetrics(FrameMetrics(s, frame, p))
    ensures anomalyPanel != null ==> anomalyPanel.Valid()
    ensures anomalyPanel != null && anomalyPanel.metricsBus == bus ==>
      anomalyPanel.seen == old(anomalyPanel.seen) + [p.active]
      && (p.active && !old(anomalyPanel.lastAnomalyFlag) ==>
            anomalyPanel.alpha == 1.0 && anomalyPanel.reasonText == AnomalyPanel.ShownReason(p.reason))
    ensures insightPanel != null ==> insightPanel.Valid()
    ensures insightPanel != null && insightPanel.metricsBus == bus ==>
      insightPanel.seen == old(insightPanel.seen) + [p.active]
      && (insightPanel.stateProvider != null ==> insightPanel.ShowsCurrent(now))
  {
    bus.UpdateFromFrame(s.accuracyData[frame], s.velocityData[frame], s.fatigueData[frame],
                        s.confidenceData[frame], frame, FrameSeconds(frame), p.active, p.reason);
    NotifyMetrics(bus, anomalyPanel, insightPanel, now);
    dashboard.UpdateFromMetrics();
  }

  /** One poll's views: `PublishFrame`, then the header shows the frame
      (`ShowFrame`). Its contract carries the cards, the header and what each
      subscribed panel heard; the insight texts and the panels' messages are those
      `PublishFrame` states. */
  method ShowPoll(bus: Metrics.MetricsBus, dashboard: Dashboard.ConsolidatedDashboard, header: Header.HeaderBarUI,
                  anomalyPanel: AnomalyPanel.AnomalyPanelUI?, insightPanel: InsightPanel.InsightPanelUI?,
                  s: SessionData, frame: int, p: Match, now: real)
    requires s.Valid() && 0 <= frame < s.totalFrames && s.totalFrames > 1
    requires bus.Valid() && dashboard.Valid() && dashboard.metricsBus == bus
    requires anomalyPanel != null ==> anomalyPanel.Valid()
    requires insightPanel != null ==> insightPanel.Valid()
    modifies bus, dashboard, header, anomalyPanel, insightPanel
    ensures bus.Valid() && dashboard.Valid()
    ensures ShowsFrame(bus, dashboard, header, s, frame, p)
    ensures anomalyPanel != null ==> anomalyPanel.Valid()
    ensures anomalyPanel != null && anomalyPanel.metricsBus == bus ==>
      anomalyPanel.seen == old(anomalyPanel.seen) + [p.active]
    ensures insightPanel != null ==> insightPanel.Valid()
    ensures insightPanel != null && insightPanel.metricsBus == bus ==>
      insightPanel.seen == old(insightPanel.seen) + [p.active]
  {
    PublishFrame(bus, dashboard, anomalyPanel, insightPanel, s, frame, p, now);
    ShowFrame(header, frame, s.totalFrames);
  }

  /** What the poll of `frame` of `s`, with the matcher's answer `p`, shows: the bus
      holds the frame's metrics, the dashboard's cards display them, and the header shows
      the frame's time, the progress through the session and the frame counter. */
  ghost predicate ShowsFrame(bus: Metrics.MetricsBus, dashboard: Dashboard.ConsolidatedDashboard,
                             header: Header.HeaderBarUI, s: SessionData, frame: int, p: Match)
    reads bus, dashboard, header, s, s.accuracyData, s.velocityData, s.fatigueData, s.confidenceData
    requires s.Valid() && 0 <= frame < s.totalFrames && s.totalFrames > 1
  {
    bus.Current() == FrameMetrics(s, frame, p) && dashboard.ShowsCards(FrameMetrics(s, frame, p))
    && header.timeText == Header.TimeText(FrameSeconds(frame))
    && header.progressFill == Header.ProgressFill(Progress(frame, s.totalFrames))
    && header.progressFrameText == Header.FramesText(frame, s.totalFrames)
  }

  /** The header for `frame` of `total`: the time at 30 frames per second, the
      progress through the session and the frame counter. */
  method ShowFrame(header: Header.HeaderBarUI, frame: int, total: int)
    requires total > 1
    modifies header
    ensures header.timeText == Header.TimeText(FrameSeconds(frame))
    ensures header.progressFill == Header.ProgressFill(Progress(frame, total))
    ensures header.progressFrameText == Header.FramesText(frame, total)
  {
    header.SetTime(FrameSeconds(frame));
    header.SetProgress(Progress(frame, total));
    header.SetProgressFrames(frame, total);
  }

  /** One frame of the game loop as the waiting poller sees it: `Time.deltaTime`,
      by which the clock advances, and `Time.time` when the poller resumes. */
  datatype Tick = Tick(delta: real, time: real)

  class DigitalTwinManager {
    const modelSwitcher: Switcher.ModelSwitcher
    const simulationController: SimulationController
    const metricsBus: Metrics.MetricsBus
    const stateProvider: SimulationStateProvider
    const dashboard: Dashboard.ConsolidatedDashboard
    const headerBar: Header.HeaderBarUI
    const anomalyPanel: AnomalyPanel.AnomalyPanelUI?
    const insightPanel: InsightPanel.InsightPanelUI?
    const chartFeeder: Feeder.ChartFeederUI?
    /** null until a session is generated. */
    var currentSession: SessionData?
    var nextAnomalyIndex: int
    /** Whether the poller coroutine is executing (suspended at its wait), and
        whether the `metricsCoroutine` handle is held. */
    var pollerRunning: bool
    var pollerHandle: bool
    /** The files written by the exporter, oldest first. */
    var exports: seq<Exporter.ExportFile>
    /** The frames polled since the current session was generated, oldest first. */
    ghost var polled: seq<int>

    /** The collaborators keep their own invariants; the controller holds the
        current session; the dashboard reads the same bus; each feeder's charts are
        distinct; the cursor is where the frames polled since generation left it
        (0 before any session); a running poller holds its handle. */
    ghost predicate Valid()
      reads this, modelSwitcher, simulationController, metricsBus, stateProvider, dashboard,
            currentSession, dashboard.chartFeeder, chartFeeder, anomalyPanel, insightPanel
    {
      modelSwitcher.Valid() && stateProvider.Valid() && dashboard.Valid() && metricsBus.Valid()
      && simulationController.Session == currentSession && simulationController.Valid()
      && dashboard.metricsBus == metricsBus
      && DistinctCharts(dashboard.chartFeeder) && DistinctCharts(chartFeeder)
      && (anomalyPanel != null ==> anomalyPanel.Valid())
      && (insightPanel != null ==> insightPanel.Valid())
      && (currentSession == null ==> nextAnomalyIndex == 0 && polled == [])
      && (currentSession != null ==> Loaded(currentSession, nextAnomalyIndex, polled))
      && (pollerRunning ==> pollerHandle)
    }

    /** The anomaly pop-up is there and subscribed to this coordinator's bus. */
    ghost predicate AnomalyWired()
    {
      anomalyPanel != null && anomalyPanel.metricsBus == metricsBus
    }

    /** The insight panel is there and subscribed to this coordinator's bus and
        state provider. */
    ghost predicate InsightWired()
    {
      insightPanel != null && insightPanel.metricsBus == metricsBus && insightPanel.stateProvider == stateProvider
    }

    /** The state a freshly installed `session` starts from: the clock holds it
        stopped at frame 0 and time 0, the cursor is back at the first event with
        nothing polled, no poller runs, the dashboard shows no data, every chart is
        empty, the anomaly pop-up is hidden with nothing counted and the insight
        panel counts nothing. */
    ghost predicate StartsOver(session: SessionData)
      reads this, simulationController, dashboard, anomalyPanel, ChartsOf(dashboard.chartFeeder), ChartsOf(chartFeeder)
    {
      currentSession == session && nextAnomalyIndex == 0 && polled == [] && !pollerRunning
      && simulationController.playbackTime == 0.0 && simulationController.CurrentFrame == 0
      && !simulationController.IsPlaying
      && dashboard.ShowsNoData() && ChartsEmpty(dashboard.chartFeeder) && ChartsEmpty(chartFeeder)
      && (anomalyPanel != null ==> anomalyPanel.IsReset())
    }

    /** The insight panel, if there is one, has heard nothing and counts nothing. */
    ghost predicate InsightCleared()
      reads this, insightPanel
    {
      insightPanel != null ==> insightPanel.seen == [] && insightPanel.anomalyCount == 0
    }

    /** The invariant reads nothing but the manager, its collaborators, the session
        and the feeders: a step that leaves all of them alone keeps it. */
    twostate lemma ValidFramed()
      requires old(Valid())
      requires unchanged(this, modelSwitcher, simulationController, metricsBus, stateProvider, dashboard)
      requires currentSession != null ==> unchanged(currentSession)
      requires dashboard.chartFeeder != null ==> unchanged(dashboard.chartFeeder)
      requires chartFeeder != null ==> unchanged(chartFeeder)
      requires anomalyPanel != null ==> unchanged(anomalyPanel)
      requires insightPanel != null ==> unchanged(insightPanel)
      ensures Valid()
    {
    }

    /** A step that keeps the session, the cursor, the poll log and the poller's
        handle, leaves the model switcher and the clock alone and keeps the state
        machine, the bus, the dashboard and the panels valid keeps the invariant. */
    twostate lemma ValidKept()
      requires old(Valid())
      requires currentSession == old(currentSession) && nextAnomalyIndex == old(nextAnomalyIndex)
      requires polled == old(polled) && (pollerRunning ==> pollerHandle)
      requires unchanged(modelSwitcher, simulationController)
      requires currentSession != null ==> unchanged(currentSession)
      requires dashboard.chartFeeder != null ==> unchanged(dashboard.chartFeeder)
      requires chartFeeder != null ==> unchanged(chartFeeder)
      requires stateProvider.Valid() && metricsBus.Valid() && dashboard.Valid()
      requires anomalyPanel != null ==> anomalyPanel.Valid()
      requires insightPanel != null ==> insightPanel.Valid()
      ensures Valid()
    {
    }

    /** A step that also moves the clock, keeping it valid on the same session,
        keeps the invariant under the conditions of `ValidKept`. */
    twostate lemma ValidClocked()
      requires old(Valid())
      requires currentSession == old(currentSession) && nextAnomalyIndex == old(nextAnomalyIndex)
      requires polled == old(polled) && (pollerRunning ==> pollerHandle)
      requires unchanged(modelSwitcher)
      requires simulationController.Valid() && simulationController.Session == currentSession
      requires currentSession != null ==> unchanged(currentSession)
      requires dashboard.chartFeeder != null ==> unchanged(dashboard.chartFeeder)
      requires chartFeeder != null ==> unchanged(chartFeeder)
      requires stateProvider.Valid() && metricsBus.Valid() && dashboard.Valid()
      requires anomalyPanel != null ==> anomalyPanel.Valid()
      requires insightPanel != null ==> insightPanel.Valid()
      ensures Valid()
    {
    }

    /** The wired scene before any session: no session, cursor 0, no poller. */
    constructor (modelSwitcher: Switcher.ModelSwitcher, simulationController: SimulationController,
                 metricsBus: Metrics.MetricsBus, stateProvider: SimulationStateProvider,
                 dashboard: Dashboard.ConsolidatedDashboard, headerBar: Header.HeaderBarUI,
                 anomalyPanel: AnomalyPanel.AnomalyPanelUI?, insightPanel: InsightPanel.InsightPanelUI?,
                 chartFeeder: Feeder.ChartFeederUI?)
      requires modelSwitcher.Valid() && stateProvider.Valid() && dashboard.Valid() && metricsBus.Valid()
      requires simulationController.Valid() && simulationController.Session == null
      requires dashboard.metricsBus == metricsBus
      requires DistinctCharts(dashboard.chartFeeder) && DistinctCharts(chartFeeder)
      requires anomalyPanel != null ==> anomalyPanel.Valid()
      requires insightPanel != null ==> insightPanel.Valid()
      ensures Valid() && currentSession == null && nextAnomalyIndex == 0
      ensures !pollerRunning && !pollerHandle && exports == [] && polled == []
      ensures this.modelSwitcher == modelSwitcher && this.simulationController == simulationController
      ensures this.metricsBus == metricsBus && this.stateProvider == stateProvider
      ensures this.dashboard == dashboard && this.headerBar == headerBar
      ensures this.anomalyPanel == anomalyPanel && this.insightPanel == insightPanel
      ensures this.chartFeeder == chartFeeder
    {
      this.modelSwitcher := modelSwitcher;
      this.simulationController := simulationController;
      this.metricsBus := metricsBus;
      this.stateProvider := stateProvider;
      this.dashboard := dashboard;
      this.headerBar := headerBar;
      this.anomalyPanel := anomalyPanel;
      this.insightPanel := insightPanel;
      this.chartFeeder := chartFeeder;
      currentSession := null;
      nextAnomalyIndex := 0;
      pollerRunning, pollerHandle := false, false;
      exports := [];
      polled := [];
    }

    /** `OnGenerateButtonClicked` with the generator's draws, the creation time stamp
        and the clock `now`. Nothing at all while generating. Otherwise `Generate`:
        the state passes through Generating back to Stopped, so a subscribed
        insight panel ends on the ready message; without a generator nothing else
        changes. With one, a fresh session from its schedule is loaded at frame 0
        with the cursor back at the first event, the dashboard, both panels and
        every chart are cleared, the header shows time 0 and frame 0 of 9000, and a
        running poller is stopped, its handle still held. */
    method OnGenerateButtonClicked(d: Generators.Draws, timestamp: int, now: real)
      requires Valid()
      requires modelSwitcher.ActiveGenerator().Some? ==> DrawsFit(modelSwitcher.ActiveGenerator().value, d)
      modifies this, stateProvider, simulationController, dashboard, headerBar, anomalyPanel, insightPanel
      modifies ChartsOf(dashboard.chartFeeder), ChartsOf(chartFeeder)
      ensures Valid() && exports == old(exports)
      ensures old(stateProvider.Current) == Generating ==>
        unchanged(this, stateProvider, simulationController, dashboard, headerBar)
        && ChartsKept(dashboard.chartFeeder) && ChartsKept(chartFeeder)
        && (anomalyPanel != null ==> unchanged(anomalyPanel)) && (insightPanel != null ==> unchanged(insightPanel))
      ensures old(stateProvider.Current) != Generating ==>
        stateProvider.Current == Stopped
        && stateProvider.raised == old(stateProvider.raised) + [Generating, Stopped]
        && (InsightWired() ==> insightPanel.insight == InsightPanel.ReadyInsight)
      ensures old(stateProvider.Current) != Generating && modelSwitcher.ActiveGenerator() == None ==>
        unchanged(this, simulationController, dashboard, headerBar)
        && ChartsKept(dashboard.chartFeeder) && ChartsKept(chartFeeder)
        && (anomalyPanel != null ==> unchanged(anomalyPanel))
        && (insightPanel != null ==> insightPanel.seen == old(insightPanel.seen))
      ensures old(stateProvider.Current) != Generating && modelSwitcher.ActiveGenerator().Some? ==>
        var g := modelSwitcher.ActiveGenerator().value;
        currentSession != null && fresh(currentSession) && BuiltBy(currentSession, g, d)
        && StartsOver(currentSession) && InsightCleared() && pollerHandle == old(pollerHandle)
        && headerBar.ShowsStart(Generators.TotalFrames)
    {
      if stateProvider.Current == Generating {
        return;
      }
      Generate(d, timestamp, now);
    }

    /** `OnGenerateButtonClicked` past its guard, from a state other than
        Generating. */
    method Generate(d: Generators.Draws, timestamp: int, now: real)
      requires Valid() && stateProvider.Current != Generating
      requires modelSwitcher.ActiveGenerator().Some? ==> DrawsFit(modelSwitcher.ActiveGenerator().value, d)
      modifies this, stateProvider, simulationController, dashboard, headerBar, anomalyPanel, insightPanel
      modifies ChartsOf(dashboard.chartFeeder), ChartsOf(chartFeeder)
      ensures Valid() && exports == old(exports)
      ensures stateProvider.Current == Stopped
      ensures stateProvider.raised == old(stateProvider.raised) + [Generating, Stopped]
      ensures InsightWired() ==> insightPanel.insight == InsightPanel.ReadyInsight
      ensures modelSwitcher.ActiveGenerator() == None ==>
        unchanged(this, simulationController, dashboard, headerBar)
        && ChartsKept(dashboard.chartFeeder) && ChartsKept(chartFeeder)
        && (anomalyPanel != null ==> unchanged(anomalyPanel))
        && (insightPanel != null ==> insightPanel.seen == old(insightPanel.seen))
      ensures modelSwitcher.ActiveGenerator().Some? ==>
        var g := modelSwitcher.ActiveGenerator().value;
        currentSession != null && fresh(currentSession) && BuiltBy(currentSession, g, d)
        && StartsOver(currentSession) && InsightCleared() && pollerHandle == old(pollerHandle)
        && headerBar.ShowsStart(Generators.TotalFrames)
    {
      var generator := modelSwitcher.ActiveGenerator();
      if generator == None {
        GenerateNothing(now);
        return;
      }
      GenerateWithGenerator(generator.value, d, timestamp, now);
    }

    /** `Generate` once generator `g` is chosen: the state becomes Generating,
        which a subscribed insight panel hears, and `GenerateFrom` follows. */
    method GenerateWithGenerator(g: Generators.Generator, d: Generators.Draws, timestamp: int, now: real)
      requires Valid() && stateProvider.Current != Generating && DrawsFit(g, d)
      modifies this, stateProvider, simulationController, dashboard, headerBar, anomalyPanel, insightPanel
      modifies ChartsOf(dashboard.chartFeeder), ChartsOf(chartFeeder)
      ensures Valid() && exports == old(exports) && pollerHandle == old(pollerHandle)
      ensures stateProvider.Current == Stopped
      ensures stateProvider.raised == old(stateProvider.raised) + [Generating, Stopped]
      ensures currentSession != null && fresh(currentSession) && BuiltBy(currentSession, g, d)
      ensures StartsOver(currentSession) && InsightCleared() && headerBar.ShowsStart(Generators.TotalFrames)
      ensures InsightWired() ==> insightPanel.insight == InsightPanel.ReadyInsight
    {
      assert stateProvider.raised + [Generating] + [Stopped] == stateProvider.raised + [Generating, Stopped];
      EnterState(stateProvider, insightPanel, Generating, now);
      GenerateFrom(g, d, timestamp, now);
    }

    /** `Generate` without a generator: the state passes through Generating back to
        Stopped, which a subscribed insight panel hears, and nothing else
        changes. */
    method GenerateNothing(now: real)
      requires Valid() && stateProvider.Current != Generating
      modifies stateProvider, insightPanel
      ensures Valid() && stateProvider.Current == Stopped
      ensures stateProvider.raised == old(stateProvider.raised) + [Generating, Stopped]
      ensures insightPanel != null ==> insightPanel.seen == old(insightPanel.seen)
      ensures InsightWired() ==> insightPanel.insight == InsightPanel.ReadyInsight
    {
      assert stateProvider.raised + [Generating] + [Stopped] == stateProvider.raised + [Generating, Stopped];
      ChangeState(stateProvider, insightPanel, Generating, now);
      ChangeState(stateProvider, insightPanel, Stopped, now);
    }

    /** `Generate` once generator `g` is chosen, while the state is Generating: a
        fresh session is generated from its schedule and `Regenerate` installs it. */
    method GenerateFrom(g: Generators.Generator, d: Generators.Draws, timestamp: int, now: real)
      requires Valid() && stateProvider.Current == Generating && DrawsFit(g, d)
      modifies this, stateProvider, simulationController, dashboard, headerBar, anomalyPanel, insightPanel
      modifies ChartsOf(dashboard.chartFeeder), ChartsOf(chartFeeder)
      ensures Valid() && exports == old(exports) && pollerHandle == old(pollerHandle)
      ensures stateProvider.Current == Stopped && stateProvider.raised == old(stateProvider.raised) + [Stopped]
      ensures currentSession != null && fresh(currentSession) && BuiltBy(currentSession, g, d)
      ensures StartsOver(currentSession) && InsightCleared() && headerBar.ShowsStart(Generators.TotalFrames)
      ensures InsightWired() ==> insightPanel.insight == InsightPanel.ReadyInsight
    {
      var session := GenerateWith(g, d, timestamp);
      Regenerate(session, now);
    }

    /** The part of `OnGenerateButtonClicked` that follows the generation of
        `session`, while the state is Generating: the session is loaded, every view
        is cleared for it, the header shows the rewound clock and the state goes
        back to Stopped. */
    method Regenerate(session: SessionData, now: real)
      requires Valid() && stateProvider.Current == Generating
      requires session.Valid() && session.totalFrames == Generators.TotalFrames
      requires session.anomalyFrames.Some? && session.anomalyReasons.Some?
      requires |session.anomalyReasons.value| == |session.anomalyFrames.value|
      modifies this, stateProvider, simulationController, dashboard, headerBar, anomalyPanel, insightPanel
      modifies ChartsOf(dashboard.chartFeeder), ChartsOf(chartFeeder)
      ensures Valid() && exports == old(exports) && pollerHandle == old(pollerHandle)
      ensures StartsOver(session) && InsightCleared() && headerBar.ShowsStart(Generators.TotalFrames)
      ensures stateProvider.Current == Stopped && stateProvider.raised == old(stateProvider.raised) + [Stopped]
      ensures InsightWired() ==> insightPanel.insight == InsightPanel.ReadyInsight
    {
      Install(session, now);
      Announce(now);
    }

    /** The end of a generation once the session is installed: `ShowGenerated`
        with the header, the state and the insight panel of this coordinator. */
    method Announce(now: real)
      requires Valid() && stateProvider.Current == Generating && currentSession != null
      modifies headerBar, stateProvider, insightPanel
      ensures Valid() && headerBar.ShowsStart(currentSession.totalFrames)
      ensures stateProvider.Current == Stopped && stateProvider.raised == old(stateProvider.raised) + [Stopped]
      ensures insightPanel != null ==>
        insightPanel.seen == old(insightPanel.seen) && insightPanel.anomalyCount == old(insightPanel.anomalyCount)
      ensures InsightWired() ==> insightPanel.insight == InsightPanel.ReadyInsight
    {
      label Loaded:
      ShowGenerated(headerBar, stateProvider, insightPanel, currentSession.totalFrames, now);
      ValidKept@Loaded();
    }

    /** A fresh session loaded and every view cleared for it; a running poller is
        stopped, its handle still held. */
    method Install(session: SessionData, now: real)
      requires Valid() && session.Valid() && session.totalFrames == Generators.TotalFrames
      requires session.anomalyFrames.Some? && session.anomalyReasons.Some?
      requires |session.anomalyReasons.value| == |session.anomalyFrames.value|
      modifies this, simulationController, dashboard, anomalyPanel, insightPanel
      modifies ChartsOf(dashboard.chartFeeder), ChartsOf(chartFeeder)
      ensures Valid() && StartsOver(session) && InsightCleared()
      ensures exports == old(exports) && pollerHandle == old(pollerHandle)
    {
      Load(session);
      label Loaded:
      ClearAllViews(dashboard, anomalyPanel, insightPanel, chartFeeder, now);
      ValidKept@Loaded();
    }

    /** Loading a freshly generated session: the clock holds it at frame 0, stopped,
        the cursor is back at the first event with nothing polled, and a running
        poller is stopped, its handle kept (without a handle no poller runs, so
        this is then a no-op). */
    method Load(session: SessionData)
      requires Valid() && session.Valid() && session.totalFrames == Generators.TotalFrames
      requires session.anomalyFrames.Some? && session.anomalyReasons.Some?
      requires |session.anomalyReasons.value| == |session.anomalyFrames.value|
      modifies this, simulationController
      ensures Valid() && currentSession == session && nextAnomalyIndex == 0 && polled == []
      ensures simulationController.playbackTime == 0.0 && simulationController.CurrentFrame == 0
      ensures !simulationController.IsPlaying
      ensures !pollerRunning && exports == old(exports) && pollerHandle == old(pollerHandle)
    {
      currentSession := session;
      nextAnomalyIndex := 0;
      polled := [];
      pollerRunning := false;
      simulationController.LoadSession(session);
    }

    /** `OnPlayButtonClicked` at time `now`: nothing at all without a session or
        while playing. Otherwise the clock starts, the state becomes Playing (a
        subscribed insight panel waits for the metrics), and a new poller starts,
        whose first poll of the current frame runs at once: the bus, the dashboard
        and the header show the frame, and the subscribed panels hear it. */
    method OnPlayButtonClicked(now: real)
      requires Valid()
      modifies this, stateProvider, simulationController, metricsBus, dashboard, headerBar, anomalyPanel, insightPanel
      ensures Valid() && currentSession == old(currentSession) && exports == old(exports)
      ensures currentSession == null || old(stateProvider.Current) == Playing ==>
        unchanged(this, stateProvider, simulationController, metricsBus, dashboard, headerBar)
        && (anomalyPanel != null ==> unchanged(anomalyPanel)) && (insightPanel != null ==> unchanged(insightPanel))
      ensures currentSession != null && old(stateProvider.Current) != Playing ==>
        var s := currentSession;
        var frame := old(simulationController.CurrentFrame);
        var p := PollAt(frame, old(nextAnomalyIndex), s.anomalyFrames, s.anomalyReasons);
        simulationController.IsPlaying && stateProvider.Current == Playing
        && stateProvider.raised == old(stateProvider.raised) + [Playing]
        && pollerRunning && pollerHandle && 0 <= frame < s.totalFrames
        && polled == old(polled) + [frame] && nextAnomalyIndex == p.cursor
        && ShowsFrame(metricsBus, dashboard, headerBar, s, frame, p)
        && (AnomalyWired() ==> anomalyPanel.seen == old(anomalyPanel.seen) + [p.active])
        && (InsightWired() ==> insightPanel.seen == old(insightPanel.seen) + [p.active])
    {
      if currentSession == null {
        return;
      }
      if stateProvider.Current == Playing {
        return;
      }
      Play(now);
    }

    /** `OnPlayButtonClicked` past its guards. */
    method Play(now: real)
      requires Valid() && currentSession != null && stateProvider.Current != Playing
      modifies this, stateProvider, simulationController, metricsBus, dashboard, headerBar, anomalyPanel, insightPanel
      ensures Valid() && currentSession == old(currentSession) && exports == old(exports)
      ensures
        var s := currentSession;
        var frame := old(simulationController.CurrentFrame);
        var p := PollAt(frame, old(nextAnomalyIndex), s.anomalyFrames, s.anomalyReasons);
        simulationController.IsPlaying && stateProvider.Current == Playing
        && stateProvider.raised == old(stateProvider.raised) + [Playing]
        && pollerRunning && pollerHandle && 0 <= frame < s.totalFrames
        && polled == old(polled) + [frame] && nextAnomalyIndex == p.cursor
        && ShowsFrame(metricsBus, dashboard, headerBar, s, frame, p)
        && (AnomalyWired() ==> anomalyPanel.seen == old(anomalyPanel.seen) + [p.active])
        && (InsightWired() ==> insightPanel.seen == old(insightPanel.seen) + [p.active])
    {
      simulationController.StartPlayback();
      EnterState(stateProvider, insightPanel, Playing, now);
      pollerRunning, pollerHandle := true, true;
      var suspended := PollerBody(now);
    }

    /** `OnPauseButtonClicked` at time `now`: nothing at all unless playing; then the
        clock pauses and the state becomes Paused, and a subscribed insight panel
        shows the paused message with its count. */
    method OnPauseButtonClicked(now: real)
      requires Valid()
      modifies stateProvider, simulationController, insightPanel
      ensures Valid()
      ensures old(stateProvider.Current) != Playing ==>
        unchanged(stateProvider, simulationController) && (insightPanel != null ==> unchanged(insightPanel))
      ensures old(stateProvider.Current) == Playing ==>
        !simulationController.IsPlaying && stateProvider.Current == Paused
        && stateProvider.raised == old(stateProvider.raised) + [Paused]
        && simulationController.CurrentFrame == old(simulationController.CurrentFrame)
        && simulationController.playbackTime == old(simulationController.playbackTime)
        && (insightPanel != null ==> insightPanel.seen == old(insightPanel.seen))
        && (InsightWired() ==> insightPanel.insight == InsightPanel.PausedInsight(insightPanel.anomalyCount))
    {
      if stateProvider.Current != Playing {
        return;
      }
      simulationController.PausePlayback();
      ChangeState(stateProvider, insightPanel, Paused, now);
    }

    /** `OnStopButtonClicked` at time `now`: `Halt`, and the header shows time 0
        and frame 0. */
    method OnStopButtonClicked(now: real)
      requires Valid()
      modifies this, stateProvider, simulationController, metricsBus, dashboard, headerBar, anomalyPanel, insightPanel
      modifies ChartsOf(dashboard.chartFeeder), ChartsOf(chartFeeder)
      ensures Valid() && currentSession == old(currentSession) && exports == old(exports)
      ensures nextAnomalyIndex == old(nextAnomalyIndex) && polled == old(polled)
      ensures simulationController.playbackTime == 0.0 && simulationController.CurrentFrame == 0
      ensures !simulationController.IsPlaying
      ensures stateProvider.Current == Stopped && !pollerRunning && !pollerHandle
      ensures metricsBus.Current() == Metrics.Snapshot(0.0, 0.0, 0.0, 0.0, 0, 0.0, false, [])
      ensures dashboard.ShowsNoData() && ChartsEmpty(dashboard.chartFeeder) && ChartsEmpty(chartFeeder)
      ensures anomalyPanel != null ==>
        anomalyPanel.totalAnomalies == 0 && anomalyPanel.alpha == 0.0
        && anomalyPanel.seen == (if AnomalyWired() then [false] else [])
      ensures InsightWired() ==>
        insightPanel.seen == old(insightPanel.seen) + [false] && insightPanel.insight == InsightPanel.ReadyInsight
      ensures headerBar.ShowsStart(if currentSession == null then 0 else currentSession.totalFrames)
    {
      Halt(now);
      label Halted:
      ShowStart(headerBar, if currentSession == null then 0 else currentSession.totalFrames);
      ValidFramed@Halted();
    }

    /** Everything `OnStopButtonClicked` does except redrawing the header: the clock
        rewinds to frame 0 and stops, the state becomes Stopped, the poller is
        stopped and its handle dropped, the dashboard shows no data, the anomaly
        pop-up is reset and every chart emptied, and the bus publishes an all-zero
        frame with no anomaly, which the subscribed panels hear; a subscribed
        insight panel ends on the ready message. The cursor and the insight panel's
        count are kept. */
    method Halt(now: real)
      requires Valid()
      modifies this, stateProvider, simulationController, metricsBus, dashboard, anomalyPanel, insightPanel
      modifies ChartsOf(dashboard.chartFeeder), ChartsOf(chartFeeder)
      ensures Valid() && currentSession == old(currentSession) && exports == old(exports)
      ensures nextAnomalyIndex == old(nextAnomalyIndex) && polled == old(polled)
      ensures simulationController.playbackTime == 0.0 && simulationController.CurrentFrame == 0
      ensures !simulationController.IsPlaying
      ensures stateProvider.Current == Stopped && !pollerRunning && !pollerHandle
      ensures metricsBus.Current() == Metrics.Snapshot(0.0, 0.0, 0.0, 0.0, 0, 0.0, false, [])
      ensures dashboard.ShowsNoData() && ChartsEmpty(dashboard.chartFeeder) && ChartsEmpty(chartFeeder)
      ensures anomalyPanel != null ==>
        anomalyPanel.totalAnomalies == 0 && anomalyPanel.alpha == 0.0
        && anomalyPanel.seen == (if AnomalyWired() then [false] else [])
      ensures InsightWired() ==>
        insightPanel.seen == old(insightPanel.seen) + [false] && insightPanel.insight == InsightPanel.ReadyInsight
    {
      label Start:
      StopOutputs(simulationController, stateProvider, dashboard, anomalyPanel, insightPanel, chartFeeder, metricsBus, now);
      // The poller is stopped and its handle dropped; without a handle there is
      // no poller running, so this is then a no-op.
      pollerRunning, pollerHandle := false, false;
      ValidClocked@Start();
    }

    /** `OnExportButtonClicked` with the line break and time stamp the exporter
        uses: nothing without a session, otherwise the session's file is written. */
    method OnExportButtonClicked(newline: string, timestamp: string)
      requires Valid()
      modifies this
      ensures Valid() && currentSession == old(currentSession)
      ensures currentSession == null ==> exports == old(exports)
      ensures currentSession != null ==>
        exports == old(exports) + [Exporter.ExportFile(Exporter.FileName(currentSession.modelName, timestamp),
                                                       Exporter.Csv(Generators.Snapshot(currentSession),
                                                                    currentSession.totalFrames, newline))]
    {
      if currentSession == null {
        return;
      }
      var file := Exporter.ExportSession(currentSession, newline, timestamp);
      exports := exports + [file.value];
    }

    /** `OnSwitchModelButtonClicked`: the switcher moves to its next slot and the
        header shows the new slot's key. */
    method OnSwitchModelButtonClicked()
      requires Valid() && 'A' as int + |modelSwitcher.generators| <= 0xD800
      modifies modelSwitcher, headerBar
      ensures Valid() && modelSwitcher.generators == old(modelSwitcher.generators)
      ensures modelSwitcher.currentIndex
        == Switcher.NextIndex(old(modelSwitcher.currentIndex), |modelSwitcher.generators|)
      ensures headerBar.modelText == Header.ModelText(modelSwitcher.ActiveModelKey())
    {
      modelSwitcher.SwitchToNextModel();
      var modelKey := modelSwitcher.ActiveModelKey();
      headerBar.SetModel(modelKey);
    }

    /** `SetPlaybackSpeed`: the speed is passed to the clock as given. */
    method SetPlaybackSpeed(speed: real)
      requires Valid()
      modifies simulationController
      ensures Valid() && simulationController.playbackSpeed == speed
      ensures simulationController.CurrentFrame == old(simulationController.CurrentFrame)
      ensures simulationController.IsPlaying == old(simulationController.IsPlaying)
    {
      simulationController.playbackSpeed := speed;
    }

    /** One pass of the poller's loop up to its wait, at time `now`. The loop ends
        unless the state is Playing, which drops the handle; without a session the
        coroutine ends with the handle still held; either way nothing on screen
        changes. Otherwise the current frame is polled: the cursor moves as the
        matcher says, the bus, the dashboard and the header show the frame
        (`ShowsFrame`), and the subscribed panels hear it; then the poller waits. */
    method PollerBody(now: real) returns (suspended: bool)
      requires Valid() && pollerRunning
      modifies this, metricsBus, dashboard, headerBar, anomalyPanel, insightPanel
      ensures Valid() && currentSession == old(currentSession) && exports == old(exports)
      ensures !suspended ==>
        !pollerRunning && polled == old(polled) && nextAnomalyIndex == old(nextAnomalyIndex)
        && unchanged(metricsBus, dashboard, headerBar)
        && (anomalyPanel != null ==> unchanged(anomalyPanel)) && (insightPanel != null ==> unchanged(insightPanel))
      ensures stateProvider.Current != Playing ==> !suspended && !pollerHandle
      ensures stateProvider.Current == Playing && currentSession == null ==> !suspended && pollerHandle
      ensures stateProvider.Current == Playing && currentSession != null ==>
        var s := currentSession;
        var frame := simulationController.CurrentFrame;
        var p := PollAt(frame, old(nextAnomalyIndex), s.anomalyFrames, s.anomalyReasons);
        suspended && pollerRunning && 0 <= frame < s.totalFrames
        && polled == old(polled) + [frame] && nextAnomalyIndex == p.cursor
        && ShowsFrame(metricsBus, dashboard, headerBar, s, frame, p)
        && (AnomalyWired() ==> anomalyPanel.seen == old(anomalyPanel.seen) + [p.active])
        && (InsightWired() ==> insightPanel.seen == old(insightPanel.seen) + [p.active])
    {
      if stateProvider.Current != Playing {
        pollerRunning, pollerHandle := false, false;
        return false;
      }
      if currentSession == null {
        pollerRunning := false;
        return false;
      }
      PollFrame(now);
      return true;
    }

    /** One poll of a playing session: the matcher steps to the clock's frame, the
        frame's metrics go out on the bus and the header shows the frame. */
    method PollFrame(now: real)
      requires Valid() && pollerRunning && stateProvider.Current == Playing && currentSession != null
      modifies this, metricsBus, dashboard, headerBar, anomalyPanel, insightPanel
      ensures Valid() && currentSession == old(currentSession) && exports == old(exports)
      ensures pollerRunning && stateProvider.Current == Playing
      ensures
        var s := currentSession;
        var frame := simulationController.CurrentFrame;
        var p := PollAt(frame, old(nextAnomalyIndex), s.anomalyFrames, s.anomalyReasons);
        0 <= frame < s.totalFrames
        && polled == old(polled) + [frame] && nextAnomalyIndex == p.cursor
        && ShowsFrame(metricsBus, dashboard, headerBar, s, frame, p)
        && (AnomalyWired() ==> anomalyPanel.seen == old(anomalyPanel.seen) + [p.active])
        && (InsightWired() ==> insightPanel.seen == old(insightPanel.seen) + [p.active])
    {
      var s := currentSession;
      var frame := simulationController.CurrentFrame;
      if frame < 0 || frame >= s.totalFrames {
        // The clock clamps its frame into the loaded session, so this exit is
        // never taken.
        assert false;
      }
      var p := AdvanceCursor(frame);
      label Matched:
      ShowPoll(metricsBus, dashboard, headerBar, anomalyPanel, insightPanel, s, frame, p, now);
      ValidKept@Matched();
    }

    /** The matcher's step for `frame`: the cursor moves as the poll says and the
        frame joins those polled. */
    method AdvanceCursor(frame: int) returns (p: Match)
      requires Valid() && currentSession != null && 0 <= frame < currentSession.totalFrames
      modifies this
      ensures Valid() && currentSession == old(currentSession) && exports == old(exports)
      ensures pollerRunning == old(pollerRunning) && pollerHandle == old(pollerHandle)
      ensures p == PollAt(frame, old(nextAnomalyIndex), currentSession.anomalyFrames, currentSession.anomalyReasons)
      ensures nextAnomalyIndex == p.cursor && polled == old(polled) + [frame]
    {
      var s := currentSession;
      p := PollAt(frame, nextAnomalyIndex, s.anomalyFrames, s.anomalyReasons);
      RunAppend(polled, [frame], 0, s.anomalyFrames.value, s.anomalyReasons.value);
      nextAnomalyIndex := p.cursor;
      polled := polled + [frame];
    }

    /** The suspended poller resumed over successive frames of the game loop, during
        each of which the clock advances by the tick's delta time. After a wait a
        clock that stopped (the last frame was reached, or the session was paused or
        stopped) sets the state to Stopped and ends the poller; otherwise the loop
        goes round again. The frames polled are returned in order. A poller still
        running has used every tick; with no negative delta time and speed the
        frames polled never go back. */
    method ResumePoller(ticks: seq<Tick>) returns (ghost visits: seq<int>)
      requires Valid() && pollerRunning
      modifies this, stateProvider, simulationController, metricsBus, dashboard, headerBar, anomalyPanel, insightPanel
      ensures Valid() && currentSession == old(currentSession) && exports == old(exports)
      ensures polled == old(polled) + visits && |visits| <= |ticks|
      ensures pollerRunning ==> |visits| == |ticks|
      ensures old(!simulationController.IsPlaying) && |ticks| > 0 ==>
        visits == [] && stateProvider.Current == Stopped && !pollerRunning && !pollerHandle
      ensures currentSession != null ==> InRange(visits, currentSession.totalFrames)
      ensures 0.0 <= simulationController.playbackSpeed && (forall k :: 0 <= k < |ticks| ==> 0.0 <= ticks[k].delta)
        ==> Ascending(visits)
    {
      visits := [];
      ghost var monotone := 0.0 <= simulationController.playbackSpeed
                            && (forall k :: 0 <= k < |ticks| ==> 0.0 <= ticks[k].delta);
      ghost var total := if currentSession == null then 0 else currentSession.totalFrames;
      var i := 0;
      while i < |ticks| && pollerRunning
        invariant 0 <= i <= |ticks|
        invariant Valid() && currentSession == old(currentSession) && exports == old(exports)
        invariant simulationController.playbackSpeed == old(simulationController.playbackSpeed)
        invariant Resumed(i, visits, old(polled), old(simulationController.IsPlaying), total, monotone)
      {
        ghost var visit := ResumeOnce(ticks[i], i, visits, old(polled), old(simulationController.IsPlaying),
                                      total, monotone);
        visits := visits + visit;
        i := i + 1;
      }
    }

    /** One more tick of a running poller, as `PollerStep` describes it, keeps
        `Resumed`. */
    method ResumeOnce(tick: Tick, ghost waits: int, ghost visits: seq<int>, ghost polled0: seq<int>,
                      ghost playing0: bool, ghost total: int, ghost monotone: bool)
      returns (ghost visit: seq<int>)
      requires Valid() && pollerRunning && 0 <= waits
      requires Resumed(waits, visits, polled0, playing0, total, monotone)
      requires currentSession != null ==> total == currentSession.totalFrames
      requires monotone ==> 0.0 <= tick.delta && 0.0 <= simulationController.playbackSpeed
      modifies this, stateProvider, simulationController, metricsBus, dashboard, headerBar, anomalyPanel, insightPanel
      ensures Valid() && currentSession == old(currentSession) && exports == old(exports)
      ensures simulationController.playbackSpeed == old(simulationController.playbackSpeed)
      ensures Resumed(waits + 1, visits + visit, polled0, playing0, total, monotone)
    {
      visit := PollerStep(tick.delta, tick.time);
      assert polled0 + visits + visit == polled0 + (visits + visit);
      TraceStep(visits, visit, old(simulationController.CurrentFrame), simulationController.CurrentFrame,
                total, currentSession != null, monotone);
    }

    /** The poller resumed for `waits` waits has polled `visits` on top of the
        frames `polled0` polled before it resumed: a poller that has stopped has
        used no more waits, one still running has polled once per wait, one that
        found the clock stopped (`playing0` false) stopped at the first wait with
        nothing polled, and the frames polled keep their `Trace`. */
    ghost predicate Resumed(waits: int, visits: seq<int>, polled0: seq<int>, playing0: bool,
                            total: int, monotone: bool)
      reads this, stateProvider, simulationController
    {
      polled == polled0 + visits && |visits| <= waits
      && (pollerRunning ==> |visits| == waits)
      && (waits == 0 ==> pollerRunning && simulationController.IsPlaying == playing0)
      && (!playing0 && waits > 0 ==>
            visits == [] && stateProvider.Current == Stopped && !pollerRunning && !pollerHandle)
      && Trace(visits, simulationController.CurrentFrame, total, currentSession != null, monotone)
    }

    /** The poller's exit once the clock has stopped at the last frame: the state
        becomes Stopped (a subscribed insight panel hearing the change shows the
        ready message), and the poller ends, dropping its handle. */
    method EndPolling(now: real)
      requires Valid()
      modifies this, stateProvider, insightPanel
      ensures Valid() && currentSession == old(currentSession) && exports == old(exports)
      ensures polled == old(polled) && nextAnomalyIndex == old(nextAnomalyIndex)
      ensures stateProvider.Current == Stopped && !pollerRunning && !pollerHandle
      ensures insightPanel != null ==> insightPanel.seen == old(insightPanel.seen)
      ensures InsightWired() && old(stateProvider.Current) != Stopped ==> insightPanel.insight == InsightPanel.ReadyInsight
    {
      label Running:
      EnterState(stateProvider, insightPanel, Stopped, now);
      pollerRunning, pollerHandle := false, false;
      ValidKept@Running();
    }

    /** One wait of the resumed poller, resuming at time `now`: the clock advances by
        `wait`; a clock that stopped sets the state to Stopped, which a subscribed
        insight panel hears, and ends the poller; a running one is polled as
        `PollerBody` says. `visit` is the frame polled, if any. */
    method PollerStep(wait: real, now: real) returns (ghost visit: seq<int>)
      requires Valid() && pollerRunning
      modifies this, stateProvider, simulationController, metricsBus, dashboard, headerBar, anomalyPanel, insightPanel
      ensures Valid() && currentSession == old(currentSession) && exports == old(exports)
      ensures simulationController.playbackSpeed == old(simulationController.playbackSpeed)
      ensures polled == old(polled) + visit && |visit| <= 1
      ensures pollerRunning ==> |visit| == 1
      ensures old(!simulationController.IsPlaying) ==>
        visit == [] && stateProvider.Current == Stopped && !pollerRunning && !pollerHandle
      ensures !simulationController.IsPlaying ==>
        visit == [] && stateProvider.Current == Stopped && !pollerRunning && !pollerHandle
        && unchanged(metricsBus, dashboard, headerBar) && (anomalyPanel != null ==> unchanged(anomalyPanel))
        && (InsightWired() && old(stateProvider.Current) != Stopped ==> insightPanel.insight == InsightPanel.ReadyInsight)
      ensures visit != [] ==> visit[0] == simulationController.CurrentFrame
      ensures currentSession != null && visit != [] ==> 0 <= visit[0] < currentSession.totalFrames
      ensures visit != [] ==>
        var s := currentSession;
        var p := PollAt(visit[0], old(nextAnomalyIndex), s.anomalyFrames, s.anomalyReasons);
        nextAnomalyIndex == p.cursor && ShowsFrame(metricsBus, dashboard, headerBar, s, visit[0], p)
        && (AnomalyWired() ==> anomalyPanel.seen == old(anomalyPanel.seen) + [p.active])
        && (InsightWired() ==> insightPanel.seen == old(insightPanel.seen) + [p.active])
      ensures 0.0 <= wait && 0.0 <= simulationController.playbackSpeed ==>
        old(simulationController.CurrentFrame) <= simulationController.CurrentFrame
    {
      visit := [];
      simulationController.Update(wait);
      if !simulationController.IsPlaying {
        EndPolling(now);
      } else {
        var suspended := PollerBody(now);
        if suspended {
          visit := [simulationController.CurrentFrame];
        }
      }
    }
  }
}
