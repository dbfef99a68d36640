/** The high-performer profile: stable, slightly improving curves with low fatigue,
    and exactly two mild anomalies, the first between 60 and 80 seconds and the
    second at least 20 seconds later. */
module ModelC {
  import opened Unity
  import opened Session
  import opened Generators

  const Curves: Shape := Shape(Span(94.0, 97.0), Span(1.20, 1.35), Span(8.0, 30.0), Span(94.0, 98.0))
  const MinFrame: int := 60 * 30
  const MaxFrame: int := TotalFrames - 180
  const FirstReason: string := "Minor technique drift"
  const SecondReason: string := "Slight posture adjustment needed"
  const Hit: Impact := Impact(15, 0.30, 5.0, 0.10, 6.0, 4.0)

  /** Draws in the ranges `Random.Range` returns: frame1 in [MinFrame, MinFrame + 600)
      and frame2 in [frame1 + 600, MaxFrame). The count and reason draws are unused. */
  predicate ValidDraws(d: Draws)
  {
    |d.frames| >= 2
    && MinFrame <= d.frames[0] < MinFrame + 20 * 30
    && d.frames[0] + 20 * 30 <= d.frames[1] < MaxFrame
  }

  function ScheduleFrames(d: Draws): seq<int>
    requires ValidDraws(d)
  {
    [d.frames[0], d.frames[1]]
  }

  function SessionChannels(d: Draws): Channels
    requires ValidDraws(d)
  {
    ImpactAll(BaseChannels(Curves, TotalFrames), ScheduleFrames(d), Hit)
  }

  /** `GenerateSessionData` with the random draws supplied by the caller. */
  method GenerateSessionData(g: Generator, d: Draws, timestamp: int) returns (data: SessionData)
    requires ValidDraws(d)
    ensures fresh(data) && fresh(data.accuracyData) && fresh(data.velocityData)
    ensures fresh(data.fatigueData) && fresh(data.confidenceData)
    ensures data.Valid() && data.totalFrames == TotalFrames && data.sessionDuration == SessionSeconds
    ensures data.modelName == g.ModelName() && data.timestamp == timestamp
    ensures data.anomalyFrames == Some(ScheduleFrames(d))
    ensures data.anomalyReasons == Some([FirstReason, SecondReason])
    ensures Snapshot(data) == SessionChannels(d)
  {
    data := CreateSessionData(g, timestamp);
    FillBaseCurves(data, Curves);
    var frames: seq<int> := [];
    var reasons: seq<string> := [];
    var frame1 := d.frames[0];
    frames := frames + [frame1];
    reasons := reasons + [FirstReason];
    var frame2 := d.frames[1];
    frames := frames + [frame2];
    reasons := reasons + [SecondReason];
    data.anomalyFrames := Some(frames);
    data.anomalyReasons := Some(reasons);
    assert frames == ScheduleFrames(d) && reasons == [FirstReason, SecondReason];
    ApplyImpacts(data, frames, Hit);
  }

  /** Exactly two events, strictly increasing with a gap of at least 600 frames, the
      first in [1800, 2400) and the second before MaxFrame; their impact windows
      never overlap, so no frame is hit twice. */
  lemma ScheduleShape(d: Draws)
    requires ValidDraws(d)
    ensures var f := ScheduleFrames(d);
      |f| == 2 && 1800 <= f[0] < 2400 && f[0] + 600 <= f[1] < TotalFrames - 180
      && forall k :: !(InWindow(k, f[0], Hit.window) && InWindow(k, f[1], Hit.window))
  {
  }

  /** Before the impacts each channel runs from its start value to its end value;
      accuracy, velocity, confidence and fatigue all rise slowly. */
  lemma BaseCurves(i: int, j: int)
    requires 0 <= i <= j < TotalFrames
    ensures var c := BaseChannels(Curves, TotalFrames);
      c.accuracy[0] == 94.0 && c.accuracy[TotalFrames - 1] == 97.0
      && c.velocity[0] == 1.20 && c.velocity[TotalFrames - 1] == 1.35
      && c.fatigue[0] == 8.0 && c.fatigue[TotalFrames - 1] == 30.0
      && c.confidence[0] == 94.0 && c.confidence[TotalFrames - 1] == 98.0
      && c.accuracy[i] <= c.accuracy[j] && c.velocity[i] <= c.velocity[j]
      && c.fatigue[i] <= c.fatigue[j] && c.confidence[i] <= c.confidence[j]
  {
    CurveEnds(Curves.accuracy, TotalFrames);
    CurveEnds(Curves.velocity, TotalFrames);
    CurveEnds(Curves.fatigue, TotalFrames);
    CurveEnds(Curves.confidence, TotalFrames);
    CurveMonotone(Curves.accuracy, TotalFrames, i, j);
    CurveMonotone(Curves.velocity, TotalFrames, i, j);
    CurveMonotone(Curves.fatigue, TotalFrames, i, j);
    CurveMonotone(Curves.confidence, TotalFrames, i, j);
  }

  /** After the impacts every channel is in range, no frame is better than the base
      curve, and every frame more than 15 frames from both events keeps its base
      value. */
  lemma SessionInRange(d: Draws)
    requires ValidDraws(d)
    ensures var base := BaseChannels(Curves, TotalFrames);
      var c := SessionChannels(d);
      ChannelsOfLength(c, TotalFrames) && ChannelsInRange(c) && NoBetter(base, c)
      && forall k :: (0 <= k < TotalFrames && !InWindow(k, d.frames[0], Hit.window)
                      && !InWindow(k, d.frames[1], Hit.window)) ==> SameAt(base, c, k)
  {
    BaseChannelsInRange(Curves, TotalFrames);
    ImpactAllFacts(BaseChannels(Curves, TotalFrames), ScheduleFrames(d), Hit);
  }
}
