/** The fatigued profile: a fast decline with early fatigue, and a cluster of six to
    ten anomaly candidates in the first five seconds. Candidate n is n times a fresh
    spacing draw, so the schedule is not necessarily increasing. */
module ModelB {
  import opened Unity
  import opened Session
  import opened Generators

  const Curves: Shape := Shape(Span(88.0, 70.0), Span(1.05, 0.65), Span(25.0, 90.0), Span(88.0, 60.0))
  const MinFrame: int := 0 * 30
  const MaxFrame: int := 5 * 30
  const Reasons: seq<string> := [
    "Severe fatigue spike + accuracy drop",
    "Energy depletion detected",
    "Form breakdown due to exhaustion",
    "Critical fatigue threshold reached"]
  const Hit: Impact := Impact(12, 0.85, 14.0, 0.30, 18.0, 10.0)

  /** Draws in the ranges `Random.Range` returns: a count in [6, 11), each spacing
      in [15, 21) and each reason index in [0, 4). */
  predicate ValidDraws(d: Draws)
  {
    6 <= d.count < 11 && d.count <= |d.frames| && ValidPicks(Reasons, d.reasons, d.count)
    && forall n :: 0 <= n < d.count ==> 15 <= d.frames[n] < 21
  }

  /** Candidate n: MinFrame + n x (n-th spacing draw). */
  function Candidates(d: Draws): seq<int>
    requires 0 <= d.count <= |d.frames|
  {
    seq(d.count, n requires 0 <= n < d.count => MinFrame + n * d.frames[n])
  }

  /** The schedule: the candidates up to the first one at or past MaxFrame. */
  function ScheduleFrames(d: Draws): seq<int>
    requires 0 <= d.count <= |d.frames|
  {
    TakeBelow(Candidates(d), MaxFrame)
  }

  function ScheduleReasons(d: Draws): seq<string>
    requires ValidDraws(d)
  {
    PickReasons(Reasons, d.reasons, |ScheduleFrames(d)|)
  }

  function SessionChannels(d: Draws): Channels
    requires ValidDraws(d)
  {
    ImpactAll(BaseChannels(Curves, TotalFrames), ScheduleFrames(d), Hit)
  }

  /** The schedule loop of `GenerateSessionData`. */
  method BuildSchedule(d: Draws) returns (frames: seq<int>, reasons: seq<string>)
    requires ValidDraws(d)
    ensures frames == ScheduleFrames(d) && reasons == ScheduleReasons(d)
  {
    frames := [];
    reasons := [];
    var anomalyCount := d.count;
    var n := 0;
    while n < anomalyCount
      invariant 0 <= n <= anomalyCount
      invariant frames == Candidates(d)[..n]
      invariant forall k :: 0 <= k < n ==> Candidates(d)[k] < MaxFrame
      invariant reasons == PickReasons(Reasons, d.reasons, n)
    {
      var frame := MinFrame + n * d.frames[n];
      if frame >= MaxFrame {
        break;
      }
      frames := frames + [frame];
      reasons := reasons + [Reasons[d.reasons[n]]];
      n := n + 1;
    }
    TakeBelowStops(Candidates(d), MaxFrame, n);
  }

  /** `GenerateSessionData` with the random draws supplied by the caller. */
  method GenerateSessionData(g: Generator, d: Draws, timestamp: int) returns (data: SessionData)
    requires ValidDraws(d)
    ensures fresh(data) && fresh(data.accuracyData) && fresh(data.velocityData)
    ensures fresh(data.fatigueData) && fresh(data.confidenceData)
    ensures data.Valid() && data.totalFrames == TotalFrames && data.sessionDuration == SessionSeconds
    ensures data.modelName == g.ModelName() && data.timestamp == timestamp
    ensures data.anomalyFrames == Some(ScheduleFrames(d))
    ensures data.anomalyReasons == Some(ScheduleReasons(d))
    ensures Snapshot(data) == SessionChannels(d)
  {
    data := CreateSessionData(g, timestamp);
    FillBaseCurves(data, Curves);
    var frames, reasons := BuildSchedule(d);
    data.anomalyFrames := Some(frames);
    data.anomalyReasons := Some(reasons);
    ApplyImpacts(data, frames, Hit);
  }

  /** The first event is always frame 0; event n is n times its spacing draw; all
      events lie before frame 150; there are six to ten of them (see
      `ScheduleLength`); and the reasons run parallel to them, taken from the table. */
  lemma ScheduleShape(d: Draws)
    requires ValidDraws(d)
    ensures var f := ScheduleFrames(d);
      6 <= |f| <= 10 && f[0] == 0
      && (d.count <= 8 ==> |f| == d.count) && (d.count > 8 ==> |f| >= 8)
      && (forall n :: 0 <= n < |f| ==> f[n] == n * d.frames[n] && f[n] < MaxFrame)
      && |ScheduleReasons(d)| == |f|
      && forall n :: 0 <= n < |f| ==> ScheduleReasons(d)[n] in Reasons
  {
    ScheduleLength(d);
  }

  /** Every candidate drawn is kept when at most eight were drawn, and at least eight
      are kept otherwise, since candidate 7 is at most 7 x 20 = 140; so a schedule
      holds six to ten events. */
  lemma ScheduleLength(d: Draws)
    requires ValidDraws(d)
    ensures var m := |ScheduleFrames(d)|;
      6 <= m <= 10 && (d.count <= 8 ==> m == d.count) && (d.count > 8 ==> m >= 8)
  {
    var c := Candidates(d);
    var m := |ScheduleFrames(d)|;
    if m < d.count {
      var x := d.frames[m];
      assert c[m] == m * x >= MaxFrame;
      assert m * x <= m * 20;
    }
  }

  /** Generation stops at the first candidate that reaches frame 150: all later
      draws are ignored even when their candidate would be smaller. */
  lemma StopsAtFirstLateCandidate(d: Draws)
    requires ValidDraws(d)
    ensures var f := ScheduleFrames(d);
      |f| < d.count ==> |f| * d.frames[|f|] >= MaxFrame
  {
  }

  /** Two events can share a frame: spacings 15, 15, 15, 20, 15, 15 give candidates
      0, 15, 30, 60, 60, 75. */
  lemma RepeatedFrame()
    ensures var d := Draws(6, [15, 15, 15, 20, 15, 15], [0, 1, 2, 3, 0, 1]);
      ValidDraws(d) && ScheduleFrames(d) == [0, 15, 30, 60, 60, 75]
  {
    var d := Draws(6, [15, 15, 15, 20, 15, 15], [0, 1, 2, 3, 0, 1]);
    assert Candidates(d) == [0, 15, 30, 60, 60, 75];
    TakeBelowStops(Candidates(d), MaxFrame, 6);
  }

  /** A later event can come before an earlier one: spacings 15, 15, 15, 15, 20, 15
      give candidates 0, 15, 30, 45, 80, 75. */
  lemma OutOfOrderFrames()
    ensures var d := Draws(6, [15, 15, 15, 15, 20, 15], [0, 0, 0, 0, 0, 0]);
      ValidDraws(d) && ScheduleFrames(d)[4] > ScheduleFrames(d)[5]
  {
    var d := Draws(6, [15, 15, 15, 15, 20, 15], [0, 0, 0, 0, 0, 0]);
    assert Candidates(d) == [0, 15, 30, 45, 80, 75];
    TakeBelowStops(Candidates(d), MaxFrame, 6);
  }

  /** Before the impacts each channel runs from its start value to its end value and
      the session only declines. */
  lemma BaseCurves(i: int, j: int)
    requires 0 <= i <= j < TotalFrames
    ensures var c := BaseChannels(Curves, TotalFrames);
      c.accuracy[0] == 88.0 && c.accuracy[TotalFrames - 1] == 70.0
      && c.velocity[0] == 1.05 && c.velocity[TotalFrames - 1] == 0.65
      && c.fatigue[0] == 25.0 && c.fatigue[TotalFrames - 1] == 90.0
      && c.confidence[0] == 88.0 && c.confidence[TotalFrames - 1] == 60.0
      && c.accuracy[j] <= c.accuracy[i] && c.velocity[j] <= c.velocity[i]
      && c.fatigue[i] <= c.fatigue[j] && c.confidence[j] <= c.confidence[i]
  {
    CurveEnds(Curves.accuracy, TotalFrames);
    CurveEnds(Curves.velocity, TotalFrames);
    CurveEnds(Curves.fatigue, TotalFrames);
    CurveEnds(Curves.confidence, TotalFrames);
    CurveMonotone(Curves.accuracy, TotalFrames, i, j);
    CurveMonotone(Curves.velocity, TotalFrames, i, j);
    CurveMonotone(Curves.fatigue, TotalFrames, i, j);
    CurveMonotone(Curves.confidence, TotalFrames, i, j);
  }

  /** After the impacts every channel is in range, no frame is better than the base
      curve, and frames more than 12 frames from every event keep their base value;
      in particular every frame from 162 on is untouched. */
  lemma SessionInRange(d: Draws)
    requires ValidDraws(d)
    ensures var base := BaseChannels(Curves, TotalFrames);
      var c := SessionChannels(d);
      ChannelsOfLength(c, TotalFrames) && ChannelsInRange(c) && NoBetter(base, c)
      && (forall k :: 0 <= k < TotalFrames && Untouched(k, ScheduleFrames(d), Hit.window) ==> SameAt(base, c, k))
      && forall k :: MaxFrame + Hit.window <= k < TotalFrames ==> SameAt(base, c, k)
  {
    BaseChannelsInRange(Curves, TotalFrames);
    ImpactAllFacts(BaseChannels(Curves, TotalFrames), ScheduleFrames(d), Hit);
    forall k | MaxFrame + Hit.window <= k < TotalFrames
      ensures Untouched(k, ScheduleFrames(d), Hit.window)
    {
    }
  }
}
