/** The baseline profile: a mild decline over the session, and two to four anomalies
    five to ten seconds apart, the first one after thirty seconds. */
module ModelA {
  import opened Unity
  import opened Session
  import opened Generators

  const Curves: Shape := Shape(Span(92.0, 84.0), Span(1.25, 1.0), Span(12.0, 55.0), Span(92.0, 78.0))
  const MinFrame: int := 30 * 30
  const MaxFrame: int := TotalFrames - 120
  const Reasons: seq<string> := [
    "Accuracy dip + mild fatigue spike",
    "Slight form deviation detected",
    "Momentary concentration lapse"]
  const Hit: Impact := Impact(15, 0.5, 8.0, 0.18, 10.0, 6.0)

  /** The frame the n-th frame draw is relative to: the previous event, or
      MinFrame for the first one. */
  function LastFrame(d: Draws, n: int): int
    requires 0 <= n <= |d.frames|
  {
    if n == 0 then MinFrame else d.frames[n - 1]
  }

  /** Draws in the ranges `Random.Range` returns: a count in [2, 5), each frame in
      [last + 150, last + 300) and each reason index in [0, 3). */
  predicate ValidDraws(d: Draws)
  {
    2 <= d.count < 5 && d.count <= |d.frames| && ValidPicks(Reasons, d.reasons, d.count)
    && forall n :: 0 <= n < d.count ==> LastFrame(d, n) + 150 <= d.frames[n] < LastFrame(d, n) + 300
  }

  /** The schedule: the frame draws up to the first one at or past MaxFrame. */
  function ScheduleFrames(d: Draws): seq<int>
    requires 0 <= d.count <= |d.frames|
  {
    TakeBelow(d.frames[..d.count], MaxFrame)
  }

  function ScheduleReasons(d: Draws): seq<string>
    requires ValidDraws(d)
  {
    PickReasons(Reasons, d.reasons, |ScheduleFrames(d)|)
  }

  /** The four channels of a generated session. */
  function SessionChannels(d: Draws): Channels
    requires ValidDraws(d)
  {
    ImpactAll(BaseChannels(Curves, TotalFrames), ScheduleFrames(d), Hit)
  }

  /** The schedule loop of `GenerateSessionData`. */
  method BuildSchedule(d: Draws) returns (frames: seq<int>, reasons: seq<string>)
    requires ValidDraws(d)
    ensures frames == ScheduleFrames(d) && reasons == ScheduleReasons(d)
  {
    frames := [];
    reasons := [];
    var anomalyCount := d.count;
    var lastFrame := MinFrame;
    var n := 0;
    while n < anomalyCount
      invariant 0 <= n <= anomalyCount
      invariant frames == d.frames[..n] && lastFrame == LastFrame(d, n)
      invariant forall k :: 0 <= k < n ==> d.frames[k] < MaxFrame
      invariant reasons == PickReasons(Reasons, d.reasons, n)
    {
      var frame := d.frames[n];
      if frame >= MaxFrame {
        break;
      }
      frames := frames + [frame];
      reasons := reasons + [Reasons[d.reasons[n]]];
      lastFrame := frame;
      n := n + 1;
    }
    assert d.frames[..d.count][..n] == frames;
    TakeBelowStops(d.frames[..d.count], MaxFrame, n);
  }

  /** `GenerateSessionData` with the random draws supplied by the caller. */
  method GenerateSessionData(g: Generator, d: Draws, timestamp: int) returns (data: SessionData)
    requires ValidDraws(d)
    ensures fresh(data) && fresh(data.accuracyData) && fresh(data.velocityData)
    ensures fresh(data.fatigueData) && fresh(data.confidenceData)
    ensures data.Valid() && data.totalFrames == TotalFrames && data.sessionDuration == SessionSeconds
    ensures data.modelName == g.ModelName() && data.timestamp == timestamp
    ensures data.anomalyFrames == Some(ScheduleFrames(d))
    ensures data.anomalyReasons == Some(ScheduleReasons(d))
    ensures Snapshot(data) == SessionChannels(d)
  {
    data := CreateSessionData(g, timestamp);
    FillBaseCurves(data, Curves);
    var frames, reasons := BuildSchedule(d);
    data.anomalyFrames := Some(frames);
    data.anomalyReasons := Some(reasons);
    ApplyImpacts(data, frames, Hit);
  }

  /** Each frame draw is at most 299 frames past the previous one, so the n-th one
      is below MinFrame + 300 (n + 1). */
  lemma {:induction false} FrameBound(d: Draws, n: int)
    requires ValidDraws(d) && 0 <= n < d.count
    ensures d.frames[n] < MinFrame + 300 * (n + 1)
  {
    if n > 0 {
      FrameBound(d, n - 1);
    }
  }

  /** The schedule never stops early: it holds exactly `count` (2 to 4) events, the
      first in [1050, 1200), each 150 to 299 frames after the previous one, so it is
      strictly increasing and every event lies before MaxFrame; the reasons run
      parallel to it and come from the table. */
  lemma ScheduleShape(d: Draws)
    requires ValidDraws(d)
    ensures var f := ScheduleFrames(d);
      |f| == d.count && 2 <= |f| <= 4
      && 1050 <= f[0] < 1200
      && (forall n :: 0 < n < |f| ==> f[n - 1] + 150 <= f[n] < f[n - 1] + 300)
      && (forall n :: 0 <= n < |f| ==> f[n] < MaxFrame)
      && (forall i, j :: 0 <= i < j < |f| ==> f[i] < f[j])
      && |ScheduleReasons(d)| == |f|
      && forall n :: 0 <= n < |f| ==> ScheduleReasons(d)[n] in Reasons
  {
    var s := d.frames[..d.count];
    forall n | 0 <= n < d.count
      ensures s[n] < MaxFrame
    {
      FrameBound(d, n);
    }
    TakeBelowStops(s, MaxFrame, d.count);
    var f := ScheduleFrames(d);
    assert f == s;
    forall i, j | 0 <= i < j < |f|
      ensures f[i] < f[j]
    {
      Increasing(d, i, j);
    }
  }

  lemma {:induction false} Increasing(d: Draws, i: int, j: int)
    requires ValidDraws(d) && 0 <= i < j < d.count
    ensures d.frames[i] + 150 <= d.frames[j]
    decreases j - i
  {
    if i + 1 < j {
      Increasing(d, i, j - 1);
    }
  }

  /** Before the impacts each channel runs from its start value at frame 0 to its
      end value at the last frame, and the session only declines: accuracy, velocity
      and confidence never rise and fatigue never falls from one frame to a later
      one. */
  lemma BaseCurves(i: int, j: int)
    requires 0 <= i <= j < TotalFrames
    ensures var c := BaseChannels(Curves, TotalFrames);
      c.accuracy[0] == 92.0 && c.accuracy[TotalFrames - 1] == 84.0
      && c.velocity[0] == 1.25 && c.velocity[TotalFrames - 1] == 1.0
      && c.fatigue[0] == 12.0 && c.fatigue[TotalFrames - 1] == 55.0
      && c.confidence[0] == 92.0 && c.confidence[TotalFrames - 1] == 78.0
      && c.accuracy[j] <= c.accuracy[i] && c.velocity[j] <= c.velocity[i]
      && c.fatigue[i] <= c.fatigue[j] && c.confidence[j] <= c.confidence[i]
  {
    CurveEnds(Curves.accuracy, TotalFrames);
    CurveEnds(Curves.velocity, TotalFrames);
    CurveEnds(Curves.fatigue, TotalFrames);
    CurveEnds(Curves.confidence, TotalFrames);
    CurveMonotone(Curves.accuracy, TotalFrames, i, j);
    CurveMonotone(Curves.velocity, TotalFrames, i, j);
    CurveMonotone(Curves.fatigue, TotalFrames, i, j);
    CurveMonotone(Curves.confidence, TotalFrames, i, j);
  }

  /** After the impacts every channel is in range, no frame is better than the
      base curve, and frames more than 15 frames from every event keep their base
      value. */
  lemma SessionInRange(d: Draws)
    requires ValidDraws(d)
    ensures var base := BaseChannels(Curves, TotalFrames);
      var c := SessionChannels(d);
      ChannelsOfLength(c, TotalFrames) && ChannelsInRange(c) && NoBetter(base, c)
      && forall k :: 0 <= k < TotalFrames && Untouched(k, ScheduleFrames(d), Hit.window) ==> SameAt(base, c, k)
  {
    BaseChannelsInRange(Curves, TotalFrames);
    ImpactAllFacts(BaseChannels(Curves, TotalFrames), ScheduleFrames(d), Hit);
  }
}
