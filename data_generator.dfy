/** The part of session generation that every profile shares: allocating the record,
    filling the four channels with straight-line curves, choosing a prefix of the
    candidate anomaly frames, and the triangular, clamped impact applied around each
    anomaly frame. The three profiles only differ in their constants and in how they
    draw the schedule (modules ModelA, ModelB and ModelC). */
module Generators {
  import opened Unity
  import opened Session

  const TotalFrames: int := 9000
  const SessionSeconds: real := 300.0
  const FramesPerSecond: int := 30

  /** Which subclass of the abstract generator an asset is. */
  datatype Profile = Baseline | Fatigued | HighPerformer

  /** A generator asset: its profile and its serialized model name. */
  datatype Generator = Generator(profile: Profile, modelName: string)
  {
    /** The `ModelName` property. */
    function ModelName(): string { modelName }
  }

  /** The values returned by the `Random.Range` calls of one generation, in the
      order the profile consumes them: the event-count draw, the per-event frame (or
      spacing) draws and the per-event reason-index draws. */
  datatype Draws = Draws(count: int, frames: seq<int>, reasons: seq<int>)

  /** Start and end value of one channel's straight line. */
  datatype Span = Span(start: real, end: real)

  /** The four lines of a profile. */
  datatype Shape = Shape(accuracy: Span, velocity: Span, fatigue: Span, confidence: Span)

  /** An anomaly impact: half-window in frames, severity, and the magnitude for each
      channel. Accuracy, velocity and confidence are lowered, fatigue is raised. */
  datatype Impact = Impact(window: int, severity: real,
                           accuracy: real, velocity: real, fatigue: real, confidence: real)
  {
    predicate WellFormed()
    {
      window > 0 && severity >= 0.0
      && accuracy >= 0.0 && velocity >= 0.0 && fatigue >= 0.0 && confidence >= 0.0
    }
  }

  /** The contents of the four channels of a session. */
  datatype Channels = Channels(accuracy: seq<real>, velocity: seq<real>,
                               fatigue: seq<real>, confidence: seq<real>)

  /** The range each channel is clamped to by an impact: [0, 100], except velocity,
      which is kept in [0.2, 3]. */
  predicate InRange(s: seq<real>, lo: real, hi: real)
  {
    forall k :: 0 <= k < |s| ==> lo <= s[k] <= hi
  }

  predicate ChannelsInRange(c: Channels)
  {
    InRange(c.accuracy, 0.0, 100.0) && InRange(c.velocity, 0.2, 3.0)
    && InRange(c.fatigue, 0.0, 100.0) && InRange(c.confidence, 0.0, 100.0)
  }

  predicate ChannelsOfLength(c: Channels, n: int)
  {
    |c.accuracy| == n && |c.velocity| == n && |c.fatigue| == n && |c.confidence| == n
  }

  function Snapshot(data: SessionData): Channels
    reads data, data.accuracyData, data.velocityData, data.fatigueData, data.confidenceData
  {
    Channels(data.accuracyData[..], data.velocityData[..],
             data.fatigueData[..], data.confidenceData[..])
  }

  /** `CreateSessionData`: a record of 9000 frames lasting 300 seconds, four zeroed
      channels of that length, the generator's model name, and no schedule. */
  method CreateSessionData(g: Generator, timestamp: int) returns (data: SessionData)
    ensures fresh(data) && fresh(data.accuracyData) && fresh(data.velocityData)
    ensures fresh(data.fatigueData) && fresh(data.confidenceData)
    ensures data.Valid() && data.totalFrames == TotalFrames
    ensures data.sessionDuration == SessionSeconds
    ensures data.modelName == g.ModelName() && data.timestamp == timestamp
    ensures data.anomalyFrames == None && data.anomalyReasons == None
    ensures var zero := seq(TotalFrames, _ => 0.0); Snapshot(data) == Channels(zero, zero, zero, zero)
  {
    data := new SessionData();
    data.modelName := g.ModelName();
    data.totalFrames := 9000;
    data.sessionDuration := 300.0;
    data.accuracyData := new real[data.totalFrames](_ => 0.0);
    data.velocityData := new real[data.totalFrames](_ => 0.0);
    data.fatigueData := new real[data.totalFrames](_ => 0.0);
    data.confidenceData := new real[data.totalFrames](_ => 0.0);
    data.timestamp := timestamp;
  }

  // ---------------------------------------------------------------- base curves

  /** Sample i of the line from a to b over n frames: Lerp(a, b, i / (n - 1)). */
  function CurveAt(a: real, b: real, n: int, i: int): real
    requires n > 1
  {
    Lerp(a, b, i as real / (n - 1) as real)
  }

  function BaseCurve(sp: Span, n: int): seq<real>
    requires n > 1
  {
    seq(n, i => CurveAt(sp.start, sp.end, n, i))
  }

  function BaseChannels(sh: Shape, n: int): Channels
    requires n > 1
  {
    Channels(BaseCurve(sh.accuracy, n), BaseCurve(sh.velocity, n),
             BaseCurve(sh.fatigue, n), BaseCurve(sh.confidence, n))
  }

  /** The first frame holds the start value and the last frame the end value. */
  lemma CurveEnds(sp: Span, n: int)
    requires n > 1
    ensures BaseCurve(sp, n)[0] == sp.start && BaseCurve(sp, n)[n - 1] == sp.end
  {
    assert (n - 1) as real / (n - 1) as real == 1.0;
  }

  /** A declining line never rises from one frame to a later one, and a rising line
      never falls. */
  lemma CurveMonotone(sp: Span, n: int, i: int, j: int)
    requires n > 1 && 0 <= i <= j < n
    ensures sp.end <= sp.start ==> BaseCurve(sp, n)[j] <= BaseCurve(sp, n)[i]
    ensures sp.start <= sp.end ==> BaseCurve(sp, n)[i] <= BaseCurve(sp, n)[j]
  {
    var d := (n - 1) as real;
    DivMonotone(i as real, j as real, d);
    DivMonotone(j as real, d, d);
    LerpMonotone(sp.start, sp.end, i as real / d, j as real / d);
  }

  lemma DivMonotone(x: real, y: real, d: real)
    requires 0.0 <= x <= y && 0.0 < d
    ensures 0.0 <= x / d <= y / d
  {
    assert x / d * d == x && y / d * d == y;
  }

  lemma LerpMonotone(a: real, b: real, u: real, v: real)
    requires 0.0 <= u <= v <= 1.0
    ensures b <= a ==> Lerp(a, b, v) <= Lerp(a, b, u)
    ensures a <= b ==> Lerp(a, b, u) <= Lerp(a, b, v)
  {
    var lu, lv := Lerp(a, b, u), Lerp(a, b, v);
    assert lu == a + (b - a) * u && lv == a + (b - a) * v;
    assert lv - lu == (b - a) * (v - u);
    if a <= b {
      MulNonNegative(b - a, v - u);
    } else {
      MulNonNegative(a - b, v - u);
      assert (a - b) * (v - u) == -((b - a) * (v - u));
    }
  }

  /** A line whose ends lie in a range lies in that range everywhere. */
  lemma CurveInRange(sp: Span, n: int, lo: real, hi: real)
    requires n > 1 && lo <= sp.start <= hi && lo <= sp.end <= hi
    ensures InRange(BaseCurve(sp, n), lo, hi)
  {
  }

  predicate ShapeInRange(sh: Shape)
  {
    0.0 <= sh.accuracy.start <= 100.0 && 0.0 <= sh.accuracy.end <= 100.0
    && 0.2 <= sh.velocity.start <= 3.0 && 0.2 <= sh.velocity.end <= 3.0
    && 0.0 <= sh.fatigue.start <= 100.0 && 0.0 <= sh.fatigue.end <= 100.0
    && 0.0 <= sh.confidence.start <= 100.0 && 0.0 <= sh.confidence.end <= 100.0
  }

  lemma BaseChannelsInRange(sh: Shape, n: int)
    requires n > 1 && ShapeInRange(sh)
    ensures ChannelsInRange(BaseChannels(sh, n)) && ChannelsOfLength(BaseChannels(sh, n), n)
  {
    CurveInRange(sh.accuracy, n, 0.0, 100.0);
    CurveInRange(sh.velocity, n, 0.2, 3.0);
    CurveInRange(sh.fatigue, n, 0.0, 100.0);
    CurveInRange(sh.confidence, n, 0.0, 100.0);
  }

  /** The per-frame loop that writes the four lines into the channels. */
  method FillBaseCurves(data: SessionData, sh: Shape)
    requires data.Valid() && data.totalFrames > 1
    modifies data.accuracyData, data.velocityData, data.fatigueData, data.confidenceData
    ensures Snapshot(data) == BaseChannels(sh, data.totalFrames)
  {
    var n := data.totalFrames;
    var i := 0;
    while i < n
      invariant 0 <= i <= n
      invariant forall k :: 0 <= k < i ==> data.accuracyData[k] == CurveAt(sh.accuracy.start, sh.accuracy.end, n, k)
      invariant forall k :: 0 <= k < i ==> data.velocityData[k] == CurveAt(sh.velocity.start, sh.velocity.end, n, k)
      invariant forall k :: 0 <= k < i ==> data.fatigueData[k] == CurveAt(sh.fatigue.start, sh.fatigue.end, n, k)
      invariant forall k :: 0 <= k < i ==> data.confidenceData[k] == CurveAt(sh.confidence.start, sh.confidence.end, n, k)
    {
      var t := i as real / (n - 1) as real;
      data.accuracyData[i] := Lerp(sh.accuracy.start, sh.accuracy.end, t);
      data.velocityData[i] := Lerp(sh.velocity.start, sh.velocity.end, t);
      data.fatigueData[i] := Lerp(sh.fatigue.start, sh.fatigue.end, t);
      data.confidenceData[i] := Lerp(sh.confidence.start, sh.confidence.end, t);
      i := i + 1;
    }
    assert data.accuracyData[..] == BaseCurve(sh.accuracy, n);
    assert data.velocityData[..] == BaseCurve(sh.velocity, n);
    assert data.fatigueData[..] == BaseCurve(sh.fatigue, n);
    assert data.confidenceData[..] == BaseCurve(sh.confidence, n);
  }

  // ------------------------------------------------------------------ schedules

  /** The candidates kept by a loop that appends each candidate and stops at the
      first one that reaches `bound`. */
  function TakeBelow(s: seq<int>, bound: int): (r: seq<int>)
    ensures |r| <= |s| && r == s[..|r|]
    ensures forall k :: 0 <= k < |r| ==> r[k] < bound
    ensures |r| < |s| ==> s[|r|] >= bound
  {
    if s == [] || s[0] >= bound then []
    else [s[0]] + TakeBelow(s[1..], bound)
  }

  /** When the first n candidates are below the bound and the next one (if any) is
      not, exactly those n are kept. */
  lemma {:induction false} TakeBelowStops(s: seq<int>, bound: int, n: int)
    requires 0 <= n <= |s|
    requires forall k :: 0 <= k < n ==> s[k] < bound
    requires n == |s| || s[n] >= bound
    ensures TakeBelow(s, bound) == s[..n]
  {
    var r := TakeBelow(s, bound);
    assert |r| == n;
  }

  /** Reason indices that all address the table. */
  predicate ValidPicks(table: seq<string>, picks: seq<int>, m: int)
  {
    0 <= m <= |picks| && forall k :: 0 <= k < m ==> 0 <= picks[k] < |table|
  }

  /** The reasons chosen for the first m events, one table entry per event. */
  function PickReasons(table: seq<string>, picks: seq<int>, m: int): (r: seq<string>)
    requires ValidPicks(table, picks, m)
    ensures |r| == m && forall k :: 0 <= k < m ==> r[k] in table
  {
    seq(m, k requires 0 <= k < m => table[picks[k]])
  }

  // -------------------------------------------------------------------- impacts

  predicate InWindow(i: int, frame: int, window: int)
  {
    frame - window <= i <= frame + window
  }

  /** Weight of frame i in the impact around `frame`: 1 at the centre, falling
      linearly to 0 at distance `window`. */
  function Weight(i: int, frame: int, window: int): real
    requires window > 0
  {
    1.0 - Abs(i - frame) as real / window as real
  }

  lemma WeightBounds(i: int, frame: int, window: int)
    requires window > 0 && InWindow(i, frame, window)
    ensures 0.0 <= Weight(i, frame, window) <= 1.0
    ensures Abs(i - frame) == window ==> Weight(i, frame, window) == 0.0
    ensures i == frame ==> Weight(i, frame, window) == 1.0
  {
    var q := Abs(i - frame) as real / window as real;
    assert q * window as real == Abs(i - frame) as real;
    assert 0.0 <= q <= 1.0;
  }

  /** Frame k of a channel after one impact: inside the window it is raised (or
      lowered) by magnitude x severity x weight and clamped to [lo, hi]; outside the window
      it keeps its value. */
  function ImpactAt(v: real, k: int, frame: int, window: int, magnitude: real, severity: real, raise: bool, lo: real, hi: real): real
    requires window > 0
  {
    if InWindow(k, frame, window) then
      var w := Weight(k, frame, window);
      Clamp(if raise then v + Scaled(magnitude, severity, w) else v - Scaled(magnitude, severity, w), lo, hi)
    else v
  }

  /** magnitude x severity x weight, the amount an impact moves a frame by. */
  function Scaled(magnitude: real, severity: real, w: real): real
  {
    magnitude * severity * w
  }

  /** One channel after one impact. */
  function ImpactChannel(s: seq<real>, frame: int, window: int, magnitude: real, severity: real, raise: bool, lo: real, hi: real): seq<real>
    requires window > 0
  {
    seq(|s|, k requires 0 <= k < |s| => ImpactAt(s[k], k, frame, window, magnitude, severity, raise, lo, hi))
  }

  /** One channel after the impacts of a whole schedule, applied in schedule order. */
  function ImpactChannelAll(s: seq<real>, frames: seq<int>, window: int, magnitude: real, severity: real, raise: bool, lo: real, hi: real): (r: seq<real>)
    requires window > 0
    ensures |r| == |s|
    decreases |frames|
  {
    if frames == [] then s
    else ImpactChannel(ImpactChannelAll(s, frames[..|frames| - 1], window, magnitude, severity, raise, lo, hi),
                       frames[|frames| - 1], window, magnitude, severity, raise, lo, hi)
  }

  /** Moved(v, r, raise): r is not below v when raising and not above it when
      lowering. */
  predicate Moved(v: real, r: real, raise: bool)
  {
    if raise then v <= r else r <= v
  }

  /** A single impact keeps a frame in [lo, hi], only moves it in the impact's
      direction, and leaves it alone outside the window and at the window's two
      edges, where the weight is zero. */
  lemma ImpactAtFacts(v: real, k: int, frame: int, window: int, magnitude: real, severity: real, raise: bool, lo: real, hi: real)
    requires window > 0 && lo <= v <= hi && magnitude >= 0.0 && severity >= 0.0
    ensures var r := ImpactAt(v, k, frame, window, magnitude, severity, raise, lo, hi);
      lo <= r <= hi && Moved(v, r, raise)
      && (!InWindow(k, frame, window) || Abs(k - frame) == window ==> r == v)
  {
    if InWindow(k, frame, window) {
      WeightBounds(k, frame, window);
      MulNonNegative(magnitude, severity);
      MulNonNegative(magnitude * severity, Weight(k, frame, window));
      assert Scaled(magnitude, severity, Weight(k, frame, window)) >= 0.0;
    }
  }


  /** Frame k is farther than the half-window from every scheduled frame. */
  predicate Untouched(k: int, frames: seq<int>, window: int)
  {
    forall j :: 0 <= j < |frames| ==> !InWindow(k, frames[j], window)
  }

  /** After all the impacts of a schedule a channel is still in [lo, hi], every
      frame moved only in the impacts' direction, and frames outside every window
      keep their value. */
  lemma {:induction false} ImpactChannelAllFacts(s: seq<real>, frames: seq<int>, window: int, magnitude: real, severity: real, raise: bool, lo: real, hi: real)
    requires window > 0 && InRange(s, lo, hi) && magnitude >= 0.0 && severity >= 0.0
    ensures var r := ImpactChannelAll(s, frames, window, magnitude, severity, raise, lo, hi);
      InRange(r, lo, hi)
      && (forall k :: 0 <= k < |s| ==> Moved(s[k], r[k], raise))
      && (forall k :: 0 <= k < |s| && Untouched(k, frames, window) ==> r[k] == s[k])
    decreases |frames|
  {
    if frames != [] {
      var init := frames[..|frames| - 1];
      var f := frames[|frames| - 1];
      var p := ImpactChannelAll(s, init, window, magnitude, severity, raise, lo, hi);
      ImpactChannelAllFacts(s, init, window, magnitude, severity, raise, lo, hi);
      var r := ImpactChannelAll(s, frames, window, magnitude, severity, raise, lo, hi);
      forall k | 0 <= k < |s|
        ensures lo <= r[k] <= hi && Moved(s[k], r[k], raise)
        ensures Untouched(k, frames, window) ==> r[k] == s[k]
      {
        ImpactAtFacts(p[k], k, f, window, magnitude, severity, raise, lo, hi);
        if Untouched(k, frames, window) {
          assert Untouched(k, init, window) by {
            forall j | 0 <= j < |init| ensures !InWindow(k, init[j], window) {
              assert init[j] == frames[j];
            }
          }
          assert !InWindow(k, frames[|frames| - 1], window);
        }
      }
    }
  }

  /** `ApplyAnomalyImpact` on all four channels: accuracy, velocity and confidence
      are lowered by magnitude x severity x weight, fatigue is raised by it. */
  function ImpactOne(c: Channels, frame: int, imp: Impact): Channels
    requires imp.window > 0
  {
    Channels(
      ImpactChannel(c.accuracy, frame, imp.window, imp.accuracy, imp.severity, false, 0.0, 100.0),
      ImpactChannel(c.velocity, frame, imp.window, imp.velocity, imp.severity, false, 0.2, 3.0),
      ImpactChannel(c.fatigue, frame, imp.window, imp.fatigue, imp.severity, true, 0.0, 100.0),
      ImpactChannel(c.confidence, frame, imp.window, imp.confidence, imp.severity, false, 0.0, 100.0))
  }

  /** The four channels after the impacts of a whole schedule. */
  function ImpactAll(c: Channels, frames: seq<int>, imp: Impact): Channels
    requires imp.window > 0
  {
    Channels(
      ImpactChannelAll(c.accuracy, frames, imp.window, imp.accuracy, imp.severity, false, 0.0, 100.0),
      ImpactChannelAll(c.velocity, frames, imp.window, imp.velocity, imp.severity, false, 0.2, 3.0),
      ImpactChannelAll(c.fatigue, frames, imp.window, imp.fatigue, imp.severity, true, 0.0, 100.0),
      ImpactChannelAll(c.confidence, frames, imp.window, imp.confidence, imp.severity, false, 0.0, 100.0))
  }

  /** c2 is no better than c1 anywhere: accuracy, velocity and confidence are never
      higher, fatigue never lower. */
  predicate NoBetter(c1: Channels, c2: Channels)
  {
    |c2.accuracy| == |c1.accuracy| && |c2.velocity| == |c1.velocity|
    && |c2.fatigue| == |c1.fatigue| && |c2.confidence| == |c1.confidence|
    && (forall k :: 0 <= k < |c1.accuracy| ==> c2.accuracy[k] <= c1.accuracy[k])
    && (forall k :: 0 <= k < |c1.velocity| ==> c2.velocity[k] <= c1.velocity[k])
    && (forall k :: 0 <= k < |c1.fatigue| ==> c1.fatigue[k] <= c2.fatigue[k])
    && (forall k :: 0 <= k < |c1.confidence| ==> c2.confidence[k] <= c1.confidence[k])
  }

  /** c2 equals c1 at frame k on every channel. */
  predicate SameAt(c1: Channels, c2: Channels, k: int)
    requires ChannelsOfLength(c1, |c1.accuracy|) && ChannelsOfLength(c2, |c1.accuracy|)
    requires 0 <= k < |c1.accuracy|
  {
    c2.accuracy[k] == c1.accuracy[k] && c2.velocity[k] == c1.velocity[k]
    && c2.fatigue[k] == c1.fatigue[k] && c2.confidence[k] == c1.confidence[k]
  }

  /** After all impacts every channel is still in its range, no impact improved any
      frame, and frames outside every window keep their value. */
  lemma ImpactAllFacts(c: Channels, frames: seq<int>, imp: Impact)
    requires imp.WellFormed() && ChannelsInRange(c) && ChannelsOfLength(c, |c.accuracy|)
    ensures var r := ImpactAll(c, frames, imp);
      ChannelsOfLength(r, |c.accuracy|) && ChannelsInRange(r) && NoBetter(c, r)
      && forall k :: 0 <= k < |c.accuracy| && Untouched(k, frames, imp.window) ==> SameAt(c, r, k)
  {
    ImpactChannelAllFacts(c.accuracy, frames, imp.window, imp.accuracy, imp.severity, false, 0.0, 100.0);
    ImpactChannelAllFacts(c.velocity, frames, imp.window, imp.velocity, imp.severity, false, 0.2, 3.0);
    ImpactChannelAllFacts(c.fatigue, frames, imp.window, imp.fatigue, imp.severity, true, 0.0, 100.0);
    ImpactChannelAllFacts(c.confidence, frames, imp.window, imp.confidence, imp.severity, false, 0.0, 100.0);
  }

  /** A channel part-way through the impact loop: frames before `upto` have been
      processed. */
  function ImpactPrefix(s: seq<real>, upto: int, frame: int, window: int, magnitude: real, severity: real, raise: bool, lo: real, hi: real): seq<real>
    requires window > 0
  {
    seq(|s|, k requires 0 <= k < |s| =>
      if k < upto then ImpactAt(s[k], k, frame, window, magnitude, severity, raise, lo, hi) else s[k])
  }

  /** Before the window nothing has changed, and after it the whole impact is done. */
  lemma ImpactPrefixEnds(s: seq<real>, frame: int, window: int, magnitude: real, severity: real, raise: bool, lo: real, hi: real)
    requires window > 0
    ensures ImpactPrefix(s, frame - window, frame, window, magnitude, severity, raise, lo, hi) == s
    ensures ImpactPrefix(s, frame + window + 1, frame, window, magnitude, severity, raise, lo, hi)
      == ImpactChannel(s, frame, window, magnitude, severity, raise, lo, hi)
  {
  }

  /** One iteration of the impact loop on one channel: when i is a frame of the
      session and inside the window, writing the moved and clamped value at i extends
      the processed prefix by one frame; any other i changes nothing. */
  lemma ImpactPrefixStep(s: seq<real>, cur: seq<real>, i: int, frame: int, window: int, magnitude: real, severity: real, raise: bool, lo: real, hi: real)
    requires window > 0 && InWindow(i, frame, window)
    requires cur == ImpactPrefix(s, i, frame, window, magnitude, severity, raise, lo, hi)
    ensures 0 <= i < |cur| ==>
      var d := Scaled(magnitude, severity, Weight(i, frame, window));
      cur[i := Clamp(if raise then cur[i] + d else cur[i] - d, lo, hi)]
      == ImpactPrefix(s, i + 1, frame, window, magnitude, severity, raise, lo, hi)
    ensures !(0 <= i < |cur|) ==> cur == ImpactPrefix(s, i + 1, frame, window, magnitude, severity, raise, lo, hi)
  {
  }

  /** `ApplyAnomalyImpact`: one pass over [frame - window, frame + window], skipping
      indices outside the session, updating the four channels in place. */
  method ApplyAnomalyImpact(data: SessionData, frame: int, imp: Impact)
    requires data.Valid() && imp.window > 0
    modifies data.accuracyData, data.velocityData, data.fatigueData, data.confidenceData
    ensures Snapshot(data) == ImpactOne(old(Snapshot(data)), frame, imp)
  {
    ghost var c0 := Snapshot(data);
    var n := data.totalFrames;
    var i := frame - imp.window;
    ImpactPrefixEnds(c0.accuracy, frame, imp.window, imp.accuracy, imp.severity, false, 0.0, 100.0);
    ImpactPrefixEnds(c0.velocity, frame, imp.window, imp.velocity, imp.severity, false, 0.2, 3.0);
    ImpactPrefixEnds(c0.fatigue, frame, imp.window, imp.fatigue, imp.severity, true, 0.0, 100.0);
    ImpactPrefixEnds(c0.confidence, frame, imp.window, imp.confidence, imp.severity, false, 0.0, 100.0);
    while i <= frame + imp.window
      invariant frame - imp.window <= i <= frame + imp.window + 1
      invariant data.accuracyData[..] == ImpactPrefix(c0.accuracy, i, frame, imp.window, imp.accuracy, imp.severity, false, 0.0, 100.0)
      invariant data.velocityData[..] == ImpactPrefix(c0.velocity, i, frame, imp.window, imp.velocity, imp.severity, false, 0.2, 3.0)
      invariant data.fatigueData[..] == ImpactPrefix(c0.fatigue, i, frame, imp.window, imp.fatigue, imp.severity, true, 0.0, 100.0)
      invariant data.confidenceData[..] == ImpactPrefix(c0.confidence, i, frame, imp.window, imp.confidence, imp.severity, false, 0.0, 100.0)
    {
      ImpactPrefixStep(c0.accuracy, data.accuracyData[..], i, frame, imp.window, imp.accuracy, imp.severity, false, 0.0, 100.0);
      ImpactPrefixStep(c0.velocity, data.velocityData[..], i, frame, imp.window, imp.velocity, imp.severity, false, 0.2, 3.0);
      ImpactPrefixStep(c0.fatigue, data.fatigueData[..], i, frame, imp.window, imp.fatigue, imp.severity, true, 0.0, 100.0);
      ImpactPrefixStep(c0.confidence, data.confidenceData[..], i, frame, imp.window, imp.confidence, imp.severity, false, 0.0, 100.0);
      if 0 <= i < n {
        var w := Weight(i, frame, imp.window);
        data.accuracyData[i] := Clamp(data.accuracyData[i] - Scaled(imp.accuracy, imp.severity, w), 0.0, 100.0);
        data.velocityData[i] := Clamp(data.velocityData[i] - Scaled(imp.velocity, imp.severity, w), 0.2, 3.0);
        data.fatigueData[i] := Clamp(data.fatigueData[i] + Scaled(imp.fatigue, imp.severity, w), 0.0, 100.0);
        data.confidenceData[i] := Clamp(data.confidenceData[i] - Scaled(imp.confidence, imp.severity, w), 0.0, 100.0);
      }
      i := i + 1;
    }
  }

  /** The `foreach` over the schedule that applies one impact per event. */
  method ApplyImpacts(data: SessionData, frames: seq<int>, imp: Impact)
    requires data.Valid() && imp.window > 0
    modifies data.accuracyData, data.velocityData, data.fatigueData, data.confidenceData
    ensures Snapshot(data) == ImpactAll(old(Snapshot(data)), frames, imp)
  {
    ghost var c0 := Snapshot(data);
    var j := 0;
    while j < |frames|
      invariant 0 <= j <= |frames|
      invariant Snapshot(data) == ImpactAll(c0, frames[..j], imp)
    {
      ApplyAnomalyImpact(data, frames[j], imp);
      assert frames[..j + 1][..j] == frames[..j];
      j := j + 1;
    }
    assert frames[..|frames|] == frames;
  }
}
