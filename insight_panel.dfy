/** The insight panel: a counter of anomaly onsets with the time of the latest one,
    and a message chosen from the playback state and, while playing, by a
    first-match priority chain over the bus's metrics. The clock is a parameter. */
module InsightPanel {
  import opened Text
  import opened States
  import opened Metrics
  import opened Dashboard
  import opened Edges

  /** Which message the priority chain picks while playing. */
  datatype Topic =
    | AnomalyTopic | CriticalFatigue | LowAccuracy
    | FatigueIncreasing | AccuracyDeclining | VelocityLow | Stable

  /** The icon colour of each topic: the first three alert, the next three caution,
      the stable message good. */
  function TopicStatus(t: Topic): Status
  {
    match t
    case AnomalyTopic => Alert
    case CriticalFatigue => Alert
    case LowAccuracy => Alert
    case FatigueIncreasing => Caution
    case AccuracyDeclining => Caution
    case VelocityLow => Caution
    case Stable => Good
  }

  /** An anomaly counts as active while the bus reports one, or for `holdSeconds`
      after the latest onset. */
  predicate AnomalyActive(detected: bool, now: real, lastDetectedTime: real, holdSeconds: real)
  {
    detected || now - lastDetectedTime < holdSeconds
  }

  /** `UpdatePlayingInsight`'s chain: anomaly, fatigue above 85, accuracy below 70,
      fatigue above 65, accuracy below 80, velocity below 0.5, and otherwise
      stable; the first that holds wins. */
  function PlayingTopic(anomalyActive: bool, accuracy: real, velocity: real, fatigue: real): (t: Topic)
    ensures TopicStatus(t) == Alert <==> anomalyActive || fatigue > 85.0 || accuracy < 70.0
    ensures TopicStatus(t) == Good <==>
      !anomalyActive && fatigue <= 65.0 && accuracy >= 80.0 && velocity >= 0.5
    ensures anomalyActive ==> t == AnomalyTopic
    ensures t == VelocityLow ==> velocity < 0.5 && 70.0 <= accuracy && fatigue <= 65.0
  {
    if anomalyActive then AnomalyTopic
    else if fatigue > 85.0 then CriticalFatigue
    else if accuracy < 70.0 then LowAccuracy
    else if fatigue > 65.0 then FatigueIncreasing
    else if accuracy < 80.0 then AccuracyDeclining
    else if velocity < 0.5 then VelocityLow
    else Stable
  }

  /** Whenever the dashboard's accuracy/fatigue status is Alert, the panel's colour
      is Alert as well. */
  lemma DashboardAlertIsPanelAlert(anomalyActive: bool, accuracy: real, velocity: real, fatigue: real)
    requires AccuracyFatigueStatus(accuracy, fatigue) == Alert
    ensures TopicStatus(PlayingTopic(anomalyActive, accuracy, velocity, fatigue)) == Alert
  {
  }

  /** A stable panel means a Good dashboard, except at fatigue exactly 65, where the
      panel says stable and the dashboard says Caution. */
  lemma StableIsDashboardGood(accuracy: real, velocity: real, fatigue: real)
    requires PlayingTopic(false, accuracy, velocity, fatigue) == Stable
    ensures fatigue != 65.0 ==> AccuracyFatigueStatus(accuracy, fatigue) == Good
    ensures fatigue == 65.0 ==> AccuracyFatigueStatus(accuracy, fatigue) == Caution
  {
  }

  /** "{x:F1}%". */
  function Percent(x: real): (t: string)
    ensures |t| >= 4 && t[|t| - 1] == '%' && NumberChars(t[..|t| - 1]) && t[|t| - 3] == '.'
  {
    var n := FormatFixed(x, 1);
    assert (n + "%")[..|n|] == n;
    n + "%"
  }

  /** "{x:F2} m/s". */
  function Speed(x: real): (t: string)
    ensures |t| >= 8 && t[|t| - 4..] == " m/s" && NumberChars(t[..|t| - 4]) && t[|t| - 7] == '.'
  {
    var n := FormatFixed(x, 2);
    assert (n + " m/s")[..|n|] == n && (n + " m/s")[|n|..] == " m/s";
    n + " m/s"
  }

  /** The wording of the playing topics' titles, the labels their bodies start
      with, and their recommendations. */
  const AnomalyTopicTitle: string := "\U{1F6A8} Anomaly Detected"
  const CriticalFatigueTitle: string := "\U{1F6A8} Critical Fatigue"
  const LowAccuracyTitle: string := "\U{1F6A8} Low Accuracy"
  const FatigueIncreasingTitle: string := "\U{1F6A8} Fatigue Increasing"
  const AccuracyDecliningTitle: string := "\U{1F6A8} Accuracy Declining"
  const VelocityLowTitle: string := "\U{1F6A8} Velocity Low"
  const StableTitle: string := " All Metrics Within Safe Range"
  const AnomalyTypeLabel: string := "Anomaly Type: "
  const CriticalFatigueLabel: string := "Fatigue level extremely high: "
  const LowAccuracyLabel: string := "Performance accuracy critically low: "
  const FatigueIncreasingLabel: string := "Fatigue level rising: "
  const AccuracyDecliningLabel: string := "Performance accuracy dropping: "
  const VelocityLowLabel: string := "Movement velocity below optimal: "
  const AnomalyCountSentence: string := "Monitor patient closely. Total anomalies: "
  const CriticalFatigueAdvice: string := "Recommend immediate rest break. Patient at risk of overexertion."
  const LowAccuracyAdvice: string := "Reduce exercise intensity. Focus on proper form."
  const FatigueIncreasingAdvice: string := "Monitor closely. Prepare for potential rest break."
  const AccuracyDecliningAdvice: string := "Encourage patient to maintain focus and proper technique."
  const VelocityLowAdvice: string := "Check patient comfort and range of motion."

  /** The wording of the paused message. */
  const PausedTitle: string := "Playback Paused"
  const PausedBody: string := "Metrics held for review."
  const PausedCountLabel: string := "Total anomalies detected: "

  /** The title of each topic; no two topics share one. */
  function TopicTitle(t: Topic): string
  {
    match t
    case AnomalyTopic => AnomalyTopicTitle
    case CriticalFatigue => CriticalFatigueTitle
    case LowAccuracy => LowAccuracyTitle
    case FatigueIncreasing => FatigueIncreasingTitle
    case AccuracyDeclining => AccuracyDecliningTitle
    case VelocityLow => VelocityLowTitle
    case Stable => StableTitle
  }

  /** A text that ends in the decimal digits of `count` after a space. */
  predicate CountSuffix(text: string, count: nat)
  {
    var digits := NatToString(count);
    |text| > |digits| && text[|text| - |digits| - 1] == ' ' && text[|text| - |digits|..] == digits
  }

  /** `sentence` followed by the count. */
  function WithCount(sentence: string, count: nat): (r: string)
    requires |sentence| > 0 && sentence[|sentence| - 1] == ' '
    ensures CountSuffix(r, count) && |r| > |sentence| && r[..|sentence|] == sentence
  {
    var r := sentence + NatToString(count);
    assert r[|r| - |NatToString(count)|..] == NatToString(count);
    assert r[..|sentence|] == sentence;
    r
  }

  const MonitorClosely: string := "Monitor patient closely."
  const StableSentence: string := "Patient performance is stable and within expected parameters."

  /** The message of a playing topic: its title and colour, its body and its
      recommendation. */
  function PlayingInsight(t: Topic, m: Snapshot, anomalyCount: nat, showAnomalyCount: bool): (i: Insight)
    ensures i.icon == TopicStatus(t) && i.title == TopicTitle(t)
    ensures t == AnomalyTopic ==>
      |i.body| >= 14 && i.body[..14] == AnomalyTypeLabel && i.body[14..] == m.anomalyReason
    ensures (t == AnomalyTopic || t == Stable) && showAnomalyCount ==>
      CountSuffix(i.recommendation, anomalyCount)
    ensures t == AnomalyTopic && !showAnomalyCount ==> i.recommendation == MonitorClosely
    ensures t == Stable && !showAnomalyCount ==> i.recommendation == StableSentence
  {
    Insight(TopicTitle(t), TopicBody(t, m), TopicRecommendation(t, anomalyCount, showAnomalyCount),
            TopicStatus(t))
  }

  /** The body of a playing topic: the anomaly message names the bus's reason; the
      metric messages quote the metric that triggered them; the stable message
      quotes all three. */
  function TopicBody(t: Topic, m: Snapshot): (body: string)
    ensures t == AnomalyTopic ==>
      |body| >= 14 && body[..14] == AnomalyTypeLabel && body[14..] == m.anomalyReason
  {
    match t
    case AnomalyTopic =>
      var body := AnomalyTypeLabel + m.anomalyReason;
      assert body[..14] == AnomalyTypeLabel && body[14..] == m.anomalyReason;
      body
    case CriticalFatigue => CriticalFatigueLabel + Percent(m.fatigue)
    case LowAccuracy => LowAccuracyLabel + Percent(m.accuracy)
    case FatigueIncreasing => FatigueIncreasingLabel + Percent(m.fatigue)
    case AccuracyDeclining => AccuracyDecliningLabel + Percent(m.accuracy)
    case VelocityLow => VelocityLowLabel + Speed(m.velocity)
    case Stable =>
      "Accuracy: " + Percent(m.accuracy) + " | Velocity: " + Speed(m.velocity)
        + " | Fatigue: " + Percent(m.fatigue)
  }

  /** The recommendation of a playing topic; the anomaly and stable ones end in the
      onset count when the count is shown. */
  function TopicRecommendation(t: Topic, anomalyCount: nat, showAnomalyCount: bool): (r: string)
    ensures (t == AnomalyTopic || t == Stable) && showAnomalyCount ==> CountSuffix(r, anomalyCount)
    ensures t == AnomalyTopic && !showAnomalyCount ==> r == MonitorClosely
    ensures t == Stable && !showAnomalyCount ==> r == StableSentence
  {
    match t
    case AnomalyTopic =>
      if showAnomalyCount then WithCount(AnomalyCountSentence, anomalyCount)
      else MonitorClosely
    case CriticalFatigue => CriticalFatigueAdvice
    case LowAccuracy => LowAccuracyAdvice
    case FatigueIncreasing => FatigueIncreasingAdvice
    case AccuracyDeclining => AccuracyDecliningAdvice
    case VelocityLow => VelocityLowAdvice
    case Stable =>
      if showAnomalyCount then WithCount(StableSentence + " Anomalies: ", anomalyCount)
      else StableSentence
  }

  const ReadyInsight: Insight :=
    Insight("Ready", "Generate a session to begin",
            "Press Generate button, then Play to start visualization.", Good)
  const GeneratingInsight: Insight :=
    Insight("Generating Session", "Creating synthetic rehabilitation data...",
            "Preparing 9,000 frames of patient metrics.", Caution)

  /** The paused message: the onset count so far. */
  function PausedInsight(anomalyCount: nat): (i: Insight)
    ensures i.title == PausedTitle && i.icon == Caution
    ensures |i.recommendation| > 26 && i.recommendation[..26] == PausedCountLabel
    ensures AllDigits(i.recommendation[26..]) && ParseNat(i.recommendation[26..]) == anomalyCount
  {
    var digits := NatToString(anomalyCount);
    var r := PausedCountLabel + digits;
    assert r[..26] == PausedCountLabel && r[26..] == digits;
    ParseNatToString(anomalyCount);
    Insight(PausedTitle, PausedBody, r, Caution)
  }

  /** `UpdateInsight`'s switch on the playback state: fixed texts for Generating and
      Stopped, the onset count for Paused, the priority chain for Playing. */
  function StateInsight(state: SimState, anomalyActive: bool, m: Snapshot,
                        anomalyCount: nat, showAnomalyCount: bool): (i: Insight)
    ensures state == Stopped ==> i == ReadyInsight
    ensures state == Generating ==> i == GeneratingInsight
    ensures state == Paused ==> i == PausedInsight(anomalyCount)
    ensures state == Playing ==>
      i.icon == TopicStatus(PlayingTopic(anomalyActive, m.accuracy, m.velocity, m.fatigue))
    ensures state != Playing ==> i.icon != Alert
  {
    match state
    case Generating => GeneratingInsight
    case Playing =>
      PlayingInsight(PlayingTopic(anomalyActive, m.accuracy, m.velocity, m.fatigue), m,
                     anomalyCount, showAnomalyCount)
    case Paused => PausedInsight(anomalyCount)
    case Stopped => ReadyInsight
  }

  class InsightPanelUI {
    const stateProvider: SimulationStateProvider?
    const metricsBus: MetricsBus?
    var showAnomalyCount: bool
    var anomalyInsightHoldSeconds: real
    var lastAnomalyDetectedTime: real
    var lastAnomalyState: bool
    var anomalyCount: nat
    /** The title, body, recommendation and icon colour on screen. */
    var insight: Insight
    /** The anomaly flags read from the bus since the last reset, oldest first. */
    ghost var seen: seq<bool>

    /** The count is the number of onsets among the flags seen, and the remembered
        state is the last flag seen. */
    ghost predicate Valid()
      reads this
    {
      anomalyCount == RisingEdges(seen) && lastAnomalyState == LastFlag(seen)
    }

    /** The panel is wired to a state provider and a bus and shows the message
        `UpdateInsight` picks at time `now` for the current state and the bus's
        snapshot. */
    ghost predicate ShowsCurrent(now: real)
      reads this, stateProvider, metricsBus
    {
      stateProvider != null && metricsBus != null
      && var m := metricsBus.Current();
      insight == StateInsight(stateProvider.Current,
                              AnomalyActive(m.anomalyDetected, now, lastAnomalyDetectedTime,
                                            anomalyInsightHoldSeconds),
                              m, anomalyCount, showAnomalyCount)
    }

    /** `Awake` with the inspector defaults: the ready message, nothing counted. */
    constructor (stateProvider: SimulationStateProvider?, metricsBus: MetricsBus?)
      ensures Valid() && this.stateProvider == stateProvider && this.metricsBus == metricsBus
      ensures showAnomalyCount && anomalyInsightHoldSeconds == 2.0
      ensures lastAnomalyDetectedTime == -999.0 && anomalyCount == 0 && seen == []
      ensures insight == ReadyInsight
    {
      this.stateProvider := stateProvider;
      this.metricsBus := metricsBus;
      showAnomalyCount := true;
      anomalyInsightHoldSeconds := 2.0;
      lastAnomalyDetectedTime := -999.0;
      lastAnomalyState := false;
      anomalyCount := 0;
      insight := ReadyInsight;
      seen := [];
    }

    /** `UpdateInsight` at time `now`: nothing without a state provider and a bus;
        otherwise the message for the current state. */
    method UpdateInsight(now: real)
      modifies this
      ensures showAnomalyCount == old(showAnomalyCount)
      ensures anomalyInsightHoldSeconds == old(anomalyInsightHoldSeconds)
      ensures lastAnomalyDetectedTime == old(lastAnomalyDetectedTime)
      ensures lastAnomalyState == old(lastAnomalyState) && anomalyCount == old(anomalyCount)
      ensures seen == old(seen)
      ensures stateProvider == null || metricsBus == null ==> insight == old(insight)
      ensures stateProvider != null && metricsBus != null ==> ShowsCurrent(now)
    {
      if stateProvider == null || metricsBus == null {
        return;
      }
      var m := metricsBus.Current();
      var active := m.anomalyDetected || now - lastAnomalyDetectedTime < anomalyInsightHoldSeconds;
      insight := StateInsight(stateProvider.Current, active, m, anomalyCount, showAnomalyCount);
    }

    /** `RefreshInsight` at time `now`: the counting state is untouched and the message
        is the one `UpdateInsight` shows for the current state. */
    method RefreshInsight(now: real)
      requires Valid()
      modifies this
      ensures Valid() && seen == old(seen) && anomalyCount == old(anomalyCount)
      ensures stateProvider == null || metricsBus == null ==> insight == old(insight)
      ensures stateProvider != null && metricsBus != null ==> ShowsCurrent(now)
    {
      UpdateInsight(now);
    }

    /** `OnMetricsUpdated` at time `now`: a raised flag that was lowered before counts
        one onset and stamps its time; the flag is remembered and the message
        refreshed. Nothing happens without a bus. */
    method OnMetricsUpdated(now: real)
      requires Valid()
      modifies this
      ensures Valid()
      ensures metricsBus == null ==> seen == old(seen) && insight == old(insight)
      ensures metricsBus != null ==>
        var flag := metricsBus.AnomalyDetected;
        var rising := flag && !old(lastAnomalyState);
        seen == old(seen) + [flag]
        && anomalyCount == old(anomalyCount) + (if rising then 1 else 0)
        && lastAnomalyDetectedTime == (if rising then now else old(lastAnomalyDetectedTime))
      ensures metricsBus != null && stateProvider != null ==> ShowsCurrent(now)
    {
      if metricsBus == null {
        return;
      }
      var flag := metricsBus.AnomalyDetected;
      EdgeStep(seen, flag);
      if flag && !lastAnomalyState {
        anomalyCount := anomalyCount + 1;
        lastAnomalyDetectedTime := now;
      }
      lastAnomalyState := flag;
      seen := seen + [flag];
      UpdateInsight(now);
    }

    /** `OnStateChanged`: the message is refreshed for every new state except
        Playing, which waits for the next metrics update. */
    method OnStateChanged(newState: SimState, now: real)
      requires Valid()
      modifies this
      ensures Valid() && seen == old(seen) && anomalyCount == old(anomalyCount)
      ensures lastAnomalyDetectedTime == old(lastAnomalyDetectedTime) && showAnomalyCount == old(showAnomalyCount)
      ensures anomalyInsightHoldSeconds == old(anomalyInsightHoldSeconds)
      ensures newState == Playing ==> insight == old(insight)
      ensures newState != Playing && stateProvider != null && metricsBus != null ==> ShowsCurrent(now)
    {
      if newState != Playing {
        UpdateInsight(now);
      }
    }

    /** `ResetAnomalyCount`: no onsets, a lowered flag, the time back to -999, and the
        message refreshed. */
    method ResetAnomalyCount(now: real)
      modifies this
      ensures Valid() && seen == [] && anomalyCount == 0 && !lastAnomalyState
      ensures lastAnomalyDetectedTime == -999.0
      ensures stateProvider != null && metricsBus != null ==> ShowsCurrent(now)
    {
      anomalyCount := 0;
      lastAnomalyState := false;
      lastAnomalyDetectedTime := -999.0;
      seen := [];
      UpdateInsight(now);
    }
  }

  /** After an onset at time t, the playing message stays on the anomaly for any
      metrics read strictly within the hold time, even once the flag drops. */
  lemma AnomalyHeldAfterOnset(t: real, now: real, holdSeconds: real, m: Snapshot)
    requires t <= now < t + holdSeconds
    ensures PlayingTopic(AnomalyActive(m.anomalyDetected, now, t, holdSeconds),
                         m.accuracy, m.velocity, m.fatigue) == AnomalyTopic
  {
  }
}
