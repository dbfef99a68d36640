/** The consolidated dashboard: three threshold classifiers, the metric cards they
    colour, and the insight message chosen from the bus, with an active anomaly
    taking priority over the status-based message. */
module Dashboard {
  import opened Text
  import opened Metrics
  import opened EnhancedChart
  import opened Feeder

  /** The three categories every classifier returns; a colour in the source. */
  datatype Status = Good | Caution | Alert

  /** Severity order: Good below Caution below Alert. */
  function Rank(s: Status): nat
  {
    match s
    case Good => 0
    case Caution => 1
    case Alert => 2
  }

  /** `GetStatusFromAccuracyFatigue`: Good needs accuracy at least 70 and fatigue
      below 65; otherwise accuracy in [50, 70) or fatigue in [65, 85] is Caution
      (the `&&` binding tighter than the `||`); the rest is Alert. So Alert covers
      exactly low accuracy with fatigue outside [65, 85], and high accuracy with
      fatigue above 85. */
  function AccuracyFatigueStatus(accuracy: real, fatigue: real): (s: Status)
    ensures s == Good <==> accuracy >= 70.0 && fatigue < 65.0
    ensures s == Alert <==>
      (accuracy < 50.0 && (fatigue < 65.0 || fatigue > 85.0)) || (accuracy >= 70.0 && fatigue > 85.0)
  {
    if accuracy >= 70.0 && fatigue < 65.0 then Good
    else if (accuracy >= 50.0 && accuracy < 70.0) || (fatigue >= 65.0 && fatigue <= 85.0) then Caution
    else Alert
  }

  /** `GetStatusFromVelocity`: Good on [0.8, 1.5], Alert below 0.5, Caution on
      [0.5, 0.8) and above 1.5. */
  function VelocityStatus(velocity: real): (s: Status)
    ensures s == Good <==> 0.8 <= velocity <= 1.5
    ensures s == Alert <==> velocity < 0.5
  {
    if velocity >= 0.8 && velocity <= 1.5 then Good
    else if (velocity >= 0.5 && velocity < 0.8) || velocity > 1.5 then Caution
    else Alert
  }

  /** `GetStatusFromConfidence`: Good from 80, Caution on [60, 80), Alert below 60. */
  function ConfidenceStatus(confidence: real): (s: Status)
    ensures s == Good <==> confidence >= 80.0
    ensures s == Alert <==> confidence < 60.0
  {
    if confidence >= 80.0 then Good
    else if confidence >= 60.0 && confidence < 80.0 then Caution
    else Alert
  }

  /** More confidence never makes the confidence card worse. */
  lemma ConfidenceMonotone(c1: real, c2: real)
    requires c1 <= c2
    ensures Rank(ConfidenceStatus(c2)) <= Rank(ConfidenceStatus(c1))
  {
  }

  /** Up to the top of the normal range, more velocity never makes the velocity card
      worse; above it, the card drops from Good to Caution. */
  lemma VelocityMonotoneBelowRange(v1: real, v2: real)
    requires v1 <= v2 <= 1.5
    ensures Rank(VelocityStatus(v2)) <= Rank(VelocityStatus(v1))
    ensures VelocityStatus(1.5) == Good && VelocityStatus(1.6) == Caution
  {
  }

  /** The accuracy/fatigue status is not monotone in either input: with accuracy
      below 50, raising fatigue from below 65 into [65, 85] improves Alert to Caution;
      with fatigue above 85, raising accuracy from [50, 70) to 70 or more worsens
      Caution to Alert. */
  lemma AccuracyFatigueNotMonotone(accuracy: real, f1: real, f2: real)
    requires accuracy < 50.0 && f1 < 65.0 && 65.0 <= f2 <= 85.0
    ensures AccuracyFatigueStatus(accuracy, f1) == Alert
    ensures AccuracyFatigueStatus(accuracy, f2) == Caution
    ensures AccuracyFatigueStatus(69.0, 90.0) == Caution && AccuracyFatigueStatus(70.0, 90.0) == Alert
  {
  }

  /** The four card statuses in the order accuracy, velocity, fatigue, confidence. */
  function CardStatuses(accuracy: real, velocity: real, fatigue: real, confidence: real): (s: seq<Status>)
    ensures |s| == 4
    ensures s[0] == s[2] == AccuracyFatigueStatus(accuracy, fatigue)
    ensures s[1] == VelocityStatus(velocity) && s[3] == ConfidenceStatus(confidence)
  {
    var af := AccuracyFatigueStatus(accuracy, fatigue);
    [af, VelocityStatus(velocity), af, ConfidenceStatus(confidence)]
  }

  /** The fatigue card shares the accuracy card's status: it moves with accuracy
      even when fatigue stays put. */
  lemma FatigueCardFollowsAccuracy(velocity: real, fatigue: real, confidence: real)
    requires 65.0 > fatigue
    ensures CardStatuses(80.0, velocity, fatigue, confidence)[2] == Good
    ensures CardStatuses(40.0, velocity, fatigue, confidence)[2] == Alert
  {
  }

  /** Decimals of the accuracy, velocity, fatigue and confidence cards. */
  const CardDecimals: seq<nat> := [1, 2, 1, 1]
  /** Units of the accuracy, velocity, fatigue and confidence cards. */
  const CardUnits: seq<string> := ["%", " m/s", "%", "%"]

  /** The four card texts: each value with its card's decimals, then its unit. */
  function CardTexts(values: seq<real>): (ts: seq<string>)
    requires |values| == 4
    ensures |ts| == 4
    ensures forall k :: 0 <= k < 4 ==>
      |ts[k]| >= |CardUnits[k]| + CardDecimals[k] + 2
      && ts[k][|ts[k]| - |CardUnits[k]|..] == CardUnits[k]
      && NumberChars(ts[k][..|ts[k]| - |CardUnits[k]|])
  {
    seq(4, k requires 0 <= k < 4 => CardText(values[k], CardDecimals[k], CardUnits[k]))
  }

  /** A value with `decimals` decimals followed by its unit. */
  function CardText(value: real, decimals: nat, unit: string): (t: string)
    requires decimals > 0
    ensures |t| >= |unit| + decimals + 2
    ensures t[|t| - |unit|..] == unit && NumberChars(t[..|t| - |unit|])
    ensures t[|t| - |unit| - decimals - 1] == '.'
  {
    var n := FormatFixed(value, decimals);
    var t := n + unit;
    assert t[..|t| - |unit|] == n && t[|t| - |unit|..] == unit;
    t
  }

  /** What the insight panel shows: title, body, recommendation and icon colour. */
  datatype Insight = Insight(title: string, body: string, recommendation: string, icon: Status)

  const AnomalyTitle: string := "\U{1F6A8} Anomaly Detected"
  const AnomalyDefaultBody: string := "The system detected an irregular performance pattern."
  const AnomalyRecommendation: string := "Pause or slow the session and assess the patient's condition."

  /** The messages of the three accuracy/fatigue statuses. */
  const GoodInsight: Insight :=
    Insight("✅ All Metrics Within Safe Range",
            "Patient performance is stable and within expected parameters.",
            "Keep current pace.", Good)
  const CautionInsight: Insight :=
    Insight("\U{1F6A8} Performance Deteriorating",
            "Accuracy or fatigue levels are approaching unsafe thresholds.",
            "Consider reducing intensity or taking a short rest.", Caution)
  const AlertInsight: Insight :=
    Insight("⛔ Alert: Unsafe Performance",
            "Metrics indicate a high-risk state (low accuracy and/or high fatigue).",
            "Stop the exercise and allow the patient to recover.", Alert)

  /** The message for an accuracy/fatigue status, coloured by that status. */
  function StatusInsight(s: Status): (i: Insight)
    ensures i.icon == s && i.title != AnomalyTitle
  {
    match s
    case Good => GoodInsight
    case Caution => CautionInsight
    case Alert => AlertInsight
  }

  /** `UpdateInsightPanel`: an active anomaly wins, with its reason as the body (a
      fixed sentence when the reason is empty) and the alert colour; otherwise the
      message of the accuracy/fatigue status. */
  function InsightFor(anomalyDetected: bool, reason: string, accuracy: real, fatigue: real): (i: Insight)
    ensures anomalyDetected ==>
      i.title == AnomalyTitle && i.recommendation == AnomalyRecommendation && i.icon == Alert
      && i.body == (if reason == [] then AnomalyDefaultBody else reason)
    ensures !anomalyDetected ==> i == StatusInsight(AccuracyFatigueStatus(accuracy, fatigue))
    ensures i.title == AnomalyTitle <==> anomalyDetected
    ensures i.icon == Alert <==> anomalyDetected || AccuracyFatigueStatus(accuracy, fatigue) == Alert
  {
    if anomalyDetected then
      Insight(AnomalyTitle, if reason == [] then AnomalyDefaultBody else reason,
              AnomalyRecommendation, Alert)
    else StatusInsight(AccuracyFatigueStatus(accuracy, fatigue))
  }

  /** While an anomaly is active the metrics have no say in the insight. */
  lemma AnomalyOverridesMetrics(reason: string, a1: real, f1: real, a2: real, f2: real)
    ensures InsightFor(true, reason, a1, f1) == InsightFor(true, reason, a2, f2)
  {
  }

  const NoValue: string := "--"
  const NoDataTitle: string := "No Data"
  const NoDataBody: string := "Generate and play a session to view insights."

  class ConsolidatedDashboard {
    const metricsBus: MetricsBus?
    const chartFeeder: ChartFeederUI?
    /** Accuracy, velocity, fatigue and confidence card texts. */
    var valueTexts: seq<string>
    /** Status of each card's dot and background, in the same order. */
    var cardStatuses: seq<Status>
    var insightTitle: string
    var insightBody: string
    var insightRecommendation: string
    var insightIcon: Status

    ghost predicate Valid()
      reads this
    {
      |valueTexts| == 4 && |cardStatuses| == 4
    }

    constructor (metricsBus: MetricsBus?, chartFeeder: ChartFeederUI?)
      ensures Valid() && this.metricsBus == metricsBus && this.chartFeeder == chartFeeder
      ensures valueTexts == [NoValue, NoValue, NoValue, NoValue]
      ensures cardStatuses == [Good, Good, Good, Good]
    {
      this.metricsBus := metricsBus;
      this.chartFeeder := chartFeeder;
      valueTexts := [NoValue, NoValue, NoValue, NoValue];
      cardStatuses := [Good, Good, Good, Good];
      insightTitle, insightBody, insightRecommendation := NoDataTitle, NoDataBody, [];
      insightIcon := Good;
    }

    /** What `UpdateFromMetrics` shows for the snapshot `m`: each card's text and
        colour from its metric, and the insight chosen from the anomaly and the
        metrics. */
    ghost predicate ShowsMetrics(m: Snapshot)
      reads this
    {
      ShowsCards(m)
      && Insight(insightTitle, insightBody, insightRecommendation, insightIcon)
         == InsightFor(m.anomalyDetected, m.anomalyReason, m.accuracy, m.fatigue)
    }

    /** The four cards for `m`: each value's text and each card's status. */
    ghost predicate ShowsCards(m: Snapshot)
      reads this
    {
      valueTexts == CardTexts([m.accuracy, m.velocity, m.fatigue, m.confidence])
      && cardStatuses == CardStatuses(m.accuracy, m.velocity, m.fatigue, m.confidence)
    }

    /** What `ResetDashboard` shows: "--" on every card, every card Good, and the
        "No Data" insight with an empty recommendation. */
    ghost predicate ShowsNoData()
      reads this
    {
      valueTexts == [NoValue, NoValue, NoValue, NoValue] && cardStatuses == [Good, Good, Good, Good]
      && insightTitle == NoDataTitle && insightBody == NoDataBody && insightRecommendation == []
    }

    /** `UpdateFromMetrics`: nothing without a bus; otherwise the cards show and are
        coloured by the bus's values and the insight is chosen from them. */
    method UpdateFromMetrics()
      requires Valid()
      modifies this
      ensures Valid()
      ensures metricsBus == null ==>
        valueTexts == old(valueTexts) && cardStatuses == old(cardStatuses)
        && insightTitle == old(insightTitle) && insightBody == old(insightBody)
        && insightRecommendation == old(insightRecommendation) && insightIcon == old(insightIcon)
      ensures metricsBus != null ==> ShowsMetrics(metricsBus.Current())
    {
      if metricsBus == null {
        return;
      }
      var acc, vel, fat, conf := metricsBus.Accuracy, metricsBus.Velocity, metricsBus.Fatigue, metricsBus.Confidence;
      valueTexts := CardTexts([acc, vel, fat, conf]);
      cardStatuses := CardStatuses(acc, vel, fat, conf);
      var i := InsightFor(metricsBus.AnomalyDetected, metricsBus.AnomalyReason, acc, fat);
      insightTitle, insightBody, insightRecommendation, insightIcon := i.title, i.body, i.recommendation, i.icon;
    }

    /** `ResetDashboard`: clears the feeder's charts, shows "--" on every card, the
        "No Data" insight with an empty recommendation, and every card Good; the
        insight icon keeps its colour. */
    method ResetDashboard()
      requires Valid()
      requires chartFeeder != null ==>
        (chartFeeder.accuracyChart != chartFeeder.velocityChart || chartFeeder.accuracyChart == null)
        && (chartFeeder.accuracyChart != chartFeeder.fatigueChart || chartFeeder.accuracyChart == null)
        && (chartFeeder.velocityChart != chartFeeder.fatigueChart || chartFeeder.velocityChart == null)
      modifies this
      modifies if chartFeeder == null then {} else {chartFeeder.accuracyChart, chartFeeder.velocityChart, chartFeeder.fatigueChart}
      ensures Valid()
      ensures ShowsNoData() && insightIcon == old(insightIcon)
      ensures chartFeeder != null && chartFeeder.accuracyChart != null ==> chartFeeder.accuracyChart.Points == []
      ensures chartFeeder != null && chartFeeder.velocityChart != null ==> chartFeeder.velocityChart.Points == []
      ensures chartFeeder != null && chartFeeder.fatigueChart != null ==> chartFeeder.fatigueChart.Points == []
    {
      if chartFeeder != null {
        chartFeeder.ClearAll();
      }
      valueTexts := [NoValue, NoValue, NoValue, NoValue];
      insightTitle, insightBody, insightRecommendation := NoDataTitle, NoDataBody, [];
      cardStatuses := [Good, Good, Good, Good];
    }
  }
}
