/** The anomaly pop-up: it counts each onset of the bus's anomaly flag, shows
    itself with the reason on an onset, and hides once the flag is down and the
    hold time since the latest onset has passed. The clock is a parameter. */
module AnomalyPanel {
  import opened Text
  import opened Metrics
  import opened Edges

  const DefaultReason: string := "An irregular pattern was detected."
  const PanelTitle: string := "⚠ Anomaly Detected"

  /** The reason shown for an onset: the bus's reason, or a fixed sentence when it
      is empty. */
  function ShownReason(reason: string): (r: string)
    ensures r != []
    ensures reason != [] ==> r == reason
  {
    if reason == [] then DefaultReason else reason
  }

  /** "Total anomalies: n". */
  function CountText(total: nat): (r: string)
    ensures |r| > 17 && r[..17] == "Total anomalies: "
    ensures AllDigits(r[17..]) && ParseNat(r[17..]) == total
  {
    var digits := NatToString(total);
    var r := "Total anomalies: " + digits;
    assert r[..17] == "Total anomalies: " && r[17..] == digits;
    ParseNatToString(total);
    r
  }

  /** The panel is hidden by a metrics update when the flag is down, the panel is
      visible, and strictly more than the hold time has passed since the latest
      onset. */
  predicate HidesAt(flag: bool, alpha: real, now: real, lastAnomalyTime: real, holdSeconds: real)
  {
    !flag && alpha > 0.0 && now - lastAnomalyTime > holdSeconds
  }

  /** A raised flag never hides the panel, and within the hold time after an onset
      nothing hides it either. */
  lemma NeverHiddenEarly(flag: bool, alpha: real, now: real, lastAnomalyTime: real, holdSeconds: real)
    requires flag || now - lastAnomalyTime <= holdSeconds
    ensures !HidesAt(flag, alpha, now, lastAnomalyTime, holdSeconds)
  {
  }

  class AnomalyPanelUI {
    const metricsBus: MetricsBus?
    var holdSeconds: real
    var totalAnomalies: nat
    var lastAnomalyFlag: bool
    var lastAnomalyTime: real
    /** The canvas group: opacity, and whether it takes clicks and blocks rays. */
    var alpha: real
    var interactable: bool
    var blocksRaycasts: bool
    var titleText: string
    var reasonText: string
    var countText: string
    /** The anomaly flags read from the bus since the last reset, oldest first. */
    ghost var seen: seq<bool>

    /** The count is the number of onsets among the flags seen, the remembered flag
        is the last one seen, and the panel is either fully shown or fully hidden. */
    ghost predicate Valid()
      reads this
    {
      totalAnomalies == RisingEdges(seen) && lastAnomalyFlag == LastFlag(seen)
      && ((alpha == 1.0 && interactable && blocksRaycasts)
          || (alpha == 0.0 && !interactable && !blocksRaycasts))
    }

    /** `Awake`: hidden, nothing counted, hold time three seconds. */
    constructor (metricsBus: MetricsBus?)
      ensures Valid() && this.metricsBus == metricsBus && holdSeconds == 3.0
      ensures totalAnomalies == 0 && lastAnomalyTime == -999.0 && seen == []
      ensures alpha == 0.0
    {
      this.metricsBus := metricsBus;
      holdSeconds := 3.0;
      totalAnomalies := 0;
      lastAnomalyFlag := false;
      lastAnomalyTime := -999.0;
      alpha, interactable, blocksRaycasts := 0.0, false, false;
      titleText, reasonText, countText := [], [], [];
      seen := [];
    }

    /** `ShowAnomaly`: the title, the reason and the count, fully visible and
        interactive. */
    method ShowAnomaly(reason: string)
      modifies this
      ensures alpha == 1.0 && interactable && blocksRaycasts
      ensures titleText == PanelTitle && reasonText == reason && countText == CountText(totalAnomalies)
      ensures holdSeconds == old(holdSeconds)
      ensures totalAnomalies == old(totalAnomalies) && lastAnomalyFlag == old(lastAnomalyFlag)
      ensures lastAnomalyTime == old(lastAnomalyTime) && seen == old(seen)
    {
      var count := CountText(totalAnomalies);
      titleText, reasonText, countText := PanelTitle, reason, count;
      alpha, interactable, blocksRaycasts := 1.0, true, true;
    }

    /** `HideAnomaly`: transparent and neither interactive nor blocking; the texts
        stay. */
    method HideAnomaly()
      modifies this
      ensures alpha == 0.0 && !interactable && !blocksRaycasts
      ensures titleText == old(titleText) && reasonText == old(reasonText) && countText == old(countText)
      ensures holdSeconds == old(holdSeconds)
      ensures totalAnomalies == old(totalAnomalies) && lastAnomalyFlag == old(lastAnomalyFlag)
      ensures lastAnomalyTime == old(lastAnomalyTime) && seen == old(seen)
    {
      alpha, interactable, blocksRaycasts := 0.0, false, false;
    }

    /** `HandleMetricsUpdated` at time `now`: an onset counts once, stamps its time
        and shows the panel with the reason; then, with the flag down, a visible
        panel is hidden once the hold time has passed. Nothing happens without a
        bus. */
    method HandleMetricsUpdated(now: real)
      requires Valid()
      modifies this
      ensures Valid() && holdSeconds == old(holdSeconds)
      ensures metricsBus == null ==>
        seen == old(seen) && alpha == old(alpha) && lastAnomalyTime == old(lastAnomalyTime)
      ensures metricsBus != null ==>
        var flag := metricsBus.AnomalyDetected;
        var rising := flag && !old(lastAnomalyFlag);
        seen == old(seen) + [flag]
        && totalAnomalies == old(totalAnomalies) + (if rising then 1 else 0)
        && lastAnomalyTime == (if rising then now else old(lastAnomalyTime))
        && (rising ==> alpha == 1.0 && reasonText == ShownReason(metricsBus.AnomalyReason)
                       && countText == CountText(totalAnomalies))
        && (flag ==> alpha == (if rising then 1.0 else old(alpha)))
        && (!flag ==> alpha == (if HidesAt(flag, old(alpha), now, lastAnomalyTime, holdSeconds)
                                then 0.0 else old(alpha)))
    {
      if metricsBus == null {
        return;
      }
      var flag := metricsBus.AnomalyDetected;
      EdgeStep(seen, flag);
      if flag && !lastAnomalyFlag {
        totalAnomalies := totalAnomalies + 1;
        lastAnomalyTime := now;
        var reason := ShownReason(metricsBus.AnomalyReason);
        ShowAnomaly(reason);
      }
      lastAnomalyFlag := flag;
      seen := seen + [flag];
      if !flag && alpha > 0.0 {
        if now - lastAnomalyTime > holdSeconds {
          HideAnomaly();
        }
      }
    }

    /** What `ResetAnomalyCount` leaves: nothing seen or counted, the flag lowered,
        the time back to -999, and the panel hidden. */
    ghost predicate IsReset()
      reads this
    {
      Valid() && seen == [] && totalAnomalies == 0 && !lastAnomalyFlag
      && lastAnomalyTime == -999.0 && alpha == 0.0
    }

    /** `ResetAnomalyCount`: the panel `IsReset`; the hold time is kept. */
    method ResetAnomalyCount()
      modifies this
      ensures IsReset() && holdSeconds == old(holdSeconds)
    {
      totalAnomalies := 0;
      lastAnomalyFlag := false;
      lastAnomalyTime := -999.0;
      seen := [];
      HideAnomaly();
    }
  }
}
