/** The first-run tutorial: a pager over a list of pages in an overlay, whose
    completion is remembered in the player preferences so that later runs skip it
    unless it is forced to show every run. */
module Tutorial {
  import opened Unity

  /** The preference key of the completion flag. */
  const DoneKey: string := "AI_VR_ME_TutorialDone"

  /** The built-in pages, shown when no custom pages are configured. */
  const DefaultPages: seq<string> := [
    "This dashboard simulates a rehabilitation session using a digital twin.\n"
      + "You’ll see a 3D avatar, time-series charts (accuracy, velocity, fatigue), and live insights.",
    "2) Pick a Digital Twin model\n\n"
      + "Use [SWITCH MODEL] to cycle between:\n"
      + "• Model A – Baseline patient\n"
      + "• Model B – Fatigued patient\n"
      + "• Model C – High performer\n\n"
      + "Each model generates different synthetic data and anomaly patterns.",
    "3) Generate and play a session\n\n"
      + "• Click [GENERATE] to create a new synthetic session.\n"
      + "• Click [> PLAY] to start playback.\n"
      + "• Use [PAUSE] and [RESET] to control the timeline.\n\n"
      + "The progress bar in the header will fill as the session runs.",
    "4) Read the charts & insights\n\n"
      + "Left: Accuracy, Velocity, and Fatigue charts over time.\n"
      + "Right: Current Insight and Metrics Cards (Accuracy, Velocity, Fatigue, Confidence).\n\n"
      + "Watch for anomaly warnings and avatar color changes ((green) good, (yellow) caution, (red) alert).",
    "5) Export and use the data\n\n"
      + "• Click [EXPORT] to save the full session as CSV.\n"
      + "  (Includes all frames, metrics, and model info.) "
  ]

  /** `Pages`: the custom pages when there are any (None is a null array),
      otherwise the five built-in ones. */
  function Pages(customPages: Option<seq<string>>): (pages: seq<string>)
    ensures |pages| >= 1
    ensures customPages.Some? && |customPages.value| > 0 ==> pages == customPages.value
    ensures !(customPages.Some? && |customPages.value| > 0) ==> pages == DefaultPages && |pages| == 5
  {
    if customPages.Some? && |customPages.value| > 0 then customPages.value else DefaultPages
  }

  /** `PlayerPrefs.GetInt(DoneKey, 0) == 1`. */
  predicate Done(prefs: map<string, int>)
  {
    (if DoneKey in prefs then prefs[DoneKey] else 0) == 1
  }

  /** The preferences after finishing: the flag set to 1 unless the tutorial shows
      every run, every other key untouched. */
  function Finished(prefs: map<string, int>, alwaysShowEveryRun: bool): (r: map<string, int>)
    ensures alwaysShowEveryRun ==> r == prefs
    ensures !alwaysShowEveryRun ==> Done(r)
    ensures forall k :: k != DoneKey ==> (k in r <==> k in prefs)
    ensures forall k :: k != DoneKey && k in r ==> r[k] == prefs[k]
  {
    if alwaysShowEveryRun then prefs else prefs[DoneKey := 1]
  }

  /** The preferences after `ResetTutorialProgress`: the flag deleted, every other
      key untouched. */
  function Forgotten(prefs: map<string, int>): (r: map<string, int>)
    ensures !Done(r) && DoneKey !in r
    ensures forall k :: k != DoneKey ==> (k in r <==> k in prefs)
    ensures forall k :: k != DoneKey && k in r ==> r[k] == prefs[k]
  {
    prefs - {DoneKey}
  }

  /** A finished tutorial that is not forced stays hidden on the next start, until
      its progress is reset; forcing it leaves the preferences as they were. */
  lemma FinishThenReset(prefs: map<string, int>)
    ensures Done(Finished(prefs, false))
    ensures !Done(Forgotten(Finished(prefs, false)))
    ensures Finished(prefs, true) == prefs
  {
  }

  /** The player preferences, shared by every caller. */
  class PlayerPrefs {
    var values: map<string, int>

    constructor (values: map<string, int>)
      ensures this.values == values
    {
      this.values := values;
    }
  }

  /** `ResetTutorialProgress`: deletes the completion flag. */
  method ResetTutorialProgress(prefs: PlayerPrefs)
    modifies prefs
    ensures prefs.values == Forgotten(old(prefs.values))
  {
    prefs.values := prefs.values - {DoneKey};
  }

  class TutorialOverlayController {
    /** Whether the overlay root and its body text are wired. */
    var hasRoot: bool
    var hasBody: bool
    /** Whether the overlay root is active, and the body's text. */
    var rootActive: bool
    var bodyText: string
    var alwaysShowEveryRun: bool
    var customPages: Option<seq<string>>
    var step: int
    const prefs: PlayerPrefs

    /** The step only ever counts up from 0. */
    ghost predicate Valid()
      reads this
    {
      step >= 0
    }

    constructor (hasRoot: bool, hasBody: bool, alwaysShowEveryRun: bool,
                 customPages: Option<seq<string>>, prefs: PlayerPrefs)
      ensures Valid() && step == 0 && this.prefs == prefs
      ensures this.hasRoot == hasRoot && this.hasBody == hasBody
      ensures this.alwaysShowEveryRun == alwaysShowEveryRun && this.customPages == customPages
    {
      this.hasRoot := hasRoot;
      this.hasBody := hasBody;
      this.alwaysShowEveryRun := alwaysShowEveryRun;
      this.customPages := customPages;
      this.prefs := prefs;
      rootActive := hasRoot;
      bodyText := [];
      step := 0;
    }

    /** `Start`: nothing without a root and a body; a completed, unforced tutorial
        hides the root and shows no page; otherwise the root is shown on the first
        page. */
    method Start()
      requires Valid()
      modifies this
      ensures Valid() && Unchanged()
      ensures !(hasRoot && hasBody) ==>
        rootActive == old(rootActive) && step == old(step) && bodyText == old(bodyText)
      ensures hasRoot && hasBody && !alwaysShowEveryRun && Done(prefs.values) ==>
        !rootActive && step == old(step) && bodyText == old(bodyText)
      ensures hasRoot && hasBody && !(!alwaysShowEveryRun && Done(prefs.values)) ==>
        rootActive && step == 0 && bodyText == Pages(customPages)[0]
    {
      if !hasRoot || !hasBody {
        return;
      }
      if !alwaysShowEveryRun && (if DoneKey in prefs.values then prefs.values[DoneKey] else 0) == 1 {
        rootActive := false;
        return;
      }
      rootActive := true;
      step := 0;
      bodyText := Pages(customPages)[0];
    }

    /** `Next`: nothing without a root and a body; otherwise the step advances, and
        past the last page the tutorial finishes, while any other step shows its
        page. */
    method Next()
      requires Valid()
      modifies this, prefs
      ensures Valid() && Unchanged()
      ensures !(hasRoot && hasBody) ==>
        rootActive == old(rootActive) && step == old(step) && bodyText == old(bodyText)
        && prefs.values == old(prefs.values)
      ensures hasRoot && hasBody ==> step == old(step) + 1
      ensures hasRoot && hasBody && step < |Pages(customPages)| ==>
        bodyText == Pages(customPages)[step] && rootActive == old(rootActive)
        && prefs.values == old(prefs.values)
      ensures hasRoot && hasBody && step >= |Pages(customPages)| ==>
        !rootActive && bodyText == old(bodyText)
        && prefs.values == Finished(old(prefs.values), alwaysShowEveryRun)
    {
      if !hasRoot || !hasBody {
        return;
      }
      step := step + 1;
      var pages := Pages(customPages);
      if step >= |pages| {
        FinishTutorial();
        return;
      }
      bodyText := pages[step];
    }

    /** `Skip`: finishes straight away. */
    method Skip()
      requires Valid()
      modifies this, prefs
      ensures Valid() && Unchanged() && step == old(step) && bodyText == old(bodyText)
      ensures prefs.values == Finished(old(prefs.values), alwaysShowEveryRun)
      ensures hasRoot ==> !rootActive
      ensures !hasRoot ==> rootActive == old(rootActive)
    {
      FinishTutorial();
    }

    /** `FinishTutorial`: records completion unless the tutorial shows every run,
        and hides the root when there is one. */
    method FinishTutorial()
      requires Valid()
      modifies this, prefs
      ensures Valid() && Unchanged() && step == old(step) && bodyText == old(bodyText)
      ensures prefs.values == Finished(old(prefs.values), alwaysShowEveryRun)
      ensures hasRoot ==> !rootActive
      ensures !hasRoot ==> rootActive == old(rootActive)
    {
      if !alwaysShowEveryRun {
        prefs.values := prefs.values[DoneKey := 1];
      }
      if hasRoot {
        rootActive := false;
      }
    }

    /** The wiring and the configuration are never changed by the pager. */
    twostate predicate Unchanged()
      reads this
    {
      hasRoot == old(hasRoot) && hasBody == old(hasBody)
      && alwaysShowEveryRun == old(alwaysShowEveryRun) && customPages == old(customPages)
    }
  }
}
