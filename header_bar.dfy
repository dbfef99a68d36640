/** The header bar's formatters: model key, elapsed time, playback status, progress
    fill and frame counter, each computed from its argument alone. */
module Header {
  import opened Unity
  import opened Text
  import opened States

  const ModelPrefix: string := "Model: "
  const TimePrefix: string := "Time: "
  const StatusPrefix: string := "Status: "

  /** `SetModel`: the key after "Model: ". */
  function ModelText(modelKey: string): (r: string)
    ensures |r| == |ModelPrefix| + |modelKey|
    ensures r[..|ModelPrefix|] == ModelPrefix && r[|ModelPrefix|..] == modelKey
  {
    ModelPrefix + modelKey
  }

  /** `SetStatus`: the status after "Status: ". */
  function StatusText(status: string): (r: string)
    ensures |r| == |StatusPrefix| + |status|
    ensures r[..|StatusPrefix|] == StatusPrefix && r[|StatusPrefix|..] == status
  {
    StatusPrefix + status
  }

  /** The upper-cased name of a playback state, as the header's `Update` shows it. */
  function StatusName(s: SimState): (r: string)
    ensures |r| >= 6
  {
    match s
    case Stopped => "STOPPED"
    case Generating => "GENERATING"
    case Playing => "PLAYING"
    case Paused => "PAUSED"
  }

  /** Whole seconds shown for a time: the rounded time, never below zero. */
  function ShownSeconds(seconds: real): (total: nat)
    ensures seconds - 0.5 <= total as real || seconds < 0.0
    ensures total as real <= seconds + 0.5 || total == 0
    ensures seconds <= 0.0 ==> total == 0
  {
    MaxInt(0, RoundToInt(seconds))
  }

  /** `SetTime`: "Time: mm:ss" with whole minutes and seconds of the rounded time,
      each padded to at least two digits. What it reads as is
      `TimeTextReadsBack`. */
  function TimeText(seconds: real): string
  {
    TimePrefix + Clock(ShownSeconds(seconds))
  }

  /** `{mins:00}:{secs:00}` for a number of whole seconds. */
  function Clock(total: nat): string
  {
    MinutesSeconds(total / 60, total % 60)
  }

  /** r is a clock text: digits, ':' and two digits, reading back as the given
      minutes and seconds. */
  predicate ReadsAs(r: string, minutes: nat, seconds: nat)
  {
    |r| >= 5 && r[|r| - 3] == ':' && AllDigits(r[..|r| - 3]) && AllDigits(r[|r| - 2..])
    && ParseNat(r[..|r| - 3]) == minutes && ParseNat(r[|r| - 2..]) == seconds
  }

  /** Minutes padded to at least two digits, ':' and seconds padded to two. */
  function MinutesSeconds(minutes: nat, seconds: nat): string
    requires seconds < 60
  {
    AtLeastTwoDigits(minutes) + ":" + TwoDigits(seconds)
  }

  /** A clock text reads back as its minutes and seconds. */
  lemma MinutesSecondsReadsAs(minutes: nat, seconds: nat)
    requires seconds < 60
    ensures ReadsAs(MinutesSeconds(minutes, seconds), minutes, seconds)
  {
    var mm := AtLeastTwoDigits(minutes);
    var ss := TwoDigits(seconds);
    AtLeastTwoDigitsReadsBack(minutes);
    TwoDigitsReadsBack(seconds);
    AroundColon(mm, ss);
  }

  lemma AroundColon(a: string, b: string)
    requires |b| == 2
    ensures var r := a + ":" + b;
      |r| == |a| + 3 && r[|r| - 3] == ':' && r[..|r| - 3] == a && r[|r| - 2..] == b
  {
    var r := a + ":" + b;
    assert r[..|r| - 3] == a;
    assert r[|r| - 2..] == b;
  }

  /** `{n:00}` for a number that may need more than two digits. */
  function AtLeastTwoDigits(n: nat): string
  {
    if n < 10 then ['0', DigitChar(n)] else NatToString(n)
  }

  /** At least two digits, reading back as n. */
  lemma AtLeastTwoDigitsReadsBack(n: nat)
    ensures var r := AtLeastTwoDigits(n);
      |r| >= 2 && AllDigits(r) && ParseNat(r) == n
  {
    var r := AtLeastTwoDigits(n);
    if n < 10 {
      TwoDigitsReadsBack(n);
      assert r == TwoDigits(n);
    } else {
      ParseNatToString(n);
      assert r == NatToString(n / 10) + [DigitChar(n % 10)];
    }
  }

  /** `{n:00}` for a number below 60. */
  function TwoDigits(n: nat): string
    requires n < 60
  {
    [DigitChar(n / 10), DigitChar(n % 10)]
  }

  /** Exactly two digits, reading back as n. */
  lemma TwoDigitsReadsBack(n: nat)
    requires n < 60
    ensures var r := TwoDigits(n);
      |r| == 2 && AllDigits(r) && ParseNat(r) == n
  {
    var r := TwoDigits(n);
    assert r[..1] == [DigitChar(n / 10)] && r[..1][..0] == [];
    assert ParseNat(r[..1]) == n / 10;
    assert ParseNat(r) == ParseNat(r[..1]) * 10 + n % 10;
  }

  /** Reading the time text back: after "Time: " comes a clock text whose minutes
      field is the whole minutes and whose two-digit field after ':' is the
      remaining seconds of the rounded, non-negative time. */
  lemma TimeTextReadsBack(seconds: real)
    ensures var r := TimeText(seconds);
      var total := ShownSeconds(seconds);
      r[..|TimePrefix|] == TimePrefix && ReadsAs(r[|TimePrefix|..], total / 60, total % 60)
  {
    var total := ShownSeconds(seconds);
    var c := Clock(total);
    MinutesSecondsReadsAs(total / 60, total % 60);
    assert (TimePrefix + c)[|TimePrefix|..] == c;
  }

  /** The time text of a clock at zero. */
  const ZeroTimeText: string := "Time: 00:00"

  /** A time that is negative or rounds to zero shows "Time: 00:00". */
  lemma ZeroTime(seconds: real)
    requires ShownSeconds(seconds) == 0
    ensures TimeText(seconds) == ZeroTimeText
  {
    var c := Clock(0);
    assert |c| == 5 by {
      assert |TwoDigits(0)| == 2;
      assert NatToString(0) == "0";
      assert AtLeastTwoDigits(0) == "00";
    }
    assert c == "00:00";
  }

  /** `SetProgress`: the fill amount is the progress clamped to [0, 1]. */
  function ProgressFill(progress: real): (fill: real)
    ensures 0.0 <= fill <= 1.0
    ensures 0.0 <= progress <= 1.0 ==> fill == progress
    ensures progress < 0.0 ==> fill == 0.0
    ensures progress > 1.0 ==> fill == 1.0
  {
    Clamp01(progress)
  }

  /** `SetProgressFrames`: "current/total" for a positive total and a non-negative
      current frame, otherwise "0/0". What it reads as is `FramesTextReadsBack`. */
  function FramesText(currentFrame: int, totalFrames: int): string
  {
    if totalFrames > 0 && currentFrame >= 0 then NatToString(currentFrame) + "/" + NatToString(totalFrames)
    else "0/0"
  }

  lemma DigitsHaveNoSlash(s: string)
    requires AllDigits(s)
    ensures '/' !in s
  {
  }

  /** Reading the frame counter back: split at '/', its two fields are the current
      frame and the total when they are shown, and 0 and 0 otherwise. */
  lemma FramesTextReadsBack(currentFrame: int, totalFrames: int)
    ensures var parts := Split(FramesText(currentFrame, totalFrames), '/');
      |parts| == 2 && AllDigits(parts[0]) && AllDigits(parts[1])
      && (totalFrames > 0 && currentFrame >= 0 ==>
            ParseNat(parts[0]) == currentFrame && ParseNat(parts[1]) == totalFrames)
      && (!(totalFrames > 0 && currentFrame >= 0) ==> ParseNat(parts[0]) == 0 && ParseNat(parts[1]) == 0)
  {
    var cur := if totalFrames > 0 && currentFrame >= 0 then currentFrame else 0;
    var tot := if totalFrames > 0 && currentFrame >= 0 then totalFrames else 0;
    var a, b := NatToString(cur), NatToString(tot);
    if !(totalFrames > 0 && currentFrame >= 0) {
      assert a == "0" && b == "0";
    }
    assert FramesText(currentFrame, totalFrames) == a + ['/'] + b;
    SplitDigits(a, b);
    ParseNatToString(cur);
    ParseNatToString(tot);
  }

  /** Two digit strings joined by '/' split back into the two. */
  lemma SplitDigits(a: string, b: string)
    requires AllDigits(a) && AllDigits(b)
    ensures Split(a + ['/'] + b, '/') == [a, b]
  {
    DigitsHaveNoSlash(a);
    DigitsHaveNoSlash(b);
    SplitAt(a, '/', b);
    assert IndexOf(b, '/') == -1;
  }

  const Title: string := "AI-VR-ME — Your AI Digital Twin Dashboard"

  /** The header bar's widgets: the texts on screen and the progress bar's fill. */
  class HeaderBarUI {
    const stateProvider: SimulationStateProvider?
    var titleText: string
    var modelText: string
    var timeText: string
    var statusText: string
    var progressFrameText: string
    var progressFill: real

    /** `Awake`: the title, model A, no time, STOPPED, an empty bar and "0/0". */
    constructor (stateProvider: SimulationStateProvider?)
      ensures this.stateProvider == stateProvider && titleText == Title
      ensures modelText == ModelText("A") && timeText == TimeText(0.0)
      ensures statusText == StatusText(StatusName(Stopped))
      ensures progressFill == 0.0 && progressFrameText == FramesText(0, 0)
    {
      this.stateProvider := stateProvider;
      titleText := Title;
      modelText, timeText, statusText, progressFrameText := [], [], [], [];
      progressFill := 0.0;
      new;
      SetModel("A");
      SetTime(0.0);
      SetStatus(StatusName(Stopped));
      SetProgress(0.0);
      SetProgressFrames(0, 0);
    }

    /** `Update`: with a state provider, the status shows its state's name. */
    method Update()
      modifies this
      ensures stateProvider != null ==> statusText == StatusText(StatusName(stateProvider.Current))
      ensures stateProvider == null ==> statusText == old(statusText)
      ensures Others(false, false, true, false, false)
    {
      if stateProvider != null {
        statusText := StatusText(StatusName(stateProvider.Current));
      }
    }

    method SetModel(modelKey: string)
      modifies this
      ensures modelText == ModelText(modelKey) && Others(true, false, false, false, false)
    {
      modelText := ModelText(modelKey);
    }

    method SetTime(seconds: real)
      modifies this
      ensures timeText == TimeText(seconds) && Others(false, true, false, false, false)
    {
      timeText := TimeText(seconds);
    }

    method SetStatus(status: string)
      modifies this
      ensures statusText == StatusText(status) && Others(false, false, true, false, false)
    {
      statusText := StatusText(status);
    }

    method SetProgress(progress: real)
      modifies this
      ensures progressFill == ProgressFill(progress) && Others(false, false, false, true, false)
    {
      progressFill := ProgressFill(progress);
    }

    method SetProgressFrames(currentFrame: int, totalFrames: int)
      modifies this
      ensures progressFrameText == FramesText(currentFrame, totalFrames)
      ensures Others(false, false, false, false, true)
    {
      progressFrameText := FramesText(currentFrame, totalFrames);
    }

    /** The header of a clock rewound to frame 0 of `total`: "Time: 00:00", an
        empty bar and "0/`total`". */
    ghost predicate ShowsStart(total: int)
      reads this
    {
      timeText == ZeroTimeText && progressFill == 0.0 && progressFrameText == FramesText(0, total)
    }

    /** Every widget not named by a true flag (model, time, status, fill, frame
        counter) keeps its content, and so does the title. */
    twostate predicate Others(model: bool, time: bool, status: bool, fill: bool, frames: bool)
      reads this
    {
      titleText == old(titleText)
      && (model || modelText == old(modelText)) && (time || timeText == old(timeText))
      && (status || statusText == old(statusText)) && (fill || progressFill == old(progressFill))
      && (frames || progressFrameText == old(progressFrameText))
    }
  }
}
