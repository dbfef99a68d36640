/** The metrics poller's anomaly matcher: a cursor into the session's schedule that
    reports a frame as anomalous when it lies within 10 frames of the cursor's event,
    and moves on, by one event per poll, once the frame is more than 10 frames past
    it. */
module Cursor {
  import opened Unity

  /** Half-width of an event's window, in frames. */
  const WindowFrames: int := 10

  /** The outcome of one poll: whether the frame is anomalous, the reason reported,
      and the cursor afterwards. */
  datatype Match = Match(active: bool, reason: string, cursor: int)

  /** There is an event under the cursor: both lists are present and the cursor is
      inside the frame list. */
  predicate HasEvent(cursor: int, frames: Option<seq<int>>, reasons: Option<seq<string>>)
  {
    frames.Some? && reasons.Some? && 0 <= cursor < |frames.value|
  }

  /** One poll at `frame`. Without an event under the cursor nothing is reported
      and the cursor stays. Otherwise the frame is anomalous exactly when it lies
      within the event's window, with that event's reason, and the cursor moves to
      the next event exactly when the frame is past the window; so a poll never both
      reports and moves. The reason list is indexed only for an anomalous frame. */
  function PollAt(frame: int, cursor: int, frames: Option<seq<int>>, reasons: Option<seq<string>>): (p: Match)
    requires HasEvent(cursor, frames, reasons) && Abs(frame - frames.value[cursor]) <= WindowFrames
             ==> cursor < |reasons.value|
    ensures !HasEvent(cursor, frames, reasons) ==> p == Match(false, [], cursor)
    ensures HasEvent(cursor, frames, reasons) ==>
      var e := frames.value[cursor];
      (p.active <==> e - WindowFrames <= frame <= e + WindowFrames)
      && (p.active ==> p.reason == reasons.value[cursor])
      && (!p.active ==> p.reason == [])
      && (p.cursor == cursor + 1 <==> frame > e + WindowFrames)
      && (p.cursor == cursor <==> frame <= e + WindowFrames)
    ensures !(p.active && p.cursor != cursor)
  {
    if HasEvent(cursor, frames, reasons) then
      var e := frames.value[cursor];
      var delta := frame - e;
      var active := Abs(delta) <= WindowFrames;
      Match(active, if active then reasons.value[cursor] else [],
            if delta > WindowFrames then cursor + 1 else cursor)
    else Match(false, [], cursor)
  }

  /** The result of polling a run of frames in turn: one anomaly flag per poll and
      the final cursor. */
  datatype Sweep = Sweep(active: seq<bool>, cursor: int)

  /** Polls the frames of `visits` in order, carrying the cursor from poll to poll,
      over a present schedule with one reason per event. The cursor only moves
      forward, by at most one event per poll, and never past the last event. */
  function Run(visits: seq<int>, cursor: int, events: seq<int>, reasons: seq<string>): (s: Sweep)
    requires 0 <= cursor <= |events| && |reasons| == |events|
    ensures |s.active| == |visits|
    ensures cursor <= s.cursor <= |events| && s.cursor - cursor <= |visits|
    decreases |visits|
  {
    if visits == [] then Sweep([], cursor)
    else
      var p := PollAt(visits[0], cursor, Some(events), Some(reasons));
      var rest := Run(visits[1..], p.cursor, events, reasons);
      Sweep([p.active] + rest.active, rest.cursor)
  }

  /** Polling two runs of frames one after the other is polling their
      concatenation. */
  lemma {:induction false} RunAppend(xs: seq<int>, ys: seq<int>, cursor: int, events: seq<int>, reasons: seq<string>)
    requires 0 <= cursor <= |events| && |reasons| == |events|
    ensures var first := Run(xs, cursor, events, reasons);
      var second := Run(ys, first.cursor, events, reasons);
      Run(xs + ys, cursor, events, reasons) == Sweep(first.active + second.active, second.cursor)
    decreases |xs|
  {
    if xs != [] {
      var p := PollAt(xs[0], cursor, Some(events), Some(reasons));
      assert (xs + ys)[0] == xs[0];
      assert (xs + ys)[1..] == xs[1..] + ys;
      RunAppend(xs[1..], ys, p.cursor, events, reasons);
      var first := Run(xs[1..], p.cursor, events, reasons);
      var second := Run(ys, first.cursor, events, reasons);
      assert [p.active] + (first.active + second.active) == ([p.active] + first.active) + second.active;
    } else {
      assert xs + ys == ys;
    }
  }

  /** Frame f lies in the window of some event at or after position `cursor`. */
  predicate NearEventFrom(f: int, cursor: int, events: seq<int>)
  {
    exists j :: 0 <= cursor <= j < |events| && events[j] - WindowFrames <= f <= events[j] + WindowFrames
  }

  /** The cursor is never rewound, so a sweep only ever reports frames near events at
      or after its starting cursor: an event the cursor has passed is never reported
      again. */
  lemma {:induction false} ReportsOnlyLaterEvents(visits: seq<int>, cursor: int, events: seq<int>, reasons: seq<string>)
    requires 0 <= cursor <= |events| && |reasons| == |events|
    ensures forall k :: 0 <= k < |visits| && Run(visits, cursor, events, reasons).active[k] ==>
      NearEventFrom(visits[k], cursor, events)
    decreases |visits|
  {
    if visits != [] {
      var p := PollAt(visits[0], cursor, Some(events), Some(reasons));
      ReportsOnlyLaterEvents(visits[1..], p.cursor, events, reasons);
      var s := Run(visits, cursor, events, reasons);
      var rest := Run(visits[1..], p.cursor, events, reasons);
      assert s.active == [p.active] + rest.active;
      forall k | 0 <= k < |visits| && s.active[k]
        ensures NearEventFrom(visits[k], cursor, events)
      {
        if k == 0 {
          assert HasEvent(cursor, Some(events), Some(reasons));
          assert events[cursor] - WindowFrames <= visits[0] <= events[cursor] + WindowFrames;
        } else {
          assert rest.active[k - 1] && visits[1..][k - 1] == visits[k];
          var j :| 0 <= p.cursor <= j < |events| && events[j] - WindowFrames <= visits[k] <= events[j] + WindowFrames;
          assert cursor <= j;
        }
      }
    }
  }

  /** Once the cursor has passed every event, no frame is reported any more and the
      cursor stays where it is. */
  lemma ExhaustedCursorIsQuiet(visits: seq<int>, events: seq<int>, reasons: seq<string>)
    requires |reasons| == |events|
    ensures Run(visits, |events|, events, reasons) == Sweep(seq(|visits|, _ => false), |events|)
  {
    ReportsOnlyLaterEvents(visits, |events|, events, reasons);
    var s := Run(visits, |events|, events, reasons);
    forall k | 0 <= k < |visits|
      ensures !s.active[k]
    {
      assert !NearEventFrom(visits[k], |events|, events);
    }
    assert s.active == seq(|visits|, _ => false);
  }

  /** The consecutive frames lo, lo + 1, ..., hi - 1. */
  function Range(lo: int, hi: int): (r: seq<int>)
    requires lo <= hi
    ensures |r| == hi - lo && forall i :: 0 <= i < |r| ==> r[i] == lo + i
  {
    seq(hi - lo, i => lo + i)
  }

  /** Polling the frames lo..hi-1 from `cursor` ends at `cursorAfter`, and frame f
      is reported anomalous exactly when `w(f)`. */
  predicate Segment(lo: int, hi: int, cursor: int, cursorAfter: int,
                    events: seq<int>, reasons: seq<string>, w: int -> bool)
  {
    lo <= hi && 0 <= cursor <= |events| && |reasons| == |events|
    && var s := Run(Range(lo, hi), cursor, events, reasons);
    s.cursor == cursorAfter && forall i :: 0 <= i < hi - lo ==> s.active[i] == w(lo + i)
  }

  /** Frames that all leave the cursor in place make a segment whose flags are the
      polls' own. */
  lemma {:induction false} Uniform(lo: int, hi: int, cursor: int, events: seq<int>, reasons: seq<string>,
                                   w: int -> bool)
    requires lo <= hi && 0 <= cursor <= |events| && |reasons| == |events|
    requires forall f :: lo <= f < hi ==>
      PollAt(f, cursor, Some(events), Some(reasons)).cursor == cursor
      && PollAt(f, cursor, Some(events), Some(reasons)).active == w(f)
    ensures Segment(lo, hi, cursor, cursor, events, reasons, w)
    decreases hi - lo
  {
    if lo < hi {
      Uniform(lo + 1, hi, cursor, events, reasons, w);
      assert Range(lo, hi)[1..] == Range(lo + 1, hi);
      var rest := Run(Range(lo + 1, hi), cursor, events, reasons);
      var s := Run(Range(lo, hi), cursor, events, reasons);
      assert s.active == [w(lo)] + rest.active;
    }
  }

  /** A single poll is a segment of one frame. */
  lemma Single(f: int, cursor: int, events: seq<int>, reasons: seq<string>, w: int -> bool)
    requires 0 <= cursor <= |events| && |reasons| == |events|
    requires PollAt(f, cursor, Some(events), Some(reasons)).active == w(f)
    ensures Segment(f, f + 1, cursor, PollAt(f, cursor, Some(events), Some(reasons)).cursor, events, reasons, w)
  {
    assert Range(f, f + 1) == [f];
    assert Range(f, f + 1)[1..] == [];
  }

  /** Two adjacent segments make one. */
  lemma Chain(lo: int, mid: int, hi: int, c0: int, c1: int, c2: int,
              events: seq<int>, reasons: seq<string>, w: int -> bool)
    requires Segment(lo, mid, c0, c1, events, reasons, w)
    requires Segment(mid, hi, c1, c2, events, reasons, w)
    ensures Segment(lo, hi, c0, c2, events, reasons, w)
  {
    assert Range(lo, hi) == Range(lo, mid) + Range(mid, hi);
    RunAppend(Range(lo, mid), Range(mid, hi), c0, events, reasons);
    var a := Run(Range(lo, mid), c0, events, reasons).active;
    var b := Run(Range(mid, hi), c1, events, reasons).active;
    var s := Run(Range(lo, hi), c0, events, reasons);
    assert s.active == a + b;
    forall i | 0 <= i < hi - lo
      ensures s.active[i] == w(lo + i)
    {
      if i >= mid - lo {
        assert s.active[i] == b[i - (mid - lo)];
      }
    }
  }

  /** Polling every frame 0..300 over events at frames 100 and 200 reports exactly
      the frames 90..110 and 190..210, and leaves the cursor past both events. */
  lemma TwoEventSweep(reasons: seq<string>)
    requires |reasons| == 2
    ensures Segment(0, 301, 0, 2, [100, 200], reasons, f => 90 <= f <= 110 || 190 <= f <= 210)
  {
    var ev: seq<int> := [100, 200];
    var w: int -> bool := f => 90 <= f <= 110 || 190 <= f <= 210;
    Uniform(0, 90, 0, ev, reasons, w);
    Uniform(90, 111, 0, ev, reasons, w);
    Chain(0, 90, 111, 0, 0, 0, ev, reasons, w);
    Single(111, 0, ev, reasons, w);
    Chain(0, 111, 112, 0, 0, 1, ev, reasons, w);
    Uniform(112, 190, 1, ev, reasons, w);
    Chain(0, 112, 190, 0, 1, 1, ev, reasons, w);
    Uniform(190, 211, 1, ev, reasons, w);
    Chain(0, 190, 211, 0, 1, 1, ev, reasons, w);
    Single(211, 1, ev, reasons, w);
    Chain(0, 211, 212, 0, 1, 2, ev, reasons, w);
    Uniform(212, 301, 2, ev, reasons, w);
    Chain(0, 212, 301, 0, 2, 2, ev, reasons, w);
  }

  /** Events closer than the window allows: over events at 100 and 115, the poll at
      frame 111 moves the cursor and reports nothing, although frame 111 lies
      within the second event's window. */
  lemma CloseEventsMissFrame(reasons: seq<string>)
    requires |reasons| == 2
    ensures Segment(0, 127, 0, 2, [100, 115], reasons, f => 90 <= f <= 110 || 112 <= f <= 125)
  {
    var ev: seq<int> := [100, 115];
    var w: int -> bool := f => 90 <= f <= 110 || 112 <= f <= 125;
    Uniform(0, 111, 0, ev, reasons, w);
    Single(111, 0, ev, reasons, w);
    Chain(0, 111, 112, 0, 0, 1, ev, reasons, w);
    Uniform(112, 126, 1, ev, reasons, w);
    Chain(0, 112, 126, 0, 1, 1, ev, reasons, w);
    Single(126, 1, ev, reasons, w);
    Chain(0, 126, 127, 0, 1, 2, ev, reasons, w);
  }

  /** An event listed after a later one is never reported: over events at 300 and
      then 150, a sweep of frames 0..400 reports only 290..310, and the cursor
      passes the event at 150 on the poll right after leaving the first window. */
  lemma OutOfOrderEventSkipped(reasons: seq<string>)
    requires |reasons| == 2
    ensures Segment(0, 401, 0, 2, [300, 150], reasons, f => 290 <= f <= 310)
  {
    var ev: seq<int> := [300, 150];
    var w: int -> bool := f => 290 <= f <= 310;
    Uniform(0, 311, 0, ev, reasons, w);
    Single(311, 0, ev, reasons, w);
    Chain(0, 311, 312, 0, 0, 1, ev, reasons, w);
    Single(312, 1, ev, reasons, w);
    Chain(0, 312, 313, 0, 1, 2, ev, reasons, w);
    Uniform(313, 401, 2, ev, reasons, w);
    Chain(0, 313, 401, 0, 2, 2, ev, reasons, w);
  }
}
