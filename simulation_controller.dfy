/** The playback clock: a loaded session, a running flag, the playback time in
    seconds and the frame it falls on at 30 frames per second. */
module Playback {
  import opened Unity
  import opened Session

  const FrameRate: real := 30.0

  /** The frame shown at playback time `t` in a session of `n` frames: the floor of
      `t * 30`, clamped to [0, n - 1]. */
  function FrameAt(t: real, n: int): (f: int)
    ensures n >= 1 ==> 0 <= f < n
    ensures n >= 1 && 0.0 <= t * FrameRate < n as real ==> f as real <= t * FrameRate < f as real + 1.0
    ensures n >= 1 && t * FrameRate >= (n - 1) as real ==> f == n - 1
  {
    ClampInt(FloorToInt(t * FrameRate), 0, n - 1)
  }

  /** Later playback times never show an earlier frame (in a session with frames:
      for an empty one the clamp's bounds cross). */
  lemma FrameAtMonotone(t1: real, t2: real, n: int)
    requires t1 <= t2 && n >= 1
    ensures FrameAt(t1, n) <= FrameAt(t2, n)
  {
    FloorMonotone(t1 * FrameRate, t2 * FrameRate);
    assert FloorToInt(t1 * FrameRate) <= FloorToInt(t2 * FrameRate);
  }

  /** A step of `delta` seconds at a non-negative `speed` never shows an earlier
      frame. */
  lemma StepMonotone(t: real, delta: real, speed: real, n: int)
    requires 0.0 <= delta && 0.0 <= speed && n >= 1
    ensures FrameAt(t, n) <= FrameAt(t + delta * speed, n)
  {
    assert 0.0 <= delta * speed;
    FrameAtMonotone(t, t + delta * speed, n);
  }

  class SimulationController {
    /** null until a session is loaded. */
    var Session: SessionData?
    var playbackSpeed: real
    var IsPlaying: bool
    var CurrentFrame: int
    var playbackTime: real

    /** Only a loaded session plays, and with a session of at least one frame the
        current frame is always the one the playback time falls on. */
    ghost predicate Valid()
      reads this, Session
    {
      (IsPlaying ==> Session != null)
      && (Session != null && Session.totalFrames >= 1 ==> CurrentFrame == FrameAt(playbackTime, Session.totalFrames))
    }

    constructor ()
      ensures Valid() && Session == null && playbackSpeed == 1.0
      ensures !IsPlaying && CurrentFrame == 0 && playbackTime == 0.0
    {
      Session := null;
      playbackSpeed := 1.0;
      IsPlaying := false;
      CurrentFrame := 0;
      playbackTime := 0.0;
    }

    /** Stores the session and rewinds to a stopped clock at frame 0. */
    method LoadSession(data: SessionData?)
      modifies this
      ensures Valid() && Session == data && playbackSpeed == old(playbackSpeed)
      ensures playbackTime == 0.0 && CurrentFrame == 0 && !IsPlaying
    {
      Session := data;
      playbackTime := 0.0;
      CurrentFrame := 0;
      IsPlaying := false;
    }

    /** Starts the clock; without a session nothing changes. */
    method StartPlayback()
      requires Valid()
      modifies this
      ensures Valid() && Session == old(Session) && playbackSpeed == old(playbackSpeed)
      ensures playbackTime == old(playbackTime) && CurrentFrame == old(CurrentFrame)
      ensures IsPlaying == (old(IsPlaying) || Session != null)
    {
      if Session == null {
        return;
      }
      IsPlaying := true;
    }

    /** Stops the clock where it is: time and frame are kept, so playing again resumes
        from the same time. */
    method PausePlayback()
      requires Valid()
      modifies this
      ensures Valid() && Session == old(Session) && playbackSpeed == old(playbackSpeed)
      ensures playbackTime == old(playbackTime) && CurrentFrame == old(CurrentFrame) && !IsPlaying
    {
      IsPlaying := false;
    }

    /** Stops the clock and rewinds to frame 0, keeping the session. */
    method StopPlayback()
      requires Valid()
      modifies this
      ensures Valid() && Session == old(Session) && playbackSpeed == old(playbackSpeed)
      ensures playbackTime == 0.0 && CurrentFrame == 0 && !IsPlaying
    {
      IsPlaying := false;
      playbackTime := 0.0;
      CurrentFrame := 0;
    }

    /** One engine frame of `deltaTime` seconds. Unless playing with a session nothing
        changes; otherwise time advances by `deltaTime * playbackSpeed`, the frame is
        recomputed from it, and the clock stops itself on the last frame. */
    method Update(deltaTime: real)
      requires Valid()
      modifies this
      ensures Valid() && Session == old(Session) && playbackSpeed == old(playbackSpeed)
      ensures !(old(IsPlaying) && Session != null) ==>
        playbackTime == old(playbackTime) && CurrentFrame == old(CurrentFrame) && IsPlaying == old(IsPlaying)
      ensures old(IsPlaying) && Session != null ==>
        playbackTime == old(playbackTime) + deltaTime * playbackSpeed
        && CurrentFrame == FrameAt(playbackTime, Session.totalFrames)
        && IsPlaying == (CurrentFrame < Session.totalFrames - 1)
      ensures Session != null && Session.totalFrames >= 1 && 0.0 <= deltaTime && 0.0 <= playbackSpeed ==>
        old(CurrentFrame) <= CurrentFrame < Session.totalFrames
    {
      if !IsPlaying || Session == null {
        return;
      }
      ghost var before := playbackTime;
      playbackTime := playbackTime + deltaTime * playbackSpeed;
      var frame := FloorToInt(playbackTime * FrameRate);
      CurrentFrame := ClampInt(frame, 0, Session.totalFrames - 1);
      if CurrentFrame >= Session.totalFrames - 1 {
        IsPlaying := false;
      }
      if 0.0 <= deltaTime && 0.0 <= playbackSpeed && Session.totalFrames >= 1 {
        StepMonotone(before, deltaTime, playbackSpeed, Session.totalFrames);
      }
    }
  }
}
