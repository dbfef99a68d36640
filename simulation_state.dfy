/** The simulation state holder: the current state and the change notifications it
    raises. */
module States {

  datatype SimState = Stopped | Generating | Playing | Paused

  /** No state follows itself in `log`. */
  ghost predicate ChangesOnly(log: seq<SimState>)
    decreases |log|
  {
    |log| < 2 || (log[|log| - 2] != log[|log| - 1] && ChangesOnly(log[..|log| - 1]))
  }

  /** `ChangesOnly` says that any two neighbouring entries differ. */
  lemma {:induction false} ChangesOnlyEach(log: seq<SimState>)
    ensures ChangesOnly(log) <==> forall i :: 0 < i < |log| ==> log[i - 1] != log[i]
    decreases |log|
  {
    if |log| >= 2 {
      var init := log[..|log| - 1];
      ChangesOnlyEach(init);
      assert forall k :: 0 <= k < |init| ==> init[k] == log[k];
    }
  }

  /** A state different from the last one logged can be logged next. */
  lemma ChangesOnlyAppend(log: seq<SimState>, s: SimState)
    requires ChangesOnly(log) && (log != [] ==> log[|log| - 1] != s)
    ensures ChangesOnly(log + [s])
  {
    assert (log + [s])[..|log|] == log;
  }

  class SimulationStateProvider {
    var Current: SimState
    /** The payloads of every `OnStateChanged` raised so far, oldest first. */
    var raised: seq<SimState>

    /** Every notification carries a real change: the log never repeats a state
        twice in a row, never starts with the initial Stopped, and ends with the
        current state. */
    ghost predicate Valid()
      reads this
    {
      (raised == [] ==> Current == Stopped)
      && (raised != [] ==> raised[0] != Stopped && raised[|raised| - 1] == Current)
      && ChangesOnly(raised)
    }

    constructor ()
      ensures Valid() && Current == Stopped && raised == []
    {
      Current := Stopped;
      raised := [];
    }

    /** Setting the current state again changes nothing and raises nothing; a
        different state is stored and raised exactly once. */
    method SetState(newState: SimState)
      requires Valid()
      modifies this
      ensures Valid() && Current == newState
      ensures raised == if old(Current) == newState then old(raised) else old(raised) + [newState]
    {
      if Current == newState {
        return;
      }
      ChangesOnlyAppend(raised, newState);
      Current := newState;
      raised := raised + [newState];
    }

    method SetStopped()
      requires Valid()
      modifies this
      ensures Valid() && Current == Stopped
      ensures raised == if old(Current) == Stopped then old(raised) else old(raised) + [Stopped]
    {
      SetState(Stopped);
    }

    method SetGenerating()
      requires Valid()
      modifies this
      ensures Valid() && Current == Generating
      ensures raised == if old(Current) == Generating then old(raised) else old(raised) + [Generating]
    {
      SetState(Generating);
    }

    method SetPlaying()
      requires Valid()
      modifies this
      ensures Valid() && Current == Playing
      ensures raised == if old(Current) == Playing then old(raised) else old(raised) + [Playing]
    {
      SetState(Playing);
    }

    method SetPaused()
      requires Valid()
      modifies this
      ensures Valid() && Current == Paused
      ensures raised == if old(Current) == Paused then old(raised) else old(raised) + [Paused]
    {
      SetState(Paused);
    }
  }
}
