/** Rising edges of the anomaly flag: the two anomaly counters count a
    false-to-true change of the flag they read from the bus, never a flag that
    stays raised. */
module Edges {

  /** The flag as last seen; false before anything is seen. */
  function LastFlag(flags: seq<bool>): bool
  {
    |flags| > 0 && flags[|flags| - 1]
  }

  /** Number of false-to-true changes in a sequence of observed flags, starting from
      a lowered flag. */
  function RisingEdges(flags: seq<bool>): nat
  {
    if |flags| == 0 then 0
    else
      var before := flags[..|flags| - 1];
      RisingEdges(before) + if flags[|flags| - 1] && !LastFlag(before) then 1 else 0
  }

  /** Seeing one more flag adds one edge exactly when it rises. */
  lemma EdgeStep(flags: seq<bool>, b: bool)
    ensures RisingEdges(flags + [b]) == RisingEdges(flags) + (if b && !LastFlag(flags) then 1 else 0)
    ensures LastFlag(flags + [b]) == b
  {
    assert (flags + [b])[..|flags|] == flags;
  }

  /** Between two edges the flag must drop, so at most every other observation is
      an edge: twice the count never exceeds the observations, plus one when the
      flag is raised at the end. */
  lemma {:induction false} EdgesAtMostHalf(flags: seq<bool>)
    ensures 2 * RisingEdges(flags) <= |flags| + (if LastFlag(flags) then 1 else 0)
  {
    if |flags| > 0 {
      var before := flags[..|flags| - 1];
      EdgesAtMostHalf(before);
      assert flags == before + [flags[|flags| - 1]];
      EdgeStep(before, flags[|flags| - 1]);
    }
  }

  /** A flag that stays raised for any number of observations is one edge. */
  lemma {:induction false} HeldFlagCountsOnce(n: nat)
    requires n >= 1
    ensures RisingEdges(seq(n, _ => true)) == 1
  {
    var flags := seq(n, _ => true);
    if n > 1 {
      HeldFlagCountsOnce(n - 1);
      assert flags[..n - 1] == seq(n - 1, _ => true);
    }
  }

  /** An edge ends every stretch of lowered flags followed by a raised one:
      alternating observations count one edge per raised flag. */
  lemma {:induction false} AlternatingCountsEvery(n: nat)
    ensures RisingEdges(seq(2 * n, i => i % 2 == 1)) == n
  {
    if n > 0 {
      var flags := seq(2 * n, i => i % 2 == 1);
      var shorter := seq(2 * n - 2, i => i % 2 == 1);
      AlternatingCountsEvery(n - 1);
      assert flags[..2 * n - 1][..2 * n - 2] == shorter;
      assert flags[..2 * n - 1] == shorter + [false];
      EdgeStep(shorter, false);
      EdgeStep(shorter + [false], true);
      assert flags == shorter + [false] + [true];
    }
  }
}
