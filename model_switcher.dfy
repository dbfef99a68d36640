/** The model carousel: a serialized list of generator slots and the index of the
    active one, which advances cyclically. */
module Switcher {
  import opened Unity
  import opened Generators

  /** The index after one switch over `len` slots: the next one, wrapping to 0 after
      the last; an empty list keeps the index. */
  function NextIndex(i: int, len: int): (j: int)
    ensures len > 0 && 0 <= i ==> 0 <= j < len
    ensures len > 0 && 0 <= i < len - 1 ==> j == i + 1
    ensures len > 0 && i == len - 1 ==> j == 0
    ensures len <= 0 ==> j == i
  {
    if len <= 0 then i else (i + 1) % len
  }

  /** The index after `k` switches. */
  function Switches(i: int, len: int, k: nat): int
  {
    if k == 0 then i else NextIndex(Switches(i, len, k - 1), len)
  }

  /** From a valid index, `k` switches move the index `k` places round the list. */
  lemma {:induction false} SwitchesCount(i: int, len: int, k: nat)
    requires 0 <= i < len
    ensures Switches(i, len, k) == (i + k) % len
  {
    if k == 0 {
      DivModUnique(i, len, 0, i);
    } else {
      SwitchesCount(i, len, k - 1);
      ModSucc(i + k - 1, len);
    }
  }

  /** `len` consecutive switches return to the starting model. */
  lemma FullCycle(i: int, len: int)
    requires 0 <= i < len
    ensures Switches(i, len, len) == i
  {
    SwitchesCount(i, len, len);
    DivModUnique(i + len, len, 1, i);
  }

  /** Every model is reached from every other one in fewer than `len` switches. */
  lemma EveryModelReached(i: int, j: int, len: int)
    requires 0 <= i < len && 0 <= j < len
    ensures var k := if i <= j then j - i else j - i + len;
      0 <= k < len && Switches(i, len, k) == j
  {
    var k := if i <= j then j - i else j - i + len;
    SwitchesCount(i, len, k);
    if i <= j {
      DivModUnique(i + k, len, 0, j);
    } else {
      DivModUnique(i + k, len, 1, j);
    }
  }

  /** With no slots, switching never moves the index. */
  lemma {:induction false} EmptyNeverMoves(i: int, k: nat)
    ensures Switches(i, 0, k) == i
  {
    if k > 0 {
      EmptyNeverMoves(i, k - 1);
    }
  }

  class ModelSwitcher {
    /** The serialized slots; None is an unassigned slot. A null list is the empty
        list. */
    var generators: seq<Option<Generator>>
    var currentIndex: int

    /** The index is 0 for an empty list and a slot of the list otherwise. */
    ghost predicate Valid()
      reads this
    {
      0 <= currentIndex && (|generators| == 0 ==> currentIndex == 0)
      && (|generators| > 0 ==> currentIndex < |generators|)
    }

    constructor (generators: seq<Option<Generator>>)
      ensures Valid() && this.generators == generators && currentIndex == 0
    {
      this.generators := generators;
      currentIndex := 0;
    }

    /** Cycles to the next slot, wrapping round at the end; a no-op without slots. */
    method SwitchToNextModel()
      requires Valid()
      modifies this
      ensures Valid() && generators == old(generators)
      ensures currentIndex == NextIndex(old(currentIndex), |generators|)
    {
      if |generators| == 0 {
        return;
      }
      currentIndex := (currentIndex + 1) % |generators|;
    }

    /** The generator in the active slot; None without slots or for an unassigned
        slot. */
    function ActiveGenerator(): (g: Option<Generator>)
      reads this
      requires Valid()
      ensures |generators| == 0 ==> g == None
      ensures |generators| > 0 ==> g == generators[currentIndex]
      ensures g.Some? ==> g in generators
    {
      if |generators| == 0 then None else generators[currentIndex]
    }

    /** The one-letter key: 'A' plus the index, with no fallback; so 'A', 'B', 'C'
        for the first three slots and letters past 'Z' beyond the 26th. */
    function ActiveModelKey(): (k: string)
      reads this
      requires Valid() && 'A' as int + currentIndex < 0xD800
      ensures |k| == 1 && k[0] as int - 'A' as int == currentIndex
      ensures currentIndex < 26 ==> 'A' <= k[0] <= 'Z'
    {
      [('A' as int + currentIndex) as char]
    }

    /** The active generator's model name, or "Unknown Model" without one. */
    function CurrentModelName(): (name: string)
      reads this
      requires Valid()
      ensures ActiveGenerator() == None ==> name == "Unknown Model"
      ensures ActiveGenerator().Some? ==> name == ActiveGenerator().value.ModelName()
    {
      var g := ActiveGenerator();
      if g.Some? then g.value.ModelName() else "Unknown Model"
    }
  }
}
