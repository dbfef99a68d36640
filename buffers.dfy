/** Bounded buffers that drop their oldest entries: the trimming rule shared by the
    two chart buffers (`RemoveRange(0, Count - capacity)` when over capacity). */
module Buffers {

  /** The last `cap` entries of `s`, or all of `s` when it fits or when `cap` is not
      positive. */
  function KeepLast<T>(s: seq<T>, cap: int): (r: seq<T>)
    ensures |r| <= |s| && r == s[|s| - |r|..]
    ensures cap <= 0 ==> r == s
    ensures cap > 0 ==> |r| == if |s| <= cap then |s| else cap
  {
    if cap <= 0 || |s| <= cap then s else s[|s| - cap..]
  }

  /** Trimming after every append gives the same buffer as trimming once after all
      of them: the buffer is always the last `cap` entries of everything appended. */
  lemma KeepLastAppend<T>(s: seq<T>, t: seq<T>, cap: int)
    ensures KeepLast(KeepLast(s, cap) + t, cap) == KeepLast(s + t, cap)
  {
    var k := KeepLast(s, cap);
    if cap > 0 && |s| > cap {
      assert k == s[|s| - cap..];
      if |k + t| <= cap {
        assert |t| == 0;
        assert t == [];
        assert s + t == s;
        assert k + t == k;
      } else {
        var r1 := (k + t)[|k + t| - cap..];
        var r2 := (s + t)[|s + t| - cap..];
        assert |r1| == |r2|;
        forall i | 0 <= i < cap
          ensures r1[i] == r2[i]
        {
          var j := |t| + i;
          if j < cap {
            assert r1[i] == k[j] == s[|s| - cap + j];
          }
        }
      }
    }
  }

  /** Trimming twice to the same capacity is trimming once. */
  lemma KeepLastIdempotent<T>(s: seq<T>, cap: int)
    ensures KeepLast(KeepLast(s, cap), cap) == KeepLast(s, cap)
  {
  }

  /** Shrinking the capacity of a trimmed buffer keeps the newest entries. */
  lemma KeepLastShrink<T>(s: seq<T>, big: int, small: int)
    requires 0 < small <= big
    ensures KeepLast(KeepLast(s, big), small) == KeepLast(s, small)
  {
  }
}
