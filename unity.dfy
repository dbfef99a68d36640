/** The slice of the engine's API that the dashboard core calls: the Mathf helpers,
    Vector2 and Rect, and an Option type standing in for C#'s null.
    Floats are modelled as `real`, so none of these round. */
module Unity {

  datatype Option<+T> = None | Some(value: T)

  /** UnityEngine.Vector2 */
  datatype Vector2 = Vector2(x: real, y: real)

  /** UnityEngine.Rect, given by its minimum corner and its size. */
  datatype Rect = Rect(xMin: real, yMin: real, width: real, height: real) {
    function xMax(): real { xMin + width }
    function yMax(): real { yMin + height }
  }

  /** Mathf.Clamp (float and int overloads have the same shape): the lower bound is
      compared first, so with crossed bounds a value below `lo` gives `lo` and any other
      gives `hi`. */
  function Clamp(v: real, lo: real, hi: real): (r: real)
    ensures lo <= hi ==> lo <= r <= hi
    ensures lo <= v <= hi ==> r == v
    ensures v < lo ==> r == lo
    ensures lo <= v && hi < v ==> r == hi
  {
    if v < lo then lo else if v > hi then hi else v
  }

  function ClampInt(v: int, lo: int, hi: int): (r: int)
    ensures lo <= hi ==> lo <= r <= hi
    ensures lo <= v <= hi ==> r == v
    ensures v < lo ==> r == lo
    ensures lo <= v && hi < v ==> r == hi
  {
    if v < lo then lo else if v > hi then hi else v
  }

  /** Mathf.Clamp01 */
  function Clamp01(v: real): (r: real)
    ensures 0.0 <= r <= 1.0
    ensures 0.0 <= v <= 1.0 ==> r == v
  {
    Clamp(v, 0.0, 1.0)
  }

  /** Mathf.Lerp: the parameter is clamped to [0, 1] first. */
  function Lerp(a: real, b: real, t: real): (r: real)
    ensures Clamp01(t) == 0.0 ==> r == a
    ensures Clamp01(t) == 1.0 ==> r == b
    ensures a <= b ==> a <= r <= b
    ensures b <= a ==> b <= r <= a
  {
    var u := Clamp01(t);
    var r := a + (b - a) * u;
    LerpBetween(a, b, u, r);
    r
  }

  lemma LerpBetween(a: real, b: real, u: real, r: real)
    requires 0.0 <= u <= 1.0 && r == a + (b - a) * u
    ensures a <= b ==> a <= r <= b
    ensures b <= a ==> b <= r <= a
  {
    if a <= b {
      MulNonNegative(b - a, u);
      MulNonNegative(b - a, 1.0 - u);
      assert b - r == (b - a) * (1.0 - u);
    } else {
      MulNonNegative(a - b, u);
      MulNonNegative(a - b, 1.0 - u);
      assert a - r == (a - b) * u;
      assert r - b == (a - b) * (1.0 - u);
    }
  }

  lemma MulNonNegative(a: real, b: real)
    requires 0.0 <= a && 0.0 <= b
    ensures 0.0 <= a * b
  {
  }

  /** Mathf.InverseLerp: 0 when the bounds coincide, otherwise the clamped position of v. */
  function InverseLerp(a: real, b: real, v: real): (r: real)
    ensures 0.0 <= r <= 1.0
    ensures a == b ==> r == 0.0
    ensures a < b && v <= a ==> r == 0.0
    ensures a < b && b <= v ==> r == 1.0
  {
    if a != b then
      var q := (v - a) / (b - a);
      assert a < b && b <= v ==> q >= 1.0 by {
        if a < b && b <= v { DivAtLeastOne(v - a, b - a); }
      }
      assert a < b && v <= a ==> q <= 0.0 by {
        if a < b && v <= a { DivNonPositive(v - a, b - a); }
      }
      Clamp01(q)
    else 0.0
  }

  lemma DivAtLeastOne(n: real, d: real)
    requires 0.0 < d <= n
    ensures n / d >= 1.0
  {
    assert n / d * d == n;
  }

  lemma DivNonPositive(n: real, d: real)
    requires n <= 0.0 < d
    ensures n / d <= 0.0
  {
  }

  /** Mathf.Max for floats and for ints. */
  function Max(a: real, b: real): (r: real)
    ensures r >= a && r >= b && (r == a || r == b)
  {
    if a > b then a else b
  }

  function MaxInt(a: int, b: int): (r: int)
    ensures r >= a && r >= b && (r == a || r == b)
  {
    if a > b then a else b
  }

  /** Mathf.Abs on ints. */
  function Abs(v: int): (r: nat)
    ensures r == v || r == -v
  {
    if v < 0 then -v else v
  }

  /** Mathf.FloorToInt */
  function FloorToInt(v: real): (r: int)
    ensures r as real <= v < r as real + 1.0
  {
    v.Floor
  }

  /** Mathf.RoundToInt, i.e. Math.Round with its default midpoint rule: halves go to
      the even neighbour. */
  function RoundToInt(v: real): (r: int)
    ensures v - 0.5 <= r as real <= v + 0.5
    ensures r as real == v - 0.5 || r as real == v + 0.5 ==> r % 2 == 0
  {
    var f := v.Floor;
    var frac := v - f as real;
    if frac < 0.5 then f
    else if frac > 0.5 then f + 1
    else if f % 2 == 0 then f else f + 1
  }

  /** Floor is monotone. */
  lemma FloorMonotone(a: real, b: real)
    requires a <= b
    ensures a.Floor <= b.Floor
  {
    assert a.Floor as real <= a <= b < b.Floor as real + 1.0;
  }

  /** Integer division and remainder are determined by n == q * k + r with r in [0, k). */
  lemma DivModUnique(n: int, k: int, q: int, r: int)
    requires k >= 1 && 0 <= r < k && n == q * k + r
    ensures n / k == q && n % k == r
  {
    var q2 := n / k;
    assert n == q2 * k + n % k && 0 <= n % k < k;
    if q2 > q {
      MulLe(q + 1, q2, k);
      assert false;
    }
    if q2 < q {
      MulLe(q2 + 1, q, k);
      assert false;
    }
  }

  lemma MulLe(a: int, b: int, k: int)
    requires a <= b && k >= 0
    ensures a * k <= b * k
  {
    assert b * k - a * k == (b - a) * k;
  }

  /** Stepping a remainder by one is the remainder of the next number. */
  lemma ModSucc(a: int, k: int)
    requires k >= 1
    ensures ((a % k) + 1) % k == (a + 1) % k
  {
    var q := a / k;
    var r := a % k;
    if r + 1 < k {
      DivModUnique(a + 1, k, q, r + 1);
      DivModUnique(r + 1, k, 0, r + 1);
    } else {
      DivModUnique(a + 1, k, q + 1, 0);
      DivModUnique(r + 1, k, 1, 0);
    }
  }
}
