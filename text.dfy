/** The string operations the dashboard's formatters rely on: decimal rendering of
    integers (`ToString()`, `{x:00}`, `D2`), fixed-point rendering of reals (`F0`, `F1`,
    `F2`, `F3`), substring search (`Contains`, `IndexOf`) and character replacement. */
module Text {
  import opened Unity

  predicate IsDigit(c: char) { '0' <= c <= '9' }

  predicate AllDigits(s: string) { forall i :: 0 <= i < |s| ==> IsDigit(s[i]) }

  function DigitChar(d: nat): (c: char)
    requires d < 10
    ensures IsDigit(c) && c as int - '0' as int == d
  {
    ('0' as int + d) as char
  }

  function DigitValue(c: char): (d: nat)
    requires IsDigit(c)
    ensures d < 10 && DigitChar(d) == c
  {
    c as int - '0' as int
  }

  /** Decimal text of a non-negative integer, without leading zeros. */
  function NatToString(n: nat): (s: string)
    ensures |s| >= 1 && AllDigits(s)
    ensures s[0] == '0' ==> n == 0
    decreases n
  {
    if n < 10 then [DigitChar(n)] else NatToString(n / 10) + [DigitChar(n % 10)]
  }

  /** Reads a string of digits back as a number (leading zeros allowed). */
  function ParseNat(s: string): nat
    requires AllDigits(s)
  {
    if s == [] then 0 else ParseNat(s[..|s| - 1]) * 10 + DigitValue(s[|s| - 1])
  }

  lemma {:induction false} ParseNatToString(n: nat)
    ensures ParseNat(NatToString(n)) == n
    decreases n
  {
    if n >= 10 {
      var s := NatToString(n);
      assert s[..|s| - 1] == NatToString(n / 10);
      ParseNatToString(n / 10);
    }
  }

  /** Different numbers never print the same. */
  lemma NatToStringInjective(m: nat, n: nat)
    requires NatToString(m) == NatToString(n)
    ensures m == n
  {
    ParseNatToString(m);
    ParseNatToString(n);
  }

  function Zeros(k: nat): (s: string)
    ensures |s| == k && AllDigits(s)
    ensures forall i :: 0 <= i < k ==> s[i] == '0'
  {
    seq(k, _ => '0')
  }

  /** Zero padding to a minimum width, as the `00`/`D2` format specifiers do. */
  function PadZeros(s: string, width: nat): (r: string)
    ensures |r| == if |s| >= width then |s| else width
    ensures r[|r| - |s|..] == s
    ensures AllDigits(s) ==> AllDigits(r)
  {
    if |s| >= width then s else Zeros(width - |s|) + s
  }

  lemma {:induction false} ParseNatLeadingZeros(k: nat, s: string)
    requires AllDigits(s)
    ensures ParseNat(Zeros(k) + s) == ParseNat(s)
    decreases |s|
  {
    if s == [] {
      ParseNatZeros(k);
      assert Zeros(k) + s == Zeros(k);
    } else {
      var t := Zeros(k) + s;
      assert t[..|t| - 1] == Zeros(k) + s[..|s| - 1];
      ParseNatLeadingZeros(k, s[..|s| - 1]);
    }
  }

  lemma {:induction false} ParseNatZeros(k: nat)
    ensures ParseNat(Zeros(k)) == 0
  {
    if k > 0 {
      assert Zeros(k)[..k - 1] == Zeros(k - 1);
      ParseNatZeros(k - 1);
    }
  }

  /** Padding with zeros never changes the value that the digits stand for. */
  lemma ParsePadZeros(n: nat, width: nat)
    ensures ParseNat(PadZeros(NatToString(n), width)) == n
  {
    ParsePadded(NatToString(n), width);
    ParseNatToString(n);
  }

  lemma ParsePadded(s: string, width: nat)
    requires AllDigits(s)
    ensures ParseNat(PadZeros(s, width)) == ParseNat(s)
  {
    if |s| < width {
      var r, z := PadZeros(s, width), Zeros(width - |s|);
      assert r == z + s;
      assert ParseNat(z + s) == ParseNat(s) by {
        ParseNatLeadingZeros(width - |s|, s);
      }
    }
  }

  function Pow10(d: nat): (r: nat)
    ensures r >= 1
  {
    if d == 0 then 1 else 10 * Pow10(d - 1)
  }

  /** Rounding of a non-negative real to the nearest integer, halves upwards (that is,
      away from zero, the rule of the .NET fixed-point format). */
  function RoundHalfUp(x: real): (n: nat)
    requires x >= 0.0
    ensures x - 0.5 < n as real <= x + 0.5
  {
    (x + 0.5).Floor
  }

  /** Characters a formatted number may contain. */
  predicate NumberChars(s: string)
  {
    forall i :: 0 <= i < |s| ==> IsDigit(s[i]) || s[i] == '.' || s[i] == '-'
  }

  lemma NumberCharsHaveNoSeparator(s: string)
    requires NumberChars(s)
    ensures ',' !in s && '\n' !in s && '\r' !in s
  {
  }

  /** The digits of n / 10^d, then, when d > 0, a '.' and the last d digits of n
      (zero padded). */
  function FixedDigits(n: nat, d: nat): (s: string)
    ensures NumberChars(s) && |s| >= 1
    ensures d > 0 ==> |s| >= d + 2 && s[|s| - d - 1] == '.' && AllDigits(s[|s| - d..])
    decreases d
  {
    if d == 0 then NatToString(n)
    else
      var head := if d == 1 then NatToString(n / 10) + "." else FixedDigits(n / 10, d - 1);
      AppendDigit(head, DigitChar(n % 10), d);
      head + [DigitChar(n % 10)]
  }

  /** One more digit after a '.' that is `d - 1` digits from the end. */
  lemma AppendDigit(head: string, c: char, d: nat)
    requires d > 0 && IsDigit(c) && NumberChars(head) && |head| >= d + 1
    requires head[|head| - d] == '.' && AllDigits(head[|head| - d + 1..])
    ensures NumberChars(head + [c]) && |head + [c]| >= d + 2
    ensures (head + [c])[|head| - d] == '.' && AllDigits((head + [c])[|head| + 1 - d..])
  {
    assert (head + [c])[|head| + 1 - d..] == head[|head| - d + 1..] + [c];
  }

  /** A number below 10^d has at most d digits. */
  lemma {:induction false} NatToStringLength(n: nat, d: nat)
    requires n < Pow10(d)
    ensures d > 0 ==> |NatToString(n)| <= d
  {
    if n >= 10 {
      assert d > 1;
      NatToStringLength(n / 10, d - 1);
    }
  }

  /** A number zero-padded to `width` digits. */
  function Padded(n: nat, width: nat): (r: string)
    requires 1 <= width && n < Pow10(width)
    ensures |r| == width && AllDigits(r) && ParseNat(r) == n
  {
    NatToStringLength(n, width);
    ParsePadZeros(n, width);
    PadZeros(NatToString(n), width)
  }

  /** x times 10^d. */
  function Shift(x: real, d: nat): (r: real)
    ensures x >= 0.0 ==> r >= 0.0
  {
    if d == 0 then x else Shift(x, d - 1) * 10.0
  }

  /** Float.ToString("F<d>") with the invariant culture: an optional minus sign, the
      integral digits, and when d > 0 a '.' followed by exactly d digits. A value that
      rounds to zero is printed without a sign. */
  function FormatFixed(x: real, d: nat): (s: string)
    ensures NumberChars(s) && |s| >= 1
    ensures d > 0 ==> |s| >= d + 2 && s[|s| - d - 1] == '.' && AllDigits(s[|s| - d..])
  {
    var scaled := RoundHalfUp(Shift((if x < 0.0 then -x else x), d));
    var body := FixedDigits(scaled, d);
    if x < 0.0 && scaled > 0 then
      var s := "-" + body;
      assert d > 0 ==> s[|s| - d..] == body[|body| - d..];
      s
    else body
  }

  /** String.Contains for an ordinal substring search. */
  function Contains(s: string, sub: string): bool
    decreases |s|
  {
    if |s| < |sub| then false
    else if s[..|sub|] == sub then true
    else Contains(s[1..], sub)
  }

  /** `sub` occurs in `s` starting at position i. */
  predicate OccursAt(s: string, sub: string, i: int)
  {
    0 <= i <= |s| - |sub| && s[i..i + |sub|] == sub
  }

  lemma {:induction false} ContainsMeansOccurs(s: string, sub: string)
    ensures Contains(s, sub) <==> exists i :: OccursAt(s, sub, i)
    decreases |s|
  {
    if |s| < |sub| {
    } else if s[..|sub|] == sub {
      assert OccursAt(s, sub, 0);
    } else {
      ContainsMeansOccurs(s[1..], sub);
      if Contains(s, sub) {
        var i :| OccursAt(s[1..], sub, i);
        assert s[i + 1..i + 1 + |sub|] == s[1..][i..i + |sub|];
        assert OccursAt(s, sub, i + 1);
      }
      if exists i :: OccursAt(s, sub, i) {
        var i :| OccursAt(s, sub, i);
        assert i != 0;
        assert s[1..][i - 1..i - 1 + |sub|] == s[i..i + |sub|];
        assert OccursAt(s[1..], sub, i - 1);
      }
    }
  }

  /** String.IndexOf(char): the first position of `c`, or -1. */
  function IndexOf(s: string, c: char): (r: int)
    ensures -1 <= r < |s|
    ensures r == -1 <==> c !in s
    ensures r >= 0 ==> s[r] == c && c !in s[..r]
    decreases |s|
  {
    if |s| == 0 then -1
    else if s[0] == c then 0
    else
      var k := IndexOf(s[1..], c);
      assert s[1..] == s[1..|s|];
      if k == -1 then -1 else
        assert s[..k + 1] == [s[0]] + s[1..][..k];
        k + 1
  }

  /** String.Replace with one-character strings: every `from` becomes `to`. */
  function ReplaceChar(s: string, from: char, to: char): (r: string)
    ensures |r| == |s|
    ensures from != to ==> from !in r
    ensures forall i :: 0 <= i < |s| && s[i] != from ==> r[i] == s[i]
    ensures forall i :: 0 <= i < |s| && s[i] == from ==> r[i] == to
  {
    seq(|s|, i requires 0 <= i < |s| => if s[i] == from then to else s[i])
  }

  /** Number of occurrences of a character. */
  function CountChar(s: string, c: char): (n: nat)
    ensures n <= |s|
    ensures n == 0 <==> c !in s
  {
    if s == [] then 0
    else
      assert c in s <==> s[0] == c || c in s[1..];
      (if s[0] == c then 1 else 0) + CountChar(s[1..], c)
  }

  lemma {:induction false} CountCharAppend(a: string, b: string, c: char)
    ensures CountChar(a + b, c) == CountChar(a, c) + CountChar(b, c)
    decreases |a|
  {
    if a != [] {
      assert (a + b)[1..] == a[1..] + b;
      CountCharAppend(a[1..], b, c);
    } else {
      assert a + b == b;
    }
  }

  /** The parts with `sep` between consecutive ones. */
  function Join(parts: seq<string>, sep: char): (s: string)
    requires |parts| >= 1
    ensures CountChar(s, sep) >= |parts| - 1
  {
    if |parts| == 1 then parts[0]
    else
      var s := parts[0] + [sep] + Join(parts[1..], sep);
      CountCharAppend(parts[0] + [sep], Join(parts[1..], sep), sep);
      CountCharAppend(parts[0], [sep], sep);
      s
  }

  /** String.Split on one character: the pieces between the occurrences of `sep`. */
  function Split(s: string, sep: char): (parts: seq<string>)
    ensures |parts| == CountChar(s, sep) + 1
    decreases |s|
  {
    var k := IndexOf(s, sep);
    if k < 0 then [s]
    else
      assert s == s[..k] + s[k..];
      assert s[k..] == [sep] + s[k + 1..];
      CountCharAppend(s[..k], s[k..], sep);
      CountCharAppend([sep], s[k + 1..], sep);
      [s[..k]] + Split(s[k + 1..], sep)
  }

  /** Splitting joined parts that do not contain the separator gives the parts back. */
  lemma {:induction false} SplitJoin(parts: seq<string>, sep: char)
    requires |parts| >= 1
    requires forall i :: 0 <= i < |parts| ==> sep !in parts[i]
    ensures Split(Join(parts, sep), sep) == parts
    decreases |parts|
  {
    if |parts| > 1 {
      var rest := Join(parts[1..], sep);
      IndexOfAfter(parts[0], sep, rest);
      SplitAt(parts[0], sep, rest);
      SplitJoin(parts[1..], sep);
      assert parts == [parts[0]] + parts[1..];
    }
  }

  /** The first separator after a separator-free prefix is the one right after it. */
  lemma IndexOfAfter(p: string, sep: char, rest: string)
    requires sep !in p
    ensures IndexOf(p + [sep] + rest, sep) == |p|
    ensures (p + [sep] + rest)[..|p|] == p && (p + [sep] + rest)[|p| + 1..] == rest
  {
    var s := p + [sep] + rest;
    assert s[|p|] == sep && s[..|p|] == p;
  }

  /** Splitting at the first separator. */
  lemma SplitAt(p: string, sep: char, rest: string)
    requires sep !in p
    ensures Split(p + [sep] + rest, sep) == [p] + Split(rest, sep)
  {
    IndexOfAfter(p, sep, rest);
  }

  /** The lines, each followed by `sep`, as a text file writes them. */
  function Terminated(lines: seq<string>, sep: char): string
  {
    if |lines| == 0 then [] else lines[0] + [sep] + Terminated(lines[1..], sep)
  }

  /** Writing one more line appends it and its terminator. */
  lemma {:induction false} TerminatedAppend(lines: seq<string>, line: string, sep: char)
    ensures Terminated(lines + [line], sep) == Terminated(lines, sep) + line + [sep]
    decreases |lines|
  {
    if |lines| == 0 {
      assert lines + [line] == [line];
    } else {
      assert (lines + [line])[1..] == lines[1..] + [line];
      TerminatedAppend(lines[1..], line, sep);
    }
  }

  lemma SplitEmpty(sep: char)
    ensures Split([], sep) == [[]]
  {
    assert IndexOf([], sep) == -1;
  }

  lemma TerminatedStep(lines: seq<string>, sep: char, rest: string)
    requires |lines| > 0 && sep !in lines[0] && rest == Terminated(lines[1..], sep)
    requires Split(rest, sep) == lines[1..] + [[]]
    ensures Split(Terminated(lines, sep), sep) == lines + [[]]
  {
    assert Terminated(lines, sep) == lines[0] + [sep] + rest;
    SplitAt(lines[0], sep, rest);
    AppendAfterHead(lines, []);
  }

  /** Appending to a non-empty sequence appends to its tail. */
  lemma AppendAfterHead<T>(s: seq<T>, x: T)
    requires |s| > 0
    ensures s + [x] == [s[0]] + (s[1..] + [x])
  {
    assert s == [s[0]] + s[1..];
  }

  /** Splitting terminated lines that do not contain the terminator gives the lines
      back, followed by the empty piece after the last terminator. */
  lemma {:induction false} SplitTerminated(lines: seq<string>, sep: char)
    requires forall i :: 0 <= i < |lines| ==> sep !in lines[i]
    ensures Split(Terminated(lines, sep), sep) == lines + [[]]
    decreases |lines|
  {
    if |lines| == 0 {
      SplitEmpty(sep);
    } else {
      var rest := Terminated(lines[1..], sep);
      SplitTerminated(lines[1..], sep);
      TerminatedStep(lines, sep, rest);
    }
  }
}
