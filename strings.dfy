/** The java.lang.String and java.lang.Integer operations the two core classes rely on,
    stated on `seq<char>`: prefix and suffix tests, `contains`, `lastIndexOf`, `split`,
    `Integer.parseInt`, and zero-padded decimal formatting (`%0Nd`). */
module Strings {
  import opened Wrappers

  predicate IsDigit(c: char) { '0' <= c <= '9' }

  predicate IsLower(c: char) { 'a' <= c <= 'z' }

  predicate AllDigits(s: string) { forall i :: 0 <= i < |s| ==> IsDigit(s[i]) }

  predicate AllLower(s: string) { forall i :: 0 <= i < |s| ==> IsLower(s[i]) }

  /** `s.startsWith(p)` */
  predicate StartsWith(s: string, p: string) { |p| <= |s| && s[..|p|] == p }

  /** `s.endsWith(p)` */
  predicate EndsWith(s: string, p: string) { |p| <= |s| && s[|s| - |p|..] == p }

  /** `s.contains(p)`: `p` occurs at some position of `s` */
  predicate Contains(s: string, p: string)
  {
    StartsWith(s, p) || (|s| > 0 && Contains(s[1..], p))
  }

  lemma {:induction false} ContainsAt(s: string, p: string, k: nat)
    requires k + |p| <= |s| && s[k..k + |p|] == p
    ensures Contains(s, p)
  {
    if k > 0 {
      assert s[1..][k - 1..k - 1 + |p|] == s[k..k + |p|];
      ContainsAt(s[1..], p, k - 1);
    }
  }

  /** Every occurrence of `p` in `s` starts at a position `k` with `s[k..k+|p|] == p`. */
  lemma {:induction false} ContainsWitness(s: string, p: string) returns (k: nat)
    requires Contains(s, p)
    ensures k + |p| <= |s| && s[k..k + |p|] == p
  {
    if StartsWith(s, p) {
      k := 0;
    } else {
      var j := ContainsWitness(s[1..], p);
      assert s[1..][j..j + |p|] == s[j + 1..j + 1 + |p|];
      k := j + 1;
    }
  }

  /** Every character of an occurring `p` is a character of `s`. */
  lemma ContainsChar(s: string, p: string, k: nat)
    requires Contains(s, p) && k < |p|
    ensures p[k] in s
  {
    var i := ContainsWitness(s, p);
    assert s[i + k] == s[i..i + |p|][k];
  }

  /** `s.lastIndexOf(c)`: the largest index holding `c`, or -1. */
  function LastIndexOf(s: string, c: char): (r: int)
    ensures -1 <= r < |s|
    ensures r >= 0 ==> s[r] == c
    ensures forall i :: r < i < |s| ==> s[i] != c
  {
    if |s| == 0 then -1
    else if s[|s| - 1] == c then |s| - 1
    else LastIndexOf(s[..|s| - 1], c)
  }

  /** All pieces of `s` between occurrences of `c`, empty ones included. */
  function SplitAll(s: string, c: char): (r: seq<string>)
    ensures |r| >= 1
  {
    if |s| == 0 then [""]
    else
      var rest := SplitAll(s[1..], c);
      if s[0] == c then [""] + rest else [[s[0]] + rest[0]] + rest[1..]
  }

  function StripTrailingEmpty(ps: seq<string>): seq<string>
  {
    if |ps| == 0 || ps[|ps| - 1] != "" then ps else StripTrailingEmpty(ps[..|ps| - 1])
  }

  /** `s.split(c)` of Java for a one-character literal separator: the input itself when the
      separator does not occur, otherwise the pieces with trailing empty pieces removed. */
  function Split(s: string, c: char): seq<string>
  {
    if c !in s then [s] else StripTrailingEmpty(SplitAll(s, c))
  }

  lemma {:induction false} SplitAllNoSeparator(a: string, c: char)
    requires c !in a
    ensures SplitAll(a, c) == [a]
  {
    if |a| > 0 {
      SplitAllNoSeparator(a[1..], c);
      assert [a[0]] + a[1..] == a;
    }
  }

  lemma {:induction false} SplitAllPiece(a: string, c: char, rest: string)
    requires c !in a
    ensures SplitAll(a + [c] + rest, c) == [a] + SplitAll(rest, c)
  {
    if |a| == 0 {
      assert a + [c] + rest == [c] + rest;
      assert (a + [c] + rest)[1..] == rest;
    } else {
      assert (a + [c] + rest)[1..] == a[1..] + [c] + rest;
      SplitAllPiece(a[1..], c, rest);
      assert [a[0]] + a[1..] == a;
    }
  }

  /** Splitting `x.y.z` on `.` gives the three pieces, when none of them holds a `.` and the
      last one is not empty. */
  lemma SplitThree(x: string, y: string, z: string, c: char)
    requires c !in x && c !in y && c !in z && z != ""
    ensures Split(x + [c] + y + [c] + z, c) == [x, y, z]
  {
    var s := x + [c] + y + [c] + z;
    assert s[|x|] == c;
    SplitAllPiece(x, c, y + [c] + z);
    assert s == x + [c] + (y + [c] + z);
    SplitAllPiece(y, c, z);
    SplitAllNoSeparator(z, c);
    assert SplitAll(s, c) == [x, y, z];
  }

  function DigitValue(c: char): nat
    requires IsDigit(c)
  {
    (c - '0') as nat
  }

  function DigitChar(d: nat): (c: char)
    requires d < 10
    ensures IsDigit(c) && DigitValue(c) == d
  {
    ('0' as int + d) as char
  }

  /** The value of a string of decimal digits. */
  function DecimalValue(s: string): nat
    requires AllDigits(s)
  {
    if |s| == 0 then 0 else 10 * DecimalValue(s[..|s| - 1]) + DigitValue(s[|s| - 1])
  }

  const IntMax: int := 0x7fff_ffff
  const IntMin: int := -0x8000_0000

  /** `Integer.parseInt(s)` over ASCII digits: an optional sign, at least one digit, nothing
      else, and a value within 32 bits; `None` stands for NumberFormatException. */
  function ParseInt(s: string): (r: Option<int>)
    ensures r.Some? ==> IntMin <= r.value <= IntMax
    ensures s != "" && AllDigits(s) ==> r == (if DecimalValue(s) <= IntMax then Some(DecimalValue(s)) else None)
    ensures s != "" && !IsDigit(s[0]) && s[0] != '+' && s[0] != '-' ==> r == None
  {
    if |s| == 0 then None
    else if s[0] == '-' || s[0] == '+' then
      if |s| == 1 || !AllDigits(s[1..]) then None
      else
        var mag: int := DecimalValue(s[1..]);
        var v := if s[0] == '-' then 0 - mag else mag;
        if IntMin <= v <= IntMax then Some(v) else None
    else if !AllDigits(s) then None
    else if DecimalValue(s) <= IntMax then Some(DecimalValue(s))
    else None
  }

  function Pow10(w: nat): (r: nat)
    ensures r >= 1
  {
    if w == 0 then 1 else 10 * Pow10(w - 1)
  }

  /** The number of decimal digits of `n`, which is `(int) Math.log10(n) + 1` for `n >= 1`:
      the `w` with `10^(w-1) <= n < 10^w`. */
  function DigitCount(n: nat): (w: nat)
    ensures w >= 1
    ensures n < Pow10(w)
    ensures n >= 1 ==> Pow10(w - 1) <= n
  {
    if n < 10 then 1 else 1 + DigitCount(n / 10)
  }

  /** `String.format("%0" + w + "d", i)` for an `i` of at most `w` digits: the last `w`
      decimal digits of `i`, leading ones filled with `0`. */
  function Pad(i: nat, w: nat): (r: string)
    ensures |r| == w && AllDigits(r)
  {
    if w == 0 then "" else Pad(i / 10, w - 1) + [DigitChar(i % 10)]
  }

  /** Reading a padded index back gives the index: padding loses nothing when `i < 10^w`. */
  lemma {:induction false} PadValue(i: nat, w: nat)
    requires i < Pow10(w)
    ensures DecimalValue(Pad(i, w)) == i
  {
    if w > 0 {
      var p := Pad(i, w);
      assert p[..|p| - 1] == Pad(i / 10, w - 1);
      PadValue(i / 10, w - 1);
    }
  }

  /** `a` comes strictly before `b` in the order of `String.compareTo`. */
  predicate LexLess(a: string, b: string)
  {
    if |a| == 0 then |b| > 0
    else |b| > 0 && (a[0] < b[0] || (a[0] == b[0] && LexLess(a[1..], b[1..])))
  }

  lemma {:induction false} LexLessExtend(a: string, b: string, s: string, t: string)
    requires |a| == |b| && LexLess(a, b)
    ensures LexLess(a + s, b + t)
  {
    if a[0] != b[0] {
    } else {
      assert (a + s)[1..] == a[1..] + s && (b + t)[1..] == b[1..] + t;
      LexLessExtend(a[1..], b[1..], s, t);
    }
  }

  lemma {:induction false} LexLessLast(a: string, x: char, y: char)
    requires x < y
    ensures LexLess(a + [x], a + [y])
  {
    if |a| > 0 {
      assert (a + [x])[1..] == a[1..] + [x] && (a + [y])[1..] == a[1..] + [y];
      LexLessLast(a[1..], x, y);
    }
  }

  lemma DigitCharMonotone(d: nat, e: nat)
    requires d < e < 10
    ensures DigitChar(d) < DigitChar(e)
  {
  }

  /** Zero padding to a common width keeps the numeric order as the string order. */
  lemma {:induction false} PadOrdered(i: nat, j: nat, w: nat)
    requires i < j < Pow10(w)
    ensures LexLess(Pad(i, w), Pad(j, w))
  {
    assert w > 0;
    if i / 10 == j / 10 {
      assert i % 10 < j % 10;
      DigitCharMonotone(i % 10, j % 10);
      LexLessLast(Pad(i / 10, w - 1), DigitChar(i % 10), DigitChar(j % 10));
    } else {
      assert i / 10 < j / 10 < Pow10(w - 1);
      PadOrdered(i / 10, j / 10, w - 1);
      LexLessExtend(Pad(i / 10, w - 1), Pad(j / 10, w - 1), [DigitChar(i % 10)], [DigitChar(j % 10)]);
    }
  }
}
