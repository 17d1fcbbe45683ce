/**
 * The handful of Python `str` operations the backend relies on, over ASCII:
 * character classes as Python's `re` module sees them, `lower`/`upper`/`title`,
 * negative slicing, `join`/`split`, integer rendering and `:.2f` formatting.
 */
module Text {

  predicate IsDigit(c: char) { '0' <= c <= '9' }
  predicate IsUpperAscii(c: char) { 'A' <= c <= 'Z' }
  predicate IsLowerAscii(c: char) { 'a' <= c <= 'z' }
  predicate IsAlpha(c: char) { IsUpperAscii(c) || IsLowerAscii(c) }

  /** `\w`: letters, digits and the underscore. */
  predicate IsWordChar(c: char) { IsAlpha(c) || IsDigit(c) || c == '_' }

  /** `\s`: tab, newline, vertical tab, form feed, carriage return, the four separators 0x1C-0x1F, space. */
  predicate IsSpace(c: char) { c == ' ' || '\t' <= c <= '\r' || '\U{1C}' <= c <= '\U{1F}' }

  function LowerChar(c: char): (d: char)
    ensures IsUpperAscii(c) ==> IsLowerAscii(d)
    ensures !IsUpperAscii(c) ==> d == c
  {
    if IsUpperAscii(c) then (c as int + 32) as char else c
  }

  function UpperChar(c: char): (d: char)
    ensures IsLowerAscii(c) ==> IsUpperAscii(d)
    ensures !IsLowerAscii(c) ==> d == c
  {
    if IsLowerAscii(c) then (c as int - 32) as char else c
  }

  /** `str.lower()` */
  function Lower(s: string): (r: string)
    ensures |r| == |s| && forall i | 0 <= i < |s| :: r[i] == LowerChar(s[i])
  {
    seq(|s|, i requires 0 <= i < |s| => LowerChar(s[i]))
  }

  /** `str.upper()` */
  function Upper(s: string): (r: string)
    ensures |r| == |s| && forall i | 0 <= i < |s| :: r[i] == UpperChar(s[i])
  {
    seq(|s|, i requires 0 <= i < |s| => UpperChar(s[i]))
  }

  /** `str.replace(a, b)` for one character by another. */
  function ReplaceChar(s: string, a: char, b: char): (r: string)
    ensures |r| == |s| && forall i | 0 <= i < |s| :: r[i] == (if s[i] == a then b else s[i])
  {
    seq(|s|, i requires 0 <= i < |s| => if s[i] == a then b else s[i])
  }

  /** `str.title()`: a letter is upper-cased when it follows a non-letter, lower-cased otherwise. */
  function Title(s: string): (r: string)
    ensures |r| == |s|
    ensures forall i | 0 <= i < |s| :: IsAlpha(r[i]) == IsAlpha(s[i]) && (!IsAlpha(s[i]) ==> r[i] == s[i])
    ensures forall i | 0 <= i < |s| && IsAlpha(s[i]) ::
              r[i] == (if i > 0 && IsAlpha(s[i - 1]) then LowerChar(s[i]) else UpperChar(s[i]))
  {
    TitleAfter(s, false)
  }

  /** `str.title()` on the rest of a string whose previous character was a letter exactly when `afterLetter`. */
  function TitleAfter(s: string, afterLetter: bool): (r: string)
    ensures |r| == |s|
    ensures forall i | 0 <= i < |s| :: IsAlpha(r[i]) == IsAlpha(s[i]) && (!IsAlpha(s[i]) ==> r[i] == s[i])
    ensures forall i | 0 <= i < |s| && IsAlpha(s[i]) ::
              r[i] == (if (if i == 0 then afterLetter else IsAlpha(s[i - 1])) then LowerChar(s[i]) else UpperChar(s[i]))
  {
    if s == [] then []
    else
      var c := s[0];
      [if !IsAlpha(c) then c else if afterLetter then LowerChar(c) else UpperChar(c)]
        + TitleAfter(s[1..], IsAlpha(c))
  }

  /** `s[-n:]`: the last n characters, or all of s when it is shorter. */
  function Suffix(s: string, n: nat): (r: string)
    requires n > 0
    ensures |r| == if |s| <= n then |s| else n
    ensures r <= s[|s| - |r|..] && s[|s| - |r|..] == r
  {
    if |s| <= n then s else s[|s| - n..]
  }

  /** `sep.join(parts)` */
  function Join(sep: string, parts: seq<string>): string
  {
    if |parts| == 0 then ""
    else if |parts| == 1 then parts[0]
    else parts[0] + sep + Join(sep, parts[1..])
  }

  /** `s.split(c)` for a single-character separator: never empty, one more piece than separators. */
  function Split(s: string, c: char): (r: seq<string>)
    ensures |r| >= 1
  {
    if |s| == 0 then [""]
    else
      var rest := Split(s[1..], c);
      if s[0] == c then [""] + rest else [[s[0]] + rest[0]] + rest[1..]
  }

  lemma {:induction false} SplitWithout(p: string, c: char)
    requires c !in p
    ensures Split(p, c) == [p]
  {
    if |p| > 0 {
      SplitWithout(p[1..], c);
      assert [p[0]] + p[1..] == p;
    }
  }

  lemma {:induction false} SplitAtFirst(p: string, c: char, t: string)
    requires c !in p
    ensures Split(p + [c] + t, c) == [p] + Split(t, c)
  {
    var s := p + [c] + t;
    if |p| == 0 {
      assert s[0] == c && s[1..] == t;
    } else {
      assert s[0] == p[0] && s[1..] == p[1..] + [c] + t;
      SplitAtFirst(p[1..], c, t);
      assert [p[0]] + p[1..] == p;
    }
  }

  /** Splitting a join on a separator that no piece contains gives the pieces back. */
  lemma {:induction false} SplitJoin(parts: seq<string>, c: char)
    requires |parts| >= 1
    requires forall i | 0 <= i < |parts| :: c !in parts[i]
    ensures Split(Join([c], parts), c) == parts
  {
    if |parts| == 1 {
      SplitWithout(parts[0], c);
    } else {
      SplitJoin(parts[1..], c);
      SplitAtFirst(parts[0], c, Join([c], parts[1..]));
      assert [parts[0]] + parts[1..] == parts;
    }
  }

  /** Where each of four concatenated pieces sits. */
  lemma ConcatSlices4(a: string, b: string, c: string, d: string)
    ensures var s := a + b + c + d;
      && s[..|a|] == a && s[|a|..|a| + |b|] == b
      && s[|a| + |b|..|a| + |b| + |c|] == c && s[|a| + |b| + |c|..] == d
  {
  }

  /** Three fields joined by a one-character separator. */
  lemma ThreeFields(x: string, sep: string, y: string, z: string)
    requires |sep| == 1
    ensures var s := x + sep + y + sep + z;
      && |s| == |x| + |y| + |z| + 2
      && s[..|x|] == x && s[|x|] == sep[0] && s[|x| + 1..|x| + 1 + |y|] == y
      && s[|x| + 1 + |y|] == sep[0] && s[|x| + 2 + |y|..] == z
  {
  }

  /** A text that opens with `opening` and closes with `closing`. */
  lemma FramedTwice(opening: string, middle: string, closing: string)
    ensures var s := opening + middle + closing;
      && opening <= s && s[|s| - |closing|..] == closing
  {
  }

  function DigitChar(d: nat): (c: char)
    requires d < 10
    ensures IsDigit(c)
  {
    ('0' as int + d) as char
  }

  function DigitValue(c: char): (d: nat)
    requires IsDigit(c)
    ensures d < 10 && DigitChar(d) == c
  {
    c as int - '0' as int
  }

  /** The digits `uuid4().hex` is written in: 0-9 and lower-case a-f. */
  predicate IsLowerHex(c: char) { IsDigit(c) || 'a' <= c <= 'f' }

  predicate AllDigits(s: string) { forall i | 0 <= i < |s| :: IsDigit(s[i]) }

  /** `str(n)` for a natural number. */
  function NatToString(n: nat): (r: string)
    ensures 1 <= |r| && AllDigits(r)
  {
    if n < 10 then [DigitChar(n)] else NatToString(n / 10) + [DigitChar(n % 10)]
  }

  /** `str(i)` for an integer. */
  function IntToString(i: int): string
  {
    if i < 0 then "-" + NatToString(-i) else NatToString(i)
  }

  /** The value of a string of decimal digits; the inverse of NatToString. */
  function DigitsValue(s: string): nat
    requires AllDigits(s)
  {
    if |s| == 0 then 0 else DigitsValue(s[..|s| - 1]) * 10 + DigitValue(s[|s| - 1])
  }

  lemma {:induction false} NatToStringRoundTrip(n: nat)
    ensures DigitsValue(NatToString(n)) == n
  {
    var s := NatToString(n);
    if n >= 10 {
      NatToStringRoundTrip(n / 10);
      assert s[..|s| - 1] == NatToString(n / 10);
    }
  }

  function Zeros(k: nat): (r: string)
    ensures |r| == k && forall i | 0 <= i < k :: r[i] == '0'
  {
    if k == 0 then "" else "0" + Zeros(k - 1)
  }

  /** `'%0*d' % (width, n)`: n in decimal, padded on the left with zeros to at least `width` digits. */
  function Pad(n: nat, width: nat): (r: string)
    ensures AllDigits(r)
  {
    var s := NatToString(n);
    if |s| >= width then s else Zeros(width - |s|) + s
  }

  function Pow10(k: nat): (p: nat)
    ensures p >= 1
  {
    if k == 0 then 1 else 10 * Pow10(k - 1)
  }

  lemma {:induction false} NatToStringLength(n: nat, w: nat)
    requires 1 <= w && n < Pow10(w)
    ensures |NatToString(n)| <= w
  {
    if n >= 10 {
      NatToStringLength(n / 10, w - 1);
    }
  }

  lemma {:induction false} LeadingZerosValue(k: nat, s: string)
    requires AllDigits(s)
    ensures DigitsValue(Zeros(k) + s) == DigitsValue(s)
    decreases |s|, k
  {
    var t := Zeros(k) + s;
    if |s| == 0 {
      assert t == Zeros(k);
      if k > 0 {
        assert t[..|t| - 1] == Zeros(k - 1) + s;
        LeadingZerosValue(k - 1, s);
      }
    } else {
      assert t[..|t| - 1] == Zeros(k) + s[..|s| - 1];
      LeadingZerosValue(k, s[..|s| - 1]);
    }
  }

  /** A number below 10^w padded to w digits is exactly w digits long and reads back as itself. */
  lemma PadRoundTrip(n: nat, w: nat)
    requires 1 <= w && n < Pow10(w)
    ensures |Pad(n, w)| == w && DigitsValue(Pad(n, w)) == n
  {
    var s := NatToString(n);
    NatToStringLength(n, w);
    NatToStringRoundTrip(n);
    var p := Pad(n, w);
    if |s| < w {
      assert p == Zeros(w - |s|) + s;
      LeadingZerosValue(w - |s|, s);
      assert |p| == w && DigitsValue(p) == DigitsValue(s);
    } else {
      assert p == s && |s| == w;
    }
  }

  /** `f"{c / 100:.2f}"` for an amount held exactly as integer cents. */
  function FormatCents(c: int): (r: string)
    ensures forall i | 0 <= i < |r| :: IsDigit(r[i]) || r[i] == '.' || r[i] == '-'
  {
    var m := if c < 0 then -c else c;
    (if c < 0 then "-" else "") + NatToString(m / 100) + "." + Pad(m % 100, 2)
  }

  /**
   * The `:.2f` text reads back as its amount: a minus sign exactly for a negative amount, the
   * whole units before the point and exactly two digits of cents after it.
   */
  lemma FormatCentsReadBack(c: int)
    ensures var r := FormatCents(c);
      var m := if c < 0 then -c else c;
      var k := if c < 0 then 1 else 0;
      && |r| >= k + 4 && (r[0] == '-' <==> c < 0) && r[|r| - 3] == '.'
      && AllDigits(r[k..|r| - 3]) && DigitsValue(r[k..|r| - 3]) == m / 100
      && AllDigits(r[|r| - 2..]) && DigitsValue(r[|r| - 2..]) == m % 100
  {
    var m := if c < 0 then -c else c;
    var w, f := NatToString(m / 100), Pad(m % 100, 2);
    assert Pow10(2) == 100;
    PadRoundTrip(m % 100, 2);
    NatToStringRoundTrip(m / 100);
    var r := FormatCents(c);
    var sign := if c < 0 then "-" else "";
    var head := sign + w;
    assert r == head + "." + f && |r| - 3 == |head|;
    assert r[..|head|] == head && head[|sign|..] == w;
    assert r[|sign|..|r| - 3] == w;
    assert r[|r| - 2..] == f;
    if c >= 0 {
      assert r[0] == w[0];
    }
  }

  /** The number of cents `:.2f` shows for x: x * 100 rounded to the nearest integer, ties to even. */
  function RoundCents(x: real): (c: int)
    ensures x * 100.0 - 0.5 <= c as real <= x * 100.0 + 0.5
  {
    var y := x * 100.0;
    var f := y.Floor;
    var frac := y - f as real;
    if frac > 0.5 then f + 1
    else if frac < 0.5 then f
    else if f % 2 == 0 then f else f + 1
  }
}
