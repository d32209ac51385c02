/**
 * The string operations of JavaScript that the modelled code relies on:
 * decimal printing of integers and of Numbers (`String(x)`, template
 * literals), `padStart`, `trim`, and the test for a property key that is an
 * array index (section 6.1.7 of ECMA-262), which decides the order in which
 * an object's keys are listed.
 */
module JsString {
  import opened JsNumber

  predicate IsDigit(c: char) {
    '0' <= c <= '9'
  }

  predicate AllDigits(s: string) {
    forall i :: 0 <= i < |s| ==> IsDigit(s[i])
  }

  function DigitChar(d: nat): (c: char)
    requires d < 10
    ensures IsDigit(c) && DigitValue(c) == d
  {
    (d + '0' as int) as char
  }

  function DigitValue(c: char): (d: nat)
    requires IsDigit(c)
    ensures d < 10
  {
    c as int - '0' as int
  }

  /** The value of a string of decimal digits. */
  function DigitsValue(s: string): nat
    requires AllDigits(s)
  {
    if s == [] then 0 else 10 * DigitsValue(s[..|s| - 1]) + DigitValue(s[|s| - 1])
  }

  /** A digit string without superfluous leading zeros: the form JavaScript prints. */
  predicate Canonical(s: string) {
    |s| >= 1 && AllDigits(s) && (s[0] != '0' || |s| == 1)
  }

  /** `String(n)` for a natural number. */
  function NatToString(n: nat): (s: string)
    ensures Canonical(s)
    ensures DigitsValue(s) == n
    decreases n
  {
    if n < 10 then [DigitChar(n)]
    else
      var prefix := NatToString(n / 10);
      var s := prefix + [DigitChar(n % 10)];
      assert s[..|s| - 1] == prefix;
      assert prefix != "0";
      s
  }

  /** `String(i)` for an integer. */
  function IntToString(i: int): (s: string)
    ensures i >= 0 ==> s == NatToString(i)
    ensures i < 0 ==> s == "-" + NatToString(-i)
  {
    if i < 0 then "-" + NatToString(-i) else NatToString(i)
  }

  /** `s.padStart(width, fill)`. */
  function PadStart(s: string, width: nat, fill: char): (r: string)
    ensures |r| == if |s| >= width then |s| else width
    ensures r[|r| - |s|..] == s
    ensures forall i :: 0 <= i < |r| - |s| ==> r[i] == fill
  {
    if |s| >= width then s else seq(width - |s|, _ => fill) + s
  }

  /** The largest array index plus one: 2^32 - 1. */
  const ArrayIndexBound: nat := 0x1_0000_0000 - 1

  /** A property key that is an array index: a canonical decimal below 2^32 - 1. */
  predicate IsArrayIndex(key: string) {
    Canonical(key) && DigitsValue(key) < ArrayIndexBound
  }

  function ArrayIndexValue(key: string): nat
    requires IsArrayIndex(key)
  {
    DigitsValue(key)
  }

  /** A Number whose string form is an array index. */
  predicate IsIndexNumber(x: real) {
    x.Floor as real == x && 0.0 <= x < ArrayIndexBound as real
  }

  /** Numbers the model can print: whole hundredths below 10^21, where `String(x)` is plain decimal notation. */
  predicate Printable(x: real) {
    OnGrid(x) && -1e21 < x < 1e21
  }

  /** The fraction digits of a number of hundredths below 100, trailing zeros dropped. */
  function FractionDigits(f: nat): (s: string)
    requires f < 100
    ensures f == 0 <==> s == ""
    ensures s != "" ==> s[0] == '.'
  {
    if f == 0 then ""
    else if f % 10 == 0 then "." + [DigitChar(f / 10)]
    else "." + [DigitChar(f / 10), DigitChar(f % 10)]
  }

  /** The magnitude of x in whole hundredths. */
  function Hundredths(x: real): (n: nat)
    ensures OnGrid(x) ==> n as real == Abs(100.0 * x)
  {
    var c := (100.0 * x).Floor;
    if c < 0 then -c else c
  }

  /** The digits of a number of hundredths: the whole part, then the fraction without trailing zeros. */
  function HundredthsToString(n: nat): (s: string)
  {
    NatToString(n / 100) + FractionDigits(n % 100)
  }

  /** `String(x)` for a Number that is a whole number of hundredths. */
  function NumberToString(x: real): (s: string)
    requires Printable(x)
  {
    (if x < 0.0 then "-" else "") + HundredthsToString(Hundredths(x))
  }

  /**
   * A printed Number is an array index exactly when the Number is a whole
   * number from 0 to 2^32 - 2, and the index is then that Number.
   */
  lemma {:induction false} NumberKeyIsIndex(x: real)
    requires Printable(x)
    ensures IsArrayIndex(NumberToString(x)) <==> IsIndexNumber(x)
    ensures IsIndexNumber(x) ==> ArrayIndexValue(NumberToString(x)) as real == x
  {
    var n := Hundredths(x);
    var s := NumberToString(x);
    var whole := NatToString(n / 100);
    var frac := FractionDigits(n % 100);
    if x < 0.0 {
      assert s[0] == '-';
      assert !IsDigit(s[0]);
    } else if n % 100 != 0 {
      assert n as real == 100.0 * x;
      assert s == whole + frac;
      assert s[|whole|] == '.';
      assert !AllDigits(s);
      assert x.Floor == n / 100 by {
        assert (n / 100) as real <= x < (n / 100 + 1) as real;
      }
      assert x != x.Floor as real;
    } else {
      assert n as real == 100.0 * x;
      assert s == whole;
      assert x == (n / 100) as real;
    }
  }

  /** Different fraction digits come from different numbers of hundredths. */
  lemma {:induction false} FractionDigitsInjective(f: nat, g: nat)
    requires f < 100 && g < 100 && FractionDigits(f) == FractionDigits(g)
    ensures f == g
  {
    var s := FractionDigits(f);
    if f != 0 && g != 0 {
      assert DigitValue(s[1]) == f / 10 == g / 10;
      if f % 10 != 0 {
        assert |s| == 3;
        assert DigitValue(s[2]) == f % 10 == g % 10;
      }
    }
  }

  /** A digit string followed by an empty or '.'-led tail splits in only one place. */
  lemma {:induction false} DigitsThenFraction(w1: string, f1: string, w2: string, f2: string)
    requires AllDigits(w1) && AllDigits(w2)
    requires f1 == [] || f1[0] == '.'
    requires f2 == [] || f2[0] == '.'
    requires w1 + f1 == w2 + f2
    ensures w1 == w2 && f1 == f2
  {
    var r := w1 + f1;
    assert forall i :: 0 <= i < |w1| ==> IsDigit(r[i]);
    assert forall i :: 0 <= i < |w2| ==> IsDigit(r[i]);
    assert |w1| < |r| ==> !IsDigit(r[|w1|]);
    assert |w2| < |r| ==> !IsDigit(r[|w2|]);
    assert |w1| == |w2|;
    assert w1 == r[..|w1|] && w2 == r[..|w2|];
  }

  /** Distinct printable Numbers print differently, so they make distinct property keys. */
  lemma {:induction false} NumberToStringInjective(x: real, y: real)
    requires Printable(x) && Printable(y)
    requires NumberToString(x) == NumberToString(y)
    ensures x == y
  {
    var s := NumberToString(x);
    var a, b := Hundredths(x), Hundredths(y);
    assert (x < 0.0) == (y < 0.0) by {
      assert x < 0.0 <==> s[0] == '-';
      assert y < 0.0 <==> s[0] == '-';
    }
    if x < 0.0 {
      assert s[1..] == HundredthsToString(a) && s[1..] == HundredthsToString(b);
    } else {
      assert s == HundredthsToString(a) && s == HundredthsToString(b);
    }
    HundredthsToStringInjective(a, b);
  }

  lemma {:induction false} HundredthsToStringInjective(a: nat, b: nat)
    requires HundredthsToString(a) == HundredthsToString(b)
    ensures a == b
  {
    DigitsThenFraction(NatToString(a / 100), FractionDigits(a % 100), NatToString(b / 100), FractionDigits(b % 100));
    FractionDigitsInjective(a % 100, b % 100);
  }

  // ---------------------------------------------------------------------------
  // String.prototype.trim

  /**
   * The code points ECMA-262 counts as WhiteSpace (TAB, VT, FF, ZWNBSP and the
   * Unicode category Zs) or LineTerminator (LF, CR, LS, PS).
   */
  predicate IsWhiteSpace(c: char) {
    c == '\t' || c == '\n' || c == '\U{000B}' || c == '\U{000C}' || c == '\r' ||
    c == ' ' || c == '\U{00A0}' || c == '\U{1680}' ||
    ('\U{2000}' <= c <= '\U{200A}') ||
    c == '\U{2028}' || c == '\U{2029}' || c == '\U{202F}' || c == '\U{205F}' ||
    c == '\U{3000}' || c == '\U{FEFF}'
  }

  predicate AllWhiteSpace(s: string) {
    forall i :: 0 <= i < |s| ==> IsWhiteSpace(s[i])
  }

  /** Drops the leading white space: the result is the suffix after it. */
  function TrimStart(s: string): (r: string)
    ensures |r| <= |s| && r == s[|s| - |r|..]
    ensures AllWhiteSpace(s[..|s| - |r|])
    ensures r == [] || !IsWhiteSpace(r[0])
  {
    if s != [] && IsWhiteSpace(s[0]) then
      var r := TrimStart(s[1..]);
      TrimStartStep(s, r);
      r
    else s
  }

  /** Drops the trailing white space: the result is the prefix before it. */
  function TrimEnd(s: string): (r: string)
    ensures |r| <= |s| && r == s[..|r|]
    ensures AllWhiteSpace(s[|r|..])
    ensures r == [] || !IsWhiteSpace(r[|r| - 1])
  {
    if s != [] && IsWhiteSpace(s[|s| - 1]) then
      var r := TrimEnd(s[..|s| - 1]);
      TrimEndStep(s, r);
      r
    else s
  }

  /** White space in front of what the rest trims to is trimmed too. */
  lemma {:induction false} TrimStartStep(s: string, r: string)
    requires s != [] && IsWhiteSpace(s[0])
    requires |r| <= |s| - 1 && r == s[1..][|s| - 1 - |r|..] && AllWhiteSpace(s[1..][..|s| - 1 - |r|])
    ensures r == s[|s| - |r|..] && AllWhiteSpace(s[..|s| - |r|])
  {
    assert s[..|s| - |r|] == [s[0]] + s[1..][..|s| - 1 - |r|];
  }

  /** White space after what the rest trims to is trimmed too. */
  lemma {:induction false} TrimEndStep(s: string, r: string)
    requires s != [] && IsWhiteSpace(s[|s| - 1])
    requires |r| <= |s| - 1 && r == s[..|s| - 1][..|r|] && AllWhiteSpace(s[..|s| - 1][|r|..])
    ensures r == s[..|r|] && AllWhiteSpace(s[|r|..])
  {
    assert s[|r|..] == s[..|s| - 1][|r|..] + [s[|s| - 1]];
  }

  /** `s.trim()`. */
  function Trim(s: string): (r: string)
  {
    TrimEnd(TrimStart(s))
  }

  /**
   * The trimmed string is the slice `s[i..j]` left after dropping white space
   * at both ends, and it neither starts nor ends with white space.
   */
  lemma {:induction false} TrimIsInnerSlice(s: string) returns (i: nat, j: nat)
    ensures i <= j <= |s| && Trim(s) == s[i..j]
    ensures AllWhiteSpace(s[..i]) && AllWhiteSpace(s[j..])
    ensures Trim(s) == [] || (!IsWhiteSpace(Trim(s)[0]) && !IsWhiteSpace(Trim(s)[|Trim(s)| - 1]))
  {
    var t := TrimStart(s);
    var r := TrimEnd(t);
    i := |s| - |t|;
    j := i + |r|;
    assert r == s[i..j];
    assert s[j..] == t[|r|..];
  }

  /** The trimmed string is empty exactly when the input is all white space. */
  lemma {:induction false} TrimEmpty(s: string)
    ensures Trim(s) == [] <==> AllWhiteSpace(s)
  {
    var t := TrimStart(s);
    assert s == s[..|s| - |t|] + t;
    if TrimEnd(t) == [] {
      assert t[0..] == t;
    }
  }

  /** Trimming twice is trimming once. */
  lemma {:induction false} TrimIdempotent(s: string)
    ensures Trim(Trim(s)) == Trim(s)
  {
    var r := Trim(s);
    var i, j := TrimIsInnerSlice(s);
    if r != [] {
      assert TrimStart(r) == r;
    }
  }
}
