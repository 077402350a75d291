/**
 * Amounts of money as `db.Decimal` builds them from the text of a command,
 * in whole cents. The accepted forms are an optional sign, then digits with
 * an optional point and up to two fraction digits, or a point followed by
 * one or two digits: `30`, `-2.5`, `+.75`, `4.`.
 */
module Amounts {
  import opened Wrappers

  predicate IsDigit(c: char)
  {
    '0' <= c <= '9'
  }

  predicate AllDigits(s: string)
  {
    forall i :: 0 <= i < |s| ==> IsDigit(s[i])
  }

  /** The length of the run of digits at the start of `s`. */
  function DigitRun(s: string): (n: nat)
    ensures n <= |s|
    ensures AllDigits(s[..n])
    ensures n < |s| ==> !IsDigit(s[n])
  {
    if s == [] || !IsDigit(s[0]) then 0
    else
      var n := DigitRun(s[1..]);
      assert s[..1 + n] == [s[0]] + s[1..][..n];
      1 + n
  }

  function DigitValue(c: char): nat
    requires IsDigit(c)
  {
    c as int - '0' as int
  }

  function Digit(d: nat): (c: char)
    requires d < 10
    ensures IsDigit(c) && DigitValue(c) == d
  {
    ('0' as int + d) as char
  }

  /** The number a string of decimal digits denotes. */
  function Value(s: string): nat
    requires AllDigits(s)
  {
    if s == [] then 0 else Value(s[..|s| - 1]) * 10 + DigitValue(s[|s| - 1])
  }

  /** The cents that zero, one or two fraction digits denote. */
  function FractionCents(frac: string): nat
    requires AllDigits(frac) && |frac| <= 2
  {
    if |frac| == 0 then 0
    else if |frac| == 1 then DigitValue(frac[0]) * 10
    else DigitValue(frac[0]) * 10 + DigitValue(frac[1])
  }

  /** An unsigned amount: a run of digits, then nothing or a point and its fraction. */
  function ParseUnsigned(s: string): Option<nat>
  {
    var k := DigitRun(s);
    if k == |s| then Whole(s)
    else if s[k] != '.' then None
    else Fraction(s[..k], s[k + 1..])
  }

  /** Digits alone: at least one of them. */
  function Whole(digits: string): Option<nat>
    requires AllDigits(digits)
  {
    if digits != [] then Some(Value(digits) * 100) else None
  }

  /** Digits, a point and up to two fraction digits, with a digit on at least one side. */
  function Fraction(whole: string, frac: string): Option<nat>
    requires AllDigits(whole)
  {
    if AllDigits(frac) && |frac| <= 2 && (whole != [] || frac != [])
    then Some(Value(whole) * 100 + FractionCents(frac))
    else None
  }

  /** `db.Decimal(text)` in cents, or `None` where it would raise `InvalidOperation`. */
  function ParseAmount(s: string): (r: Option<int>)
    ensures r.Some? ==> s != [] && (r.value < 0 ==> s[0] == '-')
  {
    if |s| > 0 && (s[0] == '+' || s[0] == '-') then
      match ParseUnsigned(s[1..])
      case None => None
      case Some(c) => Some(if s[0] == '-' then -(c as int) else c as int)
    else
      match ParseUnsigned(s)
      case None => None
      case Some(c) => Some(c as int)
  }

  /** The decimal digits of a natural number, without leading zeros. */
  function Show(n: nat): (s: string)
    ensures |s| > 0 && AllDigits(s) && Value(s) == n
  {
    if n < 10 then
      assert [Digit(n)][..0] == [];
      [Digit(n)]
    else
      var w := Show(n / 10);
      var s := w + [Digit(n % 10)];
      assert s[..|s| - 1] == w;
      s
  }

  /** An amount written with two fraction digits, as `Decimal` prints one that has them. */
  function FormatCents(c: int): string
  {
    var a := if c < 0 then -c else c;
    (if c < 0 then "-" else "") + Show(a / 100) + "." + [Digit(a % 100 / 10), Digit(a % 10)]
  }

  /** The two-place form starts with a sign or a digit and ends with a digit. */
  lemma FormatCentsEnds(c: int)
    ensures var f := FormatCents(c);
      && |f| >= 4 && (f[0] == '-' || IsDigit(f[0])) && IsDigit(f[|f| - 1])
  {
    var a := if c < 0 then -c else c;
    var w := Show(a / 100);
    assert IsDigit(w[0]);
  }

  /** The two-place form holds only a sign, digits and the point. */
  lemma FormatCentsChars(c: int)
    ensures var f := FormatCents(c);
      forall i :: 0 <= i < |f| ==> f[i] == '-' || f[i] == '.' || IsDigit(f[i])
  {
    var a := if c < 0 then -c else c;
    var w := Show(a / 100);
    var f := FormatCents(c);
    var sign := if c < 0 then "-" else "";
    assert f == sign + w + "." + [Digit(a % 100 / 10), Digit(a % 10)];
  }

  lemma {:induction false} DigitRunOfDigits(w: string, t: string)
    requires AllDigits(w)
    requires t == [] || !IsDigit(t[0])
    ensures DigitRun(w + t) == |w|
  {
    if w != [] {
      assert (w + t)[1..] == w[1..] + t;
      DigitRunOfDigits(w[1..], t);
    } else {
      assert w + t == t;
    }
  }

  /** Digits, a point and two fraction digits parse as a whole part and a fraction. */
  lemma ParseTwoPlaces(w: string, frac: string)
    requires |w| > 0 && AllDigits(w)
    requires |frac| == 2 && AllDigits(frac)
    ensures ParseUnsigned(w + "." + frac) == Fraction(w, frac)
  {
    var rest := w + "." + frac;
    DigitRunOfDigits(w, "." + frac);
    assert rest == w + ("." + frac);
    var k := DigitRun(rest);
    assert k == |w| < |rest|;
    assert rest[k] == '.';
    assert rest[k + 1..] == frac;
    assert rest[..k] == w;
  }

  /** The last digit of ten times a number plus a digit is that digit. */
  lemma UnitsDigit(x: nat, d: nat)
    requires d < 10
    ensures (x * 10 + d) % 10 == d
  {
  }

  /** A natural number is its hundreds, its tens digit and its units digit. */
  lemma SplitCents(a: nat)
    ensures (a / 100) * 100 + (a % 100 / 10) * 10 + a % 10 == a
  {
    var q, r := a / 100, a % 100;
    assert a == q * 100 + r;
    var t, d := r / 10, r % 10;
    assert r == t * 10 + d;
    assert a == (q * 10 + t) * 10 + d;
    UnitsDigit(q * 10 + t, d);
  }

  /** A sign in front of an unsigned amount that starts with a digit applies to it. */
  lemma ParseSigned(rest: string, a: nat)
    requires ParseUnsigned(rest) == Some(a) && rest != [] && IsDigit(rest[0])
    ensures ParseAmount(rest) == Some(a as int)
    ensures ParseAmount("-" + rest) == Some(-(a as int))
  {
    assert ("-" + rest)[1..] == rest;
  }

  /** The unsigned part of the two-place form reads back as the number of cents. */
  lemma UnsignedTwoPlaces(a: nat)
    ensures ParseUnsigned(Show(a / 100) + "." + [Digit(a % 100 / 10), Digit(a % 10)]) == Some(a)
  {
    var w := Show(a / 100);
    var frac := [Digit(a % 100 / 10), Digit(a % 10)];
    ParseTwoPlaces(w, frac);
    assert FractionCents(frac) == (a % 100 / 10) * 10 + a % 10;
    SplitCents(a);
  }

  /** Every amount reads back as itself from its two-place form. */
  lemma FormatThenParse(c: int)
    ensures ParseAmount(FormatCents(c)) == Some(c)
  {
    var a := if c < 0 then -c else c;
    var rest := Show(a / 100) + "." + [Digit(a % 100 / 10), Digit(a % 10)];
    UnsignedTwoPlaces(a);
    ParseSigned(rest, a);
    if c >= 0 {
      assert FormatCents(c) == rest;
    } else {
      assert FormatCents(c) == "-" + rest;
    }
  }

  /** A whole number of units, with or without a minus sign, is that many hundred cents. */
  lemma WholeAmount(n: nat)
    ensures ParseAmount(Show(n)) == Some(100 * n)
    ensures ParseAmount("-" + Show(n)) == Some(-100 * n)
  {
    var w := Show(n);
    DigitRunOfDigits(w, []);
    assert w + [] == w;
    ParseSigned(w, 100 * n);
  }

  /** One fraction digit counts tens of cents: `4.5` is 450 cents. */
  lemma OneFractionDigit(n: nat, d: nat)
    requires d < 10
    ensures ParseAmount(Show(n) + "." + [Digit(d)]) == Some(100 * n + 10 * d)
  {
    var w := Show(n);
    var rest := w + "." + [Digit(d)];
    DigitRunOfDigits(w, "." + [Digit(d)]);
    assert rest == w + ("." + [Digit(d)]);
    assert rest[|w|] == '.' && rest[..|w|] == w && rest[|w| + 1..] == [Digit(d)];
    assert ParseUnsigned(rest) == Some(100 * n + 10 * d);
    ParseSigned(rest, 100 * n + 10 * d);
  }

  /**
   * What an unsigned amount is made of: digits, and at most one point, with a
   * digit somewhere.
   */
  lemma UnsignedChars(s: string)
    requires ParseUnsigned(s).Some?
    ensures forall i :: 0 <= i < |s| ==> IsDigit(s[i]) || (s[i] == '.' && forall j :: 0 <= j < |s| && j != i ==> IsDigit(s[j]))
    ensures exists i :: 0 <= i < |s| && IsDigit(s[i])
  {
    var k := DigitRun(s);
    if k < |s| {
      var frac := s[k + 1..];
      assert AllDigits(frac) && (k > 0 || frac != []);
      assert forall j :: k < j < |s| ==> s[j] == frac[j - k - 1];
      assert forall j :: 0 <= j < k ==> s[j] == s[..k][j];
      if k > 0 {
        assert IsDigit(s[..k][0]);
      } else {
        assert IsDigit(s[k + 1]) by { assert s[k + 1] == frac[0]; }
      }
    } else {
      assert s[..k] == s;
      assert IsDigit(s[0]);
    }
  }

  /**
   * Text is only ever read as an amount when it is an optional sign, then
   * digits with at most one point, holding at least one digit; anything with
   * a letter, a space or a second point is no amount.
   */
  lemma AmountChars(s: string)
    requires ParseAmount(s).Some?
    ensures forall i :: 0 <= i < |s| ==>
      || IsDigit(s[i])
      || (i == 0 && (s[i] == '+' || s[i] == '-'))
      || (s[i] == '.' && forall j :: 0 < j < |s| && j != i ==> IsDigit(s[j]))
    ensures exists i :: 0 <= i < |s| && IsDigit(s[i])
  {
    if |s| > 0 && (s[0] == '+' || s[0] == '-') {
      var t := s[1..];
      UnsignedChars(t);
      assert forall i :: 0 < i < |s| ==> s[i] == t[i - 1];
      var k :| 0 <= k < |t| && IsDigit(t[k]);
      assert IsDigit(s[k + 1]);
    } else {
      UnsignedChars(s);
    }
  }

  /** A command with nothing after it gives the empty string, which is no amount. */
  lemma EmptyIsNoAmount()
    ensures ParseAmount("") == None
  {
  }
}
