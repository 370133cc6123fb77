/**
 * Decimal text: the numerals that Go's `fmt.Sprintf("%.2f", v)` prints and that
 * `fmt.Sscanf("%f", ...)` reads back, reduced to the shapes the memory
 * formatter produces (an optional '-', digits, '.', digits).
 */
module Decimal {
  import opened Wrappers

  predicate IsDigit(c: char) {
    '0' <= c <= '9'
  }

  predicate AllDigits(s: string) {
    forall i :: 0 <= i < |s| ==> IsDigit(s[i])
  }

  function DigitChar(d: nat): (c: char)
    requires d < 10
    ensures IsDigit(c) && DigitValue(c) == d
  {
    ('0' as int + d) as char
  }

  function DigitValue(c: char): (d: nat)
    requires IsDigit(c)
    ensures d < 10
  {
    c as int - '0' as int
  }

  function Abs(x: real): (r: real)
    ensures r >= 0.0 && (r == x || r == -x)
  {
    if x < 0.0 then -x else x
  }

  function Pow10(k: nat): (r: real)
    ensures r >= 1.0
  {
    if k == 0 then 1.0 else 10.0 * Pow10(k - 1)
  }

  /** The decimal numeral of n, most significant digit first, without leading zeros. */
  function NatToDigits(n: nat): (s: string)
    ensures |s| >= 1 && AllDigits(s)
    decreases n
  {
    if n < 10 then [DigitChar(n)] else NatToDigits(n / 10) + [DigitChar(n % 10)]
  }

  /** The value of a string of decimal digits (the empty string reads as 0). */
  function DigitsToNat(s: string): nat
    requires AllDigits(s)
    decreases |s|
  {
    if s == [] then 0 else DigitsToNat(s[..|s| - 1]) * 10 + DigitValue(s[|s| - 1])
  }

  /** Reading back a printed numeral gives the number that was printed. */
  lemma {:induction false} DigitsRoundTrip(n: nat)
    ensures DigitsToNat(NatToDigits(n)) == n
  {
    if n >= 10 {
      var s := NatToDigits(n);
      assert s[..|s| - 1] == NatToDigits(n / 10);
      DigitsRoundTrip(n / 10);
    }
  }

  /** Index of the first occurrence of c in s, or |s| when c does not occur. */
  function FirstIndex(s: string, c: char): (i: nat)
    ensures i <= |s|
    ensures i < |s| ==> s[i] == c
    ensures forall j :: 0 <= j < i ==> s[j] != c
    decreases |s|
  {
    if s == [] then 0 else if s[0] == c then 0 else 1 + FirstIndex(s[1..], c)
  }

  /** When a holds no c, the first c of a + [c] + b is the one right after a. */
  lemma FirstIndexAfter(a: string, c: char, b: string)
    requires forall j :: 0 <= j < |a| ==> a[j] != c
    ensures FirstIndex(a + [c] + b, c) == |a|
  {
    var s := a + [c] + b;
    assert s[|a|] == c;
    assert forall j :: 0 <= j < |a| ==> s[j] == a[j];
  }

  /** The nearest whole number to a non-negative x; an exact half goes to the even neighbour. */
  function RoundHalfEven(x: real): (n: nat)
    requires x >= 0.0
    ensures x - 0.5 <= n as real <= x + 0.5
    ensures (n as real == x - 0.5 || n as real == x + 0.5) ==> n % 2 == 0
  {
    var f := x.Floor;
    var r := x - f as real;
    if r < 0.5 then f
    else if r > 0.5 then f + 1
    else if f % 2 == 0 then f
    else f + 1
  }

  /**
   * The magnitude of v as a whole number of hundredths, as `%.2f` rounds it:
   * the nearest whole number of hundredths, an exact half going to the even one.
   */
  function Hundredths(v: real): (h: nat)
    ensures -0.5 <= h as real - Abs(v) * 100.0 <= 0.5
    ensures (h as real == Abs(v) * 100.0 - 0.5 || h as real == Abs(v) * 100.0 + 0.5) ==> h % 2 == 0
  {
    RoundHalfEven(Abs(v) * 100.0)
  }

  /** Two candidates that both round x to nearest, ties to even, are the same number. */
  lemma NearestEvenUnique(x: real, h: nat, k: nat)
    requires x - 0.5 <= h as real <= x + 0.5 && x - 0.5 <= k as real <= x + 0.5
    requires (h as real == x - 0.5 || h as real == x + 0.5) ==> h % 2 == 0
    requires (k as real == x - 0.5 || k as real == x + 0.5) ==> k % 2 == 0
    ensures h == k
  {
  }

  /** A number below one hundred as exactly two digits, with a leading zero when needed. */
  function TwoDigits(r: nat): string
    requires r < 100
  {
    [DigitChar(r / 10), DigitChar(r % 10)]
  }

  /** h hundredths as a whole part, '.', and two fraction digits. */
  function HundredthsText(h: nat): string {
    NatToDigits(h / 100) + "." + TwoDigits(h % 100)
  }

  /** `fmt.Sprintf("%.2f", v)`: a sign when v is negative, then the rounded magnitude. */
  function FixedTwo(v: real): string {
    (if v < 0.0 then "-" else "") + HundredthsText(Hundredths(v))
  }

  /** Digits alone: a whole number. */
  function ParseWhole(t: string): Option<real> {
    if |t| > 0 && AllDigits(t) then Some(DigitsToNat(t) as real) else None
  }

  /** Digits, '.', digits: both parts must be present. */
  function ParsePointed(whole: string, frac: string): (r: Option<real>)
    ensures r.Some? <==> |whole| > 0 && |frac| > 0 && AllDigits(whole) && AllDigits(frac)
  {
    if |whole| > 0 && |frac| > 0 && AllDigits(whole) && AllDigits(frac) then
      Some(DigitsToNat(whole) as real + DigitsToNat(frac) as real / Pow10(|frac|))
    else
      None
  }

  /** An unsigned decimal: digits, optionally followed by '.' and more digits. */
  function ParseUnsigned(t: string): Option<real> {
    var dot := FirstIndex(t, '.');
    if dot == |t| then ParseWhole(t) else ParsePointed(t[..dot], t[dot + 1..])
  }

  /** The `%f` verb of `fmt.Sscanf`, over an optional leading '-' and an unsigned decimal. */
  function ParseNumber(t: string): Option<real> {
    if |t| > 0 && t[0] == '-' then
      match ParseUnsigned(t[1..])
      case Some(x) => Some(-x)
      case None => None
    else
      ParseUnsigned(t)
  }

  /** Two printed digits read back as the number below one hundred they print. */
  lemma TwoDigitsRoundTrip(r: nat)
    requires r < 100
    ensures |TwoDigits(r)| == 2 && AllDigits(TwoDigits(r)) && DigitsToNat(TwoDigits(r)) == r
  {
    var f := TwoDigits(r);
    assert f[..1] == [DigitChar(r / 10)];
    assert f[..1][..0] == [];
    assert DigitsToNat(f[..1]) == r / 10;
    assert DigitsToNat(f) == DigitsToNat(f[..1]) * 10 + r % 10;
  }

  /** Splitting a count of hundredths into whole part and remainder loses nothing. */
  lemma HundredthsSplit(h: nat)
    ensures (h / 100) as real + (h % 100) as real / 100.0 == h as real / 100.0
  {
    var q, r := h / 100, h % 100;
    assert h == q * 100 + r;
    assert h as real == q as real * 100.0 + r as real;
  }

  /** A whole part, '.', and a fraction part read back as their decimal value (scale is 10 to the fraction's length). */
  lemma UnsignedWithPoint(t: string, w: string, f: string, whole: nat, frac: nat, scale: real)
    requires |w| > 0 && |f| > 0 && AllDigits(w) && AllDigits(f) && scale == Pow10(|f|)
    requires DigitsToNat(w) == whole && DigitsToNat(f) == frac
    requires t == w + "." + f
    ensures ParseUnsigned(t) == Some(whole as real + frac as real / scale)
  {
    assert t[|w|] == '.';
    assert forall j :: 0 <= j < |w| ==> t[j] == w[j] && t[j] != '.';
    var dot := FirstIndex(t, '.');
    assert dot == |w|;
    assert t[..dot] == w;
    assert t[dot + 1..] == f;
    assert ParseUnsigned(t) == ParsePointed(w, f);
    PointedValue(w, f);
  }

  lemma PointedValue(w: string, f: string)
    requires |w| > 0 && |f| > 0 && AllDigits(w) && AllDigits(f)
    ensures ParsePointed(w, f) == Some(DigitsToNat(w) as real + DigitsToNat(f) as real / Pow10(|f|))
  {
  }

  /** Whole part, '.', two fraction digits read back as the number of hundredths; the text has no space or sign. */
  lemma HundredthsTextReadsBack(h: nat)
    ensures ParseUnsigned(HundredthsText(h)) == Some(h as real / 100.0)
    ensures forall j :: 0 <= j < |HundredthsText(h)| ==> HundredthsText(h)[j] != ' ' && HundredthsText(h)[j] != '-'
  {
    HundredthsSplit(h);
    PartsReadBack(HundredthsText(h), h / 100, h % 100);
  }

  /** The digits of q, '.', and the two digits of r read back as q + r/100. */
  lemma PartsReadBack(t: string, q: nat, r: nat)
    requires r < 100 && t == NatToDigits(q) + "." + TwoDigits(r)
    ensures ParseUnsigned(t) == Some(q as real + r as real / 100.0)
  {
    TwoDigitsRoundTrip(r);
    DigitsRoundTrip(q);
    TwoPlacesReadBack(t, NatToDigits(q), TwoDigits(r), q, r);
  }

  /** Two fraction digits scale by one hundred. */
  lemma HundredthsScale()
    ensures Pow10(2) == 100.0
  {
  }

  /** Digits, '.', and two fraction digits read back as whole + hundredths / 100. */
  lemma TwoPlacesReadBack(t: string, w: string, f: string, whole: nat, frac: nat)
    requires |w| > 0 && |f| == 2 && AllDigits(w) && AllDigits(f)
    requires DigitsToNat(w) == whole && DigitsToNat(f) == frac
    requires t == w + "." + f
    ensures ParseUnsigned(t) == Some(whole as real + frac as real / 100.0)
  {
    assert Pow10(|f|) == 100.0 by { HundredthsScale(); }
    UnsignedWithPoint(t, w, f, whole, frac, 100.0);
  }

  /**
   * Reading back what `%.2f` printed gives the signed number of hundredths it
   * printed, which lies within half a hundredth of v; the text holds no space.
   */
  lemma FixedTwoReadsBack(v: real)
    ensures forall j :: 0 <= j < |FixedTwo(v)| ==> FixedTwo(v)[j] != ' '
    ensures ParseNumber(FixedTwo(v)) ==
            Some(if v < 0.0 then -(Hundredths(v) as real / 100.0) else Hundredths(v) as real / 100.0)
    ensures -0.005 <= ParseNumber(FixedTwo(v)).value - v <= 0.005
  {
    var t := HundredthsText(Hundredths(v));
    HundredthsTextReadsBack(Hundredths(v));
    assert forall j :: 0 <= j < |t| ==> t[j] != ' ' && t[j] != '-';
    if v < 0.0 {
      assert FixedTwo(v) == "-" + t && ("-" + t)[1..] == t;
      assert ParseNumber(FixedTwo(v)) == Some(-(Hundredths(v) as real / 100.0));
    } else {
      assert FixedTwo(v) == t && (|t| > 0 ==> t[0] != '-');
    }
  }
}
