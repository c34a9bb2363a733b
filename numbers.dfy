/** The number formats the PDF writer uses: `str(n)` and `f"{n:010}"` for
    non-negative integers, and `f"{x:.2f}"` / `f"{x:.0f}"` for coordinates and
    sizes, the latter on exact reals with round-half-to-even. */
module Numbers {

  predicate IsDigit(c: char) {
    '0' <= c <= '9'
  }

  predicate AllDigits(s: string) {
    forall i :: 0 <= i < |s| ==> IsDigit(s[i])
  }

  /** ASCII, one latin-1 byte per character. */
  predicate IsAscii(s: string) {
    forall i :: 0 <= i < |s| ==> s[i] < 128 as char
  }

  function DigitChar(d: nat): (c: char)
    requires d < 10
    ensures IsDigit(c)
  {
    (48 + d) as char
  }

  function DigitValue(c: char): nat
    requires IsDigit(c)
  {
    c as nat - 48
  }

  function Pow10(k: nat): (p: nat)
    ensures p >= 1
  {
    if k == 0 then 1 else 10 * Pow10(k - 1)
  }

  /** str(n): the decimal digits of n, most significant first, no leading zero. */
  function Decimal(n: nat): (s: string)
    ensures s != [] && AllDigits(s)
    ensures |s| > 1 ==> s[0] != '0'
    decreases n
  {
    if n < 10 then [DigitChar(n)] else Decimal(n / 10) + [DigitChar(n % 10)]
  }

  /** The value of a string of decimal digits. */
  function ParseDecimal(s: string): nat
    requires AllDigits(s)
    decreases |s|
  {
    if s == [] then 0 else 10 * ParseDecimal(s[..|s| - 1]) + DigitValue(s[|s| - 1])
  }

  lemma {:induction false} DecimalRoundTrip(n: nat)
    ensures ParseDecimal(Decimal(n)) == n
    decreases n
  {
    if n >= 10 {
      DecimalRoundTrip(n / 10);
      var s := Decimal(n);
      assert s[..|s| - 1] == Decimal(n / 10);
    }
  }

  /** str(n) has at most k digits exactly when n < 10^k. */
  lemma {:induction false} DecimalLength(n: nat, k: nat)
    requires k >= 1
    ensures |Decimal(n)| <= k <==> n < Pow10(k)
    decreases n
  {
    if n >= 10 {
      if k == 1 {
        assert |Decimal(n)| >= 2;
      } else {
        DecimalLength(n / 10, k - 1);
      }
    }
  }

  function Zeros(k: nat): (s: string)
    ensures |s| == k && AllDigits(s)
  {
    seq(k, i => '0')
  }

  /** f"{s:0>width}" for a digit string: zeros on the left up to width characters. */
  function ZeroPad(s: string, width: nat): (r: string)
    ensures |r| == if |s| < width then width else |s|
  {
    if |s| < width then Zeros(width - |s|) + s else s
  }

  /** f"{n:010}". */
  function Padded10(n: nat): string {
    ZeroPad(Decimal(n), 10)
  }

  /** Leading zeros do not change a digit string's value. */
  lemma {:induction false} LeadingZeros(k: nat, s: string)
    requires AllDigits(s)
    ensures AllDigits(Zeros(k) + s)
    ensures ParseDecimal(Zeros(k) + s) == ParseDecimal(s)
    decreases |s|
  {
    if s == [] {
      assert Zeros(k) + s == Zeros(k);
      ZerosValue(k);
    } else {
      var init := s[..|s| - 1];
      LeadingZeros(k, init);
      assert (Zeros(k) + s)[..|Zeros(k) + s| - 1] == Zeros(k) + init;
    }
  }

  lemma {:induction false} ZerosValue(k: nat)
    ensures ParseDecimal(Zeros(k)) == 0
    decreases k
  {
    if k > 0 {
      assert Zeros(k)[..k - 1] == Zeros(k - 1);
      ZerosValue(k - 1);
    }
  }

  /** f"{n:010}" is ten digits when n < 10^10, and reads back as n. */
  lemma Padded10Spec(n: nat)
    ensures AllDigits(Padded10(n))
    ensures ParseDecimal(Padded10(n)) == n
    ensures n < Pow10(10) ==> |Padded10(n)| == 10
  {
    PaddedDecimal(n, 10);
    DecimalLength(n, 10);
  }

  /** The integer nearest to r, ties to the even one (r >= 0). */
  function RoundHalfEven(r: real): (n: nat)
    requires r >= 0.0
    ensures -(1.0 / 2.0) <= n as real - r <= 1.0 / 2.0
    ensures (n as real - r == 1.0 / 2.0 || r - n as real == 1.0 / 2.0) ==> n % 2 == 0
  {
    var f := r.Floor;
    var frac := r - f as real;
    if frac > 1.0 / 2.0 || (frac == 1.0 / 2.0 && f % 2 == 1) then f + 1 else f
  }

  function Abs(x: real): real {
    if x < 0.0 then -x else x
  }

  /** |x| * 10^places, rounded half to even: the digits f"{x:.{places}f}" shows. */
  function Rounded(x: real, places: nat): nat {
    RoundHalfEven(Abs(x) * Pow10(places) as real)
  }

  /** f"{x:.{places}f}": an optional minus sign, then the digits of |x|
      rounded to places decimals, with at least one digit before the point. */
  function FormatFixed(x: real, places: nat): string {
    var sign := if x < 0.0 then "-" else "";
    sign + PointDigits(ZeroPad(Decimal(Rounded(x, places)), places + 1), places)
  }

  /** A point placed before the last places digits (none when places is 0). */
  function PointDigits(digits: string, places: nat): string
    requires |digits| > places
  {
    if places == 0 then digits
    else digits[..|digits| - places] + "." + digits[|digits| - places..]
  }

  /** The digits before the point, the point, and the digits after it. */
  lemma PointDigitsShape(digits: string, places: nat)
    requires |digits| > places && AllDigits(digits)
    ensures var s := PointDigits(digits, places);
      && IsAscii(s)
      && (places == 0 ==> s == digits)
      && (places > 0 ==> (|s| == |digits| + 1 && s[|s| - places - 1] == '.'
                          && s[..|s| - places - 1] + s[|s| - places..] == digits))
  {
    if places > 0 {
      var s := PointDigits(digits, places);
      assert s[..|s| - places - 1] == digits[..|digits| - places];
      assert s[|s| - places..] == digits[|digits| - places..];
    }
  }

  /** Zero-padded digits of n read back as n. */
  lemma PaddedDecimal(n: nat, width: nat)
    ensures AllDigits(ZeroPad(Decimal(n), width))
    ensures ParseDecimal(ZeroPad(Decimal(n), width)) == n
  {
    var d := Decimal(n);
    DecimalRoundTrip(n);
    if |d| < width {
      LeadingZeros(width - |d|, d);
    }
  }

  /** A formatted number is ASCII text: an optional '-' and the point-placed
      digits of the rounded magnitude. */
  lemma FormatFixedShape(x: real, places: nat)
    ensures IsAscii(FormatFixed(x, places))
    ensures var digits := ZeroPad(Decimal(Rounded(x, places)), places + 1);
      && AllDigits(digits) && ParseDecimal(digits) == Rounded(x, places)
      && FormatFixed(x, places) == (if x < 0.0 then "-" else "") + PointDigits(digits, places)
  {
    var digits := ZeroPad(Decimal(Rounded(x, places)), places + 1);
    PaddedDecimal(Rounded(x, places), places + 1);
    PointDigitsShape(digits, places);
  }
}
