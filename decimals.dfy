/** Exact decimal numbers as Python's `decimal.Decimal` keeps them: an integer coefficient and a
    non-positive exponent, here written as a scale (the number of fractional digits).
    `Decimal(1998, 2)` is 19.98 and prints as "19.98"; `Decimal(2000, 2)` prints as "20.00". */
module Decimals {
  import opened Wrappers

  datatype Decimal = Decimal(coef: int, scale: nat)

  function Pow10(n: nat): (r: nat)
    ensures r >= 1
  {
    if n == 0 then 1 else 10 * Pow10(n - 1)
  }

  lemma {:induction false} Pow10Add(a: nat, b: nat)
    ensures Pow10(a + b) == Pow10(a) * Pow10(b)
  {
    if b > 0 {
      Pow10Add(a, b - 1);
      assert Pow10(a + b) == 10 * Pow10(a + b - 1);
    }
  }

  /** The number a decimal stands for. */
  ghost function Value(d: Decimal): real
  {
    d.coef as real / Pow10(d.scale) as real
  }

  function Max(a: nat, b: nat): nat
  {
    if a < b then b else a
  }

  /** The same number written with `s` fractional digits. */
  function Rescale(d: Decimal, s: nat): (r: Decimal)
    requires d.scale <= s
    ensures r.scale == s && Value(r) == Value(d)
  {
    var k: nat := s - d.scale;
    Pow10Add(d.scale, k);
    ScaleCancels(d.coef, Pow10(k), Pow10(d.scale));
    Decimal(d.coef * Pow10(k), s)
  }

  lemma ScaleCancels(c: int, x: nat, y: nat)
    requires x >= 1 && y >= 1
    ensures (c * x) as real / (y * x) as real == c as real / y as real
  {
    var cr, xr, yr := c as real, x as real, y as real;
    assert (c * x) as real == cr * xr;
    assert (y * x) as real == yr * xr;
    assert (cr * xr) / (yr * xr) == cr / yr;
  }

  /** Python's `a + b` on decimals: the operands are aligned to the larger number of fractional
      digits (the smaller exponent) and the coefficients added. */
  function Add(a: Decimal, b: Decimal): (r: Decimal)
    ensures r.scale == Max(a.scale, b.scale)
    ensures Value(r) == Value(a) + Value(b)
  {
    var s := Max(a.scale, b.scale);
    var a', b' := Rescale(a, s), Rescale(b, s);
    SameScaleAdd(a'.coef, b'.coef, Pow10(s));
    Decimal(a'.coef + b'.coef, s)
  }

  lemma SameScaleAdd(x: int, y: int, p: nat)
    requires p >= 1
    ensures (x + y) as real / p as real == x as real / p as real + y as real / p as real
  {
  }

  /** Python's `price * quantity` with an integer quantity: the exponent is kept. */
  function MulInt(a: Decimal, q: int): (r: Decimal)
    ensures r.scale == a.scale
    ensures Value(r) == Value(a) * q as real
  {
    MulDiv(a.coef, q, Pow10(a.scale));
    Decimal(a.coef * q, a.scale)
  }

  lemma MulDiv(c: int, q: int, p: nat)
    requires p >= 1
    ensures (c * q) as real / p as real == (c as real / p as real) * q as real
  {
    var cr, qr, pr := c as real, q as real, p as real;
    assert (c * q) as real == cr * qr;
    assert (cr * qr) / pr == (cr / pr) * qr;
  }

  const Zero: Decimal := Decimal(0, 0)

  // ----- Text form -------------------------------------------------------------------------

  predicate IsDigit(c: char)
  {
    '0' <= c <= '9'
  }

  predicate AllDigits(s: string)
  {
    forall i :: 0 <= i < |s| ==> IsDigit(s[i])
  }

  function DigitChar(d: nat): (c: char)
    requires d < 10
    ensures IsDigit(c)
  {
    ('0' as int + d) as char
  }

  function DigitOf(c: char): (d: nat)
    requires IsDigit(c)
    ensures d < 10 && DigitChar(d) == c
  {
    (c as int - '0' as int)
  }

  /** The decimal digits of `n`, most significant first, without leading zeros. */
  function NatToDigits(n: nat): (s: string)
    ensures |s| >= 1 && AllDigits(s)
  {
    if n < 10 then [DigitChar(n)] else NatToDigits(n / 10) + [DigitChar(n % 10)]
  }

  /** The number a string of decimal digits spells; leading zeros are allowed. */
  function DigitsToNat(s: string): nat
    requires AllDigits(s)
  {
    if s == [] then 0 else 10 * DigitsToNat(s[..|s| - 1]) + DigitOf(s[|s| - 1])
  }

  lemma {:induction false} DigitsRoundTrip(n: nat)
    ensures DigitsToNat(NatToDigits(n)) == n
  {
    var s := NatToDigits(n);
    if n >= 10 {
      DigitsRoundTrip(n / 10);
      assert s[..|s| - 1] == NatToDigits(n / 10);
      assert DigitOf(s[|s| - 1]) == n % 10;
    } else {
      assert DigitOf(s[0]) == n;
      assert s[..0] == [];
    }
  }

  function Zeros(k: nat): (s: string)
    ensures |s| == k && AllDigits(s)
  {
    if k == 0 then "" else "0" + Zeros(k - 1)
  }

  lemma {:induction false} DigitsIgnoreLeadingZeros(k: nat, s: string)
    requires AllDigits(s)
    ensures DigitsToNat(Zeros(k) + s) == DigitsToNat(s)
  {
    if s == [] {
      assert Zeros(k) + s == Zeros(k);
      ZerosAreZero(k);
    } else {
      var t := Zeros(k) + s;
      assert t[..|t| - 1] == Zeros(k) + s[..|s| - 1];
      DigitsIgnoreLeadingZeros(k, s[..|s| - 1]);
    }
  }

  lemma {:induction false} ZerosAreZero(k: nat)
    ensures DigitsToNat(Zeros(k)) == 0
  {
    if k > 0 {
      var z := Zeros(k);
      assert z[..k - 1] == Zeros(k - 1) by {
        assert z == "0" + Zeros(k - 1);
        if k > 1 {
          assert Zeros(k - 1) == "0" + Zeros(k - 2);
          assert z[..k - 1] == "0" + Zeros(k - 1)[..k - 2];
          ZerosPrefix(k - 1);
        }
      }
      assert z[k - 1] == '0' by {
        ZerosAt(k, k - 1);
      }
      ZerosAreZero(k - 1);
    }
  }

  lemma {:induction false} ZerosAt(k: nat, i: nat)
    requires i < k
    ensures Zeros(k)[i] == '0'
  {
    if i > 0 {
      ZerosAt(k - 1, i - 1);
    }
  }

  lemma ZerosPrefix(k: nat)
    requires k >= 1
    ensures Zeros(k)[..k - 1] == Zeros(k - 1)
  {
    forall i | 0 <= i < k - 1
      ensures Zeros(k)[i] == Zeros(k - 1)[i]
    {
      ZerosAt(k, i);
      ZerosAt(k - 1, i);
    }
  }

  /** `s` padded with leading zeros to at least `width` characters. */
  function PadLeft(s: string, width: nat): (r: string)
    requires AllDigits(s)
    ensures AllDigits(r) && |r| >= width && |r| >= |s|
  {
    if |s| < width then Zeros(width - |s|) + s else s
  }

  function Abs(x: int): nat
  {
    if x < 0 then -x else x
  }

  /** `str(d)` in plain notation: a sign for negative numbers, at least one integer digit and,
      when the scale is positive, a point followed by exactly `scale` digits. */
  function ToString(d: Decimal): string
  {
    var digits := PadLeft(NatToDigits(Abs(d.coef)), d.scale + 1);
    (if d.coef < 0 then "-" else "") + PointForm(digits, d.scale)
  }

  /** `digits` with a point before its last `scale` digits (no point when `scale` is 0). */
  function PointForm(digits: string, scale: nat): string
    requires scale < |digits|
  {
    if scale == 0 then digits
    else digits[..|digits| - scale] + "." + digits[|digits| - scale..]
  }

  /** `str(n)` for a Python int. */
  function IntToString(n: int): (s: string)
    ensures |s| >= 1
  {
    (if n < 0 then "-" else "") + NatToDigits(Abs(n))
  }

  /** The first position of '.' in `s`, or `|s|` when there is none. */
  function PointAt(s: string): (i: nat)
    ensures i <= |s|
    ensures forall j :: 0 <= j < i ==> s[j] != '.'
    ensures i < |s| ==> s[i] == '.'
  {
    if s == [] then 0 else if s[0] == '.' then 0 else 1 + PointAt(s[1..])
  }

  /** Parses the plain notation `[-]digits[.digits]` into a decimal, keeping the number of
      fractional digits as the scale, as `Decimal(text)` does; anything else is rejected. */
  function Parse(s: string): (r: Option<Decimal>)
  {
    if |s| > 0 && s[0] == '-' then
      match ParseUnsigned(s[1..])
      case Some(d) => Some(Decimal(-d.coef, d.scale))
      case None => None
    else ParseUnsigned(s)
  }

  function ParseUnsigned(s: string): (r: Option<Decimal>)
    ensures r.Some? ==> r.value.coef >= 0
  {
    var p := PointAt(s);
    var whole, frac := s[..p], if p < |s| then s[p + 1..] else "";
    if whole == [] || !AllDigits(whole) || !AllDigits(frac) || (p < |s| && frac == []) then None
    else Some(Decimal(DigitsToNat(whole + frac), |frac|))
  }

  /** Reading back what `ToString` prints gives the same coefficient and scale. */
  lemma ParseToString(d: Decimal)
    ensures Parse(ToString(d)) == Some(d)
  {
    var body := UnsignedPart(d);
    SignRoundTrip(d, body);
  }

  /** The text of a decimal is its sign followed by a digit-led body that reads back as the
      magnitude. */
  lemma UnsignedPart(d: Decimal) returns (body: string)
    ensures ToString(d) == (if d.coef < 0 then "-" else "") + body
    ensures |body| > 0 && IsDigit(body[0])
    ensures ParseUnsigned(body) == Some(Decimal(Abs(d.coef), d.scale))
  {
    var digits := PadLeft(NatToDigits(Abs(d.coef)), d.scale + 1);
    PaddedDigits(Abs(d.coef), d.scale + 1);
    PointFormRoundTrip(digits, d.scale);
    body := PointForm(digits, d.scale);
  }

  lemma PointFormRoundTrip(digits: string, scale: nat)
    requires AllDigits(digits) && scale < |digits|
    ensures |PointForm(digits, scale)| > 0 && IsDigit(PointForm(digits, scale)[0])
    ensures ParseUnsigned(PointForm(digits, scale)) == Some(Decimal(DigitsToNat(digits), scale))
  {
    if scale == 0 {
      WholeRoundTrip(digits);
    } else {
      FracPointRoundTrip(digits, scale);
    }
  }

  lemma FracPointRoundTrip(digits: string, scale: nat)
    requires AllDigits(digits) && 0 < scale < |digits|
    ensures |PointForm(digits, scale)| > 0 && IsDigit(PointForm(digits, scale)[0])
    ensures ParseUnsigned(PointForm(digits, scale)) == Some(Decimal(DigitsToNat(digits), scale))
  {
    var k := |digits| - scale;
    var whole, frac := digits[..k], digits[k..];
    assert whole + frac == digits;
    assert PointForm(digits, scale) == whole + "." + frac;
    SliceDigits(digits, k);
    FracRoundTrip(whole, frac);
  }

  lemma PaddedDigits(n: nat, width: nat)
    ensures DigitsToNat(PadLeft(NatToDigits(n), width)) == n
  {
    DigitsRoundTrip(n);
    var s := NatToDigits(n);
    if |s| < width {
      DigitsIgnoreLeadingZeros(width - |s|, s);
    }
  }

  lemma SliceDigits(s: string, k: nat)
    requires AllDigits(s) && k <= |s|
    ensures AllDigits(s[..k]) && AllDigits(s[k..])
  {
    assert forall j :: 0 <= j < k ==> s[..k][j] == s[j];
    assert forall j :: 0 <= j < |s| - k ==> s[k..][j] == s[k + j];
  }

  lemma SignRoundTrip(d: Decimal, body: string)
    requires |body| > 0 && IsDigit(body[0])
    requires ParseUnsigned(body) == Some(Decimal(Abs(d.coef), d.scale))
    requires ToString(d) == (if d.coef < 0 then "-" else "") + body
    ensures Parse(ToString(d)) == Some(d)
  {
    if d.coef < 0 {
      assert ("-" + body)[1..] == body;
    } else {
      assert ("" + body) == body;
    }
  }

  lemma WholeRoundTrip(digits: string)
    requires AllDigits(digits) && |digits| >= 1
    ensures IsDigit(digits[0])
    ensures ParseUnsigned(digits) == Some(Decimal(DigitsToNat(digits), 0))
  {
    assert forall j :: 0 <= j < |digits| ==> digits[j] != '.' by {
      forall j | 0 <= j < |digits| ensures digits[j] != '.' {
        assert IsDigit(digits[j]);
      }
    }
    PointAtFirst(digits, |digits|);
    assert digits[..|digits|] == digits;
    ParseSplit(digits, |digits|, digits, "");
    assert digits + "" == digits;
  }

  lemma FracRoundTrip(whole: string, frac: string)
    requires AllDigits(whole) && AllDigits(frac) && |whole| >= 1 && |frac| >= 1
    ensures IsDigit((whole + "." + frac)[0])
    ensures ParseUnsigned(whole + "." + frac) == Some(Decimal(DigitsToNat(whole + frac), |frac|))
  {
    var body, k := whole + "." + frac, |whole|;
    assert forall j :: 0 <= j < k ==> body[j] != '.' by {
      forall j | 0 <= j < k ensures body[j] != '.' {
        assert body[j] == whole[j];
        assert IsDigit(whole[j]);
      }
    }
    assert body[k] == '.';
    PointAtFirst(body, k);
    assert body[..k] == whole;
    assert body[k + 1..] == frac;
    ParseSplit(body, k, whole, frac);
  }

  lemma ParseSplit(s: string, p: nat, whole: string, frac: string)
    requires PointAt(s) == p && p <= |s|
    requires whole == s[..p] && frac == (if p < |s| then s[p + 1..] else "")
    requires |whole| > 0 && AllDigits(whole) && AllDigits(frac)
    requires p < |s| ==> frac != []
    ensures |s| > 0 && IsDigit(s[0])
    ensures ParseUnsigned(s) == Some(Decimal(DigitsToNat(whole + frac), |frac|))
  {
    assert s[0] == whole[0] && IsDigit(whole[0]);
    assert !(whole == [] || !AllDigits(whole) || !AllDigits(frac) || (p < |s| && frac == []));
  }

  lemma {:induction false} PointAtFirst(s: string, k: nat)
    requires k <= |s|
    requires forall j :: 0 <= j < k ==> s[j] != '.'
    requires k < |s| ==> s[k] == '.'
    ensures PointAt(s) == k
  {
    if k > 0 {
      PointAtFirst(s[1..], k - 1);
    }
  }
}
