/**
 * `Display for Price` (src/data_types.rs), which renders every amount of the
 * output table, set beside a corrected rendering. Amounts are read back the
 * way a reader of the table reads them: as decimal numbers with four
 * fractional digits of precision.
 */
module PriceDisplay {
  import opened Wrappers
  import opened Money

  predicate IsDigit(c: char) {
    '0' <= c <= '9'
  }

  predicate AllDigits(s: string) {
    forall i | 0 <= i < |s| :: IsDigit(s[i])
  }

  function DigitChar(d: nat): (c: char)
    requires d < 10
    ensures IsDigit(c)
  {
    ('0' as int + d) as char
  }

  function DigitValue(c: char): nat
    requires IsDigit(c)
  {
    c as int - '0' as int
  }

  function Pow10(k: nat): nat {
    if k == 0 then 1 else 10 * Pow10(k - 1)
  }

  /** Decimal digits of `n`, most significant first, no leading zeros: Rust's `{}` on an unsigned integer. */
  function NatDigits(n: nat): (s: string)
    ensures |s| > 0 && AllDigits(s)
    decreases n
  {
    if n < 10 then [DigitChar(n)] else NatDigits(n / 10) + [DigitChar(n % 10)]
  }

  /** Rust's `{}` on a signed integer: a minus sign, then the digits of the magnitude. */
  function IntDigits(i: int): string {
    if i < 0 then "-" + NatDigits(-i) else NatDigits(i)
  }

  /** The number a string of decimal digits denotes. */
  function DigitsValue(s: string): nat
    requires AllDigits(s)
  {
    if s == [] then 0 else DigitsValue(s[..|s| - 1]) * 10 + DigitValue(s[|s| - 1])
  }

  /** The position of the first `c` in `s`, if any. */
  function IndexOf(s: string, c: char): (r: Option<nat>)
    ensures r.Some? ==> r.value < |s| && s[r.value] == c && c !in s[..r.value]
    ensures r.None? ==> c !in s
  {
    if s == [] then None
    else if s[0] == c then Some(0)
    else match IndexOf(s[1..], c)
      case Some(k) => Some(k + 1)
      case None => None
  }

  /**
   * How a reader takes an unsigned rendered amount: integer digits, a point,
   * one to four fractional digits; the value in raw units of 1/10000.
   */
  function ReadUnsigned(s: string): Option<nat> {
    match IndexOf(s, '.')
    case None => None
    case Some(k) =>
      var whole, frac := s[..k], s[k + 1..];
      if 0 < |whole| && AllDigits(whole) && 0 < |frac| <= 4 && AllDigits(frac)
      then Some(Scaled(whole, frac))
      else None
  }

  /** The raw units denoted by integer digits `whole` and fractional digits `frac`. */
  function Scaled(whole: string, frac: string): nat
    requires AllDigits(whole) && |frac| <= 4 && AllDigits(frac)
  {
    DigitsValue(whole) * PriceScalar + DigitsValue(frac) * Pow10(4 - |frac|)
  }

  /** A rendered amount with an optional leading minus sign, read as raw units. */
  function ReadDecimal(s: string): Option<int> {
    if |s| > 0 && s[0] == '-' then
      match ReadUnsigned(s[1..])
      case Some(v) => Some(-(v as int))
      case None => None
    else
      ReadUnsigned(s)
  }

  /** `Display for Price` as written: `"{integral}.{fractional}"` with no padding of the fraction. */
  function Display(p: Price): string
    requires p != I64Min
  {
    var parts := DisplayParts(p);
    IntDigits(parts.0) + "." + NatDigits(parts.1)
  }

  /** Exactly four fractional digits, leading zeros kept. */
  function FourDigits(f: nat): (s: string)
    requires f < 10000
    ensures |s| == 4 && AllDigits(s)
  {
    [DigitChar(f / 1000), DigitChar(f / 100 % 10), DigitChar(f / 10 % 10), DigitChar(f % 10)]
  }

  /** The corrected rendering: the sign of the value, then its magnitude with four fractional digits. */
  function DisplayFixed(p: Price): string {
    (if p < 0 then "-" else "") + NatDigits(Abs(p) / PriceScalar) + "." + FourDigits(Abs(p) % PriceScalar)
  }

  lemma {:induction false} NatDigitsValue(n: nat)
    ensures DigitsValue(NatDigits(n)) == n
    decreases n
  {
    if n >= 10 {
      var s := NatDigits(n);
      assert s[..|s| - 1] == NatDigits(n / 10);
      NatDigitsValue(n / 10);
    }
  }

  lemma FourDigitsValue(f: nat)
    requires f < 10000
    ensures DigitsValue(FourDigits(f)) == f
  {
    var s := FourDigits(f);
    assert DigitsValue(s[..0]) == 0;
    assert s[..1][..0] == s[..0];
    assert DigitsValue(s[..1]) == f / 1000;
    assert s[..2][..1] == s[..1];
    assert DigitsValue(s[..2]) == f / 100;
    assert s[..3][..2] == s[..2];
    assert DigitsValue(s[..3]) == f / 10;
    assert s[..4] == s;
  }

  /** The point after a run of digits is the first point. */
  lemma {:induction false} FirstPoint(whole: string, frac: string)
    requires AllDigits(whole)
    ensures IndexOf(whole + "." + frac, '.') == Some(|whole|)
  {
    var s := whole + "." + frac;
    if whole != [] {
      assert s[0] == whole[0] && IsDigit(whole[0]);
      assert s[1..] == whole[1..] + "." + frac;
      FirstPoint(whole[1..], frac);
    }
  }

  /** Reading back a rendered magnitude, `digits "." fraction`. */
  lemma ReadUnsignedParts(whole: string, frac: string)
    requires 0 < |whole| && AllDigits(whole) && 0 < |frac| <= 4 && AllDigits(frac)
    ensures ReadUnsigned(whole + "." + frac) == Some(Scaled(whole, frac))
  {
    var s := whole + "." + frac;
    FirstPoint(whole, frac);
    assert s[..|whole|] == whole;
    assert s[|whole| + 1..] == frac;
  }

  /** The corrected rendering reads back as exactly the amount rendered. */
  lemma DisplayFixedRoundTrip(p: Price)
    ensures ReadDecimal(DisplayFixed(p)) == Some(p)
  {
    var q, f := Abs(p) / PriceScalar, Abs(p) % PriceScalar;
    FourDigitsValue(f);
    assert Scaled("", FourDigits(f)) == f;
    if p < 0 {
      ReadNegative(q, FourDigits(f));
    } else {
      assert DisplayFixed(p) == NatDigits(q) + "." + FourDigits(f);
      ReadNonNegative(q, FourDigits(f));
    }
  }

  /** Distinct amounts never render alike under the corrected rendering. */
  lemma DisplayFixedInjective(p: Price, q: Price)
    ensures DisplayFixed(p) == DisplayFixed(q) ==> p == q
  {
    DisplayFixedRoundTrip(p);
    DisplayFixedRoundTrip(q);
  }

  lemma {:induction false} Pow10AtLeastTen(k: nat)
    requires k >= 1
    ensures Pow10(k) >= 10
  {
    if k > 1 {
      Pow10AtLeastTen(k - 1);
    }
  }

  /** A number has at most `k` digits exactly when it is below `10^k`. */
  lemma {:induction false} NatDigitsLength(n: nat, k: nat)
    requires k >= 1
    ensures n < Pow10(k) <==> |NatDigits(n)| <= k
    decreases k
  {
    Pow10AtLeastTen(k);
    if n >= 10 {
      assert |NatDigits(n)| == |NatDigits(n / 10)| + 1;
      if k > 1 {
        NatDigitsLength(n / 10, k - 1);
      }
    }
  }

  /**
   * The fraction as written, read back: exact when it has four digits,
   * at least ten times too large when it has fewer.
   */
  lemma FractionReadBack(f: nat)
    requires f < PriceScalar
    ensures |NatDigits(f)| <= 4
    ensures f >= 1000 ==> Scaled("", NatDigits(f)) == f
    ensures f < 1000 ==> Scaled("", NatDigits(f)) >= 10 * f
  {
    NatDigitsLength(f, 4);
    NatDigitsLength(f, 3);
    NatDigitsValue(f);
    var n := |NatDigits(f)|;
    assert Pow10(4) == 10000 && Pow10(3) == 1000;
    if f < 1000 {
      Pow10AtLeastTen(4 - n);
    }
  }

  /** Reading back the digits of `m`, a point and a fraction. */
  lemma ReadMagnitude(m: nat, frac: string)
    requires 0 < |frac| <= 4 && AllDigits(frac)
    ensures ReadUnsigned(NatDigits(m) + "." + frac) == Some(m * PriceScalar + Scaled("", frac))
  {
    NatDigitsValue(m);
    ReadUnsignedParts(NatDigits(m), frac);
    assert DigitsValue("") == 0;
  }

  /** A rendered magnitude reads back as itself. */
  lemma ReadNonNegative(m: nat, frac: string)
    requires 0 < |frac| <= 4 && AllDigits(frac)
    ensures ReadDecimal(NatDigits(m) + "." + frac) == Some(m * PriceScalar + Scaled("", frac))
  {
    var body := NatDigits(m) + "." + frac;
    ReadMagnitude(m, frac);
    assert body[0] == NatDigits(m)[0];
  }

  /** A minus sign before a rendered magnitude negates it. */
  lemma ReadNegative(m: nat, frac: string)
    requires 0 < |frac| <= 4 && AllDigits(frac)
    ensures ReadDecimal("-" + NatDigits(m) + "." + frac) == Some(-(m * PriceScalar + Scaled("", frac)))
  {
    var body := NatDigits(m) + "." + frac;
    var s := "-" + NatDigits(m) + "." + frac;
    assert s[0] == '-' && s[1..] == body by {
      assert s == "-" + body;
    }
    ReadMagnitude(m, frac);
  }

  /** What the rendering as written reads back as: the integral digits, then the fraction's digits taken as written. */
  lemma DisplayReads(p: Price)
    requires p != I64Min
    ensures |NatDigits(DisplayParts(p).1)| <= 4
    ensures var q, w := DisplayParts(p).0, Scaled("", NatDigits(DisplayParts(p).1));
      ReadDecimal(Display(p)) == Some(if q < 0 then q * PriceScalar - w else q * PriceScalar + w)
  {
    var q, f := DisplayParts(p).0, DisplayParts(p).1;
    var frac := NatDigits(f);
    assert |frac| <= 4 by {
      FractionReadBack(f);
    }
    if q < 0 {
      assert Display(p) == "-" + NatDigits(-q) + "." + frac;
      ReadNegative(-q, frac);
    } else {
      assert Display(p) == NatDigits(q) + "." + frac;
      ReadNonNegative(q, frac);
    }
  }

  /**
   * As written, an amount reads back as itself exactly when it is not
   * between -1 and 0 and its fraction is zero or has four digits.
   */
  lemma DisplayReadBack(p: Price)
    requires p != I64Min
    ensures ReadDecimal(Display(p)) == Some(p) <==>
      (p >= 0 || p <= -PriceScalar) && (Abs(p) % PriceScalar == 0 || Abs(p) % PriceScalar >= 1000)
  {
    DisplayReads(p);
    FractionReadBack(DisplayParts(p).1);
  }

  /** As written, 0.0005 is rendered "0.5", which reads back as 0.5. */
  lemma DisplayDropsFractionZeros()
    ensures Display(5) == "0.5"
    ensures ReadDecimal(Display(5)) == Some(5000)
  {
    assert DisplayParts(5) == (0, 5);
    assert Display(5) == "0" + "." + "5" == "0.5";
    ReadUnsignedParts("0", "5");
    NatDigitsValue(0);
    NatDigitsValue(5);
    assert Pow10(3) == 1000;
  }

  /** As written, -0.5 and 0.5 render alike: the sign of a value between -1 and 0 is lost. */
  lemma DisplayDropsSign()
    ensures Display(-5000) == Display(5000) == "0.5000"
    ensures ReadDecimal(Display(-5000)) == Some(5000)
  {
    assert DisplayParts(-5000) == (0, 5000);
    assert DisplayParts(5000) == (0, 5000);
    assert NatDigits(5) == "5";
    assert NatDigits(50) == "50";
    assert NatDigits(500) == "500";
    assert NatDigits(5000) == "5000";
    assert Display(5000) == "0" + "." + "5000" == "0.5000";
    ReadUnsignedParts("0", "5000");
    NatDigitsValue(0);
    NatDigitsValue(5000);
  }
}
