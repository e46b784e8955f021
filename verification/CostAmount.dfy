/** A caller's `max_cost_usd`, read as an exact decimal amount and rounded up to whole nano-USD. */
module CostAmount {
  import opened Common
  import opened Text

  const NANO_PER_USD: nat := 1_000_000_000
  const TOO_LARGE: nat := 10_000_000_000_000_000_000

  datatype Refusal = NotPlainDecimal | TooLarge

  /** Where the whole part ends: at the first point, or at the end of the text. */
  function WholeLength(s: string): (n: nat)
    ensures n <= |s| && (forall i :: 0 <= i < n ==> s[i] != '.') && (n < |s| ==> s[n] == '.')
  {
    if s == "" || s[0] == '.' then 0 else 1 + WholeLength(s[1..])
  }

  function WholePart(s: string): string { s[..WholeLength(s)] }

  function FracPart(s: string): string { if WholeLength(s) == |s| then "" else s[WholeLength(s) + 1..] }

  /** One or more digits, then optionally a point and one or more digits. */
  predicate IsPlainDecimal(s: string) {
    && WholePart(s) != "" && AllDigits(WholePart(s)) && AllDigits(FracPart(s))
    && (WholeLength(s) < |s| ==> FracPart(s) != "")
  }

  /** Digits, or digits, a point and digits: neither side of a point may be missing, and there is nothing else. */
  predicate DecimalText(raw: string, whole: string, frac: string) {
    && whole != "" && AllDigits(whole) && AllDigits(frac)
    && raw == if frac == "" then whole else whole + "." + frac
  }

  /** A text is a plain decimal exactly when it is of that form, and its parts are the two sides of the point. */
  lemma DecimalPattern(raw: string, whole: string, frac: string)
    ensures DecimalText(raw, whole, frac) <==> IsPlainDecimal(raw) && whole == WholePart(raw) && frac == FracPart(raw)
  {
    var n := WholeLength(raw);
    if DecimalText(raw, whole, frac) { PointBetween(raw, whole, frac); }
    if IsPlainDecimal(raw) && n < |raw| { assert raw == raw[..n] + "." + raw[n + 1..]; }
    if IsPlainDecimal(raw) && n == |raw| { assert raw == raw[..n]; }
  }

  lemma PointBetween(raw: string, whole: string, frac: string)
    requires DecimalText(raw, whole, frac)
    ensures WholeLength(raw) == |whole| && WholePart(raw) == whole && FracPart(raw) == frac
  {
    var n := WholeLength(raw);
    assert forall i :: 0 <= i < |whole| ==> raw[i] == whole[i] && IsDigit(whole[i]);
    assert frac != "" ==> raw[|whole|] == '.';
    assert n == |whole|;
    assert raw[..|whole|] == whole;
    if frac != "" { assert raw[|whole| + 1..] == frac; }
  }

  function Zeros(n: nat): (s: string)
    ensures |s| == n && AllDigits(s)
    ensures forall i :: 0 <= i < n ==> s[i] == '0'
  {
    seq(n, i => '0')
  }

  function FirstNine(frac: string): (d: string)
    requires AllDigits(frac)
    ensures |d| == 9 && AllDigits(d)
    ensures |frac| >= 9 ==> d == frac[..9]
    ensures |frac| <= 9 ==> d == frac + Zeros(9 - |frac|)
  {
    if |frac| >= 9 then frac[..9] else frac + Zeros(9 - |frac|)
  }

  /** The digits past the ninth. */
  function Beyond(frac: string): (tail: string)
    ensures |frac| >= 9 ==> frac == frac[..9] + tail
    ensures AllDigits(frac) ==> AllDigits(tail)
  { if |frac| <= 9 then "" else frac[9..] }

  /** A digit finer than a nano-USD is not zero. */
  predicate RoundsUp(frac: string) { exists i :: 0 <= i < |Beyond(frac)| && Beyond(frac)[i] != '0' }

  function ParseAmount(raw: string): Result<nat, Refusal> {
    if !IsPlainDecimal(raw) then Err(NotPlainDecimal) else
    var whole, frac := WholePart(raw), FracPart(raw);
    var exact := DigitsValue(whole) * NANO_PER_USD + DigitsValue(FirstNine(frac));
    var nano := if RoundsUp(frac) then exact + 1 else exact;
    if nano >= TOO_LARGE then Err(TooLarge) else Ok(nano)
  }

  /** The caller's value as text, or nothing when it is absent. */
  function ParseCostUsd(value: Option<string>): Result<Option<nat>, Refusal> {
    match value
    case None => Ok(None)
    case Some(text) =>
      match ParseAmount(Trim(text))
      case Ok(nano) => Ok(Some(nano))
      case Err(refusal) => Err(refusal)
  }

  /** White space around the amount is ignored, an absent value asks for no cap, and a refusal is passed on. */
  lemma CostIsRead(left: string, raw: string, right: string)
    requires AllSpaces(left) && AllSpaces(right) && raw != "" && !IsSpace(raw[0]) && !IsSpace(raw[|raw| - 1])
    ensures ParseCostUsd(None) == Ok(None)
    ensures var r := ParseCostUsd(Some(left + raw + right));
            && (r.Ok? <==> ParseAmount(raw).Ok?)
            && (r.Ok? ==> r.value == Some(ParseAmount(raw).value))
            && (r.Err? ==> r.error == ParseAmount(raw).error)
  {
    TrimAround(left, raw, right);
    hide Trim, ParseAmount;
  }

  /** `nano` is the least whole number of nano-USD that covers `digits / unit` USD. */
  ghost predicate IsCeiling(nano: nat, digits: nat, unit: nat) {
    digits * NANO_PER_USD <= nano * unit < digits * NANO_PER_USD + unit
  }

  /** A ceiling is unique, so the predicate names one amount. */
  lemma CeilingUnique(a: nat, b: nat, digits: nat, unit: nat)
    requires IsCeiling(a, digits, unit) && IsCeiling(b, digits, unit)
    ensures a == b
  {
    Distribute(a, 1, unit);
    Distribute(b, 1, unit);
    MulReflectsLess(a, b + 1, unit);
    MulReflectsLess(b, a + 1, unit);
  }

  /** The exact ceiling of `digits / 10^places` USD in nano-USD. */
  function CeilingNano(digits: nat, places: nat): (nano: nat)
    ensures IsCeiling(nano, digits, Pow10(places))
  {
    var x, p := digits * NANO_PER_USD, Pow10(places);
    assert x == (x / p) * p + x % p;
    assert (x / p + 1) * p == (x / p) * p + p;
    if x % p == 0 then x / p else x / p + 1
  }

  /**
   * For a plain decimal of any length, the answer is the exact ceiling of the amount in nano-USD; the amount is
   * refused as too large exactly when that ceiling has more than nineteen digits; anything else is not a decimal.
   */
  lemma ParsesToCeiling(raw: string)
    ensures ParseAmount(raw) ==
              if !IsPlainDecimal(raw) then Err(NotPlainDecimal)
              else
                var nano := CeilingNano(DigitsValue(WholePart(raw) + FracPart(raw)), |FracPart(raw)|);
                if nano >= TOO_LARGE then Err(TooLarge) else Ok(nano)
  {
    if IsPlainDecimal(raw) {
      RoundedParts(WholePart(raw), FracPart(raw));
    }
  }

  /** The whole part and the first nine places, rounded up past them, are the ceiling of the whole amount. */
  lemma RoundedParts(whole: string, frac: string)
    requires AllDigits(whole) && AllDigits(frac)
    ensures AllDigits(whole + frac)
    ensures CeilingNano(DigitsValue(whole + frac), |frac|)
         == DigitsValue(whole) * NANO_PER_USD + DigitsValue(FirstNine(frac)) + (if RoundsUp(frac) then 1 else 0)
  {
    DigitsValueConcat(whole, frac);
    var digits := DigitsValue(whole + frac);
    if |frac| <= 9 {
      ShortFraction(DigitsValue(whole), frac, digits, CeilingNano(digits, |frac|));
    } else {
      LongFraction(DigitsValue(whole), frac, digits, CeilingNano(digits, |frac|));
    }
  }

  lemma NinePlaces()
    ensures Pow10(9) == NANO_PER_USD
  {
    assert Pow10(3) == 1000;
    Pow10Adds(3, 3);
    Pow10Adds(3, 6);
  }

  lemma Distribute(a: int, b: int, c: int)
    ensures (a + b) * c == a * c + b * c
  {
  }

  lemma ShortArithmetic(whole: nat, v: nat, nine: nat, rest: nat, unit: nat, digits: nat, ceiling: nat)
    requires rest * unit == NANO_PER_USD && unit > 0 && nine == v * rest
    requires digits == whole * unit + v && IsCeiling(ceiling, digits, unit)
    ensures ceiling == whole * NANO_PER_USD + nine
  {
    Distribute(whole * NANO_PER_USD, nine, unit);
    assert nine * unit == v * (rest * unit);
    CeilingUnique(ceiling, whole * NANO_PER_USD + nine, digits, unit);
  }

  lemma NineSplit(a: nat, b: nat)
    ensures a + b == 9 ==> Pow10(a) * Pow10(b) == NANO_PER_USD
    ensures b >= 9 ==> Pow10(b) == NANO_PER_USD * Pow10(b - 9)
  {
    hide Pow10;
    NinePlaces();
    Pow10Adds(a, b);
    if b >= 9 { Pow10Adds(9, b - 9); }
  }

  lemma PaddedValue(frac: string)
    requires AllDigits(frac) && |frac| <= 9
    ensures DigitsValue(FirstNine(frac)) == DigitsValue(frac) * Pow10(9 - |frac|)
  {
    hide *;
    ZeroDigits(Zeros(9 - |frac|));
    DigitsValueConcat(frac, Zeros(9 - |frac|));
  }

  lemma NothingBeyond(frac: string)
    requires |frac| <= 9
    ensures !RoundsUp(frac)
  {
  }

  /** Up to nine places nothing is rounded. */
  lemma ShortFraction(whole: nat, frac: string, digits: nat, ceiling: nat)
    requires AllDigits(frac) && |frac| <= 9
    requires digits == whole * Pow10(|frac|) + DigitsValue(frac)
    requires IsCeiling(ceiling, digits, Pow10(|frac|))
    ensures ceiling == whole * NANO_PER_USD + DigitsValue(FirstNine(frac)) && !RoundsUp(frac)
  {
    NothingBeyond(frac);
    hide *;
    NineSplit(9 - |frac|, |frac|);
    PaddedValue(frac);
    var v, nine, rest, unit := DigitsValue(frac), DigitsValue(FirstNine(frac)), Pow10(9 - |frac|), Pow10(|frac|);
    ShortArithmetic(whole, v, nine, rest, unit, digits, ceiling);
  }

  lemma LongArithmetic(whole: nat, h: nat, l: nat, up: nat, t: nat, v: nat, unit: nat,
                       digits: nat, ceiling: nat)
    requires t > 0 && l < t && (if l == 0 then up == 0 else up == 1)
    requires v == h * t + l && unit == NANO_PER_USD * t
    requires digits == whole * unit + v && IsCeiling(ceiling, digits, unit)
    ensures ceiling == whole * NANO_PER_USD + h + up
  {
    var n := NANO_PER_USD;
    Distribute(whole * n + h, up, unit);
    Distribute(whole * n, h, unit);
    Distribute(whole * unit, v, n);
    assert (whole * n) * unit == (whole * unit) * n;
    assert h * unit == (h * t) * n;
    CeilingUnique(ceiling, whole * n + h + up, digits, unit);
  }

  lemma SplitValue(frac: string)
    requires AllDigits(frac) && |frac| > 9
    ensures AllDigits(Beyond(frac))
    ensures DigitsValue(frac) == DigitsValue(FirstNine(frac)) * Pow10(|frac| - 9) + DigitsValue(Beyond(frac))
  {
    hide *;
    DigitsValueConcat(FirstNine(frac), Beyond(frac));
    assert |Beyond(frac)| == |frac| - 9;
  }

  lemma TailValue(tail: string)
    requires AllDigits(tail)
    ensures DigitsValue(tail) < Pow10(|tail|)
    ensures DigitsValue(tail) > 0 <==> exists i :: 0 <= i < |tail| && tail[i] != '0'
  {
    ZeroDigits(tail);
  }

  /** Past nine places the tail is worth less than one nano-USD, and rounds up exactly when it is not zero. */
  lemma LongFraction(whole: nat, frac: string, digits: nat, ceiling: nat)
    requires AllDigits(frac) && |frac| > 9
    requires digits == whole * Pow10(|frac|) + DigitsValue(frac)
    requires IsCeiling(ceiling, digits, Pow10(|frac|))
    ensures ceiling == whole * NANO_PER_USD + DigitsValue(FirstNine(frac)) + (if RoundsUp(frac) then 1 else 0)
  {
    assert |Beyond(frac)| == |frac| - 9;
    assert RoundsUp(frac) == exists i :: 0 <= i < |Beyond(frac)| && Beyond(frac)[i] != '0';
    hide *;
    SplitValue(frac);
    TailValue(Beyond(frac));
    NineSplit(0, |frac|);
    var v, nine, unit := DigitsValue(frac), DigitsValue(FirstNine(frac)), Pow10(|frac|);
    var up := if RoundsUp(frac) then 1 else 0;
    LongArithmetic(whole, nine, DigitsValue(Beyond(frac)), up, Pow10(|frac| - 9), v, unit, digits, ceiling);
  }

  // ----- printing an amount and reading it back -----

  function NineDigits(n: nat): (s: string)
    requires n < NANO_PER_USD
    ensures |s| == 9 && AllDigits(s)
  {
    assert Pow10(9) == NANO_PER_USD;
    DecimalLength(n, 9);
    Zeros(9 - |Decimal(n)|) + Decimal(n)
  }

  function PrintNano(n: nat): string {
    Decimal(n / NANO_PER_USD) + "." + NineDigits(n % NANO_PER_USD)
  }

  lemma NineAreFirst(frac: string)
    requires AllDigits(frac) && |frac| == 9
    ensures FirstNine(frac) == frac && !RoundsUp(frac)
  {
  }

  lemma SplitsAtPoint(whole: string, frac: string)
    requires AllDigits(whole)
    ensures WholePart(whole + "." + frac) == whole && FracPart(whole + "." + frac) == frac
    ensures frac != "" ==> WholeLength(whole + "." + frac) < |whole + "." + frac|
  {
    var s := whole + "." + frac;
    assert s[|whole|] == '.';
    assert s[..|whole|] == whole && s[|whole| + 1..] == frac;
  }

  lemma NoSpaceAround(whole: string, frac: string)
    requires AllDigits(whole) && AllDigits(frac) && whole != "" && frac != ""
    ensures Trim(whole + "." + frac) == whole + "." + frac
  {
    var s := whole + "." + frac;
    assert s[0] == whole[0] && s[|s| - 1] == frac[|frac| - 1];
    TrimIdentity(s);
  }

  /** A decimal text of nine places is read exactly. */
  lemma ParsesNinePlaces(whole: string, frac: string, usd: nat, nano: nat)
    requires AllDigits(whole) && AllDigits(frac) && whole != "" && |frac| == 9
    requires usd == DigitsValue(whole) && nano == DigitsValue(frac) && usd * NANO_PER_USD + nano < TOO_LARGE
    ensures ParseCostUsd(Some(whole + "." + frac)) == Ok(Some(usd * NANO_PER_USD + nano))
  {
    hide Trim, DigitsValue;
    assert ParseAmount(whole + "." + frac) == Ok(usd * NANO_PER_USD + nano) by {
      SplitsAtPoint(whole, frac);
      NineAreFirst(frac);
    }
    NoSpaceAround(whole, frac);
  }

  lemma NineDigitsValue(n: nat)
    requires n < NANO_PER_USD
    ensures DigitsValue(NineDigits(n)) == n
  {
    NinePlaces();
    DecimalLength(n, 9);
    var zeros := Zeros(9 - |Decimal(n)|);
    DigitsValueConcat(zeros, Decimal(n));
    ZeroDigits(zeros);
    DecimalValue(n);
  }

  /** An amount below the limit, printed with nine places, reads back as itself. */
  lemma PrintedAmountReadsBack(n: nat)
    requires n < TOO_LARGE
    ensures ParseCostUsd(Some(PrintNano(n))) == Ok(Some(n))
  {
    hide Decimal, DigitsValue, NineDigits, ParseCostUsd, ParseAmount, Trim, AllDigits;
    var whole, frac := Decimal(n / NANO_PER_USD), NineDigits(n % NANO_PER_USD);
    assert DigitsValue(whole) == n / NANO_PER_USD by { DecimalValue(n / NANO_PER_USD); }
    assert DigitsValue(frac) == n % NANO_PER_USD by { NineDigitsValue(n % NANO_PER_USD); }
    ParsesNinePlaces(whole, frac, n / NANO_PER_USD, n % NANO_PER_USD);
    assert n / NANO_PER_USD * NANO_PER_USD + n % NANO_PER_USD == n;
  }
}
