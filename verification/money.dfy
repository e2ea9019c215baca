/**
 Money amounts as decimal strings: validation, normalisation, and conversion between currencies with exact
 integer arithmetic, rounded to the nearest hundredth.
 */
module Money {
  import opened Base

  // ---------------------------------------------------------------------------------------------
  // Digit strings
  // ---------------------------------------------------------------------------------------------

  predicate IsDigit(c: char) { '0' <= c <= '9' }

  function Digit(c: char): nat
    requires IsDigit(c)
  {
    c as int - '0' as int
  }

  function DigitChar(d: nat): char
    requires d < 10
  {
    ('0' as int + d) as char
  }

  predicate Digits(s: string) {
    forall i | 0 <= i < |s| :: IsDigit(s[i])
  }

  function Pow10(n: nat): (p: nat)
    ensures p > 0
  {
    if n == 0 then 1 else 10 * Pow10(n - 1)
  }

  /** The number a digit string writes. */
  function Val(s: string): nat
    requires Digits(s)
  {
    if s == "" then 0 else 10 * Val(s[..|s| - 1]) + Digit(s[|s| - 1])
  }

  function Zeros(n: nat): (s: string)
    ensures |s| == n && Digits(s)
  {
    seq(n, i => '0')
  }

  lemma {:induction false} ValAppend(s: string, t: string)
    requires Digits(s) && Digits(t)
    ensures Digits(s + t) && Val(s + t) == Val(s) * Pow10(|t|) + Val(t)
    decreases |t|
  {
    if t == "" {
      assert s + t == s;
    } else {
      var front, last := t[..|t| - 1], t[|t| - 1];
      ValAppend(s, front);
      assert (s + t)[..|s + t| - 1] == s + front && (s + t)[|s + t| - 1] == last;
      assert Val(s) * Pow10(|t|) == 10 * (Val(s) * Pow10(|front|));
    }
  }

  lemma {:induction false} ValOfZeros(n: nat)
    ensures Val(Zeros(n)) == 0
  {
    if n > 0 {
      ValOfZeros(n - 1);
      assert Zeros(n)[..n - 1] == Zeros(n - 1);
    }
  }

  lemma {:induction false} ValBound(s: string)
    requires Digits(s)
    ensures Val(s) < Pow10(|s|)
    decreases |s|
  {
    if s != "" {
      ValBound(s[..|s| - 1]);
    }
  }

  lemma {:induction false} PowAdds(m: nat, n: nat)
    ensures Pow10(m + n) == Pow10(m) * Pow10(n)
  {
    if n > 0 {
      PowAdds(m, n - 1);
      assert Pow10(m) * Pow10(n) == 10 * (Pow10(m) * Pow10(n - 1));
    }
  }

  /** The decimal digits of a number, without leading zeros. */
  function Decimal(n: nat): string {
    (if n < 10 then "" else Decimal(n / 10)) + [DigitChar(n % 10)]
  }

  /** Printing and reading a number are inverse, and the length is the number of digits it needs. */
  lemma {:induction false} DecimalReads(n: nat)
    ensures Digits(Decimal(n)) && Val(Decimal(n)) == n && |Decimal(n)| > 0
    ensures forall k: nat | k > 0 :: |Decimal(n)| <= k <==> n < Pow10(k)
  {
    var s := Decimal(n);
    if n < 10 {
      assert s[..0] == "";
      forall k: nat | k > 0 ensures |s| <= k <==> n < Pow10(k) {
        assert Pow10(k) == 10 * Pow10(k - 1);
      }
    } else {
      DecimalReads(n / 10);
      assert s[..|s| - 1] == Decimal(n / 10);
      forall k: nat | k > 0 ensures |s| <= k <==> n < Pow10(k) {
        assert Pow10(k) == 10 * Pow10(k - 1);
        assert k > 1 ==> (|s| - 1 <= k - 1 <==> n / 10 < Pow10(k - 1));
      }
    }
  }

  // ---------------------------------------------------------------------------------------------
  // Patterns
  // ---------------------------------------------------------------------------------------------

  /** A whole part and an optional fraction. */
  datatype Parts = Parts(whole: string, fraction: string)

  function Leading(s: string): (k: nat)
    ensures k <= |s| && (forall i | 0 <= i < k :: IsDigit(s[i])) && (k < |s| ==> !IsDigit(s[k]))
  {
    if s == "" || !IsDigit(s[0]) then 0
    else
      var k := Leading(s[1..]) + 1;
      assert forall i | 1 <= i < k :: s[i] == s[1..][i - 1];
      k
  }

  /** Matching one to `whole` digits, then optionally a point and one to `fraction` digits. */
  function Match(s: string, whole: nat, fraction: nat): Option<Parts> {
    var k := Leading(s);
    if !(1 <= k <= whole) then None
    else if k == |s| then Some(Parts(s, ""))
    else if s[k] == '.' && 1 <= |s| - k - 1 <= fraction && Digits(s[k + 1..]) then Some(Parts(s[..k], s[k + 1..]))
    else None
  }

  function Print(p: Parts): string {
    p.whole + (if p.fraction == "" then "" else "." + p.fraction)
  }

  predicate Fits(p: Parts, whole: nat, fraction: nat) {
    1 <= |p.whole| <= whole && |p.fraction| <= fraction && Digits(p.whole) && Digits(p.fraction)
  }

  lemma LeadingIs(s: string, k: nat)
    requires k <= |s| && (forall i | 0 <= i < k :: IsDigit(s[i])) && (k < |s| ==> !IsDigit(s[k]))
    ensures Leading(s) == k
  {
    var j := Leading(s);
    assert j < |s| ==> !IsDigit(s[j]);
  }

  lemma PrintMatches(p: Parts, whole: nat, fraction: nat)
    requires Fits(p, whole, fraction)
    ensures Match(Print(p), whole, fraction) == Some(p)
  {
    var s, k := Print(p), |p.whole|;
    assert s[..k] == p.whole && (p.fraction == "" ==> s == p.whole);
    assert p.fraction != "" ==> s[k] == '.' && s[k + 1..] == p.fraction;
    LeadingIs(s, k);
  }

  lemma MatchPrints(s: string, whole: nat, fraction: nat)
    requires Match(s, whole, fraction).Some?
    ensures Fits(Match(s, whole, fraction).value, whole, fraction) && s == Print(Match(s, whole, fraction).value)
  {
    var k := Leading(s);
    assert k < |s| && s[k] == '.' ==> s == s[..k] + ("." + s[k + 1..]);
    assert s[..|s|] == s;
    hide Leading;
  }

  /** A string matches exactly when it is the print of parts that fit. */
  lemma MatchIffPrint(s: string, p: Parts, whole: nat, fraction: nat)
    ensures Match(s, whole, fraction) == Some(p) <==> Fits(p, whole, fraction) && s == Print(p)
  {
    hide Match;
    if Fits(p, whole, fraction) && s == Print(p) {
      PrintMatches(p, whole, fraction);
    } else if Match(s, whole, fraction).Some? {
      MatchPrints(s, whole, fraction);
    }
  }

  // ---------------------------------------------------------------------------------------------
  // Normalisation
  // ---------------------------------------------------------------------------------------------

  datatype Failure = InvalidAmount

  /** Unicode white space. */
  predicate IsSpace(c: char) {
    var n := c as int;
    9 <= n <= 13 || n in {0x20, 0x85, 0xA0, 0x1680, 0x2028, 0x2029, 0x202F, 0x205F, 0x3000} || 0x2000 <= n <= 0x200A
  }

  function TrimLeft(s: string): string {
    if s != "" && IsSpace(s[0]) then TrimLeft(s[1..]) else s
  }

  function TrimRight(s: string): string {
    if s != "" && IsSpace(s[|s| - 1]) then TrimRight(s[..|s| - 1]) else s
  }

  function TrimSpace(s: string): string {
    TrimRight(TrimLeft(s))
  }

  function TrimZeros(s: string): string {
    if s != "" && s[|s| - 1] == '0' then TrimZeros(s[..|s| - 1]) else s
  }

  const AMOUNT_WHOLE := 18
  const AMOUNT_FRACTION := 2
  const DONATION_WHOLE := 20
  const DONATION_FRACTION := 18

  /** A queue amount, with two decimals. */
  function Normalize(amount: string): Result<string, Failure> {
    match Match(amount, AMOUNT_WHOLE, AMOUNT_FRACTION)
    case None => Err(InvalidAmount)
    case Some(p) =>
      MatchPrints(amount, AMOUNT_WHOLE, AMOUNT_FRACTION);
      Ok(p.whole + "." + p.fraction + Zeros(2 - |p.fraction|))
  }

  /** A donation amount as the provider reports it, without trailing zeros. */
  function NormalizeDonationAmount(amount: string): Result<string, Failure> {
    match Match(TrimSpace(amount), DONATION_WHOLE, DONATION_FRACTION)
    case None => Err(InvalidAmount)
    case Some(p) => Ok(Print(Parts(p.whole, TrimZeros(p.fraction))))
  }

  /** The number that parts write. */
  function Quantity(p: Parts): real
    requires Digits(p.whole) && Digits(p.fraction)
  {
    var units := p.whole + p.fraction;
    assert Digits(units);
    Val(units) as real / Pow10(|p.fraction|) as real
  }

  lemma {:induction false} TrimZerosKeeps(s: string) returns (n: nat)
    ensures TrimZeros(s) + Zeros(n) == s
    ensures TrimZeros(s) != "" ==> TrimZeros(s)[|TrimZeros(s)| - 1] != '0'
    ensures TrimZeros(TrimZeros(s)) == TrimZeros(s)
  {
    if s != "" && s[|s| - 1] == '0' {
      var m := TrimZerosKeeps(s[..|s| - 1]);
      n := m + 1;
      assert TrimZeros(s) + Zeros(n) == TrimZeros(s) + Zeros(m) + "0";
    } else {
      n := 0;
    }
  }

  lemma CancelScale(v: nat, d: nat, z: nat)
    requires d > 0 && z > 0
    ensures d * z > 0 && (v * z) as real / (d * z) as real == v as real / d as real
  {
    var q := v as real / d as real;
    assert (v * z) as real == q * (d * z) as real by {
      assert v as real == q * d as real;
      assert (v * z) as real == v as real * z as real;
      assert (d * z) as real == d as real * z as real;
    }
  }

  /** Zeros after the fraction do not change the quantity. */
  lemma ZerosKeepQuantity(p: Parts, n: nat)
    requires Digits(p.whole) && Digits(p.fraction)
    ensures Digits(p.fraction + Zeros(n)) && Quantity(Parts(p.whole, p.fraction + Zeros(n))) == Quantity(p)
  {
    var units := p.whole + p.fraction;
    assert p.whole + (p.fraction + Zeros(n)) == units + Zeros(n);
    ValAppend(units, Zeros(n));
    ValOfZeros(n);
    PowAdds(|p.fraction|, n);
    hide Val, Pow10;
    CancelScale(Val(units), Pow10(|p.fraction|), Pow10(n));
  }

  function AmountParts(amount: string): Parts
    requires Match(amount, AMOUNT_WHOLE, AMOUNT_FRACTION).Some?
    ensures Fits(AmountParts(amount), AMOUNT_WHOLE, AMOUNT_FRACTION)
  {
    MatchPrints(amount, AMOUNT_WHOLE, AMOUNT_FRACTION);
    Match(amount, AMOUNT_WHOLE, AMOUNT_FRACTION).value
  }

  function DonationParts(amount: string): Parts
    requires Match(TrimSpace(amount), DONATION_WHOLE, DONATION_FRACTION).Some?
    ensures Fits(DonationParts(amount), DONATION_WHOLE, DONATION_FRACTION)
  {
    MatchPrints(TrimSpace(amount), DONATION_WHOLE, DONATION_FRACTION);
    Match(TrimSpace(amount), DONATION_WHOLE, DONATION_FRACTION).value
  }

  function Padded(p: Parts): Parts
    requires Fits(p, AMOUNT_WHOLE, AMOUNT_FRACTION)
  {
    Parts(p.whole, p.fraction + Zeros(2 - |p.fraction|))
  }

  lemma NormalizePads(amount: string)
    requires Match(amount, AMOUNT_WHOLE, AMOUNT_FRACTION).Some?
    ensures Fits(Padded(AmountParts(amount)), AMOUNT_WHOLE, AMOUNT_FRACTION)
    ensures Normalize(amount) == Ok(Print(Padded(AmountParts(amount))))
  {
    hide Match;
    var p := AmountParts(amount);
    assert p.whole + "." + p.fraction + Zeros(2 - |p.fraction|) == Print(Padded(p));
  }

  /** A normalised amount has exactly two decimals, the same value, and normalises to itself. */
  lemma NormalizeIsCanonical(amount: string)
    ensures Normalize(amount).Ok? <==> Match(amount, AMOUNT_WHOLE, AMOUNT_FRACTION).Some?
    ensures Normalize(amount).Ok? ==>
              var r := Normalize(amount).value;
              && Normalize(r) == Ok(r)
              && Match(r, AMOUNT_WHOLE, AMOUNT_FRACTION).Some? && |AmountParts(r).fraction| == 2
              && Quantity(AmountParts(r)) == Quantity(AmountParts(amount))
  {
    if Match(amount, AMOUNT_WHOLE, AMOUNT_FRACTION).Some? {
      var p := AmountParts(amount);
      var q := Padded(p);
      var r := Print(q);
      ZerosKeepQuantity(p, 2 - |p.fraction|);
      NormalizePads(amount);
      PrintMatches(q, AMOUNT_WHOLE, AMOUNT_FRACTION);
      assert AmountParts(r) == q && Padded(q) == q;
      hide Quantity, Match, Print, Normalize;
      NormalizePads(r);
    }
  }

  lemma NoSpaceKeeps(s: string)
    requires s != "" && !IsSpace(s[0]) && !IsSpace(s[|s| - 1])
    ensures TrimSpace(s) == s
  {}

  /** Normalising a donation amount keeps its value and is idempotent; it fails exactly without a match. */
  lemma DonationAmountIsCanonical(amount: string)
    ensures NormalizeDonationAmount(amount).Ok? <==> Match(TrimSpace(amount), DONATION_WHOLE, DONATION_FRACTION).Some?
    ensures NormalizeDonationAmount(amount).Ok? ==>
              var r := NormalizeDonationAmount(amount).value;
              && NormalizeDonationAmount(r) == Ok(r)
              && Match(TrimSpace(r), DONATION_WHOLE, DONATION_FRACTION).Some?
              && Quantity(DonationParts(r)) == Quantity(DonationParts(amount))
              && r == Print(DonationParts(r))
  {
    if Match(TrimSpace(amount), DONATION_WHOLE, DONATION_FRACTION).Some? {
      var p := DonationParts(amount);
      var n := TrimZerosKeeps(p.fraction);
      var q := Parts(p.whole, TrimZeros(p.fraction));
      assert p.fraction[..|q.fraction|] == q.fraction;
      ZerosKeepQuantity(q, n);
      var r := Print(q);
      assert NormalizeDonationAmount(amount) == Ok(r);
      NoSpaceKeeps(r);
      MatchIffPrint(r, q, DONATION_WHOLE, DONATION_FRACTION);
    }
  }

  // ---------------------------------------------------------------------------------------------
  // Conversion
  // ---------------------------------------------------------------------------------------------

  /** The rubles per unit of the supported currencies. */
  function RublesPerUnit(currency: string): (rate: Option<nat>)
    ensures rate.Some? ==> rate.value > 0
  {
    if currency == "RUB" then Some(1)
    else if currency == "USD" then Some(90)
    else if currency == "EUR" then Some(100)
    else None
  }

  datatype Conversion = Converted(amount: string) | NotConvertible | BadAmount(error: Failure)

  /** An amount as a number of units of a power of ten. */
  datatype Units = Units(count: nat, scale: nat)

  /** Splitting at the first point. */
  function Cut(s: string): Parts {
    if s == "" then Parts("", "")
    else if s[0] == '.' then Parts("", s[1..])
    else
      var rest := Cut(s[1..]);
      Parts([s[0]] + rest.whole, rest.fraction)
  }

  lemma {:induction false} CutPrint(p: Parts)
    requires Digits(p.whole)
    ensures Cut(Print(p)) == p
    decreases |p.whole|
  {
    var s := Print(p);
    if p.whole == "" {
      assert p.fraction != "" ==> s[1..] == p.fraction;
    } else {
      var shorter := Parts(p.whole[1..], p.fraction);
      CutPrint(shorter);
      assert s[0] == p.whole[0] && s[1..] == Print(shorter);
      assert [p.whole[0]] + p.whole[1..] == p.whole;
    }
  }

  /** Parsing reads the parts of the normalised amount. */
  lemma NormalizedParts(amount: string)
    requires NormalizeDonationAmount(amount).Ok?
    ensures var p := Cut(NormalizeDonationAmount(amount).value);
            && Match(TrimSpace(amount), DONATION_WHOLE, DONATION_FRACTION).Some?
            && Fits(p, DONATION_WHOLE, DONATION_FRACTION)
            && Quantity(p) == Quantity(DonationParts(amount))
  {
    DonationAmountIsCanonical(amount);
    CutPrint(DonationParts(NormalizeDonationAmount(amount).value));
  }

  function ParseDonationUnits(amount: string): Result<Units, Failure> {
    match NormalizeDonationAmount(amount)
    case Err(e) => Err(e)
    case Ok(normalized) =>
      NormalizedParts(amount);
      var p := Cut(normalized);
      Ok(Units(Val(p.whole + p.fraction), Pow10(|p.fraction|)))
  }

  function RoundDiv(numerator: nat, denominator: nat): nat
    requires denominator > 0
  {
    (numerator + denominator / 2) / denominator
  }

  function FormatCents(value: nat): string {
    Decimal(value / 100) + "." + [DigitChar(value % 100 / 10), DigitChar(value % 10)]
  }

  function ConvertWithDefaultRate(amount: string, sourceCurrency: string, targetCurrency: string): Conversion {
    var sourceRate, targetRate := RublesPerUnit(sourceCurrency), RublesPerUnit(targetCurrency);
    if sourceRate.None? || targetRate.None? then NotConvertible
    else
      match ParseDonationUnits(amount)
      case Err(e) => BadAmount(e)
      case Ok(units) =>
        ScaleIsPositive(amount);
        var numerator := units.count * sourceRate.value * 100;
        var denominator := units.scale * targetRate.value;
        var converted := FormatCents(RoundDiv(numerator, denominator));
        if Match(converted, AMOUNT_WHOLE, AMOUNT_FRACTION).Some? then Converted(converted) else NotConvertible
  }

  lemma ScaleIsPositive(amount: string)
    requires ParseDonationUnits(amount).Ok?
    ensures forall rate: nat | rate > 0 :: ParseDonationUnits(amount).value.scale * rate > 0
  {
    NormalizedParts(amount);
  }

  /** The number of hundredths a normalised amount writes. */
  function Cents(amount: string): nat
    requires Match(amount, AMOUNT_WHOLE, AMOUNT_FRACTION).Some?
  {
    var p := AmountParts(amount);
    assert Digits(p.whole + p.fraction);
    Val(p.whole + p.fraction)
  }

  /** The exact number of hundredths of the target currency. */
  function ExactCents(amount: string, sourceRate: nat, targetRate: nat): real
    requires Match(TrimSpace(amount), DONATION_WHOLE, DONATION_FRACTION).Some? && targetRate > 0
  {
    Quantity(DonationParts(amount)) * sourceRate as real * 100.0 / targetRate as real
  }

  /** The integer closest to x, the upper one of two. */
  predicate IsRounded(x: real, n: nat) {
    n as real <= x + 0.5 < n as real + 1.0
  }

  lemma RoundDivIsRounded(numerator: nat, denominator: nat)
    requires denominator > 0
    ensures IsRounded(numerator as real / denominator as real, RoundDiv(numerator, denominator))
  {
    var n, d, q := numerator, denominator, RoundDiv(numerator, denominator);
    var a := n + d / 2;
    assert d * q <= a < d * (q + 1) by {
      assert a == d * (a / d) + a % d;
    }
    assert 2 * (d * q) <= 2 * n + d && 2 * n + d < 2 * (d * (q + 1));
    RoundedReal(n, d, q);
  }

  lemma RoundedReal(n: nat, d: nat, q: nat)
    requires d > 0 && 2 * (d * q) <= 2 * n + d < 2 * (d * (q + 1))
    ensures IsRounded(n as real / d as real, q)
  {
    ProductAsReal(d, q);
    ProductAsReal(d, q + 1);
    CompareQuotient(n as real, d as real, q as real);
    CompareQuotient(n as real, d as real, (q + 1) as real);
  }

  lemma ProductAsReal(a: nat, b: nat)
    ensures (a * b) as real == a as real * b as real
  {}

  lemma CompareQuotient(n: real, r: real, y: real)
    requires r > 0.0
    ensures r * y <= n + r / 2.0 ==> y <= n / r + 0.5
    ensures n + r / 2.0 < r * y ==> n / r + 0.5 < y
  {
    var z := n / r;
    assert r * z == n;
    assert r * (y - z - 0.5) == r * y - r * z - r / 2.0;
    SignOfFactor(r, y - z - 0.5);
    SignOfFactor(r, z + 0.5 - y);
  }

  lemma SignOfFactor(r: real, y: real)
    requires r > 0.0
    ensures r * y <= 0.0 ==> y <= 0.0
    ensures r * y < 0.0 ==> y < 0.0
  {}

  function CentsParts(value: nat): Parts {
    Parts(Decimal(value / 100), [DigitChar(value % 100 / 10), DigitChar(value % 10)])
  }

  lemma CentsPartsFit(value: nat)
    ensures FormatCents(value) == Print(CentsParts(value)) && Digits(CentsParts(value).whole)
    ensures Fits(CentsParts(value), AMOUNT_WHOLE, AMOUNT_FRACTION) <==> value < Pow10(20)
  {
    hide Pow10, Decimal;
    DecimalReads(value / 100);
    Hundredfold(18);
    assert |Decimal(value / 100)| <= 18 <==> value / 100 < Pow10(18);
  }

  lemma Hundredfold(n: nat)
    ensures Pow10(n + 2) == 100 * Pow10(n)
  {
    assert Pow10(n + 1) == 10 * Pow10(n);
  }

  /** Printed hundredths read back as the same number, and match exactly when 18 whole digits suffice. */
  lemma FormatCentsReads(value: nat)
    ensures var s := FormatCents(value);
            && (Match(s, AMOUNT_WHOLE, AMOUNT_FRACTION).Some? <==> value < Pow10(20))
            && (value < Pow10(20) ==> Cents(s) == value && Normalize(s) == Ok(s))
  {
    var s, p := FormatCents(value), CentsParts(value);
    CentsPartsFit(value);
    if value < Pow10(20) {
      PrintMatches(p, AMOUNT_WHOLE, AMOUNT_FRACTION);
      DecimalReads(value / 100);
      FractionReads(value, p);
      assert p.whole + "." + p.fraction + Zeros(0) == s;
      hide Match, Pow10, Decimal, FormatCents, Val;
    }
    MatchedCentsFit(value);
  }

  lemma MatchedCentsFit(value: nat)
    ensures Match(FormatCents(value), AMOUNT_WHOLE, AMOUNT_FRACTION).Some? ==> value < Pow10(20)
  {
    var s, p := FormatCents(value), CentsParts(value);
    CentsPartsFit(value);
    if Match(s, AMOUNT_WHOLE, AMOUNT_FRACTION).Some? {
      var q := AmountParts(s);
      MatchPrints(s, AMOUNT_WHOLE, AMOUNT_FRACTION);
      CutPrint(p);
      CutPrint(q);
      hide Match, Pow10, Print, Cut;
    }
  }

  lemma FractionReads(value: nat, p: Parts)
    requires Digits(p.whole) && Val(p.whole) == value / 100
    requires p.fraction == [DigitChar(value % 100 / 10), DigitChar(value % 10)]
    ensures Digits(p.whole + p.fraction) && Val(p.whole + p.fraction) == value
  {
    assert Pow10(0) == 1;
    hide Val, Pow10, DigitChar;
    ValAppend(p.whole, p.fraction);
    Hundredfold(0);
    CentsSplit(value);
    TwoDigitsRead(value % 100 / 10, value % 10);
  }

  lemma CentsSplit(value: nat)
    ensures value / 100 * 100 + (10 * (value % 100 / 10) + value % 10) == value
  {}

  lemma TwoDigitsRead(tens: nat, ones: nat)
    requires tens < 10 && ones < 10
    ensures Val([DigitChar(tens), DigitChar(ones)]) == 10 * tens + ones
  {
    var s := [DigitChar(tens), DigitChar(ones)];
    assert s[..1][..0] == "" && Val(s[..1]) == tens;
  }

  /** The quotient that is rounded is the exact number of hundredths. */
  lemma QuotientIsExact(amount: string, sourceRate: nat, targetRate: nat)
    requires ParseDonationUnits(amount).Ok? && targetRate > 0
    ensures Match(TrimSpace(amount), DONATION_WHOLE, DONATION_FRACTION).Some?
    ensures var units := ParseDonationUnits(amount).value;
            && units.scale * targetRate > 0
            && (units.count * sourceRate * 100) as real / (units.scale * targetRate) as real ==
               ExactCents(amount, sourceRate, targetRate)
  {
    hide ParseDonationUnits, Quantity, DonationParts, Match, TrimSpace;
    UnitsQuantity(amount);
    var units := ParseDonationUnits(amount).value;
    QuotientOfProducts(units.count, units.scale, sourceRate, targetRate);
  }

  lemma UnitsQuantity(amount: string)
    requires ParseDonationUnits(amount).Ok?
    ensures Match(TrimSpace(amount), DONATION_WHOLE, DONATION_FRACTION).Some?
    ensures var units := ParseDonationUnits(amount).value;
            units.scale > 0 && units.count as real / units.scale as real == Quantity(DonationParts(amount))
  {
    NormalizedParts(amount);
  }

  lemma QuotientOfProducts(count: nat, scale: nat, sourceRate: nat, targetRate: nat)
    requires scale > 0 && targetRate > 0
    ensures scale * targetRate > 0
    ensures (count * sourceRate * 100) as real / (scale * targetRate) as real ==
            (count as real / scale as real) * sourceRate as real * 100.0 / targetRate as real
  {
    var v := count as real / scale as real;
    ProductAsReal(count, sourceRate);
    ProductAsReal(scale, targetRate);
    var n := (count * sourceRate * 100) as real;
    assert n == v * scale as real * sourceRate as real * 100.0;
    CancelFactor(v * sourceRate as real * 100.0, scale as real, targetRate as real);
  }

  lemma CancelFactor(x: real, s: real, t: real)
    requires s > 0.0 && t > 0.0
    ensures s * t > 0.0 && x * s / (s * t) == x / t
  {
    var y := x / t;
    assert x * s == y * (s * t);
  }

  /** The rounded number of hundredths. */
  function RoundedCents(amount: string, sourceRate: nat, targetRate: nat): nat
    requires ParseDonationUnits(amount).Ok? && targetRate > 0
  {
    ScaleIsPositive(amount);
    var units := ParseDonationUnits(amount).value;
    RoundDiv(units.count * sourceRate * 100, units.scale * targetRate)
  }

  lemma ConversionCases(amount: string, sourceRate: nat, targetRate: nat)
    requires ParseDonationUnits(amount).Ok? && targetRate > 0
    ensures Match(TrimSpace(amount), DONATION_WHOLE, DONATION_FRACTION).Some?
    ensures IsRounded(ExactCents(amount, sourceRate, targetRate), RoundedCents(amount, sourceRate, targetRate))
  {
    QuotientIsExact(amount, sourceRate, targetRate);
    var units := ParseDonationUnits(amount).value;
    RoundDivIsRounded(units.count * sourceRate * 100, units.scale * targetRate);
  }

  lemma ParsesIffMatches(amount: string)
    ensures ParseDonationUnits(amount).Ok? <==> Match(TrimSpace(amount), DONATION_WHOLE, DONATION_FRACTION).Some?
  {
    DonationAmountIsCanonical(amount);
  }

  /**
   For supported currencies and a valid amount the result is the half-up nearest hundredth of the exact
   value, and a fixed point of Normalize; there is none exactly when the rounded value needs more than 18
   digits before the point. Unsupported currencies come before bad amounts.
   */
  lemma ConversionIsNearestCent(amount: string, source: string, target: string)
    ensures var r := ConvertWithDefaultRate(amount, source, target);
            var from, into := RublesPerUnit(source), RublesPerUnit(target);
            if from.None? || into.None? then r == NotConvertible
            else if Match(TrimSpace(amount), DONATION_WHOLE, DONATION_FRACTION).None? then r == BadAmount(InvalidAmount)
            else
              var x := ExactCents(amount, from.value, into.value);
              match r
              case Converted(s) =>
                && x + 0.5 < Pow10(20) as real
                && Normalize(s) == Ok(s) && Match(s, AMOUNT_WHOLE, AMOUNT_FRACTION).Some? && IsRounded(x, Cents(s))
              case NotConvertible => x + 0.5 >= Pow10(20) as real
              case BadAmount(_) => false
  {
    var from, into := RublesPerUnit(source), RublesPerUnit(target);
    ParsesIffMatches(amount);
    if from.Some? && into.Some? && ParseDonationUnits(amount).Ok? {
      ConversionCases(amount, from.value, into.value);
      FormatCentsReads(RoundedCents(amount, from.value, into.value));
      hide Pow10, FormatCents, Match, Normalize, ExactCents, TrimSpace;
    }
  }

  lemma RoundedOnce(x: real, y: real, m: nat, n: nat)
    requires x <= y && IsRounded(x, m) && IsRounded(y, n)
    ensures m <= n
  {}

  /** More never converts to less, and whatever is below a convertible amount is convertible. */
  lemma ConversionIsMonotone(less: string, more: string, source: string, target: string)
    requires RublesPerUnit(source).Some? && RublesPerUnit(target).Some?
    requires Match(TrimSpace(less), DONATION_WHOLE, DONATION_FRACTION).Some?
    requires Match(TrimSpace(more), DONATION_WHOLE, DONATION_FRACTION).Some?
    requires Quantity(DonationParts(less)) <= Quantity(DonationParts(more))
    requires ConvertWithDefaultRate(more, source, target).Converted?
    ensures var a, b := ConvertWithDefaultRate(less, source, target), ConvertWithDefaultRate(more, source, target);
            && a.Converted?
            && Match(a.amount, AMOUNT_WHOLE, AMOUNT_FRACTION).Some?
            && Match(b.amount, AMOUNT_WHOLE, AMOUNT_FRACTION).Some?
            && Cents(a.amount) <= Cents(b.amount)
  {
    var from, into := RublesPerUnit(source).value, RublesPerUnit(target).value;
    ExactIsMonotone(less, more, from, into);
    ParsesIffMatches(less);
    ParsesIffMatches(more);
    ConversionCases(less, from, into);
    ConversionCases(more, from, into);
    var m, n := RoundedCents(less, from, into), RoundedCents(more, from, into);
    FormatCentsReads(m);
    FormatCentsReads(n);
    hide Pow10, FormatCents, Match, Normalize, ExactCents, TrimSpace;
    RoundedOnce(ExactCents(less, from, into), ExactCents(more, from, into), m, n);
  }

  lemma ExactIsMonotone(less: string, more: string, sourceRate: nat, targetRate: nat)
    requires Match(TrimSpace(less), DONATION_WHOLE, DONATION_FRACTION).Some?
    requires Match(TrimSpace(more), DONATION_WHOLE, DONATION_FRACTION).Some?
    requires Quantity(DonationParts(less)) <= Quantity(DonationParts(more)) && targetRate > 0
    ensures ExactCents(less, sourceRate, targetRate) <= ExactCents(more, sourceRate, targetRate)
  {
    hide Quantity, DonationParts, Match, TrimSpace;
    ScaleIsMonotone(Quantity(DonationParts(less)), Quantity(DonationParts(more)), sourceRate as real,
                    targetRate as real);
  }

  lemma ScaleIsMonotone(x: real, y: real, s: real, t: real)
    requires x <= y && s >= 0.0 && t > 0.0
    ensures x * s * 100.0 / t <= y * s * 100.0 / t
  {
    var u, v := x * s * 100.0, y * s * 100.0;
    assert v - u == (y - x) * s * 100.0;
    assert u <= v by {
      assert (y - x) * s >= 0.0;
    }
    SignOfFactor(t, u / t - v / t);
    assert t * (u / t - v / t) == u - v;
  }
}
