/** Converting an amount to the gateway's settlement currency, with rates as exact hundredths. */
module GatewayAmounts {
  import opened Support

  function UpperChar(c: char): char {
    if 'a' <= c <= 'z' then (c as int - 32) as char else c
  }

  function Upper(s: string): string {
    seq(|s|, i requires 0 <= i < |s| => UpperChar(s[i]))
  }

  /** Settlement units per hundred units of the currency; anything not listed falls back to 50.00. */
  function Rate(code: string): nat {
    if code == "EGP" then 100
    else if code == "USD" then 5000
    else if code == "EUR" then 5400
    else if code == "GBP" then 6300
    else if code == "SAR" then 1335
    else if code == "AED" then 1360
    else if code == "KWD" then 16300
    else if code == "QAR" then 1375
    else if code == "BHD" then 13250
    else if code == "OMR" then 13000
    else if code == "JOD" then 7050
    else if code == "CAD" then 3650
    else if code == "AUD" then 3300
    else if code == "CHF" then 5600
    else if code == "JPY" then 35
    else if code == "INR" then 60
    else if code == "TRY" then 155
    else 5000
  }

  /** Round half up, as Math.round does: the floor of x/100 + 1/2. */
  function RoundHundredths(x: int): int {
    (x + 50) / 100
  }

  function Convert(amount: int, rate: nat): int {
    RoundHundredths(amount * rate)
  }

  function ToGatewayAmount(amount: int, currency: string): int {
    var code := Upper(currency);
    if code == "EGP" then amount else Convert(amount, Rate(code))
  }

  lemma GatewayAmountConverts(amount: int, currency: string)
    ensures ToGatewayAmount(amount, currency) == Convert(amount, Rate(Upper(currency)))
  {
  }

  function Self(a: int): int { a }

  function Converted(rate: nat): int -> int {
    (a: int) => Convert(a, rate)
  }

  function AtGateway(currency: string): int -> int {
    (a: int) => ToGatewayAmount(a, currency)
  }

  lemma {:induction false} AtGatewayConverts(refunds: seq<int>, currency: string)
    ensures SumBy(refunds, AtGateway(currency)) == SumBy(refunds, Converted(Rate(Upper(currency))))
  {
    if refunds != [] {
      AtGatewayConverts(refunds[..|refunds| - 1], currency);
      GatewayAmountConverts(refunds[|refunds| - 1], currency);
    }
  }

  lemma ConversionIsNearest(amount: int, rate: nat)
    ensures -50 < 100 * Convert(amount, rate) - amount * rate <= 50
  {
  }

  /** No single refund converts to more than the charge it is part of. */
  lemma ConversionIsMonotone(a: int, b: int, currency: string)
    requires a <= b
    ensures ToGatewayAmount(a, currency) <= ToGatewayAmount(b, currency)
  {
    GatewayAmountConverts(a, currency);
    GatewayAmountConverts(b, currency);
    ConvertIsMonotone(a, b, Rate(Upper(currency)));
  }

  lemma ConvertIsMonotone(a: int, b: int, rate: nat)
    requires a <= b
    ensures Convert(a, rate) <= Convert(b, rate)
  {
    ProductIsMonotone(a, b, rate);
  }

  lemma ProductIsMonotone(a: int, b: int, rate: nat)
    requires a <= b
    ensures a * rate <= b * rate
  {
  }

  lemma {:induction false} RoundingAddsUp(refunds: seq<int>, rate: nat)
    requires refunds != []
    ensures -50 * |refunds| < 100 * SumBy(refunds, Converted(rate)) - SumBy(refunds, Self) * rate <= 50 * |refunds|
  {
    var earlier, last := refunds[..|refunds| - 1], refunds[|refunds| - 1];
    ConversionIsNearest(last, rate);
    assert SumBy(refunds, Self) * rate == SumBy(earlier, Self) * rate + last * rate;
    if earlier != [] {
      RoundingAddsUp(earlier, rate);
    }
  }

  /** n partial refunds drift from the converted whole by less than (n + 1) / 2 settlement units. */
  lemma RefundDriftIsBounded(refunds: seq<int>, currency: string)
    ensures var drift := SumBy(refunds, AtGateway(currency)) - ToGatewayAmount(SumBy(refunds, Self), currency);
            -(|refunds| + 1) < 2 * drift < |refunds| + 1
  {
    AtGatewayConverts(refunds, currency);
    GatewayAmountConverts(SumBy(refunds, Self), currency);
    DriftIsBounded(refunds, Rate(Upper(currency)));
  }

  lemma DriftIsBounded(refunds: seq<int>, rate: nat)
    ensures var drift := SumBy(refunds, Converted(rate)) - Convert(SumBy(refunds, Self), rate);
            -(|refunds| + 1) < 2 * drift < |refunds| + 1
  {
    if refunds != [] {
      RoundingAddsUp(refunds, rate);
      ConversionIsNearest(SumBy(refunds, Self), rate);
    }
  }

  ghost predicate NeverDrifts(currency: string) {
    forall refunds: seq<int> :: SumBy(refunds, AtGateway(currency)) == ToGatewayAmount(SumBy(refunds, Self), currency)
  }

  lemma {:induction false} WholeRatesAddUp(refunds: seq<int>, rate: nat)
    requires rate % 100 == 0
    ensures SumBy(refunds, Converted(rate)) == SumBy(refunds, Self) * (rate / 100)
    ensures forall a: int :: Convert(a, rate) == a * (rate / 100)
  {
    var whole := rate / 100;
    forall a: int ensures Convert(a, rate) == a * whole {
      assert a * rate == 100 * (a * whole);
    }
    if refunds != [] {
      WholeRatesAddUp(refunds[..|refunds| - 1], rate);
    }
  }

  lemma {:induction false} Units(n: nat, rate: nat)
    ensures SumBy(seq(n, _ => 1), Self) == n
    ensures SumBy(seq(n, _ => 1), Converted(rate)) == n * Convert(1, rate)
  {
    if n > 0 {
      var ones := seq(n, _ => 1);
      assert ones[..n - 1] == seq(n - 1, _ => 1);
      Units(n - 1, rate);
    }
  }

  lemma UnitsDrift(rate: nat)
    requires rate % 100 != 0
    ensures 100 * Convert(1, rate) != Convert(100, rate)
  {
  }

  lemma HundredUnitsDrift(ones: seq<int>, rate: nat)
    requires rate % 100 != 0
    requires SumBy(ones, Self) == 100 && SumBy(ones, Converted(rate)) == 100 * Convert(1, rate)
    ensures SumBy(ones, Converted(rate)) != Convert(SumBy(ones, Self), rate)
  {
    UnitsDrift(rate);
  }

  lemma WholeNeverDrifts(refunds: seq<int>, currency: string, rate: nat)
    requires rate == Rate(Upper(currency)) && rate % 100 == 0
    ensures SumBy(refunds, AtGateway(currency)) == ToGatewayAmount(SumBy(refunds, Self), currency)
  {
    AtGatewayConverts(refunds, currency);
    GatewayAmountConverts(SumBy(refunds, Self), currency);
    WholeRatesAddUp(refunds, rate);
  }

  /** Partial refunds always add up to the charge exactly when the currency's rate is a whole number. */
  lemma DriftsExactlyUnlessWhole(currency: string, rate: nat)
    requires rate == Rate(Upper(currency))
    ensures NeverDrifts(currency) <==> rate % 100 == 0
  {
    if rate % 100 == 0 {
      forall refunds: seq<int>
        ensures SumBy(refunds, AtGateway(currency)) == ToGatewayAmount(SumBy(refunds, Self), currency)
      {
        WholeNeverDrifts(refunds, currency, rate);
      }
    } else {
      var ones := seq(100, _ => 1);
      Units(100, rate);
      HundredUnitsDrift(ones, rate);
      AtGatewayConverts(ones, currency);
      GatewayAmountConverts(SumBy(ones, Self), currency);
    }
  }

  /** Rounding can even return more at the gateway than was charged there: 4 yen in two halves. */
  lemma HalvesCanExceedTheCharge()
    ensures SumBy([2, 2], AtGateway("JPY")) == 2 > ToGatewayAmount(4, "JPY")
  {
    assert [2, 2][..1] == [2];
    AtGatewayConverts([2, 2], "JPY");
    SumOne(2, Converted(35));
    assert Upper("JPY") == "JPY";
  }

  // The currencies themselves.

  predicate SameLetter(a: char, b: char) {
    a == b || ('a' <= a <= 'z' && b as int == a as int - 32) || ('a' <= b <= 'z' && a as int == b as int - 32)
  }

  /** Codes are read without regard to case. */
  lemma CaseDoesNotMatter(amount: int, a: string, b: string)
    requires |a| == |b| && forall i :: 0 <= i < |a| ==> SameLetter(a[i], b[i])
    ensures ToGatewayAmount(amount, a) == ToGatewayAmount(amount, b)
  {
    assert Upper(a) == Upper(b);
  }

  predicate Fractional(code: string) {
    || code == "SAR" || code == "AED" || code == "QAR" || code == "BHD" || code == "JOD" || code == "CAD"
    || code == "JPY" || code == "INR" || code == "TRY"
  }

  lemma RateIsWhole(code: string)
    ensures Rate(code) % 100 == 0 <==> !Fractional(code)
  {
  }

  /** The currencies whose partial refunds need not add up. */
  lemma CurrenciesThatDrift(currency: string)
    ensures NeverDrifts(currency) <==> !Fractional(Upper(currency))
  {
    RateIsWhole(Upper(currency));
    DriftsExactlyUnlessWhole(currency, Rate(Upper(currency)));
  }

  /** A hundred units of the dearest and of the cheapest currency bound those of every other. */
  lemma RatesAreBounded(currency: string)
    ensures ToGatewayAmount(100, "JPY") == 35 <= ToGatewayAmount(100, currency) <= ToGatewayAmount(100, "KWD") == 16300
  {
    assert Upper("JPY") == "JPY" && Upper("KWD") == "KWD";
    GatewayAmountConverts(100, currency);
  }

  lemma DearCurrencies()
    ensures Rate("KWD") > Rate("BHD") > Rate("OMR") > Rate("JOD") > Rate("GBP") > Rate("CHF") > Rate("EUR")
  {
  }

  lemma MiddlingCurrencies()
    ensures Rate("EUR") > Rate("USD") > Rate("CAD") > Rate("AUD") > Rate("QAR") > Rate("AED") > Rate("SAR")
  {
  }

  lemma CheapCurrencies()
    ensures Rate("SAR") > Rate("TRY") > Rate("EGP") > Rate("INR") > Rate("JPY")
  {
  }

  predicate Listed(code: string) {
    || Fractional(code) || code == "EGP" || code == "USD" || code == "EUR" || code == "GBP" || code == "KWD"
    || code == "OMR" || code == "AUD" || code == "CHF"
  }

  /** A currency that is not listed counts as dollars. */
  lemma UnlistedCountsAsDollars(amount: int, currency: string)
    requires !Listed(Upper(currency))
    ensures ToGatewayAmount(amount, currency) == ToGatewayAmount(amount, "USD")
  {
    assert Upper("USD") == "USD";
    GatewayAmountConverts(amount, currency);
    GatewayAmountConverts(amount, "USD");
  }
}
