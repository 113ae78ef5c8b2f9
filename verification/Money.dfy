/** Amounts as decimal strings and as minor units, with exact decimals in place of floating point. */
module Money {
  import opened Support
  import opened GatewayAmounts

  function DecimalsOf(code: string): nat {
    if code == "JPY" || code == "KRW" || code == "HUF" then 0
    else if code == "KWD" || code == "BHD" || code == "OMR" || code == "JOD" || code == "LYD" then 3
    else 2
  }

  function DecimalsForCurrency(currency: string): nat {
    DecimalsOf(Upper(currency))
  }

  function Pow10(k: nat): (p: nat)
    ensures p > 0
  {
    if k == 0 then 1 else 10 * Pow10(k - 1)
  }

  // Digits.

  predicate IsDigit(c: char) {
    '0' <= c <= '9'
  }

  predicate AllDigits(s: string) {
    forall i :: 0 <= i < |s| ==> IsDigit(s[i])
  }

  function DigitValue(c: char): (v: nat)
    requires IsDigit(c)
    ensures v < 10
  {
    c as int - '0' as int
  }

  function DigitOf(v: nat): (c: char)
    requires v < 10
    ensures IsDigit(c) && DigitValue(c) == v
  {
    ('0' as int + v) as char
  }

  function Number(s: string): nat
    requires AllDigits(s)
  {
    if s == [] then 0 else 10 * Number(s[..|s| - 1]) + DigitValue(s[|s| - 1])
  }

  /** A whole number without leading zeros. */
  function Whole(n: nat): string {
    if n < 10 then [DigitOf(n)] else Whole(n / 10) + [DigitOf(n % 10)]
  }

  /** The last `width` digits of a number, padded with zeros. */
  function Padded(n: nat, width: nat): string {
    if width == 0 then [] else Padded(n / 10, width - 1) + [DigitOf(n % 10)]
  }

  // Printing: amount / 10^decimals with exactly that many decimals.

  function Point(fraction: string): string {
    if fraction == [] then [] else ['.'] + fraction
  }

  function Sign(negative: bool): string {
    if negative then ['-'] else []
  }

  function Written(negative: bool, whole: string, fraction: string): string {
    Sign(negative) + (whole + Point(fraction))
  }

  function Quotient(a: nat, unit: nat): nat
    requires unit > 0
  {
    a / unit
  }

  function WholeOf(size: nat, decimals: nat): string {
    Whole(Quotient(size, Pow10(decimals)))
  }

  function FractionOf(size: nat, decimals: nat): string {
    Padded(size % Pow10(decimals), decimals)
  }

  function Size(amountMinor: int): nat {
    if amountMinor < 0 then -amountMinor else amountMinor
  }

  function Print(amountMinor: int, decimals: nat): string {
    Written(amountMinor < 0, WholeOf(Size(amountMinor), decimals), FractionOf(Size(amountMinor), decimals))
  }

  function ToMajorUnitsString(amountMinor: int, currency: string): string {
    Print(amountMinor, DecimalsForCurrency(currency))
  }

  // Parsing: the longest number a string starts with, scaled and rounded half up.

  function Digits(s: string): (r: string)
    ensures AllDigits(r) && r <= s
  {
    if s == [] || !IsDigit(s[0]) then [] else [s[0]] + Digits(s[1..])
  }

  function Unsigned(s: string): string {
    if s != [] && (s[0] == '-' || s[0] == '+') then s[1..] else s
  }

  function Fraction(s: string): (r: string)
    ensures AllDigits(r)
  {
    if s != [] && s[0] == '.' then Digits(s[1..]) else []
  }

  /** A decimal as an integer over a power of ten; None stands for a NaN. */
  datatype Decimal = Decimal(numerator: int, scale: nat)

  function ParseUnsigned(s: string): Option<Decimal> {
    var whole := Digits(s);
    var fraction := Fraction(s[|whole|..]);
    if whole + fraction == [] then None else Some(Decimal(Number(whole + fraction), |fraction|))
  }

  function Signed(negative: bool, size: int): int {
    if negative then -size else size
  }

  function ParseFloat(s: string): Option<Decimal> {
    match ParseUnsigned(Unsigned(s))
    case None => None
    case Some(d) => Some(d.(numerator := Signed(s != [] && s[0] == '-', d.numerator)))
  }

  function RoundHalfUp(numerator: int, denominator: int): int
    requires denominator > 0
  {
    (2 * numerator + denominator) / (2 * denominator)
  }

  function Parse(amount: string, decimals: nat): Option<int> {
    match ParseFloat(amount)
    case None => None
    case Some(d) => Some(RoundHalfUp(d.numerator * Pow10(decimals), Pow10(d.scale)))
  }

  function ToMinorUnits(amount: string, currency: string): Option<int> {
    Parse(amount, DecimalsForCurrency(currency))
  }

  /** No leading zeros, and exactly the decimals of the currency. */
  predicate CanonicalParts(whole: string, fraction: string, decimals: nat) {
    && AllDigits(whole) && AllDigits(fraction)
    && whole != [] && (whole[0] == '0' ==> |whole| == 1)
    && |fraction| == decimals
  }

  predicate CanonicallyWritten(s: string, decimals: nat, negative: bool, whole: string, fraction: string) {
    && CanonicalParts(whole, fraction, decimals)
    && s == Written(negative, whole, fraction)
    && (negative ==> Number(whole + fraction) > 0)
  }

  /** The form the supplier writes its totals in, with a sign only on a nonzero amount. */
  ghost predicate Canonical(s: string, decimals: nat) {
    exists negative: bool, whole: string, fraction: string :: CanonicallyWritten(s, decimals, negative, whole, fraction)
  }

  // Digits and numbers undo each other.

  lemma TimesTen(x: int, p: int)
    ensures x * (10 * p) == 10 * (x * p)
  {
  }

  lemma {:induction false} NumberConcat(a: string, b: string)
    requires AllDigits(a) && AllDigits(b)
    ensures Number(a + b) == Number(a) * Pow10(|b|) + Number(b)
  {
    if b == [] {
      assert a + b == a;
    } else {
      var n := |b| - 1;
      assert (a + b)[..|a| + n] == a + b[..n];
      NumberConcat(a, b[..n]);
      TimesTen(Number(a), Pow10(n));
      assert a + b == (a + b[..n]) + [b[n]];
    }
  }

  lemma {:induction false} NumberBound(s: string)
    requires AllDigits(s)
    ensures Number(s) < Pow10(|s|)
  {
    if s != [] {
      NumberBound(s[..|s| - 1]);
    }
  }

  lemma {:induction false} WholeReadsBack(n: nat)
    ensures AllDigits(Whole(n)) && Number(Whole(n)) == n
    ensures Whole(n) != [] && (Whole(n)[0] == '0' ==> n == 0 && |Whole(n)| == 1)
  {
    if n >= 10 {
      WholeReadsBack(n / 10);
    } else {
      assert Whole(n)[..0] == [];
    }
  }

  lemma {:induction false} PaddedReadsBack(n: nat, width: nat)
    requires n < Pow10(width)
    ensures AllDigits(Padded(n, width)) && |Padded(n, width)| == width && Number(Padded(n, width)) == n
  {
    if width > 0 {
      PaddedReadsBack(n / 10, width - 1);
    }
  }

  lemma WholeOfDigit(s: string)
    requires AllDigits(s) && |s| == 1
    ensures Whole(Number(s)) == s && Number(s) == DigitValue(s[0])
  {
    assert s[..0] == [] && s == [s[0]];
  }

  lemma WholeOfTen(q: nat, v: nat)
    requires q > 0 && v < 10
    ensures Whole(10 * q + v) == Whole(q) + [DigitOf(v)]
  {
    assert (10 * q + v) / 10 == q && (10 * q + v) % 10 == v;
  }

  lemma {:induction false} WholeWritesBack(s: string)
    requires AllDigits(s) && s != [] && (s[0] == '0' ==> |s| == 1)
    ensures Whole(Number(s)) == s
    ensures |s| > 1 ==> Number(s) >= 10
  {
    var n := |s| - 1;
    if n == 0 {
      WholeOfDigit(s);
    } else {
      if n == 1 {
        WholeOfDigit(s[..1]);
      } else {
        WholeWritesBack(s[..n]);
      }
      WholeOfTen(Number(s[..n]), DigitValue(s[n]));
      assert s == s[..n] + [s[n]];
    }
  }

  lemma {:induction false} PaddedWritesBack(s: string)
    requires AllDigits(s)
    ensures Padded(Number(s), |s|) == s
  {
    if s != [] {
      var n := |s| - 1;
      PaddedWritesBack(s[..n]);
      assert s == s[..n] + [s[n]];
    }
  }

  // Reading what was written.

  lemma {:induction false} DigitsOf(whole: string, rest: string)
    requires AllDigits(whole) && (rest == [] || !IsDigit(rest[0]))
    ensures Digits(whole + rest) == whole
  {
    if whole == [] {
      assert whole + rest == rest;
    } else {
      assert (whole + rest)[1..] == whole[1..] + rest;
      DigitsOf(whole[1..], rest);
    }
  }

  lemma FractionWritten(fraction: string)
    requires AllDigits(fraction)
    ensures Fraction(Point(fraction)) == fraction
    ensures Point(fraction) == [] || !IsDigit(Point(fraction)[0])
  {
    if fraction != [] {
      assert Point(fraction)[1..] == fraction + [];
      DigitsOf(fraction, []);
    }
  }

  lemma ParseUnsignedWritten(whole: string, fraction: string)
    requires AllDigits(whole) && AllDigits(fraction) && whole != []
    ensures ParseUnsigned(whole + Point(fraction)) == Some(Decimal(Number(whole + fraction), |fraction|))
  {
    FractionWritten(fraction);
    DigitsOf(whole, Point(fraction));
    assert (whole + Point(fraction))[|whole|..] == Point(fraction);
  }

  lemma SignWritten(negative: bool, rest: string)
    requires rest != [] && IsDigit(rest[0])
    ensures Unsigned(Sign(negative) + rest) == rest
    ensures Sign(negative) + rest != [] && (negative <==> (Sign(negative) + rest)[0] == '-')
  {
    if !negative {
      assert Sign(negative) + rest == rest;
    } else {
      assert (Sign(negative) + rest)[1..] == rest;
    }
  }

  lemma ParseWritten(negative: bool, whole: string, fraction: string)
    requires AllDigits(whole) && AllDigits(fraction) && whole != []
    ensures ParseFloat(Written(negative, whole, fraction)) ==
            Some(Decimal(Signed(negative, Number(whole + fraction)), |fraction|))
  {
    ParseUnsignedWritten(whole, fraction);
    SignWritten(negative, whole + Point(fraction));
  }

  lemma RoundingExact(n: int, p: int)
    requires p > 0
    ensures RoundHalfUp(n * p, p) == n
  {
    assert 2 * (n * p) + p == n * (2 * p) + p;
    DivideBack(n, p, 2 * p);
  }

  lemma DivideBack(q: int, r: int, d: int)
    requires 0 <= r < d
    ensures (q * d + r) / d == q && (q * d + r) % d == r
  {
    var x := q * d + r;
    var e := x / d - q;
    assert x == d * (x / d) + x % d;
    assert d * e == r - x % d;
    assert e >= 1 ==> d * e >= d;
    assert e <= -1 ==> d * e <= -d;
  }

  lemma ReadWritten(negative: bool, whole: string, fraction: string)
    requires AllDigits(whole) && AllDigits(fraction) && whole != []
    ensures Parse(Written(negative, whole, fraction), |fraction|) == Some(Signed(negative, Number(whole + fraction)))
  {
    ParseWritten(negative, whole, fraction);
    RoundingExact(Signed(negative, Number(whole + fraction)), Pow10(|fraction|));
  }

  lemma Splits(size: nat, unit: nat)
    requires unit > 0
    ensures Quotient(size, unit) * unit + size % unit == size && size % unit < unit
  {
  }

  lemma PartsReadBack(size: nat, decimals: nat)
    ensures var whole, fraction := WholeOf(size, decimals), FractionOf(size, decimals);
            && CanonicalParts(whole, fraction, decimals)
            && Number(whole + fraction) == size
  {
    Splits(size, Pow10(decimals));
    WritingSplit(Quotient(size, Pow10(decimals)), size % Pow10(decimals), decimals, size);
  }

  lemma WritingSplit(q: nat, r: nat, decimals: nat, size: nat)
    requires r < Pow10(decimals) && q * Pow10(decimals) + r == size
    ensures CanonicalParts(Whole(q), Padded(r, decimals), decimals)
    ensures Number(Whole(q) + Padded(r, decimals)) == size
  {
    WholeReadsBack(q);
    PaddedReadsBack(r, decimals);
    NumberConcat(Whole(q), Padded(r, decimals));
  }

  lemma SplitsBack(q: nat, r: nat, unit: nat, size: nat)
    requires r < unit && size == q * unit + r
    ensures Quotient(size, unit) == q && size % unit == r
  {
    DivideBack(q, r, unit);
  }

  lemma PartsWriteBack(whole: string, fraction: string, decimals: nat)
    requires CanonicalParts(whole, fraction, decimals)
    ensures WholeOf(Number(whole + fraction), decimals) == whole
    ensures FractionOf(Number(whole + fraction), decimals) == fraction
  {
    NumberConcat(whole, fraction);
    NumberBound(fraction);
    SplitsBack(Number(whole), Number(fraction), Pow10(decimals), Number(whole + fraction));
    WholeWritesBack(whole);
    PaddedWritesBack(fraction);
  }

  lemma ParseUndoesPrint(amountMinor: int, decimals: nat)
    ensures Parse(Print(amountMinor, decimals), decimals) == Some(amountMinor)
    ensures Canonical(Print(amountMinor, decimals), decimals)
  {
    PartsReadBack(Size(amountMinor), decimals);
    ReadWritten(amountMinor < 0, WholeOf(Size(amountMinor), decimals), FractionOf(Size(amountMinor), decimals));
    assert CanonicallyWritten(Print(amountMinor, decimals), decimals, amountMinor < 0,
                              WholeOf(Size(amountMinor), decimals), FractionOf(Size(amountMinor), decimals));
  }

  lemma SignedPrints(negative: bool, size: nat, decimals: nat)
    requires negative ==> size > 0
    ensures Print(Signed(negative, size), decimals) ==
            Written(negative, WholeOf(size, decimals), FractionOf(size, decimals))
  {
    assert Size(Signed(negative, size)) == size;
  }

  lemma WrittenPrintsBack(negative: bool, whole: string, fraction: string, size: nat)
    requires CanonicalParts(whole, fraction, |fraction|) && size == Number(whole + fraction)
    requires negative ==> size > 0
    ensures var amount := Written(negative, whole, fraction);
            && Parse(amount, |fraction|) == Some(Signed(negative, size))
            && Print(Signed(negative, size), |fraction|) == amount
  {
    ReadWritten(negative, whole, fraction);
    PartsWriteBack(whole, fraction, |fraction|);
    SignedPrints(negative, size, |fraction|);
  }

  lemma PrintUndoesParse(amount: string, decimals: nat)
    requires Canonical(amount, decimals)
    ensures Parse(amount, decimals).Some?
    ensures Print(Parse(amount, decimals).value, decimals) == amount
  {
    var negative: bool, whole: string, fraction: string :|
      CanonicallyWritten(amount, decimals, negative, whole, fraction);
    WrittenPrintsBack(negative, whole, fraction, Number(whole + fraction));
  }

  // By currency.

  /** Every amount printed in its currency reads back as itself. */
  lemma ParsingUndoesPrinting(amountMinor: int, currency: string)
    ensures ToMinorUnits(ToMajorUnitsString(amountMinor, currency), currency) == Some(amountMinor)
  {
    ParseUndoesPrint(amountMinor, DecimalsForCurrency(currency));
  }

  /** An order repeats the offer's own total exactly when the offer wrote it in the currency's form. */
  lemma OrderRepeatsTheTotalIffCanonical(amount: string, currency: string)
    requires ToMinorUnits(amount, currency).Some?
    ensures ToMajorUnitsString(ToMinorUnits(amount, currency).value, currency) == amount
       <==> Canonical(amount, DecimalsForCurrency(currency))
  {
    ParseUndoesPrint(ToMinorUnits(amount, currency).value, DecimalsForCurrency(currency));
    if Canonical(amount, DecimalsForCurrency(currency)) {
      PrintUndoesParse(amount, DecimalsForCurrency(currency));
    }
  }

  /** With other decimals a total still reads as the nearest minor unit, halves upwards. */
  lemma ReadingIsNearest(amount: string, currency: string)
    requires ParseFloat(amount).Some?
    ensures var d := ParseFloat(amount).value;
            var exact: int := d.numerator * Pow10(DecimalsForCurrency(currency));
            var unit: int := Pow10(d.scale);
            && ToMinorUnits(amount, currency).Some?
            && -unit < 2 * (ToMinorUnits(amount, currency).value * unit - exact) <= unit
  {
    var d := ParseFloat(amount).value;
    RoundingIsNearest(d.numerator * Pow10(DecimalsForCurrency(currency)), Pow10(d.scale));
  }

  lemma RoundingIsNearest(exact: int, p: int)
    requires p > 0
    ensures -p < 2 * (RoundHalfUp(exact, p) * p - exact) <= p
  {
    var x, read := 2 * exact + p, RoundHalfUp(exact, p);
    assert x == 2 * p * read + x % (2 * p);
    assert 2 * p * read == 2 * (read * p);
  }

  lemma OneIsNumber()
    ensures ParseFloat("1") == Some(Decimal(1, 0))
  {
    assert Sign(false) + ("1" + Point([])) == "1" && "1" + [] == "1" && "1"[..0] == [];
    assert Number("1") == 1;
    ParseWritten(false, "1", []);
  }

  lemma OneReads(decimals: nat)
    ensures Parse("1", decimals) == Some(Pow10(decimals))
  {
    OneIsNumber();
    RoundingExact(Pow10(decimals), 1);
  }

  /** One of a currency is one, a thousand or, as a rule, a hundred of its minor units. */
  lemma OneInMinorUnits(currency: string)
    ensures var code, one := Upper(currency), ToMinorUnits("1", currency);
            && (one == Some(1) <==> code == "JPY" || code == "KRW" || code == "HUF")
            && (one == Some(1000) <==>
                  code == "KWD" || code == "BHD" || code == "OMR" || code == "JOD" || code == "LYD")
            && one in {Some(1), Some(100), Some(1000)}
  {
    OneReads(DecimalsForCurrency(currency));
    assert Pow10(1) == 10 && Pow10(2) == 100 && Pow10(3) == 1000;
  }
}
