/** Exact money arithmetic (internal/accounting/pricing.go). */
module Pricing {
  import opened Common

  const MICRO_USD_PER_USD: U64 := 1_000_000
  const TOKENS_PER_MILLION: U64 := 1_000_000
  const HALF_MILLION: U64 := 500_000

  /** Token counts reported by a provider; each one may be missing. */
  datatype Usage = Usage(input: Option<U64>, output: Option<U64>, total: Option<U64>)

  datatype Rates = Rates(input: Option<U64>, output: Option<U64>)

  const NO_RATES := Rates(None, None)

  datatype Key = Key(provider: string, model: string)

  // ---------------------------------------------------------------- cost

  /** checkedMultiply: the product when it fits in 64 bits, never a wrapped one. */
  function CheckedMultiply(left: U64, right: U64): (r: Option<U64>)
    ensures r == if left * right <= MAX_U64 then Some(left * right) else None
  {
    if left != 0 && right > MAX_U64 / left then
      ProductTooLarge(left, right);
      None
    else
      ProductFits(left, right);
      Some(Mul64(left, right))
  }

  lemma ProductTooLarge(left: U64, right: U64)
    requires left != 0 && right > MAX_U64 / left
    ensures left * right > MAX_U64
  {
    var q := MAX_U64 / left;
    assert left * q + MAX_U64 % left == MAX_U64;
    assert left * right >= left * (q + 1) by { MulMonotone(left, q + 1, right); }
    assert left * (q + 1) == left * q + left;
  }

  lemma ProductFits(left: U64, right: U64)
    requires left == 0 || right <= MAX_U64 / left
    ensures 0 <= left * right <= MAX_U64
    ensures Mul64(left, right) == left * right
  {
    if left != 0 {
      var q := MAX_U64 / left;
      assert left * q + MAX_U64 % left == MAX_U64;
      MulMonotone(left, right, q);
    }
    var product := left * right;
    assert product % TWO_64 == product by { assert 0 <= product < TWO_64; }
  }

  lemma MulMonotone(a: nat, b: int, c: int)
    requires b <= c
    ensures a * b <= a * c
  {
  }

  /** A provider reported all three counts and they add up within 64 bits. */
  predicate Consistent(u: Option<Usage>)
  {
    && u.Some? && u.value.input.Some? && u.value.output.Some? && u.value.total.Some?
    && u.value.total.value == u.value.input.value + u.value.output.value
  }

  predicate Priced(r: Rates) { r.input.Some? && r.output.Some? }

  /** The cost in micro-USD times one million, with nothing lost. */
  function ExactNumerator(u: Option<Usage>, r: Rates): nat
    requires Consistent(u) && Priced(r)
  {
    u.value.input.value * r.input.value + u.value.output.value * r.output.value
  }

  /** The cost n/10^6 is the numerator divided by one million, rounded half up. */
  predicate RoundsHalfUp(numerator: int, cost: int)
  {
    2 * numerator - TOKENS_PER_MILLION < 2 * cost * TOKENS_PER_MILLION <= 2 * numerator + TOKENS_PER_MILLION
  }

  /** The tail of EstimateMicroUSD: add two costs and round, without wrapping. */
  function AddAndRound(inputCost: U64, outputCost: U64): (cost: Option<U64>)
    ensures cost.Some? <==> inputCost + outputCost + HALF_MILLION <= MAX_U64
    ensures cost.Some? ==> RoundsHalfUp(inputCost + outputCost, cost.value)
  {
    if inputCost > MAX_U64 - outputCost then None
    else
      var numerator := Add64(inputCost, outputCost);
      if numerator > MAX_U64 - HALF_MILLION then None
      else Some(Add64(numerator, HALF_MILLION) / TOKENS_PER_MILLION)
  }

  /** EstimateMicroUSD. An estimate exists exactly when the usage is complete and
      consistent, both rates are known and the rounded exact numerator fits in 64
      bits; it is then the exact cost rounded half up. */
  function EstimateMicroUSD(u: Option<Usage>, r: Rates): (cost: Option<U64>)
    ensures cost.Some? <==> Consistent(u) && Priced(r) && ExactNumerator(u, r) + HALF_MILLION <= MAX_U64
    ensures cost.Some? ==> RoundsHalfUp(ExactNumerator(u, r), cost.value)
  {
    if u.None? || u.value.input.None? || u.value.output.None? || u.value.total.None? || r.input.None? || r.output.None? then
      None
    else
      var input, output, total := u.value.input.value, u.value.output.value, u.value.total.value;
      if input > MAX_U64 - output || total != Add64(input, output) then
        None
      else
        var inputCost := CheckedMultiply(input, r.input.value);
        if inputCost.None? then None
        else
          var outputCost := CheckedMultiply(output, r.output.value);
          if outputCost.None? then None
          else AddAndRound(inputCost.value, outputCost.value)
  }

  // ------------------------------------------------------------- parsing

  predicate IsDigit(c: char) { '0' <= c <= '9' }

  predicate AllDigits(s: string) { forall i :: 0 <= i < |s| ==> IsDigit(s[i]) }

  /** The number a string of digits denotes; the empty string denotes zero. */
  function NatOf(s: string): nat
    requires AllDigits(s)
  {
    if s == [] then 0 else NatOf(s[..|s| - 1]) * 10 + (s[|s| - 1] as int - '0' as int)
  }

  /** The code points strings.TrimSpace removes at either end. */
  predicate IsSpace(c: char)
  {
    || '\t' <= c <= '\r' || c == ' ' || c == '\U{85}' || c == '\U{A0}' || c == '\U{1680}'
    || '\U{2000}' <= c <= '\U{200A}' || c == '\U{2028}' || c == '\U{2029}'
    || c == '\U{202F}' || c == '\U{205F}' || c == '\U{3000}'
  }

  function TrimLeft(s: string): (r: string)
    ensures r != [] ==> !IsSpace(r[0])
    ensures |r| <= |s|
  {
    if s != [] && IsSpace(s[0]) then TrimLeft(s[1..]) else s
  }

  function TrimSpace(s: string): (r: string)
    decreases |s|
    ensures r != [] ==> !IsSpace(r[0]) && !IsSpace(r[|r| - 1])
  {
    var t := TrimLeft(s);
    if t != [] && IsSpace(t[|t| - 1]) then TrimSpace(t[..|t| - 1]) else t
  }

  /** strings.Split at '.'. */
  function SplitDots(s: string): (parts: seq<string>)
    ensures |parts| > 0
  {
    if s == [] then [[]]
    else
      var rest := SplitDots(s[1..]);
      if s[0] == '.' then [[]] + rest else [[s[0]] + rest[0]] + rest[1..]
  }

  /** strconv.ParseUint in base ten with 64 bits. */
  function ParseUint(s: string): Option<U64>
  {
    if s == [] || !AllDigits(s) || NatOf(s) > MAX_U64 then None else Some(NatOf(s))
  }

  /** The zeros that bring a fraction to six places. */
  function Zeros(n: nat): (r: string)
    ensures |r| == n && AllDigits(r)
  {
    if n == 0 then "" else Zeros(n - 1) + "0"
  }

  /** The tail of ParseUSDPerMillion: both halves read, combined without wrapping. */
  function CombinePrice(whole: U64, fraction: U64): (r: Option<U64>)
    ensures r == if whole * 1_000_000 + fraction <= MAX_U64 then Some(whole * 1_000_000 + fraction) else None
  {
    if whole > MAX_U64 / MICRO_USD_PER_USD then None
    else
      var base := Mul64(whole, MICRO_USD_PER_USD);
      if base > MAX_U64 - fraction then None else Some(Add64(base, fraction))
  }

  function ParseParts(parts: seq<string>): Option<U64>
    requires |parts| > 0
  {
    if |parts| > 2 || (parts[0] == "" && (|parts| == 1 || parts[1] == "")) then None
    else
      var whole := ParseUint(if parts[0] == "" then "0" else parts[0]);
      var given := if |parts| == 2 then parts[1] else "";
      if whole.None? || |given| > 6 then None
      else
        var fraction := ParseUint(given + Zeros(6 - |given|));
        if fraction.None? then None else CombinePrice(whole.value, fraction.value)
  }

  function ParsePrice(text: string): Option<U64>
  {
    var value := TrimSpace(text);
    if value == "" || value[0] == '-' || value[0] == '+' then None else ParseParts(SplitDots(value))
  }

  /** The padding loop of ParseUSDPerMillion. */
  method PadFraction(given: string) returns (text: string)
    requires |given| <= 6
    ensures text == given + Zeros(6 - |given|)
  {
    text := given;
    while |text| < 6
      invariant |given| <= |text| <= 6
      invariant text == given + Zeros(|text| - |given|)
    {
      ZerosSnoc(given, |text| - |given|);
      text := text + "0";
    }
  }

  lemma ZerosSnoc(given: string, n: nat)
    ensures given + Zeros(n) + "0" == given + Zeros(n + 1)
  {
  }

  /** ParseUSDPerMillion. */
  method ParseUSDPerMillion(text: string) returns (r: Option<U64>)
    ensures r == ParsePrice(text)
  {
    var value := TrimSpace(text);
    if value == "" || value[0] == '-' || value[0] == '+' { return None; }
    var parts := SplitDots(value);
    if |parts| > 2 || (parts[0] == "" && (|parts| == 1 || parts[1] == "")) { return None; }
    var wholeText := parts[0];
    if wholeText == "" { wholeText := "0"; }
    var whole := ParseUint(wholeText);
    if whole.None? { return None; }
    var given := if |parts| == 2 then parts[1] else "";
    if |given| > 6 { return None; }
    var fractionText := PadFraction(given);
    var fraction := ParseUint(fractionText);
    if fraction.None? { return None; }
    r := CombinePrice(whole.value, fraction.value);
  }

  /** The texts a price may have: whole digits, optionally a point and at most six
      fraction digits, at least one digit in all. */
  ghost predicate Writes(text: string, whole: string, fraction: string)
  {
    && AllDigits(whole) && AllDigits(fraction) && |fraction| <= 6 && |whole| + |fraction| > 0
    && (text == whole + "." + fraction || (fraction == "" && text == whole))
  }

  function Power10(n: nat): nat { if n == 0 then 1 else 10 * Power10(n - 1) }

  /** The denoted amount in micro-USD: the decimal times ten to the sixth. */
  function MicroValue(whole: string, fraction: string): nat
    requires AllDigits(whole) && AllDigits(fraction) && |fraction| <= 6
  {
    NatOf(whole) * 1_000_000 + NatOf(fraction) * Power10(6 - |fraction|)
  }

  lemma TimesTen(a: nat, b: nat)
    ensures (a * b) * 10 == a * (10 * b)
  {
  }

  lemma {:induction false} NatOfZeros(s: string, n: nat)
    requires AllDigits(s)
    ensures AllDigits(s + Zeros(n))
    ensures NatOf(s + Zeros(n)) == NatOf(s) * Power10(n)
  {
    if n == 0 {
      assert s + Zeros(0) == s;
    } else {
      var longer := s + Zeros(n);
      assert longer[..|longer| - 1] == s + Zeros(n - 1);
      NatOfZeros(s, n - 1);
      TimesTen(NatOf(s), Power10(n - 1));
    }
  }

  lemma {:induction false} NatOfBelowPower(s: string)
    requires AllDigits(s)
    ensures NatOf(s) < Power10(|s|)
  {
    if s != [] {
      NatOfBelowPower(s[..|s| - 1]);
    }
  }

  lemma {:induction false} SplitAtDot(whole: string, fraction: string)
    requires '.' !in whole && '.' !in fraction
    ensures SplitDots(whole + "." + fraction) == [whole, fraction]
    ensures SplitDots(whole) == [whole]
  {
    var text := whole + "." + fraction;
    if whole == [] {
      assert text[1..] == fraction;
      NoDotSplit(fraction);
    } else {
      assert text[1..] == whole[1..] + "." + fraction;
      SplitAtDot(whole[1..], fraction);
      assert [whole[0]] + whole[1..] == whole;
    }
  }

  lemma {:induction false} NoDotSplit(s: string)
    requires '.' !in s
    ensures SplitDots(s) == [s]
  {
    if s != [] {
      NoDotSplit(s[1..]);
      assert [s[0]] + s[1..] == s;
    }
  }

  /** Splitting loses nothing: the parts hold no point and joined again are the text. */
  lemma {:induction false} SplitInverts(s: string)
    ensures |SplitDots(s)| == 1 ==> SplitDots(s)[0] == s
    ensures |SplitDots(s)| == 2 ==> SplitDots(s)[0] + "." + SplitDots(s)[1] == s
  {
    if s != [] {
      SplitInverts(s[1..]);
      var rest := SplitDots(s[1..]);
      assert s == [s[0]] + s[1..];
      if |SplitDots(s)| == 2 {
        if s[0] == '.' {
          assert SplitDots(s) == [[], rest[0]];
        } else {
          assert SplitDots(s)[0] + "." + SplitDots(s)[1] == [s[0]] + (rest[0] + "." + rest[1]);
        }
      }
    }
  }

  lemma TrimIsIdentityInside(s: string)
    requires s != [] ==> !IsSpace(s[0]) && !IsSpace(s[|s| - 1])
    ensures TrimSpace(s) == s
  {
  }

  lemma SixDigitsBelowMillion(s: string)
    requires AllDigits(s) && |s| == 6
    ensures NatOf(s) < 1_000_000
  {
    NatOfBelowPower(s);
    assert Power10(6) == 1_000_000;
  }

  lemma ReadsFraction(fraction: string)
    requires AllDigits(fraction) && |fraction| <= 6
    ensures var padded := fraction + Zeros(6 - |fraction|);
            && AllDigits(padded)
            && ParseUint(padded) == Some(NatOf(padded))
            && NatOf(padded) < 1_000_000
            && NatOf(padded) == NatOf(fraction) * Power10(6 - |fraction|)
  {
    var padded := fraction + Zeros(6 - |fraction|);
    NatOfZeros(fraction, 6 - |fraction|);
    SixDigitsBelowMillion(padded);
  }

  lemma ReadsWhole(whole: string)
    requires AllDigits(whole)
    ensures ParseUint(if whole == "" then "0" else whole) == if NatOf(whole) <= MAX_U64 then Some(NatOf(whole)) else None
  {
    if whole == "" {
      assert "0"[..0] == "";
    }
  }

  lemma PriceOfParts(parts: seq<string>, whole: string, fraction: string)
    requires AllDigits(whole) && AllDigits(fraction) && |fraction| <= 6 && |whole| + |fraction| > 0
    requires parts == [whole, fraction] || (fraction == "" && parts == [whole])
    ensures ParseParts(parts) ==
            if MicroValue(whole, fraction) <= MAX_U64 then Some(MicroValue(whole, fraction)) else None
  {
    ReadsWhole(whole);
    ReadsFraction(fraction);
  }

  /** A well-formed price is accepted exactly when it fits in 64 bits of micro-USD,
      and is then read exactly. */
  lemma WellFormedPrice(text: string, whole: string, fraction: string)
    requires Writes(text, whole, fraction)
    ensures ParsePrice(text) ==
            if MicroValue(whole, fraction) <= MAX_U64 then Some(MicroValue(whole, fraction)) else None
  {
    assert text != [] && !IsSpace(text[0]) && !IsSpace(text[|text| - 1]);
    TrimIsIdentityInside(text);
    SplitAtDot(whole, fraction);
    PriceOfParts(SplitDots(text), whole, fraction);
  }

  predicate AllSpaces(s: string) { forall i :: 0 <= i < |s| ==> IsSpace(s[i]) }

  lemma {:induction false} TrimLeftSkips(left: string, s: string)
    requires AllSpaces(left) && (s != [] ==> !IsSpace(s[0]))
    ensures TrimLeft(left + s) == s
  {
    if left == [] {
      assert left + s == s;
    } else {
      assert (left + s)[1..] == left[1..] + s;
      TrimLeftSkips(left[1..], s);
    }
  }

  lemma {:induction false} TrimRightSkips(s: string, right: string)
    requires AllSpaces(right) && s != [] && !IsSpace(s[0]) && !IsSpace(s[|s| - 1])
    ensures TrimSpace(s + right) == s
    decreases |right|
  {
    var t := s + right;
    assert t[0] == s[0];
    if right == [] {
      assert t == s;
    } else {
      assert t[|t| - 1] == right[|right| - 1];
      assert t[..|t| - 1] == s + right[..|right| - 1];
      TrimRightSkips(s, right[..|right| - 1]);
    }
  }

  lemma TrimLeftDecides(s: string, t: string)
    requires TrimLeft(s) == TrimLeft(t)
    ensures TrimSpace(s) == TrimSpace(t)
  {
  }

  /** White space around a text is removed, and nothing else. */
  lemma TrimStrips(left: string, s: string, right: string)
    requires AllSpaces(left) && AllSpaces(right)
    requires s != [] && !IsSpace(s[0]) && !IsSpace(s[|s| - 1])
    ensures TrimSpace(left + s + right) == s
  {
    var t := s + right;
    assert t[0] == s[0];
    assert left + s + right == left + t;
    TrimLeftSkips(left, t);
    TrimLeftDecides(left + t, t);
    TrimRightSkips(s, right);
  }

  /** Parts that are accepted are digits, at most six of them after the point. */
  lemma AcceptedParts(parts: seq<string>)
    requires parts != [] && ParseParts(parts).Some?
    ensures |parts| <= 2 && AllDigits(parts[0])
    ensures var fraction := if |parts| == 2 then parts[1] else "";
            |fraction| <= 6 && AllDigits(fraction) && |parts[0]| + |fraction| > 0
  {
    var fraction := if |parts| == 2 then parts[1] else "";
    var padded := fraction + Zeros(6 - |fraction|);
    assert forall i :: 0 <= i < |fraction| ==> padded[i] == fraction[i];
  }

  /** Nothing but a well-formed price, surrounded by white space, is accepted. */
  lemma OnlyWellFormedPrices(text: string)
    requires ParsePrice(text).Some?
    ensures exists whole, fraction ::
              Writes(TrimSpace(text), whole, fraction) && MicroValue(whole, fraction) == ParsePrice(text).value
  {
    var value := TrimSpace(text);
    var parts := SplitDots(value);
    AcceptedParts(parts);
    SplitInverts(value);
    var fraction := if |parts| == 2 then parts[1] else "";
    assert Writes(value, parts[0], fraction);
    PriceOfParts(parts, parts[0], fraction);
  }

  // ------------------------------------------------------------ printing

  function DigitOf(n: nat): char
    requires n < 10
  {
    '0' + n as char
  }

  /** n in decimal with exactly k digits, high digits dropped. */
  function FixedDigits(n: nat, k: nat): (r: string)
    ensures |r| == k && AllDigits(r)
  {
    if k == 0 then "" else FixedDigits(n / 10, k - 1) + [DigitOf(n % 10)]
  }

  /** n in decimal without leading zeros. */
  function Decimal(n: nat): (r: string)
    ensures r != [] && AllDigits(r)
  {
    if n < 10 then [DigitOf(n)] else Decimal(n / 10) + [DigitOf(n % 10)]
  }

  /** A price printed in USD with six places. */
  function PrintPrice(micro: nat): string
  {
    Decimal(micro / 1_000_000) + "." + FixedDigits(micro % 1_000_000, 6)
  }

  lemma {:induction false} DecimalDenotes(n: nat)
    ensures NatOf(Decimal(n)) == n
  {
    var s := Decimal(n);
    if n < 10 {
      assert s[..0] == "";
    } else {
      DecimalDenotes(n / 10);
      assert s[..|s| - 1] == Decimal(n / 10);
    }
  }

  lemma {:induction false} FixedDigitsDenotes(n: nat, k: nat)
    requires n < Power10(k)
    ensures NatOf(FixedDigits(n, k)) == n
  {
    if k > 0 {
      var s := FixedDigits(n, k);
      assert s[..|s| - 1] == FixedDigits(n / 10, k - 1);
      FixedDigitsDenotes(n / 10, k - 1);
    }
  }

  lemma PrintedValue(micro: U64)
    ensures MicroValue(Decimal(micro / 1_000_000), FixedDigits(micro % 1_000_000, 6)) == micro
  {
    DecimalDenotes(micro / 1_000_000);
    assert Power10(6) == 1_000_000;
    FixedDigitsDenotes(micro % 1_000_000, 6);
  }

  /** Reading a printed price gives the price back, for every uint64. */
  lemma PriceRoundTrip(micro: U64)
    ensures ParsePrice(PrintPrice(micro)) == Some(micro)
  {
    PrintedValue(micro);
    WellFormedPrice(PrintPrice(micro), Decimal(micro / 1_000_000), FixedDigits(micro % 1_000_000, 6));
  }
}
