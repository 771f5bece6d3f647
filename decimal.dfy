/**
 * Decimal numerals for unsigned 128-bit counters: the text that `format!("{}", n)`
 * writes for a `u128`, and the text that `str::parse::<u128>` accepts.
 */
module Decimal {
  import opened Wrappers

  /** One more than the largest `u128`, 2^128. */
  const U128_LIMIT: nat := 340282366920938463463374607431768211456

  predicate IsDigit(c: char) {
    '0' <= c <= '9'
  }

  predicate AllDigits(s: string) {
    forall i :: 0 <= i < |s| ==> IsDigit(s[i])
  }

  function DigitValue(c: char): (d: nat)
    requires IsDigit(c)
    ensures d < 10
  {
    c as int - '0' as int
  }

  function DigitChar(d: nat): (c: char)
    requires d < 10
    ensures IsDigit(c) && DigitValue(c) == d
  {
    ('0' as int + d) as char
  }

  function Pow10(k: nat): (p: nat)
    ensures p >= 1
  {
    if k == 0 then 1 else 10 * Pow10(k - 1)
  }

  /** The number a digit string denotes, most significant digit first; leading zeros are allowed. */
  function DigitsValue(s: string): nat
    requires AllDigits(s)
  {
    if s == [] then 0 else DigitsValue(s[..|s| - 1]) * 10 + DigitValue(s[|s| - 1])
  }

  /** The canonical form: at least one digit, and no leading zero unless the numeral is "0". */
  predicate IsCanonical(s: string) {
    |s| > 0 && AllDigits(s) && (s[0] == '0' ==> |s| == 1)
  }

  /** `format!("{}", n)`: the canonical decimal numeral of `n`. */
  function NatToDecimal(n: nat): (s: string)
    ensures IsCanonical(s) && DigitsValue(s) == n
  {
    if n < 10 then
      [DigitChar(n)]
    else
      var prefix := NatToDecimal(n / 10);
      var s := prefix + [DigitChar(n % 10)];
      assert s[..|s| - 1] == prefix;
      s
  }

  /** Every canonical numeral is the one `NatToDecimal` writes for its value. */
  lemma {:induction false} CanonicalIsFormatted(s: string)
    requires IsCanonical(s)
    ensures NatToDecimal(DigitsValue(s)) == s
  {
    if |s| > 1 {
      var prefix := s[..|s| - 1];
      var last := s[|s| - 1];
      assert IsCanonical(prefix);
      LeadingDigitPositive(prefix);
      CanonicalIsFormatted(prefix);
      var n := DigitsValue(s);
      assert n == DigitsValue(prefix) * 10 + DigitValue(last);
      assert n / 10 == DigitsValue(prefix) && n % 10 == DigitValue(last);
      assert NatToDecimal(n) == NatToDecimal(n / 10) + [DigitChar(n % 10)];
      assert prefix + [last] == s;
    }
  }

  /** A numeral that does not start with '0' denotes a positive number. */
  lemma LeadingDigitPositive(s: string)
    requires |s| > 0 && AllDigits(s) && s[0] != '0'
    ensures DigitsValue(s) >= 1
  {
    assert [s[0]] + s[1..] == s;
    AllDigitsCons(s[0], s[1..]);
    DigitsValueCons(s[0], s[1..]);
    assert DigitValue(s[0]) * Pow10(|s| - 1) >= DigitValue(s[0]);
  }

  /** Reading a numeral from its first digit on, as a left-to-right parser does. */
  lemma {:induction false} DigitsValueCons(c: char, s: string)
    requires IsDigit(c) && AllDigits(s)
    ensures AllDigits([c] + s)
    ensures DigitsValue([c] + s) == DigitValue(c) * Pow10(|s|) + DigitsValue(s)
  {
    var cs := [c] + s;
    assert AllDigits(cs);
    if s != [] {
      var init := s[..|s| - 1];
      assert cs[..|cs| - 1] == [c] + init;
      DigitsValueCons(c, init);
      assert DigitsValue(cs) == DigitsValue([c] + init) * 10 + DigitValue(s[|s| - 1]);
      assert DigitsValue(s) == DigitsValue(init) * 10 + DigitValue(s[|s| - 1]);
      RegroupDigit(DigitValue(c), Pow10(|init|), DigitsValue(init), DigitValue(s[|s| - 1]));
    }
  }

  /** The arithmetic step of `DigitsValueCons`, kept apart from the sequence reasoning. */
  lemma RegroupDigit(d: nat, p: nat, v: nat, e: nat)
    ensures (d * p + v) * 10 + e == d * (p * 10) + (v * 10 + e)
  {
  }

  /** What `u128::from_str` reads as a number: an optional '+' and then at least one digit. */
  predicate IsNumeral(s: string) {
    if |s| > 0 && s[0] == '+' then |s| > 1 && AllDigits(s[1..]) else |s| > 0 && AllDigits(s)
  }

  function NumeralValue(s: string): nat
    requires IsNumeral(s)
  {
    if s[0] == '+' then DigitsValue(s[1..]) else DigitsValue(s)
  }

  /**
   * The digit loop of `u128::from_str`: left to right, `acc * 10 + digit`, failing on a
   * character that is not a digit and on a checked multiplication or addition that overflows.
   */
  function ParseDigits(s: string, acc: nat): (r: Option<nat>)
    requires acc < U128_LIMIT
    ensures r.Some? <==> AllDigits(s) && acc * Pow10(|s|) + DigitsValue(s) < U128_LIMIT
    ensures r.Some? ==> r.value == acc * Pow10(|s|) + DigitsValue(s)
    decreases |s|
  {
    if s == [] then
      Some(acc)
    else if !IsDigit(s[0]) then
      None
    else
      var next := acc * 10 + DigitValue(s[0]);
      assert s == [s[0]] + s[1..];
      ParseDigitsStep(s[0], s[1..], acc);
      if next >= U128_LIMIT then None else ParseDigits(s[1..], next)
  }

  /** One step of `ParseDigits`: the value still to be read is carried by the new accumulator. */
  lemma ParseDigitsStep(c: char, rest: string, acc: nat)
    requires IsDigit(c)
    ensures AllDigits([c] + rest) <==> AllDigits(rest)
    ensures AllDigits(rest) ==>
      && acc * Pow10(|rest| + 1) + DigitsValue([c] + rest)
         == (acc * 10 + DigitValue(c)) * Pow10(|rest|) + DigitsValue(rest)
      && acc * Pow10(|rest| + 1) + DigitsValue([c] + rest) >= acc * 10 + DigitValue(c)
  {
    AllDigitsCons(c, rest);
    if AllDigits(rest) {
      DigitsValueCons(c, rest);
      ShiftDigit(acc, DigitValue(c), Pow10(|rest|), DigitsValue(rest));
    }
  }

  lemma AllDigitsCons(c: char, s: string)
    requires IsDigit(c)
    ensures AllDigits([c] + s) <==> AllDigits(s)
  {
    var cs := [c] + s;
    if AllDigits(cs) {
      forall i | 0 <= i < |s| ensures IsDigit(s[i]) {
        assert s[i] == cs[i + 1];
      }
    }
  }

  lemma ShiftDigit(acc: nat, d: nat, p: nat, rest: nat)
    requires p >= 1
    ensures acc * (10 * p) + (d * p + rest) == (acc * 10 + d) * p + rest
    ensures (acc * 10 + d) * p + rest >= acc * 10 + d
  {
    assert acc * (10 * p) == (acc * 10) * p;
    assert (acc * 10) * p + d * p == (acc * 10 + d) * p;
  }

  /** `str::parse::<u128>`: `None` where the source's `unwrap` panics. */
  function ParseU128(s: string): (r: Option<nat>)
    ensures r.Some? <==> IsNumeral(s) && NumeralValue(s) < U128_LIMIT
    ensures r.Some? ==> r.value == NumeralValue(s)
  {
    if s == [] then None
    else if s[0] == '+' then (if |s| == 1 then None else ParseDigits(s[1..], 0))
    else ParseDigits(s, 0)
  }

  /** Parsing what `format!` wrote gives the counter back, for every `u128` value. */
  lemma ParseFormatted(n: nat)
    requires n < U128_LIMIT
    ensures ParseU128(NatToDecimal(n)) == Some(n)
  {
    var s := NatToDecimal(n);
    assert s[0] != '+';
  }
}
