/** `std::to_string` on integers, and reading decimals back. */
module Decimal {
  import opened Common

  predicate IsDigit(c: char) {
    '0' <= c <= '9'
  }

  function DigitValue(c: char): (v: nat)
    requires IsDigit(c)
    ensures v < 10
  {
    c as int - '0' as int
  }

  function DigitChar(v: nat): (c: char)
    requires v < 10
    ensures IsDigit(c) && DigitValue(c) == v
  {
    (v + '0' as int) as char
  }

  predicate AllDigits(s: string) {
    forall i :: 0 <= i < |s| ==> IsDigit(s[i])
  }

  function ValueOf(digits: string): nat
    requires AllDigits(digits)
  {
    if digits == [] then 0
    else 10 * ValueOf(digits[..|digits| - 1]) + DigitValue(digits[|digits| - 1])
  }

  function PrintNat(n: nat): string {
    if n < 10 then [DigitChar(n)] else PrintNat(n / 10) + [DigitChar(n % 10)]
  }

  function PrintInt(n: int): string {
    if n < 0 then "-" + PrintNat(-n) else PrintNat(n)
  }

  /** No digit is missing and none is superfluous: the only decimal spelling of its value. */
  predicate IsCanonicalDecimal(s: string) {
    s != [] && AllDigits(s) && (|s| > 1 ==> s[0] != '0')
  }

  lemma {:induction false} PrintNatIsCanonical(n: nat)
    ensures IsCanonicalDecimal(PrintNat(n))
    ensures ValueOf(PrintNat(n)) == n
    ensures n > 0 ==> PrintNat(n)[0] != '0'
  {
    if n >= 10 {
      PrintNatIsCanonical(n / 10);
      var shorter := PrintNat(n / 10);
      assert PrintNat(n)[..|PrintNat(n)| - 1] == shorter;
      assert PrintNat(n)[0] == shorter[0];
    }
  }

  lemma {:induction false} LongerPrefixIsSmaller(digits: string, k: nat)
    requires AllDigits(digits) && k <= |digits|
    ensures ValueOf(digits[..k]) <= ValueOf(digits)
    decreases |digits| - k
  {
    if k == |digits| {
      assert digits[..k] == digits;
    } else {
      LongerPrefixIsSmaller(digits, k + 1);
      assert digits[..k + 1][..k] == digits[..k];
    }
  }

  /** The longest run of digits at the front, and what follows it. */
  function SplitDigits(s: string): (split: (string, string))
    ensures split.0 + split.1 == s && AllDigits(split.0)
  {
    if s == [] || !IsDigit(s[0]) then ([], s)
    else
      var tail := SplitDigits(s[1..]);
      assert s == [s[0]] + s[1..];
      ([s[0]] + tail.0, tail.1)
  }

  lemma {:induction false} SplitDigitsStopsAtNonDigit(digits: string, rest: string)
    requires AllDigits(digits)
    requires rest == [] || !IsDigit(rest[0])
    ensures SplitDigits(digits + rest) == (digits, rest)
  {
    if digits == [] {
      assert digits + rest == rest;
    } else {
      assert (digits + rest)[1..] == digits[1..] + rest;
      SplitDigitsStopsAtNonDigit(digits[1..], rest);
      assert [digits[0]] + digits[1..] == digits;
    }
  }

  /** A JSON integer at the front of the input: section 6 of RFC 8259 without fraction and exponent. */
  function ReadInt(s: string): (r: Option<(int, string)>)
    ensures r.Some? ==> |r.value.1| <= |s|
  {
    var negative := s != [] && s[0] == '-';
    var split := SplitDigits(if negative then s[1..] else s);
    if !IsCanonicalDecimal(split.0) then None
    else
      var magnitude: int := ValueOf(split.0);
      Some((if negative then -magnitude else magnitude, split.1))
  }

  lemma ReadDigits(n: nat, rest: string)
    requires rest == [] || !IsDigit(rest[0])
    ensures PrintNat(n) != [] && PrintNat(n)[0] != '-'
    ensures SplitDigits(PrintNat(n) + rest) == (PrintNat(n), rest)
    ensures IsCanonicalDecimal(PrintNat(n)) && ValueOf(PrintNat(n)) == n
  {
    PrintNatIsCanonical(n);
    SplitDigitsStopsAtNonDigit(PrintNat(n), rest);
  }

  lemma ReadIntUndoesPrintInt(n: int, rest: string)
    requires rest == [] || !IsDigit(rest[0])
    ensures ReadInt(PrintInt(n) + rest) == Some((n, rest))
  {
    hide PrintNat, SplitDigits, IsCanonicalDecimal, ValueOf, AllDigits;
    ReadDigits(if n < 0 then -n else n, rest);
    if n < 0 {
      var digits := PrintNat(-n);
      assert PrintInt(n) + rest == "-" + (digits + rest);
      assert ("-" + (digits + rest))[1..] == digits + rest;
    } else {
      assert (PrintInt(n) + rest)[0] == PrintNat(n)[0];
    }
  }
}
