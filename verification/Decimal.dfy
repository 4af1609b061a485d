/** Decimal printing and parsing of unsigned integers, as `format!("{n}")` and
    `str::parse` of the unsigned types do them. */
module Decimal {
  import opened Basics

  const ZERO: byte := 0x30
  const PLUS: byte := 0x2b

  predicate IsDigit(b: byte) { 0x30 <= b <= 0x39 }

  predicate AllDigits(s: Bytes) { forall i :: 0 <= i < |s| ==> IsDigit(s[i]) }

  /** `format!("{n}")`. */
  function Print(n: nat): (s: Bytes)
    ensures |s| >= 1
    ensures AllDigits(s)
  {
    if n < 10 then [ZERO + n] else Print(n / 10) + [ZERO + n % 10]
  }

  /** The number a string of digits denotes. */
  function Value(s: Bytes): nat
    requires AllDigits(s)
  {
    if s == [] then 0 else Value(s[..|s| - 1]) * 10 + (s[|s| - 1] - ZERO)
  }

  /** `str::parse` of an unsigned type whose largest value is `max`: one
      optional plus sign, then at least one digit, leading zeros allowed, and an
      error on overflow. */
  function Parse(s: Bytes, max: nat): (r: Option<nat>)
  {
    var digits := if s != [] && s[0] == PLUS then s[1..] else s;
    if digits == [] || !AllDigits(digits) || Value(digits) > max then None
    else Some(Value(digits))
  }

  lemma {:induction false} ValueOfPrint(n: nat)
    ensures Value(Print(n)) == n
  {
    if n < 10 {
      assert Print(n)[..0] == [];
    } else {
      ValueOfPrint(n / 10);
      var s := Print(n);
      assert s[..|s| - 1] == Print(n / 10);
    }
  }

  /** Printing is undone by parsing, at every width that holds the number. */
  lemma ParsePrint(n: nat, max: nat)
    requires n <= max
    ensures Parse(Print(n), max) == Some(n)
  {
    ValueOfPrint(n);
    assert IsDigit(Print(n)[0]);
  }

  lemma {:induction false} PrintLength(n: nat)
    requires n <= 65535
    ensures |Print(n)| <= 5
  {
    assert n / 10 / 10 / 10 / 10 < 10;
    assert n >= 10 ==> |Print(n)| == |Print(n / 10)| + 1;
    assert n / 10 >= 10 ==> |Print(n / 10)| == |Print(n / 10 / 10)| + 1;
    assert n / 10 / 10 >= 10 ==> |Print(n / 10 / 10)| == |Print(n / 10 / 10 / 10)| + 1;
    assert n / 10 / 10 / 10 >= 10 ==>
        |Print(n / 10 / 10 / 10)| == |Print(n / 10 / 10 / 10 / 10)| + 1;
  }

  /** A printed number contains nothing but digits, so no separator. */
  lemma PrintFree(n: nat, sep: byte)
    requires !IsDigit(sep)
    ensures sep !in Print(n)
  {
  }

  /** One plus sign and leading zeros change nothing; anything but digits behind the sign, or no
      digit, is refused; so is a number that is too large. */
  lemma ParseForms(s: Bytes, max: nat)
    requires s != [] && forall i :: 0 <= i < |s| ==> 0x30 <= s[i] <= 0x39
    ensures Parse([0x2b] + s, max) == Parse(s, max) == Parse([0x30] + s, max)
    ensures Parse([], max) == None && Parse([0x2b], max) == None && Parse([0x2b, 0x2b] + s, max) == None
  {
    assert ([0x2b] + s)[1..] == s;
    assert ([0x2b, 0x2b] + s)[1..] == [0x2b] + s && !IsDigit(([0x2b] + s)[0]);
    LeadingZero(s);
  }

  lemma {:induction false} LeadingZero(s: Bytes)
    requires AllDigits(s)
    ensures Value([0x30] + s) == Value(s)
    decreases s
  {
    var z := [0x30] + s;
    if s == [] {
      assert z[..0] == [];
      assert Value(z) == Value(z[..0]) * 10 + 0;
    } else {
      assert z[..|z| - 1] == [0x30] + s[..|s| - 1];
      LeadingZero(s[..|s| - 1]);
    }
  }

  lemma ParseRefuses(s: Bytes, max: nat, i: nat)
    requires i < |s| && !(0x30 <= s[i] <= 0x39) && (i > 0 || s[0] != 0x2b)
    ensures Parse(s, max) == None
  {
    if s[0] == PLUS { assert s[1..][i - 1] == s[i]; }
  }

  /** Digits count from the left, and are the ASCII ones. */
  lemma DigitsCount(s: Bytes, d: byte)
    requires AllDigits(s) && 0x30 <= d <= 0x39
    ensures Value(s + [d]) == 10 * Value(s) + (d - 0x30)
  {
    assert (s + [d])[..|s|] == s;
  }
}
