/** Decimal rendering of integers, as Python's `str(int)` and f-string interpolation produce it,
    with a reader that recovers the number from the front of a string. */
module Decimal {
  import opened Wrappers

  predicate IsDigit(c: char) {
    '0' <= c <= '9'
  }

  predicate AllDigits(s: string) {
    forall i :: 0 <= i < |s| ==> IsDigit(s[i])
  }

  function DigitChar(d: nat): (c: char)
    requires d < 10
    ensures IsDigit(c) && DigitValue(c) == d
  {
    ('0' as int + d) as char
  }

  function DigitValue(c: char): (d: nat)
    requires IsDigit(c)
    ensures d < 10
  {
    c as int - '0' as int
  }

  /** `str(n)` for a non-negative int: at least one digit, no leading zero. */
  function NatToString(n: nat): (s: string)
    ensures |s| > 0 && AllDigits(s)
    ensures |s| > 1 ==> s[0] != '0'
    ensures n < 10 <==> |s| == 1
  {
    if n < 10 then [DigitChar(n)] else NatToString(n / 10) + [DigitChar(n % 10)]
  }

  /** `str(i)` for any int: a minus sign exactly for a negative number, then the digits of its
      magnitude, without leading zeros, which read back as that magnitude. */
  function IntToString(i: int): (s: string)
    ensures s != [] && (s[0] == '-' <==> i < 0)
    ensures var digits := if i < 0 then s[1..] else s;
            && digits != [] && AllDigits(digits)
            && (|digits| > 1 ==> digits[0] != '0')
            && ValueOf(digits) == if i < 0 then -i else i
  {
    ValueOfNatToString(if i < 0 then -i else i);
    if i < 0 then "-" + NatToString(-i) else NatToString(i)
  }

  /** The number a string of digits denotes (the inverse of NatToString). */
  function ValueOf(s: string): nat
    requires AllDigits(s)
  {
    if s == [] then 0 else ValueOf(s[..|s| - 1]) * 10 + DigitValue(s[|s| - 1])
  }

  lemma {:induction false} ValueOfNatToString(n: nat)
    ensures ValueOf(NatToString(n)) == n
  {
    if n >= 10 {
      var s := NatToString(n);
      assert s[..|s| - 1] == NatToString(n / 10);
      ValueOfNatToString(n / 10);
    }
  }

  /** Length of the longest run of digits at the front of `s`. */
  function DigitRun(s: string): (k: nat)
    ensures k <= |s|
    ensures forall i :: 0 <= i < k ==> IsDigit(s[i])
    ensures k < |s| ==> !IsDigit(s[k])
  {
    if s != [] && IsDigit(s[0]) then 1 + DigitRun(s[1..]) else 0
  }

  /** The number written at the front of `s`, if `s` starts with a digit. */
  function ReadNat(s: string): Option<nat> {
    var k := DigitRun(s);
    if k == 0 then None else Some(ValueOf(s[..k]))
  }

  /** A count rendered by NatToString is read back exactly, whatever non-digit text follows it. */
  lemma ReadNatToString(n: nat, rest: string)
    requires rest == [] || !IsDigit(rest[0])
    ensures ReadNat(NatToString(n) + rest) == Some(n)
  {
    var d := NatToString(n);
    var t := d + rest;
    var k := DigitRun(t);
    assert rest != [] ==> t[|d|] == rest[0];
    assert k == |d|;
    assert t[..k] == d;
    ValueOfNatToString(n);
  }
}
