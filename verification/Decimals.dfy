/**
 Decimal numbers, as they are printed and read.
 */
module Decimals {

  function Digit(d: nat): char
    requires d < 10
  {
    ('0' as nat + d) as char
  }

  predicate IsDigit(c: char) {
    '0' <= c <= '9'
  }

  function Decimal(n: nat): (s: string)
    ensures s != "" && forall i :: 0 <= i < |s| ==> IsDigit(s[i])
  {
    if n < 10 then [Digit(n)] else Decimal(n / 10) + [Digit(n % 10)]
  }

  // The value of the digits a text begins with, after others worth acc.
  function DigitsValue(s: string, acc: nat): nat
    decreases |s|
  {
    if s == "" || !IsDigit(s[0]) then acc else DigitsValue(s[1..], acc * 10 + (s[0] as int - '0' as int))
  }

  lemma {:induction false} DigitsOfDecimal(n: nat, rest: string)
    ensures DigitsValue(Decimal(n) + rest, 0) == DigitsValue(rest, n)
    decreases n
  {
    if n < 10 {
      assert (Decimal(n) + rest)[1..] == rest;
    } else {
      var last := [Digit(n % 10)];
      assert Decimal(n) + rest == Decimal(n / 10) + (last + rest);
      DigitsOfDecimal(n / 10, last + rest);
      assert (last + rest)[1..] == rest;
    }
  }

  // A number with its sign, as "%d" and "%lld" print it.
  function NumberText(n: int): (s: string)
    ensures s != "" && (IsDigit(s[0]) || s[0] == '-') && forall i :: 1 <= i < |s| ==> IsDigit(s[i])
  {
    if n < 0 then "-" + Decimal(-n) else Decimal(n)
  }

  // A sign, and digits as far as they go.
  function Signed(s: string): int {
    if s != "" && s[0] == '-' then 0 - DigitsValue(s[1..], 0)
    else if s != "" && s[0] == '+' then DigitsValue(s[1..], 0)
    else DigitsValue(s, 0)
  }

  const LLONG_MAX := 0x7fff_ffff_ffff_ffff
  const LLONG_MIN := -0x8000_0000_0000_0000

  // Numbers which are too large are held at the ends of the range.
  function Held(n: int): int {
    if n > LLONG_MAX then LLONG_MAX else if n < LLONG_MIN then LLONG_MIN else n
  }

  // A number is read as it was printed, whatever follows it but a digit.
  lemma NumberIsRead(n: int, rest: string)
    requires rest == "" || !IsDigit(rest[0])
    ensures Signed(NumberText(n) + rest) == n
  {
    var m := if n < 0 then -n else n;
    DigitsOfDecimal(m, rest);
    if n < 0 {
      assert ("-" + Decimal(m) + rest)[1..] == Decimal(m) + rest;
    }
  }
}
