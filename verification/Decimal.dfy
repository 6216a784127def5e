/** Decimal digits, as strconv writes and reads them. */
module Decimal {
  predicate IsDigit(c: char) {
    '0' <= c <= '9'
  }

  predicate Digits(s: string) {
    forall i :: 0 <= i < |s| ==> IsDigit(s[i])
  }

  function DigitOf(n: nat): char
    requires n < 10
  {
    '0' + n as char
  }

  function ValueOf(c: char): nat
    requires IsDigit(c)
  {
    (c - '0') as nat
  }

  /** The number a digit string denotes. */
  function Number(s: string): nat
    requires Digits(s)
  {
    if s == [] then 0 else Number(s[..|s| - 1]) * 10 + ValueOf(s[|s| - 1])
  }

  /** strconv.FormatInt of a natural number. */
  function Format(n: nat): (s: string)
    ensures s != [] && Digits(s) && Number(s) == n
    ensures s[0] == '0' ==> n == 0
    ensures forall c :: c in s ==> IsDigit(c)
  {
    if n < 10 then
      var s := [DigitOf(n)];
      assert s[..|s| - 1] == [];
      s
    else
      var s := Format(n / 10) + [DigitOf(n % 10)];
      assert s[..|s| - 1] == Format(n / 10);
      s
  }

  /** fmt's %0<width>d of a number that fits the width. */
  function Padded(n: nat, width: nat): (s: string)
    requires n < Pow10(width)
    ensures |s| == width && Digits(s) && Number(s) == n
  {
    if width == 0 then []
    else
      var s := Padded(n / 10, width - 1) + [DigitOf(n % 10)];
      assert s[..|s| - 1] == Padded(n / 10, width - 1);
      s
  }

  function Pow10(k: nat): (r: nat)
    ensures r >= 1
  {
    if k == 0 then 1 else 10 * Pow10(k - 1)
  }

  lemma Regroup(a: nat, power: nat, b: nat, digit: nat)
    ensures (a * power + b) * 10 + digit == a * (10 * power) + (b * 10 + digit)
  {
  }

  /** Appending digits shifts what came before. */
  lemma {:induction false} NumberOfConcat(a: string, b: string)
    requires Digits(a) && Digits(b)
    ensures Digits(a + b) && Number(a + b) == Number(a) * Pow10(|b|) + Number(b)
  {
    if b == [] {
      assert a + b == a;
    } else {
      var b' := b[..|b| - 1];
      NumberOfConcat(a, b');
      assert (a + b)[..|a + b| - 1] == a + b';
      assert (a + b)[|a + b| - 1] == b[|b| - 1];
      Regroup(Number(a), Pow10(|b'|), Number(b'), ValueOf(b[|b| - 1]));
    }
  }

  /** Two digit strings of one length that denote one number are one string. */
  lemma {:induction false} NumberIsInjective(a: string, b: string)
    requires Digits(a) && Digits(b) && |a| == |b| && Number(a) == Number(b)
    ensures a == b
  {
    if a != [] {
      var x, y := ValueOf(a[|a| - 1]), ValueOf(b[|b| - 1]);
      assert Number(a[..|a| - 1]) == Number(b[..|b| - 1]) && x == y;
      NumberIsInjective(a[..|a| - 1], b[..|b| - 1]);
      assert a == a[..|a| - 1] + [a[|a| - 1]] && b == b[..|b| - 1] + [b[|b| - 1]];
    }
  }
}
