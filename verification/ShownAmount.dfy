/** How the seller's page writes a price, and reading it back (examples/weather/main.go:290-305). */
module ShownAmount {
  import opened Gno
  import opened Decimal
  import opened Client

  const UGNOT_PER_GNOT: nat := 1_000_000
  const GNOT := "GNOT"

  function TrimZeros(s: string): (r: string)
    requires Digits(s)
    ensures Digits(r) && |r| <= |s|
    ensures r != [] ==> r[|r| - 1] != '0'
    ensures Number(s) == Number(r) * Pow10(|s| - |r|)
  {
    if s == [] || s[|s| - 1] != '0' then
      assert Pow10(0) == 1;
      s
    else
      var r := TrimZeros(s[..|s| - 1]);
      assert Number(s) == Number(s[..|s| - 1]) * 10;
      ShiftOnce(Number(r), |s| - 1 - |r|);
      r
  }

  lemma ShiftOnce(n: nat, k: nat)
    ensures n * Pow10(k) * 10 == n * Pow10(k + 1)
  {
  }

  /** The price as the page writes it, and its unit. */
  function Shown(coin: Coin): (string, string)
    requires coin.amount > 0
  {
    if coin.denom != UGNOT then (Format(coin.amount), coin.denom)
    else
      var whole, fraction := coin.amount / UGNOT_PER_GNOT, coin.amount % UGNOT_PER_GNOT;
      if fraction == 0 then (Format(whole), GNOT)
      else (Format(whole) + "." + TrimZeros(Padded(fraction, 6)), GNOT)
  }

  /** The length of what is before the decimal point. */
  function Point(s: string): (n: nat)
    ensures n <= |s| && (n < |s| ==> s[n] == '.') && (forall i :: 0 <= i < n ==> s[i] != '.')
  {
    if s == [] || s[0] == '.' then 0
    else
      var n := Point(s[1..]);
      assert forall i :: 0 < i < n + 1 ==> s[i] == s[1..][i - 1];
      n + 1
  }

  function Whole(s: string): string {
    s[..Point(s)]
  }

  function Fraction(s: string): string {
    if Point(s) == |s| then "" else s[Point(s) + 1..]
  }

  /** A decimal numeral: digits, and after a point more digits. */
  predicate IsDecimal(s: string) {
    Whole(s) != "" && Digits(Whole(s)) && Digits(Fraction(s)) && (Point(s) < |s| ==> Fraction(s) != "")
  }

  /** The number a decimal numeral denotes. */
  function Value(s: string): real
    requires IsDecimal(s)
  {
    Number(Whole(s) + Fraction(s)) as real / Pow10(|Fraction(s)|) as real
  }

  lemma PointOfJoin(whole: string, fraction: string)
    requires Digits(whole)
    ensures Whole(whole + "." + fraction) == whole && Fraction(whole + "." + fraction) == fraction
    ensures Point(whole + "." + fraction) == |whole|
    ensures Whole(whole) == whole && Fraction(whole) == "" && Point(whole) == |whole|
  {
    var s := whole + "." + fraction;
    assert s[|whole|] == '.';
    assert forall i :: 0 <= i < |whole| ==> IsDigit(s[i]);
    assert forall i :: 0 <= i < |whole| ==> whole[i] != '.' && s[i] != '.';
  }

  lemma SixDigits()
    ensures Pow10(6) == UGNOT_PER_GNOT
  {
    assert Pow10(1) == 10;
    assert Pow10(2) == 100;
    assert Pow10(3) == 1000;
    assert Pow10(4) == 10000;
    assert Pow10(5) == 100000;
  }

  lemma PowersMultiply(j: nat, k: nat)
    ensures Pow10(j) * Pow10(k) == Pow10(j + k)
  {
    if j > 0 {
      PowersMultiply(j - 1, k);
      Reassociate(Pow10(j - 1), Pow10(k));
    }
  }

  lemma Reassociate(a: int, b: int)
    ensures (10 * a) * b == 10 * (a * b)
  {
  }

  /** A whole part, a fraction of k digits, and what was trimmed of six. */
  lemma Recombine(whole: nat, fraction: nat, shown: nat, k: nat)
    requires k <= 6 && fraction == shown * Pow10(6 - k)
    ensures (whole * Pow10(k) + shown) * Pow10(6 - k) == whole * Pow10(6) + fraction
  {
    PowersMultiply(k, 6 - k);
    Spread(whole, Pow10(k), shown, Pow10(6 - k));
  }

  lemma Spread(whole: int, a: int, shown: int, b: int)
    ensures (whole * a + shown) * b == whole * (a * b) + shown * b
  {
  }

  lemma Divide(n: int, power: int, rest: int, total: int)
    requires power >= 1 && rest >= 1 && power * rest == 1_000_000 && n * rest == total
    ensures n as real / power as real * 1_000_000.0 == total as real
  {
    assert power as real * rest as real == 1_000_000.0;
    assert n as real * rest as real == total as real;
    var q := n as real / power as real;
    assert q * power as real == n as real;
    assert q * 1_000_000.0 == q * (power as real * rest as real);
    assert q * (power as real * rest as real) == (q * power as real) * rest as real;
  }

  /** Nothing is lost: the decimal shown for a ugnot amount, read back and multiplied by a million,
      is the amount; and its fraction, when it has one, never ends in a zero. */
  lemma ShownReadsBack(amount: int)
    requires amount > 0
    ensures Shown(Coin(UGNOT, amount)).1 == "GNOT"
    ensures var s := Shown(Coin(UGNOT, amount)).0;
            && IsDecimal(s) && |Fraction(s)| <= 6
            && Value(s) * 1_000_000.0 == amount as real
            && (Fraction(s) != "" ==> Fraction(s)[|Fraction(s)| - 1] != '0')
  {
    SixDigits();
    var whole, fraction := amount / UGNOT_PER_GNOT, amount % UGNOT_PER_GNOT;
    if fraction == 0 {
      PointOfJoin(Format(whole), "");
      assert Format(whole) + "" == Format(whole);
      assert Pow10(0) == 1;
    } else {
      var tail := TrimZeros(Padded(fraction, 6));
      assert tail != "";
      assert Number(tail) * Pow10(6 - |tail|) == fraction;
      hide Format, TrimZeros, Padded;
      FractionReadsBack(whole, fraction, Format(whole), tail);
    }
  }

  lemma FractionReadsBack(whole: nat, fraction: nat, front: string, tail: string)
    requires front != "" && Digits(front) && Number(front) == whole
    requires tail != "" && |tail| <= 6 && Digits(tail) && Number(tail) * Pow10(6 - |tail|) == fraction
    ensures var s := front + "." + tail;
            IsDecimal(s) && Fraction(s) == tail && Value(s) * 1_000_000.0 == (whole * UGNOT_PER_GNOT + fraction) as real
  {
    PointOfJoin(front, tail);
    NumberOfConcat(front, tail);
    assert Value(front + "." + tail) == Number(front + tail) as real / Pow10(|tail|) as real;
    hide Value, Number, Pow10;
    JoinedValue(whole, fraction, Number(tail), |tail|);
  }

  lemma JoinedValue(whole: nat, fraction: nat, shown: nat, k: nat)
    requires k <= 6 && fraction == shown * Pow10(6 - k)
    ensures (whole * Pow10(k) + shown) as real / Pow10(k) as real * 1_000_000.0
         == (whole * UGNOT_PER_GNOT + fraction) as real
  {
    SixDigits();
    Recombine(whole, fraction, shown, k);
    PowersMultiply(k, 6 - k);
    hide Pow10;
    Divide(whole * Pow10(k) + shown, Pow10(k), Pow10(6 - k), whole * UGNOT_PER_GNOT + fraction);
  }

  /** Any other coin is shown as it is held: its whole amount, with no leading zero, of its own unit. */
  lemma OthersAreShownWhole(coin: Coin)
    requires coin.amount > 0 && coin.denom != "ugnot"
    ensures var (s, unit) := Shown(coin);
            unit == coin.denom && Digits(s) && s != "" && s[0] != '0' && Number(s) == coin.amount
  {
  }

  /** Two coins are never shown alike: not two ugnot amounts, nor any two the chain can hold. */
  lemma ShownDistinguishes(a: Coin, b: Coin)
    requires a.amount > 0 && b.amount > 0 && Denomination(a.denom) && Denomination(b.denom)
    requires Shown(a) == Shown(b)
    ensures a == b
  {
    assert !Denomination(GNOT);
    if a.denom == UGNOT && b.denom == UGNOT {
      ShownReadsBack(a.amount);
      ShownReadsBack(b.amount);
    }
  }
}
