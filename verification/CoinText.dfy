/** A coin as amount and asset in one string (client/exact/scheme.go:81-89, :353-360), against a
    parse that takes the longest digit run for the amount and the rest for the denomination. */
module CoinText {
  import opened Options
  import opened Gno
  import opened Decimal
  import opened Rules
  import opened Client

  /** The longest prefix of digits. */
  function DigitRun(s: string): (n: nat)
    ensures n <= |s| && Digits(s[..n]) && (n < |s| ==> !IsDigit(s[n]))
  {
    if s == [] || !IsDigit(s[0]) then 0
    else
      var n := DigitRun(s[1..]);
      assert s[1..][..n] == s[1..n + 1];
      assert forall i :: 0 < i < n + 1 ==> s[i] == s[1..][i - 1];
      n + 1
  }

  function ParseCoin(s: string): Option<Coin> {
    var n := DigitRun(s);
    if n == 0 || !Denomination(s[n..]) || Number(s[..n]) > MAX_INT64 then None
    else Some(Coin(s[n..], Number(s[..n])))
  }

  /** The digit run of an amount before a denomination is the amount. */
  lemma {:induction false} DigitRunStopsAtDenomination(amount: string, asset: string)
    requires Digits(amount) && (asset != [] ==> !IsDigit(asset[0]))
    ensures DigitRun(amount + asset) == |amount|
  {
    var s := amount + asset;
    if amount != [] {
      assert s[1..] == amount[1..] + asset;
      DigitRunStopsAtDenomination(amount[1..], asset);
    } else {
      assert s == asset;
    }
  }

  /** Inside the two grammars the parse returns exactly that amount and that denomination, and
      refuses exactly the amounts no coin holds. */
  lemma ParseReadsBack(amount: string, asset: string)
    requires PositiveAmount(amount) && Denomination(asset)
    ensures ParseCoin(amount + asset)
         == (if Number(amount) <= MAX_INT64 then Some(Coin(asset, Number(amount))) else None)
  {
    DigitRunStopsAtDenomination(amount, asset);
    assert (amount + asset)[..|amount|] == amount && (amount + asset)[|amount|..] == asset;
  }

  /** No two pairs inside the grammars make one string. */
  lemma ConcatenationIsUnambiguous(amount1: string, asset1: string, amount2: string, asset2: string)
    requires PositiveAmount(amount1) && Denomination(asset1) && PositiveAmount(amount2) && Denomination(asset2)
    requires amount1 + asset1 == amount2 + asset2
    ensures amount1 == amount2 && asset1 == asset2
  {
    DigitRunStopsAtDenomination(amount1, asset1);
    DigitRunStopsAtDenomination(amount2, asset2);
    var s := amount1 + asset1;
    assert s[..|amount1|] == amount1 && s[|amount1|..] == asset1;
    assert s[..|amount2|] == amount2 && s[|amount2|..] == asset2;
  }

  /** One coin is written one way: two offers inside the grammars that parse to one coin have the
      same amount and asset, digit for digit. */
  lemma OneCoinOneText(amount1: string, asset1: string, amount2: string, asset2: string)
    requires PositiveAmount(amount1) && Denomination(asset1) && PositiveAmount(amount2) && Denomination(asset2)
    requires ParseCoin(amount1 + asset1).Some? && ParseCoin(amount1 + asset1) == ParseCoin(amount2 + asset2)
    ensures amount1 == amount2 && asset1 == asset2
  {
    ParseReadsBack(amount1, asset1);
    ParseReadsBack(amount2, asset2);
    CanonicalIsUnique(amount1, amount2);
  }

  lemma {:induction false} CanonicalIsUnique(a: string, b: string)
    requires PositiveAmount(a) && PositiveAmount(b) && Number(a) == Number(b)
    ensures a == b
  {
    if |a| < |b| {
      LeadingDigitBounds(a);
      LeadingDigitBounds(b);
      PowersGrow(|a|, |b| - 1);
    } else if |b| < |a| {
      LeadingDigitBounds(a);
      LeadingDigitBounds(b);
      PowersGrow(|b|, |a| - 1);
    } else {
      NumberIsInjective(a, b);
    }
  }

  /** A number with no leading zero has exactly as many digits as it is written with. */
  lemma {:induction false} LeadingDigitBounds(s: string)
    requires PositiveAmount(s)
    ensures Pow10(|s| - 1) <= Number(s) < Pow10(|s|)
  {
    var init := s[..|s| - 1];
    if init == [] {
      assert Number(init) == 0;
      assert Pow10(1) == 10 * Pow10(0);
    } else {
      LeadingDigitBounds(init);
    }
  }

  lemma {:induction false} PowersGrow(m: nat, n: nat)
    requires m <= n
    ensures Pow10(m) <= Pow10(n)
    decreases n - m
  {
    if m < n {
      PowersGrow(m, n - 1);
    }
  }

  /** The price the payer signs is the offer's amount of the offer's asset, as written, whenever the
      chain's coin parse reads that one string the longest-digit-run way. */
  lemma SignedPriceIsTheOffers(p: Platform, req: Requirements)
    requires ReadTerms(p, req).Ok?
    requires var coin := ParseCoin(req.amount + req.asset);
             p.parseCoins(req.amount + req.asset) == (if coin.Some? then Some([coin.value]) else None)
    ensures ReadTerms(p, req).value.price == Coin(req.asset, Number(req.amount))
    ensures 0 < Number(req.amount) <= MAX_INT64
  {
    ParseReadsBack(req.amount, req.asset);
    LeadingDigitBounds(req.amount);
  }

  /** Why the asset grammar is checked: outside it the same string is another coin. */
  lemma DigitsInAnAssetMakeAnotherCoin()
    ensures ParseCoin("25" + "0ugnot") == ParseCoin("250" + "ugnot") == Some(Coin("ugnot", 250))
    ensures !Denomination("0ugnot")
  {
    assert "25" + "0ugnot" == "250" + "ugnot";
    assert PositiveAmount("250");
    assert Denomination("ugnot");
    ParseReadsBack("250", "ugnot");
    assert "250"[..2] == "25" && "25"[..1] == "2" && "2"[..0] == "";
    assert Number("2") == 2 && Number("25") == 25 && Number("250") == 250;
  }
}
