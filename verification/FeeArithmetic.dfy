/** The fee a payment offers against the prices it has to meet (client/exact/scheme.go:50-79, :557-578). */
module FeeArithmetic {
  import opened Options
  import opened Gno
  import opened Client
  import Rules

  /** A fee for the ten million gas a payment reserves meets a price of amount for gas units of gas. */
  predicate Meets(fee: int, gas: int, amount: int) {
    fee * gas >= amount * 10_000_000
  }

  /** And meets it twice over. */
  predicate MeetsWithMargin(fee: int, gas: int, amount: int) {
    Meets(fee, gas, 2 * amount)
  }

  lemma CeilingDivision(total: int, gas: int)
    requires total > 0 && gas > 0
    ensures var q := (total + gas - 1) / gas; q >= 1 && total <= q * gas < total + gas
  {
    var q := (total + gas - 1) / gas;
    var r := (total + gas - 1) % gas;
    assert total + gas - 1 == q * gas + r;
    assert 0 <= r < gas;
    NotPositive(q, gas);
  }

  lemma NotPositive(q: int, gas: int)
    ensures q <= 0 && gas > 0 ==> q * gas <= 0
  {
  }

  lemma Monotone(a: int, b: int, gas: int)
    requires a <= b && gas > 0
    ensures a * gas <= b * gas
  {
  }

  /** The rounded fee is the least whole fee that meets twice the price. */
  lemma RoundedFeeIsLeast(gas: int, amount: int, fee: int)
    requires gas > 0 && amount > 0
    ensures MeetsWithMargin(fee, gas, amount) <==> fee >= RoundedFee(gas, amount)
  {
    var total := GAS_WANTED * GAS_PRICE_MARGIN * amount;
    var least := RoundedFee(gas, amount);
    CeilingDivision(total, gas);
    if fee >= least {
      Monotone(least, fee, gas);
    } else {
      Monotone(fee, least - 1, gas);
      assert (least - 1) * gas == least * gas - gas;
    }
  }

  /** The fee covers every later price up to double and, while a price is quoted for no more gas
      than a payment wants, no whole price above double. */
  lemma FeeCoversExactlyDouble(gas: int, amount: int, later: int)
    requires gas > 0 && amount > 0
    ensures later <= 2 * amount ==> Meets(RoundedFee(gas, amount), gas, later)
    ensures gas <= GAS_WANTED ==> (Meets(RoundedFee(gas, amount), gas, later) <==> later <= 2 * amount)
  {
    var fee := RoundedFee(gas, amount);
    CeilingDivision(GAS_WANTED * GAS_PRICE_MARGIN * amount, gas);
    if later <= 2 * amount {
      Monotone(later, 2 * amount, GAS_WANTED);
    } else {
      Monotone(2 * amount + 1, later, GAS_WANTED);
    }
  }

  /** The chain reports no price: none at all, or one of nothing. */
  predicate Unpriced(price: Option<GasPrice>) {
    price.None? || price.value.gas == 0 || price.value.price.amount == 0
  }

  /** The fee a payment may offer at a reported price: one gnot where there is none, and the least
      whole fee that meets a positive one twice over, in the price's own coin. */
  ghost predicate OffersLeast(price: Option<GasPrice>, fee: Coin) {
    if Unpriced(price) then fee == Coin("ugnot", 1_000_000)
    else
      && price.value.gas > 0 && price.value.price.amount > 0 && fee.denom == price.value.price.denom
      && forall other :: MeetsWithMargin(other, price.value.gas, price.value.price.amount) <==> other >= fee.amount
  }

  /** GasFee gives that fee, and no fee exactly when there is none, or none a coin holds. */
  lemma GasFeeIsTheLeast(p: Platform, price: Option<GasPrice>, fee: Coin)
    ensures GasFee(p, price) == Ok(fee) <==>
            && OffersLeast(price, fee)
            && (Unpriced(price) || (fee.amount <= 0x7fff_ffff_ffff_ffff && p.validDenom(fee.denom)))
    ensures GasFee(p, price).Ok? || GasFee(p, price) == Err(BadGasPrice)
  {
    if !Unpriced(price) && price.value.gas > 0 && price.value.price.amount > 0 {
      var gas, amount := price.value.gas, price.value.price.amount;
      var least := RoundedFee(gas, amount);
      forall other
        ensures MeetsWithMargin(other, gas, amount) <==> other >= least
      {
        RoundedFeeIsLeast(gas, amount, other);
      }
      hide MeetsWithMargin, RoundedFee;
      if OffersLeast(price, fee) {
        assert MeetsWithMargin(fee.amount, gas, amount) && MeetsWithMargin(least, gas, amount);
      }
    }
  }

  /** A ugnot price is met by a fee within one gnot exactly when twenty times its amount is at most its
      gas. */
  lemma UgnotPriceWithinCeiling(price: GasPrice, fee: Coin)
    requires price.gas > 0 && price.price.amount > 0 && OffersLeast(Some(price), fee)
    ensures fee.amount <= 1_000_000 <==> 20 * price.price.amount <= price.gas
  {
    assert MeetsWithMargin(1_000_000, price.gas, price.price.amount) <==> 1_000_000 >= fee.amount;
  }
}
