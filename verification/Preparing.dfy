/** Exactly which payments the payer's half builds, and which it completes, stated apart from the order
    its checks run in (client/exact/scheme.go:257-304, :422-515). */
module Preparing {
  import opened Options
  import opened Gno
  import opened Rules
  import opened Decimal
  import opened Client
  import opened Agreement
  import opened OfflineRules
  import opened FeeArithmetic

  /** The cap allows the price, or caps nothing. */
  predicate CapAllows(cap: string, price: int) {
    cap == "" || (AtomicAmount(cap) && price <= Number(cap))
  }

  /** The session account the key signs for when a master pays. */
  function SessionOf(p: Platform, pub: PubKey, master: Address): Address {
    if master != ZERO_ADDRESS then p.keyAddress(pub) else ZERO_ADDRESS
  }

  /** The payment of an offer's terms: one send of exactly the price from the payer to the payee, under
      the memo the offer binds, for ten million gas at the least fee that meets the reported price
      twice over and within one gnot, at the account and the chain the node reports. */
  ghost predicate PaymentFor(
    p: Platform, node: Option<NodeAnswers>, pub: Option<PubKey>, master: Address, req: Requirements, cap: string,
    terms: Terms, payment: Payment)
  {
    && Signable(p, req, terms) && CapAllows(cap, terms.price.amount)
    && pub.Some? && pub.value.Single? && node.Some? && node.value.chainID == Some(terms.chainID)
    && var send := Send(PayerOf(p, pub.value, master), terms.payTo, [terms.price]);
    var fee := payment.tx.fee.gasFee;
    && p.validSend(send)
    && node.value.gasPrice.Some? && OffersLeast(node.value.gasPrice.value, fee)
    && fee.denom == "ugnot" && fee.amount <= 1_000_000
    && (Unpriced(node.value.gasPrice.value) || p.validDenom("ugnot"))
    && node.value.account.Some? && node.value.account.value.Some?
    && var account := node.value.account.value.value;
    payment == Payment(Tx([send], Fee(10_000_000, fee), [], terms.memo), terms.chainID, account.number,
                       account.sequence, pub, SessionOf(p, pub.value, master))
  }

  /** Prepare builds exactly that payment, whenever there is one. */
  lemma PrepareBuildsExactly(
    p: Platform, node: Option<NodeAnswers>, pub: Option<PubKey>, master: Address, req: Requirements, cap: string,
    terms: Terms, payment: Payment)
    ensures (Prepare(p, node, pub, master, req, cap) == Ok(payment) && ReadTerms(p, req) == Ok(terms))
            <==> PaymentFor(p, node, pub, master, req, cap, terms, payment)
  {
    PayerTakesExactlySignableOffers(p, req, terms);
    if node.Some? && node.value.gasPrice.Some? {
      GasFeeIsTheLeast(p, node.value.gasPrice.value, payment.tx.fee.gasFee);
    }
    hide Signable, ReadTerms, OffersLeast, GasFee;
  }

  /** Nothing is built for an offer that is not signable, and that is the refusal given for it alone. */
  lemma OffersRefused(
    p: Platform, node: Option<NodeAnswers>, pub: Option<PubKey>, master: Address, req: Requirements, cap: string)
    ensures Prepare(p, node, pub, master, req, cap) == Err(RequirementsRefused) <==>
            forall terms :: !Signable(p, req, terms)
  {
    if ReadTerms(p, req).Ok? {
      PayerTakesExactlySignableOffers(p, req, ReadTerms(p, req).value);
    } else {
      forall terms
        ensures !Signable(p, req, terms)
      {
        PayerTakesExactlySignableOffers(p, req, terms);
      }
    }
    assert ReadTerms(p, req).Err? ==> ReadTerms(p, req).why == RequirementsRefused;
    hide Signable, ReadTerms;
    if node.Some? && node.value.gasPrice.Some? {
      GasFeeIsTheLeast(p, node.value.gasPrice.value, UNPRICED_GAS_FEE);
    }
  }

  /** A price is refused as above the cap exactly when the cap is a whole number below it. */
  lemma PricesAboveTheCapAreRefused(
    p: Platform, node: Option<NodeAnswers>, pub: Option<PubKey>, master: Address, req: Requirements, cap: string,
    terms: Terms)
    requires Signable(p, req, terms)
    ensures Prepare(p, node, pub, master, req, cap) == Err(ExceedsSpendCap) <==>
            AtomicAmount(cap) && terms.price.amount > Number(cap)
    ensures Prepare(p, node, pub, master, req, cap) == Err(CapMalformed) <==> cap != "" && !AtomicAmount(cap)
  {
    PayerTakesExactlySignableOffers(p, req, terms);
    hide Signable, ReadTerms;
    if node.Some? && node.value.gasPrice.Some? {
      GasFeeIsTheLeast(p, node.value.gasPrice.value, UNPRICED_GAS_FEE);
    }
  }

  /** Once the offer, the cap, the key and the chain are right, a fee is refused as excessive exactly
      when the one the reported price asks for is in another coin or above one gnot. */
  lemma ExcessiveFeesAreRefused(
    p: Platform, node: NodeAnswers, pub: PubKey, master: Address, req: Requirements, cap: string, terms: Terms,
    price: Option<GasPrice>, fee: Coin)
    requires Signable(p, req, terms) && CapAllows(cap, terms.price.amount) && pub.Single?
    requires node.chainID == Some(terms.chainID) && node.gasPrice == Some(price)
    requires OffersLeast(price, fee) && (Unpriced(price) || (fee.amount <= MAX_INT64 && p.validDenom(fee.denom)))
    ensures Prepare(p, Some(node), Some(pub), master, req, cap) == Err(ExcessiveFee) <==>
            fee.denom != "ugnot" || fee.amount > 1_000_000
  {
    PayerTakesExactlySignableOffers(p, req, terms);
    GasFeeIsTheLeast(p, price, fee);
    hide Signable, ReadTerms, OffersLeast, GasFee;
  }

  /** A payment that is built at no reported price is built at a ugnot price exactly when twenty times
      its amount is at most its gas. */
  lemma UgnotPriceAdmitted(
    p: Platform, node: NodeAnswers, pub: PubKey, master: Address, req: Requirements, cap: string, price: GasPrice)
    requires price.gas > 0 && price.price.amount > 0 && price.price.denom == "ugnot" && p.validDenom("ugnot")
    requires Prepare(p, Some(node.(gasPrice := Some(None))), Some(pub), master, req, cap).Ok?
    ensures Prepare(p, Some(node.(gasPrice := Some(Some(price)))), Some(pub), master, req, cap).Ok? <==>
            20 * price.price.amount <= price.gas
  {
    var fee := Coin("ugnot", RoundedFee(price.gas, price.price.amount));
    forall other
      ensures MeetsWithMargin(other, price.gas, price.price.amount) <==> other >= fee.amount
    {
      RoundedFeeIsLeast(price.gas, price.price.amount, other);
    }
    UgnotPriceWithinCeiling(price, fee);
    hide MeetsWithMargin, RoundedFee, ReadTerms;
    GasFeeIsTheLeast(p, Some(price), fee);
  }

  /** The account whose key has to make the signature: the session's when there is one, else the
      sender's. */
  function SignedFor(payment: Payment): Address {
    if payment.sessionAddr == ZERO_ADDRESS && OneSend(payment.tx) then payment.tx.msgs[0].from else payment.sessionAddr
  }

  /** A payment is completed exactly by a signature of its key over its own sign document, in either
      rendering, where the key is the signing account's and the result a transaction the chain takes;
      and what is handed over encodes that transaction. */
  lemma CompletesExactly(p: Platform, payment: Payment, seal: Seal, payload: Extra)
    ensures Complete(p, payment, seal) == Ok(payload) <==>
            && payment.key.Some? && p.keyAddress(payment.key.value) == SignedFor(payment)
            && seal.Sealed? && seal.key == payment.key.value
            && seal.doc == SignDoc(payment.chainID, payment.number, payment.sequence, payment.tx.fee,
                                   payment.tx.msgs, payment.tx.memo)
            && var tx := Tx(payment.tx.msgs, payment.tx.fee,
                            [Signature(payment.key, seal, payment.sessionAddr)], payment.tx.memo);
            && p.validTx(tx) && p.aminoEncode(tx).Some?
            && payload == map["transaction" := Text(p.base64Encode(p.aminoEncode(tx).value))]
  {
  }
}
