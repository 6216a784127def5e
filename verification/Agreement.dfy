/** The payer and the facilitator agree: whatever the payer's half signs for an offer, the
    facilitator's half accepts under that offer. */
module Agreement {
  import opened Options
  import opened Gno
  import opened Account
  import opened Rules
  import opened Settlements
  import opened Facilitator
  import opened Client
  import opened Decimal

  /** The network string and the chain id name each other. */
  lemma {:induction false} CutAtFirstColon(s: string)
    ensures var (before, after) := CutAtColon(s);
            ':' !in before && (if ':' in s then s == before + ":" + after else s == before && after == "")
  {
    if s != [] && s[0] != ':' {
      CutAtFirstColon(s[1..]);
      assert s == [s[0]] + s[1..];
    }
  }

  lemma {:induction false} CutUndoesJoin(before: string, after: string)
    requires ':' !in before
    ensures CutAtColon(before + ":" + after) == (before, after)
  {
    var s := before + ":" + after;
    if before == [] {
      assert s[1..] == after;
    } else {
      assert s[1..] == before[1..] + ":" + after;
      assert before == [before[0]] + before[1..];
      CutUndoesJoin(before[1..], after);
    }
  }

  /** A network names a chain exactly when it is what the facilitator of that chain serves. */
  lemma NetworkNamesChain(network: string, chainID: string)
    ensures ChainIDOf(network) == Some(chainID) <==> ValidChainID(chainID) && network == NetworkOf(chainID)
  {
    CutAtFirstColon(network);
    CutUndoesJoin("gno", chainID);
    assert NetworkOf(chainID) == "gno" + ":" + chainID;
  }

  /** The whole payment, as upstream's client wraps it. */
  function Wrapped(req: Requirements, payload: Extra): PaymentPayload {
    PaymentPayload(req, payload)
  }

  /** The address the payment moves coins from. */
  function PayerOf(p: Platform, pub: PubKey, master: Address): Address {
    if master != ZERO_ADDRESS then master else p.keyAddress(pub)
  }

  /** The account the chain verifies the signature against stores a key that admits this one: the
      same key, or none yet for a payer's own account. */
  predicate KeyAdmitted(p: Platform, account: Account, pub: PubKey, master: Address) {
    || account.pubKey == Some(pub)
    || (account.pubKey == None && p.keyAddress(pub) == PayerOf(p, pub, master))
  }

  /** What Prepare and Complete put in the transaction. */
  lemma SignedTransaction(
    p: Platform, node: NodeAnswers, pub: PubKey, master: Address, req: Requirements, cap: string, seal: Seal)
    requires Prepare(p, Some(node), Some(pub), master, req, cap).Ok?
    requires Complete(p, Prepare(p, Some(node), Some(pub), master, req, cap).value, seal).Ok?
    ensures var payment := Prepare(p, Some(node), Some(pub), master, req, cap).value;
            var tx := payment.tx.(signatures := [Signature(Some(pub), seal, payment.sessionAddr)]);
            var raw := p.aminoEncode(tx);
            var terms := ReadTerms(p, req).value;
            && raw.Some?
            && Complete(p, payment, seal).value == map["transaction" := Text(p.base64Encode(raw.value))]
            && tx.msgs == [Send(PayerOf(p, pub, master), terms.payTo, [terms.price])]
            && seal.Sealed? && seal.key == pub && seal.doc == tx.Doc(payment.chainID, payment.number, payment.sequence)
  {
  }

  /** Every payment built for an offer passes the offline rules of a facilitator under that same
      offer exactly when the facilitator serves the chain the offer names; and accepted, it names the
      payer the coins move from. */
  lemma BuiltPaymentPassesOffline(
    p: Platform, chainID: string, node: NodeAnswers, pub: PubKey, master: Address, req: Requirements, cap: string,
    seal: Seal)
    requires p.RoundTrips()
    requires Prepare(p, Some(node), Some(pub), master, req, cap).Ok?
    requires Complete(p, Prepare(p, Some(node), Some(pub), master, req, cap).value, seal).Ok?
    ensures var payment := Prepare(p, Some(node), Some(pub), master, req, cap).value;
            var check := CheckOffline(p, chainID, Wrapped(req, Complete(p, payment, seal).value), req);
            && (check.PaymentAccepted? <==> chainID == payment.chainID)
            && (check.PaymentAccepted? ==>
                  && check.payer == p.addressText(PayerOf(p, pub, master))
                  && check.tx == payment.tx.(signatures := [Signature(Some(pub), seal, payment.sessionAddr)]))
  {
    SignedTransaction(p, node, pub, master, req, cap, seal);
    var payment := Prepare(p, Some(node), Some(pub), master, req, cap).value;
    NetworkNamesChain(req.network, payment.chainID);
    assert NetworkOf(chainID)[4..] == chainID && NetworkOf(payment.chainID)[4..] == payment.chainID;
    assert (req.network == NetworkOf(chainID)) <==> chainID == payment.chainID;
    var tx := payment.tx.(signatures := [Signature(Some(pub), seal, payment.sessionAddr)]);
    var raw := p.aminoEncode(tx).value;
    assert p.aminoDecode(raw) == Some(tx) && raw != [];
    assert p.base64Decode(p.base64Encode(raw)) == Some(raw);
    StaticRulesPass(p, req, tx, raw);
    var payload := Wrapped(req, Complete(p, payment, seal).value);
    assert TransactionOf(payload.payload) == Some(p.base64Encode(raw));
    assert AcceptsSameOffer(payload.accepted, req);
  }

  /** The static rules, met one by one by a send of the terms' price to their payee. */
  lemma StaticRulesPass(p: Platform, req: Requirements, tx: Tx, raw: Bytes)
    requires ReadTerms(p, req).Ok?
    requires raw != [] && p.aminoDecode(raw) == Some(tx)
    requires |tx.signatures| == 1 && (tx.signatures[0].pubKey.Some? ==> tx.signatures[0].pubKey.value.Single?)
    requires |tx.msgs| == 1 && tx.msgs[0].Send?
    requires tx.msgs[0].to == ReadTerms(p, req).value.payTo && tx.msgs[0].amount == [ReadTerms(p, req).value.price]
    requires tx.memo == ReadTerms(p, req).value.memo
    ensures VerifyStatic(p, req, raw) == PaymentAccepted(tx, raw, p.addressText(tx.msgs[0].from))
  {
  }

  /** While the account the payer read is unchanged, the payment's signature is fresh exactly when
      the account admits the key: always for a payer's own key the account stores or has yet to
      store, and for a session key exactly when its session account stores that key. */
  lemma BuiltPaymentIsFresh(
    p: Platform, node: NodeAnswers, pub: PubKey, master: Address, req: Requirements, cap: string, seal: Seal,
    account: Account)
    requires Prepare(p, Some(node), Some(pub), master, req, cap).Ok?
    requires Complete(p, Prepare(p, Some(node), Some(pub), master, req, cap).value, seal).Ok?
    requires account.number == node.account.value.value.number && account.sequence == node.account.value.value.sequence
    ensures var payment := Prepare(p, Some(node), Some(pub), master, req, cap).value;
            var tx := payment.tx.(signatures := [Signature(Some(pub), seal, payment.sessionAddr)]);
            && TxSigner(tx) == Some(PayerOf(p, pub, master))
            && ((VerifySignature(p, tx, Some(account), TxSigner(tx).value, payment.chainID) == Fresh) <==>
                KeyAdmitted(p, account, pub, master))
  {
    SignedTransaction(p, node, pub, master, req, cap, seal);
    var payment := Prepare(p, Some(node), Some(pub), master, req, cap).value;
    var tx := payment.tx.(signatures := [Signature(Some(pub), seal, payment.sessionAddr)]);
    var decoder := p.(aminoDecode := (_: Bytes) => Some(tx));
    SoundHasOneSigner(decoder, PaymentAccepted(tx, [], p.addressText(tx.msgs[0].from)));
    assert tx.Doc(payment.chainID, account.number, account.sequence) == seal.doc;
  }

  /** End to end: a payment built for an offer settles at the facilitator of the offer's chain, and
      is answered with the payer its coins move from, when the account admits the key and the node
      simulates, admits and delivers it and the table holds nothing of it. What the facilitator so
      broadcasts is within what the payer allowed: its spend cap, when there is one, and the fee
      ceiling, on the chain its own node serves. */
  lemma BuiltPaymentSettles(
    p: Platform, node: NodeAnswers, pub: PubKey, master: Address, req: Requirements, cap: string, seal: Seal,
    account: Account, entries: Entries, a: Answers)
    requires p.RoundTrips()
    requires Prepare(p, Some(node), Some(pub), master, req, cap).Ok?
    requires Complete(p, Prepare(p, Some(node), Some(pub), master, req, cap).value, seal).Ok?
    requires account.number == node.account.value.value.number && account.sequence == node.account.value.value.sequence
    requires KeyAdmitted(p, account, pub, master)
    requires a.account == AccountRead(Some(account)) && a.simulation == Simulated && !a.ended
    requires a.broadcast.Admitted? && a.delivery == Delivered && !a.panicked
    requires var payment := Prepare(p, Some(node), Some(pub), master, req, cap).value;
             var offline := CheckOffline(p, payment.chainID, Wrapped(req, Complete(p, payment, seal).value), req);
             offline.PaymentAccepted? ==> p.txHash(offline.raw) !in entries
    ensures var payment := Prepare(p, Some(node), Some(pub), master, req, cap).value;
            SettledAlone(p, payment.chainID, entries, Wrapped(req, Complete(p, payment, seal).value), req, a).0
              == Some(Success(a.broadcast.hash, p.addressText(PayerOf(p, pub, master))))
    ensures var payment := Prepare(p, Some(node), Some(pub), master, req, cap).value;
            var tx := CheckOffline(p, payment.chainID, Wrapped(req, Complete(p, payment, seal).value), req).tx;
            && node.chainID == Some(payment.chainID)
            && (cap != "" ==> AtomicAmount(cap) && tx.msgs[0].amount[0].amount <= Number(cap))
            && tx.fee.gasFee.denom == MAX_GAS_FEE.denom && tx.fee.gasFee.amount <= MAX_GAS_FEE.amount
  {
    var payment := Prepare(p, Some(node), Some(pub), master, req, cap).value;
    BuiltPaymentPassesOffline(p, payment.chainID, node, pub, master, req, cap, seal);
    BuiltPaymentIsFresh(p, node, pub, master, req, cap, seal, account);
    var offline := CheckOffline(p, payment.chainID, Wrapped(req, Complete(p, payment, seal).value), req);
    assert CheckAccount(p, payment.chainID, offline, a.account) == offline;
    assert Lookup(Sweep(entries, a.claimedAt), p.txHash(offline.raw)) == NO_SETTLEMENT;
  }
}
