/** What the facilitator's verdicts mean, stated apart from the order its checks run in. */
module OfflineRules {
  import opened Options
  import opened Gno
  import opened Account
  import opened Rules
  import opened Facilitator
  import opened Client
  import opened Agreement
  import opened Decimal

  /** A reserved key names nothing, or the one thing this mechanism implements. */
  predicate NamesOnly(extra: Extra, key: string, name: string) {
    key !in extra || extra[key] == Null || extra[key] == Text(name)
  }

  predicate Implemented(extra: Extra) {
    NamesOnly(extra, "assetTransferMethod", "bank-send") && NamesOnly(extra, "paymentFlow", "authorization")
  }

  /** The memo the terms bind is one a transaction may carry. */
  predicate MemoUsable(extra: Extra) {
    "memo" in extra ==> extra["memo"].Text? && |extra["memo"].text| <= 256
  }

  /** The bytes are a payment of exactly this offer on this chain: one signature by one key, one send
      of exactly the offer's coin to its payee, under the memo it binds if it binds one. */
  predicate PaysTheOffer(p: Platform, chainID: string, req: Requirements, raw: Bytes, tx: Tx) {
    && req.network == "gno:" + chainID && Implemented(req.extra)
    && raw != [] && p.aminoDecode(raw) == Some(tx)
    && |tx.signatures| == 1 && !(tx.signatures[0].pubKey.Some? && tx.signatures[0].pubKey.value.Threshold?)
    && |tx.msgs| == 1 && tx.msgs[0].Send?
    && p.addressText(tx.msgs[0].to) == req.payTo
    && |tx.msgs[0].amount| == 1 && p.parseCoins(req.amount + req.asset) == Some([tx.msgs[0].amount[0]])
    && MemoUsable(req.extra) && ("memo" in req.extra ==> req.extra["memo"].text in {"", tx.memo})
  }

  /** What the payload accepted is the offer, but for its timeout and what else either side knows. */
  predicate SameOffer(accepted: Requirements, req: Requirements) {
    accepted.(maxTimeoutSeconds := req.maxTimeoutSeconds, extra := req.extra) == req
  }

  /** The payload answers this offer, under terms it may answer it under. */
  predicate AnswersTheOffer(payload: PaymentPayload, req: Requirements) {
    SameOffer(payload.accepted, req) && Implemented(payload.accepted.extra)
  }

  /** The payload carries these bytes. */
  predicate Carries(p: Platform, payload: PaymentPayload, raw: Bytes) {
    var text := if "transaction" in payload.payload then payload.payload["transaction"] else Text("");
    text.Text? && p.base64Decode(text.text) == Some(raw)
  }

  /** The offline rules accept exactly the payments of the offer: nothing else reaches the chain,
      and nothing that pays the offer is held back. */
  lemma OfflineAcceptsExactlyPayments(
    p: Platform, chainID: string, payload: PaymentPayload, req: Requirements, raw: Bytes, tx: Tx)
    ensures (CheckOffline(p, chainID, payload, req).PaymentAccepted?
             && CheckOffline(p, chainID, payload, req).raw == raw && CheckOffline(p, chainID, payload, req).tx == tx)
            <==> (AnswersTheOffer(payload, req) && Carries(p, payload, raw) && PaysTheOffer(p, chainID, req, raw, tx))
  {
    var coins := p.parseCoins(req.amount + req.asset);
    if coins.Some? && |coins.value| == 1 {
      assert coins.value == [coins.value[0]];
    }
  }

  // ---- why a payment is refused

  /** A rule and the reason a payment that breaks it is refused with. */
  datatype Rule = Rule(holds: bool, reason: Reason)

  /** The transaction the payload's bytes decode to. */
  function Decoded(p: Platform, payload: PaymentPayload): Option<Tx> {
    var text := if "transaction" in payload.payload then payload.payload["transaction"] else Text("");
    if !text.Text? || p.base64Decode(text.text) in {None, Some([])} then None
    else p.aminoDecode(p.base64Decode(text.text).value)
  }

  predicate OneSend(tx: Tx) {
    |tx.msgs| == 1 && tx.msgs[0].Send?
  }

  /** The rules of the envelope, in the order their reasons take precedence. */
  function EnvelopeRules(p: Platform, chainID: string, payload: PaymentPayload, req: Requirements): seq<Rule> {
    [ Rule(req.network == "gno:" + chainID, InvalidNetwork),
      Rule(Implemented(req.extra), InvalidRequirements),
      Rule(SameOffer(payload.accepted, req), InvalidPayload),
      Rule(Implemented(payload.accepted.extra), InvalidPayload),
      Rule(MemoUsable(req.extra), InvalidRequirements),
      Rule(Decoded(p, payload).Some?, MalformedTransaction) ]
  }

  /** And then those of the transaction it carries. */
  function TransactionRules(p: Platform, req: Requirements, tx: Tx): seq<Rule> {
    [ Rule(|tx.signatures| == 1 && forall s :: s in tx.signatures && s.pubKey.Some? ==> s.pubKey.value.Single?,
           SignatureCount),
      Rule(OneSend(tx), UnexpectedMessage),
      Rule(OneSend(tx) ==> p.addressText(tx.msgs[0].to) == req.payTo, RecipientMismatch),
      Rule(OneSend(tx) ==> |tx.msgs[0].amount| == 1 && p.parseCoins(req.amount + req.asset) == Some(tx.msgs[0].amount),
           AmountMismatch),
      Rule(MemoUsable(req.extra), InvalidRequirements),
      Rule("memo" in req.extra ==> req.extra["memo"] in {Text(""), Text(tx.memo)}, MemoMismatch) ]
  }

  /** The first rule broken, or the number of rules when all hold. */
  function FirstBroken(rules: seq<Rule>): (i: nat)
    ensures i <= |rules| && (i < |rules| ==> !rules[i].holds) && forall j :: 0 <= j < i ==> rules[j].holds
  {
    if rules == [] || !rules[0].holds then 0
    else
      var i := FirstBroken(rules[1..]);
      assert forall j :: 0 < j < i + 1 ==> rules[j] == rules[1..][j - 1];
      i + 1
  }

  /** What six rules say of the check: the first broken one's reason, or what follows when none is. */
  predicate Decides(rules: seq<Rule>, check: PaymentCheck, otherwise: bool) {
    var i := FirstBroken(rules);
    if i == |rules| then otherwise else check == PaymentRefused("", rules[i].reason)
  }

  lemma {:induction false} DecidesByCases(rules: seq<Rule>, check: PaymentCheck, otherwise: bool)
    requires |rules| == 6
    ensures Decides(rules, check, otherwise) ==
            if !rules[0].holds then check == PaymentRefused("", rules[0].reason)
            else if !rules[1].holds then check == PaymentRefused("", rules[1].reason)
            else if !rules[2].holds then check == PaymentRefused("", rules[2].reason)
            else if !rules[3].holds then check == PaymentRefused("", rules[3].reason)
            else if !rules[4].holds then check == PaymentRefused("", rules[4].reason)
            else if !rules[5].holds then check == PaymentRefused("", rules[5].reason)
            else otherwise
  {
    hide FirstBroken;
    var i := FirstBroken(rules);
    assert (i > 0 ==> rules[0].holds) && (i > 1 ==> rules[1].holds) && (i > 2 ==> rules[2].holds);
    assert (i > 3 ==> rules[3].holds) && (i > 4 ==> rules[4].holds) && (i > 5 ==> rules[5].holds);
  }

  lemma StaticReason(p: Platform, req: Requirements, raw: Bytes, tx: Tx)
    requires raw != [] && p.aminoDecode(raw) == Some(tx)
    ensures var check := VerifyStatic(p, req, raw);
            Decides(TransactionRules(p, req, tx), check, check.PaymentAccepted?)
  {
    var check := VerifyStatic(p, req, raw);
    DecidesByCases(TransactionRules(p, req, tx), check, check.PaymentAccepted?);
    hide Decides;
    if |tx.signatures| == 1 {
      assert tx.signatures == [tx.signatures[0]];
    }
    if OneSend(tx) && |tx.msgs[0].amount| == 1 {
      assert tx.msgs[0].amount == [tx.msgs[0].amount[0]];
      var want := p.parseCoins(req.amount + req.asset);
      assert want.Some? && |want.value| == 1 ==> want.value == [want.value[0]];
    }
  }

  /** A payment is accepted offline when it breaks no rule, and refused with the reason of the first
      one it breaks otherwise. */
  lemma RefusedForTheFirstBrokenRule(p: Platform, chainID: string, payload: PaymentPayload, req: Requirements)
    ensures var check := CheckOffline(p, chainID, payload, req);
            Decides(EnvelopeRules(p, chainID, payload, req), check,
                    Decoded(p, payload).Some?
                    && Decides(TransactionRules(p, req, Decoded(p, payload).value), check, check.PaymentAccepted?))
  {
    var check := CheckOffline(p, chainID, payload, req);
    var decoded := Decoded(p, payload);
    var otherwise := decoded.Some? && Decides(TransactionRules(p, req, decoded.value), check, check.PaymentAccepted?);
    DecidesByCases(EnvelopeRules(p, chainID, payload, req), check, otherwise);
    if decoded.Some? {
      StaticReason(p, req, p.base64Decode(TransactionOf(payload.payload).value).value, decoded.value);
    }
    hide Decides, VerifyStatic, TransactionRules;
  }

  // ---- the payer's half

  /** A CAIP-2 network reference: the Syntax section's [-_a-zA-Z0-9]{1,32}, in ASCII codes. */
  predicate Reference(s: string) {
    && 1 <= |s| <= 32
    && forall i :: 0 <= i < |s| ==>
         s[i] in "-_" || 0x30 <= s[i] as int <= 0x39 || 0x41 <= s[i] as int <= 0x5A || 0x61 <= s[i] as int <= 0x7A
  }

  predicate LowerOrDigit(c: char) {
    0x61 <= c as int <= 0x7A || 0x30 <= c as int <= 0x39
  }

  /** tm2's coin denomination: [a-z/][a-z0-9_.:/-]{2,273}, in ASCII codes. */
  predicate CoinName(s: string) {
    && 3 <= |s| <= 274 && (0x61 <= s[0] as int <= 0x7A || s[0] == '/')
    && forall i :: 0 < i < |s| ==> LowerOrDigit(s[i]) || s[i] in "_.:/-"
  }

  /** An offer the payer's half may sign for, and the terms it signs. */
  predicate Signable(p: Platform, req: Requirements, terms: Terms) {
    && req.scheme == "exact"
    && Reference(terms.chainID) && req.network == "gno:" + terms.chainID
    && CoinName(req.asset) && Digits(req.amount) && req.amount != "" && req.amount[0] != '0'
    && p.parseCoins(req.amount + req.asset) == Some([terms.price])
    && terms.payTo != ZERO_ADDRESS && req.payTo != ""
    && p.addressOf(req.payTo) == Some(terms.payTo) && p.addressText(terms.payTo) == req.payTo
    && Implemented(req.extra) && MemoUsable(req.extra)
    && terms.memo == (if "memo" in req.extra then req.extra["memo"].text else "")
  }

  /** The payer's half takes exactly the signable offers, on exactly those terms. */
  lemma PayerTakesExactlySignableOffers(p: Platform, req: Requirements, terms: Terms)
    ensures ReadTerms(p, req) == Ok(terms) <==> Signable(p, req, terms)
  {
    NetworkNamesChain(req.network, terms.chainID);
    var coins := p.parseCoins(req.amount + req.asset);
    if coins.Some? && |coins.value| == 1 {
      assert coins.value == [coins.value[0]];
    }
  }

  /** An offer the payer's half will sign for is never blamed by the facilitator of its chain,
      whatever payload answers it. */
  lemma SignableOfferIsNeverBlamed(p: Platform, chainID: string, payload: PaymentPayload, req: Requirements)
    requires ReadTerms(p, req).Ok? && req.network == NetworkOf(chainID)
    ensures var check := CheckOffline(p, chainID, payload, req);
            check.PaymentRefused? ==> check.reason !in {InvalidNetwork, InvalidRequirements}
  {
  }

  // ---- what the account decides

  /** The signature is one this account's key made over the payment at this sequence: the key the
      account stores, which the payment may repeat, or, for an account that stores none yet, the key
      the payment carries when it is the signer's own. */
  predicate SignedAt(p: Platform, chainID: string, tx: Tx, signer: Address, account: Account, sequence: int)
    requires |tx.signatures| == 1
  {
    var Signature(carried, seal, _) := tx.signatures[0];
    && sequence >= 0 && seal.Sealed?
    && seal.doc == SignDoc(chainID, account.number, sequence, tx.fee, tx.msgs, tx.memo)
    && (if account.pubKey.Some? then account.pubKey == Some(seal.key) && carried in {None, account.pubKey}
        else carried == Some(seal.key) && p.keyAddress(seal.key) == signer)
  }

  /** An account was read, and the payment is signed at its sequence, or so many before it. */
  predicate ReadSigned(p: Platform, chainID: string, tx: Tx, answer: AccountAnswer, before: nat)
    requires |tx.signatures| == 1 && OneSend(tx)
  {
    && answer.AccountRead? && answer.account.Some?
    && var account := answer.account.value;
    SignedAt(p, chainID, tx, tx.msgs[0].from, account, account.sequence - before)
  }

  /** A transaction that not exactly one address authorizes is refused for it, whatever is read. */
  lemma OneSignerOnly(p: Platform, chainID: string, tx: Tx, answer: AccountAnswer)
    requires |tx.signatures| == 1
    ensures VerifyAccountChecks(p, chainID, tx, answer) == (Some(SignatureCount), true) <==> |tx.Signers()| != 1
  {
  }

  /** What each account verdict establishes, and that it is given whenever it is established. The
      payment goes on exactly when it is signed at the account's sequence; it is a mismatch naming the
      payer exactly when it is signed at the one before; it is a bad signature naming no one exactly
      when the account was read and neither holds; and no verdict means no account was read. */
  lemma AccountVerdictsMean(p: Platform, chainID: string, offline: PaymentCheck, answer: AccountAnswer)
    requires offline.PaymentAccepted? && Sound(p, offline)
    ensures var check := CheckAccount(p, chainID, offline, answer);
            var current := ReadSigned(p, chainID, offline.tx, answer, 0);
            var consumed := ReadSigned(p, chainID, offline.tx, answer, 1);
            && (check == offline <==> current) && (check.PaymentAccepted? <==> current)
            && (check == PaymentRefused(offline.payer, SequenceMismatch) <==> consumed)
            && (check.PaymentRefused? && check.reason == SequenceMismatch ==> consumed)
            && (check == PaymentRefused("", SignatureInvalid) <==> answer.AccountRead? && !current && !consumed)
            && (check == PaymentRefused("", SimulationFailed) <==> answer == AccountRefused)
            && (check == NoVerdict <==> answer == AccountUnread)
  {
    SoundHasOneSigner(p, offline);
  }

  /** A payment that was fresh is answered as consumed, naming the payer, once its account has moved
      on by one sequence, and as a bad signature, naming no one, ever after. */
  lemma StaleAnswers(p: Platform, chainID: string, offline: PaymentCheck, account: Account, k: nat)
    requires offline.PaymentAccepted? && Sound(p, offline) && k > 0
    requires CheckAccount(p, chainID, offline, AccountRead(Some(account))) == offline
    ensures var key := SigningKey(p, offline.tx.signatures[0], account, offline.tx.msgs[0].from).value;
            CheckAccount(p, chainID, offline, AccountRead(Some(Advanced(account, key, k))))
              == (if k == 1 then PaymentRefused(offline.payer, SequenceMismatch)
                  else PaymentRefused("", SignatureInvalid))
  {
    SoundHasOneSigner(p, offline);
    FreshThenConsumedThenUnverifiable(p, offline.tx, account, offline.tx.msgs[0].from, chainID, k);
  }
}
