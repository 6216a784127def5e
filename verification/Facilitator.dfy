/** What the facilitator decides about one payment, and what it answers
    (facilitator/exact/facilitator.go, facilitator/exact/verify.go). Calls to the node are
    inputs: each answer type below is what one node method may return. */
module Facilitator {
  import opened Options
  import opened Clock
  import opened Gno
  import opened Account
  import opened Rules
  import opened Settlements

  datatype Reason =
    | MalformedTransaction | UnexpectedMessage | SignatureCount | RecipientMismatch | AmountMismatch
    | MemoMismatch | SimulationFailed | BroadcastFailed | SignatureInvalid | SequenceMismatch
    | InvalidPayload | InvalidNetwork | InvalidRequirements | DuplicateSettlement | SettlementPending

  datatype PaymentPayload = PaymentPayload(accepted: Requirements, payload: Extra)

  /** What a check concluded. An accepted offline check names the sender its message states, unproven
      until a signature verifies; refused is what a refusal may tell of the payer. */
  datatype PaymentCheck =
    | PaymentAccepted(tx: Tx, raw: Bytes, payer: string)
    | PaymentRefused(refused: string, reason: Reason)
    | NoVerdict

  datatype AccountAnswer = AccountRead(account: Option<Account>) | AccountRefused | AccountUnread
  datatype SimulateAnswer = Simulated | SimulateRefused | SimulateUnanswered
  datatype BroadcastAnswer = Admitted(hash: string) | AdmissionRefused | BroadcastUnanswered
  datatype DeliveryAnswer = Delivered | DeliveryAborted | NotSeen

  /** What a settle returns: a success, a refusal, or no verdict. */
  datatype SettleResult =
    | Success(hash: string, payer: string)
    | SettleError(reason: Reason, refused: string, transaction: string)
    | NoVerdictError

  /** The payer and the transaction hash an answer puts on the wire. */
  function WirePayer(res: SettleResult): string {
    match res
    case Success(_, payer) => payer
    case SettleError(_, refused, _) => refused
    case NoVerdictError => ""
  }

  function WireHash(res: SettleResult): string {
    match res
    case Success(hash, _) => hash
    case SettleError(_, _, transaction) => transaction
    case NoVerdictError => ""
  }

  // ---- rules decidable without the chain

  function NetworkOf(chainID: string): string {
    "gno:" + chainID
  }

  predicate AcceptsSameOffer(accepted: Requirements, required: Requirements) {
    && accepted.scheme == required.scheme
    && accepted.network == required.network
    && accepted.payTo == required.payTo
    && accepted.amount == required.amount
    && accepted.asset == required.asset
  }

  function TransactionOf(payload: Extra): Option<string> {
    if "transaction" !in payload then Some("")
    else match payload["transaction"]
      case Text(t) => Some(t)
      case _ => None
  }

  function VerifyStatic(p: Platform, req: Requirements, raw: Bytes): PaymentCheck {
    if raw == [] || p.aminoDecode(raw).None? then PaymentRefused("", MalformedTransaction)
    else
      var tx := p.aminoDecode(raw).value;
      if |tx.signatures| != 1 then PaymentRefused("", SignatureCount)
      else if tx.signatures[0].pubKey.Some? && tx.signatures[0].pubKey.value.Threshold? then
        PaymentRefused("", SignatureCount)
      else if |tx.msgs| != 1 || !tx.msgs[0].Send? then PaymentRefused("", UnexpectedMessage)
      else
        var send := tx.msgs[0];
        if p.addressText(send.to) != req.payTo then PaymentRefused("", RecipientMismatch)
        else
          var want := p.parseCoins(req.amount + req.asset);
          if want.None? || |want.value| != 1 || |send.amount| != 1 || send.amount[0] != want.value[0] then
            PaymentRefused("", AmountMismatch)
          else
            var bound := BoundMemo(req.extra);
            if bound.None? then PaymentRefused("", InvalidRequirements)
            else if bound.value != "" && tx.memo != bound.value then PaymentRefused("", MemoMismatch)
            else PaymentAccepted(tx, raw, p.addressText(send.from))
  }

  function CheckOffline(p: Platform, chainID: string, payload: PaymentPayload, req: Requirements): (check: PaymentCheck)
    ensures Sound(p, check)
    ensures check.PaymentAccepted? ==>
              && TransactionOf(payload.payload).Some?
              && p.base64Decode(TransactionOf(payload.payload).value) == Some(check.raw)
    ensures !check.NoVerdict?
    ensures check.PaymentRefused? ==> check.refused == ""
  {
    if req.network != NetworkOf(chainID) then PaymentRefused("", InvalidNetwork)
    else if !SupportedTerms(req.extra) then PaymentRefused("", InvalidRequirements)
    else if !AcceptsSameOffer(payload.accepted, req) then PaymentRefused("", InvalidPayload)
    else if !SupportedTerms(payload.accepted.extra) then PaymentRefused("", InvalidPayload)
    else if BoundMemo(req.extra).None? then PaymentRefused("", InvalidRequirements)
    else if TransactionOf(payload.payload).None? then PaymentRefused("", MalformedTransaction)
    else
      var raw := p.base64Decode(TransactionOf(payload.payload).value);
      if raw.None? then PaymentRefused("", MalformedTransaction)
      else VerifyStatic(p, req, raw.value)
  }

  /** An accepted check carries the transaction its bytes decode to and the address its one message
      moves coins from. */
  predicate Sound(p: Platform, check: PaymentCheck) {
    check.PaymentAccepted? ==>
      && p.aminoDecode(check.raw) == Some(check.tx)
      && |check.tx.signatures| == 1
      && |check.tx.msgs| == 1 && check.tx.msgs[0].Send?
      && check.payer == p.addressText(check.tx.msgs[0].from)
  }

  lemma SoundHasOneSigner(p: Platform, check: PaymentCheck)
    requires check.PaymentAccepted? && Sound(p, check)
    ensures TxSigner(check.tx) == Some(check.tx.msgs[0].from)
  {
    var msgs := check.tx.msgs;
    assert msgs[..|msgs| - 1] == [];
    assert SignersOf([]) == [];
  }

  // ---- rules only the chain decides

  function VerifyAccountChecks(p: Platform, chainID: string, tx: Tx, answer: AccountAnswer): (Option<Reason>, bool)
    requires |tx.signatures| == 1
  {
    if TxSigner(tx).None? then (Some(SignatureCount), true)
    else match answer
      case AccountUnread => (None, false)
      case AccountRefused => (Some(SimulationFailed), true)
      case AccountRead(account) =>
        match VerifySignature(p, tx, account, TxSigner(tx).value, chainID)
        case Fresh => (None, true)
        case Consumed => (Some(SequenceMismatch), true)
        case Unverifiable => (Some(SignatureInvalid), true)
  }

  /** The first half of checkOnChain: the signer's account decides before anything is simulated.
      Only a signature that verified lets a refusal name the payer. */
  function CheckAccount(p: Platform, chainID: string, offline: PaymentCheck, answer: AccountAnswer): PaymentCheck
    requires offline.PaymentAccepted? && |offline.tx.signatures| == 1
  {
    var (reason, decided) := VerifyAccountChecks(p, chainID, offline.tx, answer);
    if !decided then NoVerdict
    else match reason
      case None => offline
      case Some(why) => PaymentRefused(if why == SequenceMismatch then offline.payer else "", why)
  }

  function CheckSimulation(accepted: PaymentCheck, answer: SimulateAnswer): PaymentCheck
    requires accepted.PaymentAccepted?
  {
    match answer
    case Simulated => accepted
    case SimulateRefused => PaymentRefused(accepted.payer, SimulationFailed)
    case SimulateUnanswered => NoVerdict
  }

  function SettleRefusal(check: PaymentCheck): SettleResult
    requires !check.PaymentAccepted?
  {
    match check
    case NoVerdict => NoVerdictError
    case PaymentRefused(payer, reason) => SettleError(reason, payer, "")
  }

  function Duplicate(prior: Settlement): SettleResult {
    SettleError(DuplicateSettlement, "", prior.hash)
  }

  /** What a broadcast the node did not admit is answered with. */
  function BroadcastRefusal(payer: string, answer: BroadcastAnswer): SettleResult
    requires !answer.Admitted?
  {
    if answer.AdmissionRefused? then SettleError(BroadcastFailed, payer, "") else NoVerdictError
  }

  function Delivery(hash: string, payer: string, answer: DeliveryAnswer): SettleResult {
    match answer
    case Delivered => Success(hash, payer)
    case DeliveryAborted => SettleError(BroadcastFailed, payer, hash)
    case NotSeen => SettleError(SettlementPending, payer, hash)
  }

  // ---- what a settle leaves in the table

  /** record reads only the shape of the result. */
  function Recorded(entries: Entries, key: string, res: SettleResult, now: Time): Entries {
    match res
    case Success(hash, _) => MarkedSettled(entries, key, hash, now)
    case NoVerdictError => Released(entries, key)
    case SettleError(reason, payer, transaction) =>
      if transaction == "" then Released(entries, key)
      else if reason == SettlementPending then MarkedPending(entries, key, payer, transaction, now)
      else MarkedSettled(entries, key, transaction, now)
  }

  /** What the world answers one settle, in the order the settle asks, and whether a call to the
      node panicked instead. */
  datatype Answers = Answers(
    claimedAt: Time, account: AccountAnswer, simulation: SimulateAnswer, ended: bool,
    broadcast: BroadcastAnswer, delivery: DeliveryAnswer, panicked: bool, recordedAt: Time)

  /** settle: check against the chain, broadcast, wait for the delivery. */
  function SettleFresh(p: Platform, chainID: string, offline: PaymentCheck, a: Answers): SettleResult
    requires offline.PaymentAccepted? && |offline.tx.signatures| == 1
  {
    var account := CheckAccount(p, chainID, offline, a.account);
    if !account.PaymentAccepted? then SettleRefusal(account)
    else
      var check := CheckSimulation(account, a.simulation);
      if !check.PaymentAccepted? then SettleRefusal(check)
      else if a.ended then NoVerdictError
      else if !a.broadcast.Admitted? then BroadcastRefusal(check.payer, a.broadcast)
      else Delivery(a.broadcast.hash, check.payer, a.delivery)
  }

  /** One whole Settle, when no other settle takes a step in between; None for one a panic unwound. */
  function SettledAlone(
    p: Platform, chainID: string, entries: Entries, payload: PaymentPayload, req: Requirements, a: Answers)
    : (Option<SettleResult>, Entries)
  {
    var offline := CheckOffline(p, chainID, payload, req);
    if !offline.PaymentAccepted? then (Some(SettleRefusal(offline)), entries)
    else
      var key := p.txHash(offline.raw);
      var claim := Claimed(entries, key, a.claimedAt);
      if !claim.ok then (Some(Duplicate(claim.prior)), claim.entries)
      else if a.panicked then (None, Released(claim.entries, key))
      else
        var res := if claim.prior.state == Pending then Delivery(claim.prior.hash, claim.prior.payer, a.delivery)
                   else SettleFresh(p, chainID, offline, a);
        (Some(res), Recorded(claim.entries, key, res, a.recordedAt))
  }

  class Facilitator {
    const platform: Platform
    const chainID: string
    const settlements: SettlementTable

    constructor (platform: Platform, chainID: string)
      ensures this.platform == platform && this.chainID == chainID
      ensures fresh(settlements) && settlements.entries == map[]
    {
      this.platform := platform;
      this.chainID := chainID;
      settlements := new SettlementTable();
    }

    method Record(key: string, res: SettleResult, now: Time)
      modifies settlements
      ensures settlements.entries == Recorded(old(settlements.entries), key, res, now)
    {
      match res
      case Success(hash, _) => settlements.MarkSettled(key, hash, now);
      case NoVerdictError => settlements.Release(key);
      case SettleError(reason, payer, transaction) =>
        if transaction == "" {
          settlements.Release(key);
        } else if reason == SettlementPending {
          settlements.MarkPending(key, payer, transaction, now);
        } else {
          settlements.MarkSettled(key, transaction, now);
        }
    }

    /** Settle, answered by a. The deferred release frees the claim on the way out unless a record
        was made, which only a panic prevents. */
    method Settle(payload: PaymentPayload, req: Requirements, a: Answers) returns (answer: Option<SettleResult>)
      modifies settlements
      ensures (answer, settlements.entries)
           == SettledAlone(platform, chainID, old(settlements.entries), payload, req, a)
    {
      var offline := CheckOffline(platform, chainID, payload, req);
      if !offline.PaymentAccepted? {
        return Some(SettleRefusal(offline));
      }
      var key := platform.txHash(offline.raw);
      var prior, ok := settlements.Claim(key, a.claimedAt);
      if !ok {
        return Some(Duplicate(prior));
      }
      var recorded := false;
      answer := None;
      if !a.panicked {
        var res;
        if prior.state == Pending {
          res := Delivery(prior.hash, prior.payer, a.delivery);
        } else {
          res := SettleFresh(platform, chainID, offline, a);
        }
        Record(key, res, a.recordedAt);
        recorded := true;
        answer := Some(res);
      }
      if !recorded {
        settlements.Release(key);
      }
    }
  }
}
