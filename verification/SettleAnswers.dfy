/** What one settle answers and leaves recorded, for every answer the node may give it
    (facilitator/exact/facilitator.go:153-252). */
module SettleAnswers {
  import opened Options
  import opened Clock
  import opened Gno
  import opened Rules
  import opened Settlements
  import opened Facilitator
  import opened OfflineRules

  /** The table holds nothing of the payment, or a record of it that has expired. */
  predicate Unrecorded(entries: Entries, key: string, now: Time) {
    key in entries ==> entries[key].state in {Settled, Pending} && now - entries[key].at > SETTLEMENT_TTL
  }

  /** Every other payment's entry is kept, unless it has expired. */
  ghost predicate OthersKept(entries: Entries, after: Entries, key: string, now: Time) {
    forall k :: k != key ==>
      && (k in after <==> k in entries && (entries[k].state == Settling || now - entries[k].at <= SETTLEMENT_TTL))
      && (k in after ==> after[k] == entries[k])
  }

  /** The settle was given this answer and left no record. */
  predicate Released(out: (Option<SettleResult>, Entries), key: string, res: SettleResult) {
    out.0 == Some(res) && key !in out.1
  }

  /** The settle was given this answer and left this record. */
  predicate Leaves(out: (Option<SettleResult>, Entries), key: string, res: SettleResult, record: Settlement) {
    out.0 == Some(res) && key in out.1 && out.1[key] == record
  }

  /** What a delivery answers for, and the record it leaves of a payment pending since then. */
  predicate Delivers(
    out: (Option<SettleResult>, Entries), key: string, hash: string, payer: string, delivery: DeliveryAnswer, at: Time,
    since: Time)
  {
    var settled := Settlement(Settled, "", hash, at);
    match delivery
    case Delivered => Leaves(out, key, Success(hash, payer), settled)
    case DeliveryAborted => Leaves(out, key, SettleError(BroadcastFailed, payer, hash), settled)
    case NotSeen =>
      Leaves(out, key, SettleError(SettlementPending, payer, hash), Settlement(Pending, payer, hash, since))
  }

  /** What a settle that holds a fresh claim is given, before it is recorded. */
  lemma FreshResult(p: Platform, chainID: string, offline: PaymentCheck, a: Answers)
    requires offline.PaymentAccepted? && Sound(p, offline)
    ensures var res := SettleFresh(p, chainID, offline, a);
            var current := ReadSigned(p, chainID, offline.tx, a.account, 0);
            var consumed := ReadSigned(p, chainID, offline.tx, a.account, 1);
            var open := current && a.simulation == Simulated && !a.ended;
            && (a.account == AccountUnread ==> res == NoVerdictError)
            && (a.account == AccountRefused ==> res == SettleError(SimulationFailed, "", ""))
            && (consumed ==> res == SettleError(SequenceMismatch, offline.payer, ""))
            && (a.account.AccountRead? && !current && !consumed ==> res == SettleError(SignatureInvalid, "", ""))
            && (current && a.simulation == SimulateRefused ==> res == SettleError(SimulationFailed, offline.payer, ""))
            && (current && a.simulation == SimulateUnanswered ==> res == NoVerdictError)
            && (current && a.simulation == Simulated && a.ended ==> res == NoVerdictError)
            && (open && a.broadcast == AdmissionRefused ==> res == SettleError(BroadcastFailed, offline.payer, ""))
            && (open && a.broadcast == BroadcastUnanswered ==> res == NoVerdictError)
            && (open && a.broadcast.Admitted? ==> res == Awaited(a.broadcast.hash, offline.payer, a.delivery))
  {
    AccountVerdictsMean(p, chainID, offline, a.account);
    hide CheckAccount, ReadSigned;
  }

  /** What a settle in flight is given. */
  function Awaited(hash: string, payer: string, delivery: DeliveryAnswer): SettleResult {
    if delivery == Delivered then Success(hash, payer)
    else SettleError(if delivery == DeliveryAborted then BroadcastFailed else SettlementPending, payer, hash)
  }

  /** A fresh claim's result, and what is recorded of it. */
  lemma FreshOutcome(
    p: Platform, chainID: string, entries: Entries, payload: PaymentPayload, req: Requirements, a: Answers)
    requires CheckOffline(p, chainID, payload, req).PaymentAccepted? && !a.panicked
    requires Unrecorded(entries, p.txHash(CheckOffline(p, chainID, payload, req).raw), a.claimedAt)
    ensures var offline := CheckOffline(p, chainID, payload, req);
            var key := p.txHash(offline.raw);
            var res := SettleFresh(p, chainID, offline, a);
            var out := SettledAlone(p, chainID, entries, payload, req, a);
            && out.0 == Some(res) && OthersKept(entries, out.1, key, a.claimedAt)
            && (!res.Success? && WireHash(res) == "" ==> key !in out.1)
            && (a.broadcast.Admitted? && a.broadcast.hash != ""
                && res == Awaited(a.broadcast.hash, offline.payer, a.delivery) ==>
                  Delivers(out, key, a.broadcast.hash, offline.payer, a.delivery, a.recordedAt, a.recordedAt))
  {
    hide CheckOffline, SettleFresh;
  }

  /** A payment the table holds no record of: its account decides first, and lets a refusal name the
      payer only where a signature verified; then a simulation, whose refusal broadcasts nothing; then
      the request must still be open; then the broadcast, whose refusal by the chain is one and whose
      silence is not; and only a delivery leaves a record. */
  lemma UnrecordedSettle(
    p: Platform, chainID: string, entries: Entries, payload: PaymentPayload, req: Requirements, a: Answers)
    requires CheckOffline(p, chainID, payload, req).PaymentAccepted? && !a.panicked
    requires Unrecorded(entries, p.txHash(CheckOffline(p, chainID, payload, req).raw), a.claimedAt)
    ensures var offline := CheckOffline(p, chainID, payload, req);
            var payer, key := offline.payer, p.txHash(offline.raw);
            var out := SettledAlone(p, chainID, entries, payload, req, a);
            var current := ReadSigned(p, chainID, offline.tx, a.account, 0);
            var consumed := ReadSigned(p, chainID, offline.tx, a.account, 1);
            var open := current && a.simulation == Simulated && !a.ended;
            && OthersKept(entries, out.1, key, a.claimedAt)
            && (a.account == AccountUnread ==> Released(out, key, NoVerdictError))
            && (a.account == AccountRefused ==> Released(out, key, SettleError(SimulationFailed, "", "")))
            && (consumed ==> Released(out, key, SettleError(SequenceMismatch, payer, "")))
            && (a.account.AccountRead? && !current && !consumed ==>
                  Released(out, key, SettleError(SignatureInvalid, "", "")))
            && (current && a.simulation == SimulateRefused ==>
                  Released(out, key, SettleError(SimulationFailed, payer, "")))
            && (current && a.simulation == SimulateUnanswered ==> Released(out, key, NoVerdictError))
            && (current && a.simulation == Simulated && a.ended ==> Released(out, key, NoVerdictError))
            && (open && a.broadcast == AdmissionRefused ==>
                  Released(out, key, SettleError(BroadcastFailed, payer, "")))
            && (open && a.broadcast == BroadcastUnanswered ==> Released(out, key, NoVerdictError))
            && (open && a.broadcast.Admitted? && a.broadcast.hash != "" ==>
                  Delivers(out, key, a.broadcast.hash, payer, a.delivery, a.recordedAt, a.recordedAt))
  {
    hide CheckOffline, SettleFresh, SettledAlone, ReadSigned, Delivers, OthersKept, Unrecorded;
    FreshResult(p, chainID, CheckOffline(p, chainID, payload, req), a);
    FreshOutcome(p, chainID, entries, payload, req, a);
  }

  /** A payment recorded as pending within the TTL: only its delivery is asked for, and its answer
      names what the record names. Still unseen, the record stays as it was. */
  lemma ReconcilingSettle(
    p: Platform, chainID: string, entries: Entries, payload: PaymentPayload, req: Requirements, a: Answers)
    requires CheckOffline(p, chainID, payload, req).PaymentAccepted? && !a.panicked
    requires var key := p.txHash(CheckOffline(p, chainID, payload, req).raw);
             && key in entries && entries[key].state == Pending && entries[key].hash != ""
             && entries[key].at != ZERO_TIME && a.claimedAt - entries[key].at <= SETTLEMENT_TTL
    ensures var key := p.txHash(CheckOffline(p, chainID, payload, req).raw);
            var e := entries[key]; var out := SettledAlone(p, chainID, entries, payload, req, a);
            && OthersKept(entries, out.1, key, a.claimedAt)
            && Delivers(out, key, e.hash, e.payer, a.delivery, a.recordedAt, e.at)
  {
    hide CheckOffline, SettleFresh;
  }

  /** A copy of a payment being settled, or settled within the TTL, is refused with what hash the entry
      carries, and disturbs nothing. */
  lemma CopySettle(
    p: Platform, chainID: string, entries: Entries, payload: PaymentPayload, req: Requirements, a: Answers)
    requires CheckOffline(p, chainID, payload, req).PaymentAccepted?
    requires var key := p.txHash(CheckOffline(p, chainID, payload, req).raw);
             && key in entries
             && (entries[key].state == Settling
                 || (entries[key].state == Settled && a.claimedAt - entries[key].at <= SETTLEMENT_TTL))
    ensures var key := p.txHash(CheckOffline(p, chainID, payload, req).raw);
            var e := entries[key]; var out := SettledAlone(p, chainID, entries, payload, req, a);
            OthersKept(entries, out.1, key, a.claimedAt)
            && Leaves(out, key, SettleError(DuplicateSettlement, "", e.hash), e)
  {
    hide CheckOffline, SettleFresh;
  }

  /** A payment refused offline is refused for that reason, and the table is not touched. */
  lemma OfflineRefusal(
    p: Platform, chainID: string, entries: Entries, payload: PaymentPayload, req: Requirements, a: Answers)
    requires CheckOffline(p, chainID, payload, req).PaymentRefused?
    ensures var reason := CheckOffline(p, chainID, payload, req).reason;
            SettledAlone(p, chainID, entries, payload, req, a) == (Some(SettleError(reason, "", "")), entries)
  {
  }

  /** A panic in a call to the node leaves no record of a payment the settle had claimed. */
  lemma PanickedSettle(
    p: Platform, chainID: string, entries: Entries, payload: PaymentPayload, req: Requirements, a: Answers)
    requires CheckOffline(p, chainID, payload, req).PaymentAccepted? && a.panicked
    requires Claimed(entries, p.txHash(CheckOffline(p, chainID, payload, req).raw), a.claimedAt).ok
    ensures var key := p.txHash(CheckOffline(p, chainID, payload, req).raw);
            var out := SettledAlone(p, chainID, entries, payload, req, a);
            out.0 == None && key !in out.1 && OthersKept(entries, out.1, key, a.claimedAt)
  {
    hide CheckOffline, SettleFresh;
  }
}
