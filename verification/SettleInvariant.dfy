/** What every step of the settlement protocol keeps. */
module SettleInvariant {
  import opened Options
  import opened Clock
  import opened Account
  import opened Rules
  import opened Settlements
  import opened Facilitator
  import opened Ledger
  import opened SettleRuns

  // ---- what one thread's history says

  /** What the thread's account read proved about the payment's signature. */
  function Proved(w: World, th: Thread): SignatureState
    requires th.check.PaymentAccepted? && OnePayer(th.check.tx)
  {
    VerifySignature(w.p, th.check.tx, th.read, TxSigner(th.check.tx).value, w.chainID)
  }

  predicate Confirmed(w: World, th: Thread) {
    th.check.PaymentAccepted? && OnePayer(th.check.tx) && Proved(w, th) != Unverifiable
  }

  predicate ConfirmedFresh(w: World, th: Thread) {
    th.check.PaymentAccepted? && OnePayer(th.check.tx) && Proved(w, th) == Fresh
  }

  /** The node holds the payment: it admitted this settle's broadcast, or the one this settle reconciles. */
  predicate InFlight(th: Thread) {
    th.admittedAt.Some? || th.prior.state == Pending
  }

  /** The payer this settle may name once the payment is in flight. */
  function PayerInFlight(th: Thread): string
    requires th.check.PaymentAccepted?
  {
    if th.prior.state == Pending then th.prior.payer else th.check.payer
  }

  /** The thread saw this block of the log hold its payment. */
  predicate Saw(w: World, s: RunState, th: Thread) {
    th.seen.Some? ==> BlockHolds(w, s, Key(w, th), th.seen.value)
  }

  /** The result a settle that claimed its payment returns, against what happened to it. */
  predicate ResultFits(w: World, s: RunState, th: Thread, res: SettleResult) {
    && th.check.PaymentAccepted?
    && match res
       case Success(hash, payer) =>
         && InFlight(th) && th.seen.Some? && th.seen.value < |s.log|
         && s.log[th.seen.value].Executed? && s.log[th.seen.value].ok
         && hash == Key(w, th) && payer == PayerInFlight(th)
       case NoVerdictError => !InFlight(th) && th.seen.None?
       case SettleError(reason, payer, transaction) =>
         if transaction == "" then
           && !InFlight(th) && th.seen.None? && reason != SettlementPending
           && (payer != "" ==> payer == th.check.payer && Confirmed(w, th))
         else
           && InFlight(th) && transaction == Key(w, th) && payer == PayerInFlight(th)
           && (if th.seen.Some? then reason == BroadcastFailed else reason == SettlementPending)
  }

  /** A settle that was told its payment is being or has been settled. */
  predicate RefusedAsCopy(th: Thread, res: SettleResult) {
    res.SettleError? && res.reason == DuplicateSettlement
  }

  /** The copy's refusal names the hash its payment was admitted under. */
  predicate HashOnCopy(th: Thread) {
    th.phase.Answered? && RefusedAsCopy(th, th.phase.answer) && th.phase.answer.transaction != ""
  }

  predicate ThreadFits(w: World, s: RunState, th: Thread) {
    && Sound(w.p, th.check) && !th.check.NoVerdict?
    && (th.check.PaymentAccepted? ==> OnePayer(th.check.tx))
    && (th.check.PaymentRefused? ==>
          && th.check.refused == ""
          && th.phase == Answered(SettleRefusal(th.check)) && !InFlight(th) && th.seen.None?)
    && (th.admittedAt.Some? ==>
          ZERO_TIME < th.admittedAt.value <= s.clock && th.prior.state == Unclaimed && ConfirmedFresh(w, th))
    && (th.prior == NO_SETTLEMENT || th.prior.state == Pending)
    && (th.prior.state == Pending ==> th.prior.hash == Key(w, th) && ZERO_TIME < th.prior.at <= s.clock)
    && Saw(w, s, th)
    && (th.check.PaymentAccepted? ==>
      match th.phase
      case Arrived => !InFlight(th) && th.seen.None?
      case Stamped(now) => now <= s.clock && !InFlight(th) && th.seen.None?
      case Checking => !InFlight(th) && th.seen.None?
      case Simulating | Ready => !InFlight(th) && th.seen.None? && ConfirmedFresh(w, th)
      case Awaiting(hash, payer) => InFlight(th) && th.seen.None? && hash == Key(w, th) && payer == PayerInFlight(th)
      case Returned(res) => ResultFits(w, s, th, res) && !RefusedAsCopy(th, res)
      case Recording(res, at) =>
        && ResultFits(w, s, th, res) && !RefusedAsCopy(th, res)
        && ZERO_TIME < at <= s.clock
        && th.prior.at <= at
        && (th.admittedAt.Some? ==> th.admittedAt.value <= at)
        && (th.seen.Some? ==> s.log[th.seen.value].time <= at)
      case Answered(res) =>
        if RefusedAsCopy(th, res) then
          && !InFlight(th) && th.seen.None? && res.refused == ""
          && (res.transaction != "" ==> res.transaction == Key(w, th))
        else ResultFits(w, s, th, res)
      case Crashed => th.seen.None?)
  }

  // ---- what the table says

  /** Some settle of this key's payment was admitted by a node. */
  ghost predicate WasAdmitted(w: World, s: RunState, key: string) {
    exists t :: t in s.threads && s.threads[t].admittedAt.Some? && Key(w, s.threads[t]) == key
  }

  /** Thread t was the first to leave the payment pending: admitted under this key, by a fresh
      signature, recorded at this time, answered pending with this payer. */
  predicate LeftPending(w: World, s: RunState, t: nat, key: string, payer: string, at: Time) {
    && t in s.threads
    && var th := s.threads[t];
    && th.check.PaymentAccepted? && Key(w, th) == key
    && th.admittedAt.Some? && th.prior.state == Unclaimed && ConfirmedFresh(w, th)
    && th.phase == Answered(SettleError(SettlementPending, payer, key)) && payer == th.check.payer
    && th.recordedAt == at
  }

  ghost predicate PendingSince(w: World, s: RunState, key: string, payer: string, at: Time) {
    exists t :: LeftPending(w, s, t, key, payer, at)
  }

  ghost predicate Held(w: World, s: RunState, key: string) {
    exists t :: t in s.threads && Holds(s.threads[t]) && Key(w, s.threads[t]) == key
  }

  ghost predicate EntryFits(w: World, s: RunState, key: string)
    requires key in s.entries
  {
    var e := s.entries[key];
    && key != ""
    && match e.state
       case Unclaimed => false
       case Settling => Held(w, s, key) && e.hash in {"", key} && ZERO_TIME <= e.at <= s.clock
       case Settled => e.hash == key && ZERO_TIME < e.at <= s.clock && WasAdmitted(w, s, key)
       case Pending => e.hash == key && ZERO_TIME < e.at <= s.clock && PendingSince(w, s, key, e.payer, e.at)
  }

  /** The entry of a payment being settled is exactly what its settle's claim left. */
  predicate Owned(w: World, s: RunState, th: Thread) {
    var key := Key(w, th);
    key in s.entries && s.entries[key] == Settlement(Settling, "", th.prior.hash, th.prior.at)
  }

  // ---- the invariant, part by part

  ghost predicate ThreadsFit(w: World, s: RunState) {
    && s.clock > ZERO_TIME
    && ValidLog(w.p, w.chainID, s.log)
    && (forall j :: 0 <= j < |s.log| ==> s.log[j].time <= s.clock)
    && (forall t :: t in s.threads ==> ThreadFits(w, s, s.threads[t]))
  }

  ghost predicate EntriesFit(w: World, s: RunState) {
    forall k :: k in s.entries ==> EntryFits(w, s, k)
  }

  /** Each settle in progress owns its entry, and no two own one. */
  ghost predicate OwnersFit(w: World, s: RunState) {
    && (forall t :: t in s.threads && Holds(s.threads[t]) ==> Owned(w, s, s.threads[t]))
    && (forall t, u ::
          (t in s.threads && u in s.threads && Holds(s.threads[t]) && Holds(s.threads[u])
           && Key(w, s.threads[t]) == Key(w, s.threads[u])) ==> t == u)
  }

  /** A settle that reconciles does so for the settle that first left the payment pending, and a
      copy refused with a hash was refused for a payment some node admitted. */
  ghost predicate HistoryFits(w: World, s: RunState) {
    forall t :: t in s.threads ==>
      && (s.threads[t].prior.state == Pending ==>
            PendingSince(w, s, Key(w, s.threads[t]), s.threads[t].prior.payer, s.threads[t].prior.at))
      && (HashOnCopy(s.threads[t]) ==> WasAdmitted(w, s, Key(w, s.threads[t])))
  }

  ghost predicate TableFits(w: World, s: RunState) {
    EntriesFit(w, s) && OwnersFit(w, s) && HistoryFits(w, s)
  }

  ghost predicate Ideal(w: World) {
    w.p.HashesIdentify()
  }

  lemma InitialFits(w: World, s: RunState)
    requires Initial(s)
    ensures ThreadsFit(w, s) && TableFits(w, s)
  {
  }

  /** A thread's history stays true as the clock and the chain move on. */
  lemma HistoryStays(w: World, s: RunState, s': RunState, th: Thread)
    requires ThreadFits(w, s, th)
    requires s.clock <= s'.clock && s.log <= s'.log
    ensures ThreadFits(w, s', th)
  {
  }

  lemma ClaimFits(w: World, s: RunState, t: nat)
    requires Enabled(w, s, TakeClaim(t)) && ThreadFits(w, s, s.threads[t])
    requires var key := Key(w, s.threads[t]); key in s.entries ==> EntryFits(w, s, key)
    ensures ThreadFits(w, Apply(w, s, TakeClaim(t)), Apply(w, s, TakeClaim(t)).threads[t])
  {
  }

  lemma AccountReadFits(w: World, s: RunState, t: nat, answer: AccountAnswer, height: nat)
    requires Enabled(w, s, ReadAccount(t, answer, height)) && ThreadFits(w, s, s.threads[t])
    ensures var s' := Apply(w, s, ReadAccount(t, answer, height)); ThreadFits(w, s', s'.threads[t])
  {
    hide VerifySignature, TxSigner, CheckOffline;
  }

  lemma AwaitFits(w: World, s: RunState, t: nat, answer: DeliveryAnswer, block: nat)
    requires Ideal(w) && Enabled(w, s, Await(t, answer, block)) && ThreadFits(w, s, s.threads[t])
    ensures var s' := Apply(w, s, Await(t, answer, block)); ThreadFits(w, s', s'.threads[t])
  {
    hide Sound, OnePayer, VerifySignature, TxSigner, CheckOffline, SettleRefusal;
  }

  lemma AdmissionFits(w: World, s: RunState, t: nat, answer: BroadcastAnswer)
    requires Ideal(w) && s.clock > ZERO_TIME && Enabled(w, s, Broadcast(t, answer)) && ThreadFits(w, s, s.threads[t])
    ensures var s' := Apply(w, s, Broadcast(t, answer)); ThreadFits(w, s', s'.threads[t])
  {
    hide Sound, OnePayer, VerifySignature, TxSigner, CheckOffline, SettleRefusal;
  }

  lemma RecordFits(w: World, s: RunState, t: nat)
    requires Enabled(w, s, Record(t)) && ThreadFits(w, s, s.threads[t])
    ensures var s' := Apply(w, s, Record(t)); ThreadFits(w, s', s'.threads[t])
  {
    hide Sound, OnePayer, VerifySignature, TxSigner, CheckOffline, SettleRefusal;
  }

  lemma ClockReadFits(w: World, s: RunState, t: nat)
    requires Enabled(w, s, ReadClockAgain(t)) && ThreadFits(w, s, s.threads[t])
    requires s.clock > ZERO_TIME && forall j :: 0 <= j < |s.log| ==> s.log[j].time <= s.clock
    ensures var s' := Apply(w, s, ReadClockAgain(t)); ThreadFits(w, s', s'.threads[t])
  {
    hide Sound, OnePayer, VerifySignature, TxSigner, CheckOffline, SettleRefusal;
  }

  lemma SimulationFits(w: World, s: RunState, t: nat, answer: SimulateAnswer)
    requires Enabled(w, s, Simulate(t, answer)) && ThreadFits(w, s, s.threads[t])
    ensures var s' := Apply(w, s, Simulate(t, answer)); ThreadFits(w, s', s'.threads[t])
  {
    hide Sound, OnePayer, VerifySignature, TxSigner, CheckOffline;
  }

  lemma GiveUpFits(w: World, s: RunState, t: nat)
    requires Enabled(w, s, GiveUp(t)) && ThreadFits(w, s, s.threads[t])
    ensures var s' := Apply(w, s, GiveUp(t)); ThreadFits(w, s', s'.threads[t])
  {
    hide Sound, OnePayer, VerifySignature, TxSigner, CheckOffline, SettleRefusal;
  }

  lemma StampFits(w: World, s: RunState, t: nat)
    requires Enabled(w, s, ReadClock(t)) && ThreadFits(w, s, s.threads[t])
    ensures var s' := Apply(w, s, ReadClock(t)); ThreadFits(w, s', s'.threads[t])
  {
    hide Sound, OnePayer, VerifySignature, TxSigner, CheckOffline, SettleRefusal;
  }

  lemma PanicFits(w: World, s: RunState, t: nat)
    requires Enabled(w, s, Panic(t)) && ThreadFits(w, s, s.threads[t])
    ensures var s' := Apply(w, s, Panic(t)); ThreadFits(w, s', s'.threads[t])
  {
    hide Sound, OnePayer, VerifySignature, TxSigner, CheckOffline, SettleRefusal;
  }

  lemma ArrivalFits(w: World, s: RunState, t: nat, payload: PaymentPayload, req: Requirements)
    requires Enabled(w, s, Arrive(t, payload, req))
    ensures var s' := Apply(w, s, Arrive(t, payload, req)); ThreadFits(w, s', s'.threads[t])
  {
    var check := CheckOffline(w.p, w.chainID, payload, req);
    if check.PaymentAccepted? {
      SoundHasOneSigner(w.p, check);
    }
    hide CheckOffline;
  }

  /** A thread's own step keeps what its history says. */
  lemma MoverFits(w: World, s: RunState, step: Step, t: nat)
    requires Ideal(w) && ThreadsFit(w, s) && EntriesFit(w, s) && Enabled(w, s, step) && Mover(step) == Some(t)
    ensures var s' := Apply(w, s, step); ThreadFits(w, s', s'.threads[t])
  {
    if t in s.threads {
      assert ThreadFits(w, s, s.threads[t]);
    }
    hide ThreadFits, EntryFits;
    match step {
      case Arrive(_, payload, req) => ArrivalFits(w, s, t, payload, req);
      case ReadClock(_) => StampFits(w, s, t);
      case TakeClaim(_) => ClaimFits(w, s, t);
      case ReadAccount(_, answer, height) => AccountReadFits(w, s, t, answer, height);
      case Simulate(_, answer) => SimulationFits(w, s, t, answer);
      case GiveUp(_) => GiveUpFits(w, s, t);
      case Broadcast(_, answer) => AdmissionFits(w, s, t, answer);
      case Await(_, answer, block) => AwaitFits(w, s, t, answer, block);
      case ReadClockAgain(_) => ClockReadFits(w, s, t);
      case Record(_) => RecordFits(w, s, t);
      case Panic(_) => PanicFits(w, s, t);
    }
  }

  lemma ThreadsKept(w: World, s: RunState, step: Step)
    requires Ideal(w) && ThreadsFit(w, s) && EntriesFit(w, s) && Enabled(w, s, step)
    ensures ThreadsFit(w, Apply(w, s, step))
  {
    hide ThreadFits, EntriesFit;
    var s' := Apply(w, s, step);
    forall t | t in s'.threads
      ensures ThreadFits(w, s', s'.threads[t])
    {
      if Mover(step) == Some(t) {
        MoverFits(w, s, step, t);
      } else {
        HistoryStays(w, s, s', s.threads[t]);
      }
    }
    if step.Commit? {
      ValidLogGrows(w.p, w.chainID, s.log, step.e);
    }
  }

  // ---- the table

  predicate TouchesTable(step: Step) {
    step.TakeClaim? || step.Record? || step.Panic?
  }

  /** What a step leaves of a thread: its payment, its admission and its answer. */
  lemma HistoryIsKept(w: World, s: RunState, step: Step, t: nat)
    requires Enabled(w, s, step) && t in s.threads
    ensures var th := s.threads[t]; var th' := Apply(w, s, step).threads[t];
            && Key(w, th') == Key(w, th) && (th.admittedAt.Some? ==> th'.admittedAt.Some?)
            && (th.phase.Answered? ==> th' == th)
  {
    hide CheckAccount, CheckSimulation, CheckOffline, Delivery, BroadcastRefusal, AccountAt, BlockHolds;
  }

  /** Everything one state says of admissions and pending records, the other says. */
  ghost predicate SameEvidence(w: World, s: RunState, s': RunState) {
    && (forall k :: WasAdmitted(w, s, k) ==> WasAdmitted(w, s', k))
    && (forall k, payer, at :: PendingSince(w, s, k, payer, at) ==> PendingSince(w, s', k, payer, at))
  }

  /** What was once true of a payment's admission and its pending record stays true. */
  lemma EvidenceStays(w: World, s: RunState, step: Step)
    requires Enabled(w, s, step)
    ensures SameEvidence(w, s, Apply(w, s, step))
  {
    var s' := Apply(w, s, step);
    forall t | t in s.threads
      ensures t in s'.threads && Key(w, s'.threads[t]) == Key(w, s.threads[t])
      ensures s.threads[t].admittedAt.Some? ==> s'.threads[t].admittedAt.Some?
      ensures s.threads[t].phase.Answered? ==> s'.threads[t] == s.threads[t]
    {
      HistoryIsKept(w, s, step, t);
    }
    hide Apply, Enabled, Key;
    forall k | WasAdmitted(w, s, k)
      ensures WasAdmitted(w, s', k)
    {
      var t :| t in s.threads && s.threads[t].admittedAt.Some? && Key(w, s.threads[t]) == k;
      assert s'.threads[t].admittedAt.Some? && Key(w, s'.threads[t]) == k;
    }
    forall k, payer, at | PendingSince(w, s, k, payer, at)
      ensures PendingSince(w, s', k, payer, at)
    {
      var t :| LeftPending(w, s, t, k, payer, at);
      assert LeftPending(w, s', t, k, payer, at);
    }
  }

  /** The same claim, and no new refusal of a copy. */
  predicate SameClaim(w: World, th: Thread, th': Thread) {
    && Holds(th') == Holds(th) && th'.prior == th.prior && Key(w, th') == Key(w, th)
    && (HashOnCopy(th') ==> HashOnCopy(th))
  }

  /** The same entries, claims and holders. */
  ghost predicate SameClaims(w: World, s: RunState, s': RunState) {
    && s'.entries == s.entries && s.clock <= s'.clock
    && (forall t :: t in s.threads ==> t in s'.threads && SameClaim(w, s.threads[t], s'.threads[t]))
    && (forall t :: t in s'.threads && t !in s.threads ==>
          !Holds(s'.threads[t]) && s'.threads[t].prior == NO_SETTLEMENT && !HashOnCopy(s'.threads[t]))
  }

  lemma QuietMoverKeepsClaim(w: World, s: RunState, step: Step, t: nat)
    requires Enabled(w, s, step) && !TouchesTable(step) && Mover(step) == Some(t) && t in s.threads
    ensures SameClaim(w, s.threads[t], Apply(w, s, step).threads[t])
  {
    hide CheckAccount, CheckSimulation, CheckOffline, Delivery, SettleRefusal, BroadcastRefusal, AccountAt, BlockHolds;
  }

  lemma QuietStepKeepsClaims(w: World, s: RunState, step: Step)
    requires Enabled(w, s, step) && !TouchesTable(step)
    ensures SameClaims(w, s, Apply(w, s, step))
  {
    if step.Arrive? {
      var check := CheckOffline(w.p, w.chainID, step.payload, step.req);
      assert check.PaymentRefused? ==> SettleRefusal(check).transaction == "";
    } else if Mover(step).Some? {
      QuietMoverKeepsClaim(w, s, step, Mover(step).value);
    }
  }

  lemma SameClaimsKeepEntries(w: World, s: RunState, s': RunState)
    requires EntriesFit(w, s) && SameClaims(w, s, s') && SameEvidence(w, s, s')
    ensures EntriesFit(w, s')
  {
    forall k | k in s'.entries
      ensures EntryFits(w, s', k)
    {
      assert EntryFits(w, s, k);
      if Held(w, s, k) {
        var t :| t in s.threads && Holds(s.threads[t]) && Key(w, s.threads[t]) == k;
        assert Holds(s'.threads[t]) && Key(w, s'.threads[t]) == k;
      }
    }
  }

  lemma SameClaimsKeepOwners(w: World, s: RunState, s': RunState)
    requires OwnersFit(w, s) && HistoryFits(w, s) && SameClaims(w, s, s') && SameEvidence(w, s, s')
    ensures OwnersFit(w, s') && HistoryFits(w, s')
  {
  }

  /** A step that leaves the table alone leaves every claim with its owner. */
  lemma QuietStepKeepsTable(w: World, s: RunState, step: Step)
    requires TableFits(w, s) && Enabled(w, s, step) && !TouchesTable(step)
    ensures TableFits(w, Apply(w, s, step))
  {
    QuietStepKeepsClaims(w, s, step);
    EvidenceStays(w, s, step);
    SameClaimsKeepEntries(w, s, Apply(w, s, step));
    SameClaimsKeepOwners(w, s, Apply(w, s, step));
  }

  /** A sweep deletes only what has expired by a clock some thread read. */
  lemma SweepKeepsEntries(entries: Entries, now: Time)
    ensures forall k :: k in Sweep(entries, now) ==> k in entries && Sweep(entries, now)[k] == entries[k]
    ensures forall k :: k in entries && k !in Sweep(entries, now) ==>
              entries[k].state != Settling && now - entries[k].at > SETTLEMENT_TTL
  {
  }

  /** What the claim does, as its thread sees it. */
  ghost predicate ClaimSeen(w: World, s: RunState, t: nat)
    requires Enabled(w, s, TakeClaim(t))
  {
    var th := s.threads[t];
    var key := Key(w, th);
    var claim := Claimed(s.entries, key, th.phase.now);
    var s' := Apply(w, s, TakeClaim(t));
    var th' := s'.threads[t];
    && key != "" && Key(w, th') == key && !Holds(th) && th.prior == NO_SETTLEMENT
    && th.phase.now <= s.clock
    && s'.entries == claim.entries && s'.clock == s.clock
    && th'.prior == (if claim.ok then claim.prior else NO_SETTLEMENT)
    && Holds(th') == claim.ok
    && (HashOnCopy(th') ==> !claim.ok && claim.prior.hash != "")
  }

  /** The thread has claimed nothing yet, and its clock reading is one it took. */
  predicate AboutToClaim(w: World, s: RunState, th: Thread) {
    Key(w, th) != "" && th.prior == NO_SETTLEMENT && th.phase.Stamped? && th.phase.now <= s.clock
  }

  lemma ClaimIsSeen(w: World, s: RunState, t: nat)
    requires Ideal(w) && ThreadsFit(w, s) && Enabled(w, s, TakeClaim(t))
    ensures ClaimSeen(w, s, t)
  {
    assert AboutToClaim(w, s, s.threads[t]) by { assert ThreadFits(w, s, s.threads[t]); }
    hide Ideal, ThreadsFit;
    AboutToClaimIsSeen(w, s, t);
  }

  lemma AboutToClaimIsSeen(w: World, s: RunState, t: nat)
    requires Enabled(w, s, TakeClaim(t)) && AboutToClaim(w, s, s.threads[t])
    ensures ClaimSeen(w, s, t)
  {
  }

  lemma ClaimKeepsEntries(w: World, s: RunState, t: nat)
    requires s.clock > ZERO_TIME && EntriesFit(w, s) && Enabled(w, s, TakeClaim(t)) && ClaimSeen(w, s, t)
    ensures EntriesFit(w, Apply(w, s, TakeClaim(t)))
  {
    var step := TakeClaim(t);
    var s' := Apply(w, s, step);
    EvidenceStays(w, s, step);
    forall k | k in s'.entries
      ensures EntryFits(w, s', k)
    {
      if k == Key(w, s.threads[t]) && Holds(s'.threads[t]) {
        assert Held(w, s', k);
        assert k in s.entries ==> EntryFits(w, s, k);
      } else {
        assert k in s.entries && s'.entries[k] == s.entries[k];
        assert EntryFits(w, s, k);
        if s.entries[k].state == Settling {
          var u :| u in s.threads && Holds(s.threads[u]) && Key(w, s.threads[u]) == k;
          assert u != t && s'.threads[u] == s.threads[u];
        }
      }
    }
  }

  lemma ClaimKeepsOwners(w: World, s: RunState, t: nat)
    requires OwnersFit(w, s) && Enabled(w, s, TakeClaim(t)) && ClaimSeen(w, s, t)
    ensures OwnersFit(w, Apply(w, s, TakeClaim(t)))
  {
    var s' := Apply(w, s, TakeClaim(t));
    SweepKeepsEntries(s.entries, s.threads[t].phase.now);
    forall u | u in s'.threads && Holds(s'.threads[u])
      ensures Owned(w, s', s'.threads[u])
      ensures u != t && Holds(s'.threads[t]) ==> Key(w, s'.threads[u]) != Key(w, s'.threads[t])
    {
      if u != t {
        assert Owned(w, s, s.threads[u]);
      }
    }
  }

  /** The evidence behind a claim that reconciles, or that refuses a copy with a hash. */
  lemma ClaimEvidence(w: World, s: RunState, t: nat)
    requires Ideal(w) && ThreadsFit(w, s) && TableFits(w, s) && Enabled(w, s, TakeClaim(t)) && ClaimSeen(w, s, t)
    ensures var key := Key(w, s.threads[t]); var th' := Apply(w, s, TakeClaim(t)).threads[t];
            && (th'.prior.state == Pending ==> PendingSince(w, s, key, th'.prior.payer, th'.prior.at))
            && (HashOnCopy(th') ==> WasAdmitted(w, s, key))
  {
    var key := Key(w, s.threads[t]);
    if key in s.entries {
      assert EntryFits(w, s, key);
      if s.entries[key].state == Settling && s.entries[key].hash != "" {
        ReconciledWasAdmitted(w, s, key);
      }
    }
  }

  /** History survives a step whose own thread has its evidence. */
  lemma HistoryKept(w: World, s: RunState, step: Step)
    requires HistoryFits(w, s) && Enabled(w, s, step)
    requires Mover(step).Some? ==>
               var th' := Apply(w, s, step).threads[Mover(step).value];
               && (th'.prior.state == Pending ==>
                     PendingSince(w, Apply(w, s, step), Key(w, th'), th'.prior.payer, th'.prior.at))
               && (HashOnCopy(th') ==> WasAdmitted(w, Apply(w, s, step), Key(w, th')))
    ensures HistoryFits(w, Apply(w, s, step))
  {
    EvidenceStays(w, s, step);
  }

  lemma ClaimKeepsTable(w: World, s: RunState, t: nat)
    requires Ideal(w) && ThreadsFit(w, s) && TableFits(w, s) && Enabled(w, s, TakeClaim(t))
    ensures TableFits(w, Apply(w, s, TakeClaim(t)))
  {
    ClaimIsSeen(w, s, t);
    ClaimKeepsEntries(w, s, t);
    ClaimKeepsOwners(w, s, t);
    ClaimEvidence(w, s, t);
    EvidenceStays(w, s, TakeClaim(t));
    HistoryKept(w, s, TakeClaim(t));
  }

  /** A settling entry that names a hash is a payment being reconciled. */
  lemma ReconciledWasAdmitted(w: World, s: RunState, key: string)
    requires ThreadsFit(w, s) && TableFits(w, s)
    requires key in s.entries && s.entries[key].state == Settling && s.entries[key].hash != ""
    ensures WasAdmitted(w, s, key)
  {
    assert EntryFits(w, s, key);
    var u :| u in s.threads && Holds(s.threads[u]) && Key(w, s.threads[u]) == key;
    assert Owned(w, s, s.threads[u]);
    assert ThreadFits(w, s, s.threads[u]);
    var first :| LeftPending(w, s, first, key, s.threads[u].prior.payer, s.threads[u].prior.at);
  }

  /** A step that ends a claim: its thread held the key and holds nothing after, and every other
      entry is untouched. */
  ghost predicate EndsClaim(w: World, s: RunState, s': RunState, t: nat) {
    && t in s.threads && t in s'.threads
    && var th := s.threads[t]; var th' := s'.threads[t]; var key := Key(w, th);
    && Holds(th) && !Holds(th') && Key(w, th') == key && key != ""
    && th'.prior == th.prior && !HashOnCopy(th') && s'.clock == s.clock
    && (forall k :: k != key ==> (k in s'.entries <==> k in s.entries))
    && (forall k :: k != key && k in s.entries ==> s'.entries[k] == s.entries[k])
  }

  lemma EndingKeepsOwners(w: World, s: RunState, step: Step, t: nat)
    requires OwnersFit(w, s) && Enabled(w, s, step) && Mover(step) == Some(t) && EndsClaim(w, s, Apply(w, s, step), t)
    ensures OwnersFit(w, Apply(w, s, step))
  {
    var s' := Apply(w, s, step);
    forall u | u in s'.threads && Holds(s'.threads[u])
      ensures Owned(w, s', s'.threads[u])
    {
      assert Owned(w, s, s.threads[u]);
    }
  }

  lemma EndingKeepsEntries(w: World, s: RunState, step: Step, t: nat)
    requires EntriesFit(w, s) && Enabled(w, s, step) && Mover(step) == Some(t) && EndsClaim(w, s, Apply(w, s, step), t)
    requires var s' := Apply(w, s, step); var key := Key(w, s.threads[t]);
             key in s'.entries ==> EntryFits(w, s', key)
    ensures EntriesFit(w, Apply(w, s, step))
  {
    var s' := Apply(w, s, step);
    EvidenceStays(w, s, step);
    forall k | k in s'.entries && k != Key(w, s.threads[t])
      ensures EntryFits(w, s', k)
    {
      assert EntryFits(w, s, k);
      if s.entries[k].state == Settling {
        var u :| u in s.threads && Holds(s.threads[u]) && Key(w, s.threads[u]) == k;
        assert u != t && s'.threads[u] == s.threads[u];
      }
    }
  }

  /** What a settle in flight rests on: its own admission, or the record it reconciles. */
  lemma InFlightWasAdmitted(w: World, s: RunState, t: nat)
    requires t in s.threads && InFlight(s.threads[t]) && HistoryFits(w, s)
    ensures WasAdmitted(w, s, Key(w, s.threads[t]))
  {
    var th := s.threads[t];
    if th.admittedAt.None? {
      var first :| LeftPending(w, s, first, Key(w, th), th.prior.payer, th.prior.at);
      assert s.threads[first].admittedAt.Some?;
    }
  }

  lemma RecordEndsClaim(w: World, s: RunState, t: nat)
    requires Ideal(w) && Enabled(w, s, Record(t)) && ThreadFits(w, s, s.threads[t])
    ensures EndsClaim(w, s, Apply(w, s, Record(t)), t)
  {
  }

  /** The record leaves its key absent, settled, or pending since the first record. */
  lemma RecordedEntry(w: World, s: RunState, t: nat)
    requires Ideal(w) && Enabled(w, s, Record(t)) && ThreadFits(w, s, s.threads[t]) && Owned(w, s, s.threads[t])
    ensures var s' := Apply(w, s, Record(t)); var th := s.threads[t]; var key := Key(w, th);
            key in s'.entries ==>
              && InFlight(th) && s'.entries[key].hash == key
              && ZERO_TIME < s'.entries[key].at <= s.clock
              && (s'.entries[key].state == Settled
                  || (s'.entries[key].state == Pending
                      && (if th.prior.state == Pending
                          then s'.entries[key].payer == th.prior.payer && s'.entries[key].at == th.prior.at
                          else LeftPending(w, s', t, key, s'.entries[key].payer, s'.entries[key].at))))
  {
  }

  lemma RecordLeaves(w: World, s: RunState, t: nat)
    requires Ideal(w) && Enabled(w, s, Record(t)) && ThreadFits(w, s, s.threads[t])
    requires Owned(w, s, s.threads[t]) && HistoryFits(w, s)
    ensures var s' := Apply(w, s, Record(t)); var key := Key(w, s.threads[t]);
            key in s'.entries ==> EntryFits(w, s', key)
  {
    var s' := Apply(w, s, Record(t));
    var key := Key(w, s.threads[t]);
    RecordEndsClaim(w, s, t);
    RecordedEntry(w, s, t);
    if key in s'.entries {
      InFlightWasAdmitted(w, s, t);
      EvidenceStays(w, s, Record(t));
      assert s.threads[t].prior.state != Pending && s'.entries[key].state == Pending ==>
          PendingSince(w, s', key, s'.entries[key].payer, s'.entries[key].at);
    }
  }

  lemma RecordKeepsTable(w: World, s: RunState, t: nat)
    requires Ideal(w) && ThreadsFit(w, s) && TableFits(w, s) && Enabled(w, s, Record(t))
    ensures TableFits(w, Apply(w, s, Record(t)))
  {
    RecordEndsClaim(w, s, t);
    RecordLeaves(w, s, t);
    EndingKeepsOwners(w, s, Record(t), t);
    EndingKeepsEntries(w, s, Record(t), t);
    EvidenceStays(w, s, Record(t));
    HistoryKept(w, s, Record(t));
  }

  lemma PanicEndsClaim(w: World, s: RunState, t: nat)
    requires Ideal(w) && Enabled(w, s, Panic(t)) && ThreadFits(w, s, s.threads[t])
    ensures EndsClaim(w, s, Apply(w, s, Panic(t)), t)
  {
  }

  lemma PanicKeepsTable(w: World, s: RunState, t: nat)
    requires Ideal(w) && ThreadsFit(w, s) && TableFits(w, s) && Enabled(w, s, Panic(t))
    ensures TableFits(w, Apply(w, s, Panic(t)))
  {
    PanicEndsClaim(w, s, t);
    EndingKeepsOwners(w, s, Panic(t), t);
    EndingKeepsEntries(w, s, Panic(t), t);
    EvidenceStays(w, s, Panic(t));
    HistoryKept(w, s, Panic(t));
  }

  lemma TableKept(w: World, s: RunState, step: Step)
    requires Ideal(w) && ThreadsFit(w, s) && TableFits(w, s) && Enabled(w, s, step)
    ensures TableFits(w, Apply(w, s, step))
  {
    if step.TakeClaim? {
      ClaimKeepsTable(w, s, step.t);
    } else if step.Record? {
      RecordKeepsTable(w, s, step.t);
    } else if step.Panic? {
      PanicKeepsTable(w, s, step.t);
    } else {
      QuietStepKeepsTable(w, s, step);
    }
  }
}
