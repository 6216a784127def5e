/** One settle uninterrupted is one of the runs, so what the class method computes is what the step
    system allows; and a run of two such settles shows that the bound on a node's lag is needed. */
module SoloRuns {
  import opened Options
  import opened Clock
  import opened Account
  import opened Rules
  import opened Settlements
  import opened Facilitator
  import opened Ledger
  import opened SettleRuns
  import opened SettleTheorems

  /** Some path goes from one state to the other. */
  ghost predicate Leads(w: World, from: RunState, to: RunState) {
    exists states, steps :: IsPath(w, states, steps) && states[0] == from && states[|steps|] == to
  }

  lemma Stay(w: World, s: RunState)
    ensures Leads(w, s, s)
  {
    assert IsPath(w, [s], []);
  }

  lemma Then(w: World, from: RunState, s: RunState, step: Step)
    requires Leads(w, from, s) && Enabled(w, s, step)
    ensures Leads(w, from, Apply(w, s, step))
  {
    var states, steps :| IsPath(w, states, steps) && states[0] == from && states[|steps|] == s;
    var longer, more := states + [Apply(w, s, step)], steps + [step];
    forall i | 0 <= i < |more|
      ensures Enabled(w, longer[i], more[i]) && longer[i + 1] == Apply(w, longer[i], more[i])
    {
      if i < |steps| {
        assert states[i + 1] == Apply(w, states[i], steps[i]);
      }
    }
    assert IsPath(w, longer, more) && longer[0] == from && longer[|more|] == Apply(w, s, step);
  }

  /** The log a settle finds its delivery in: what was there, and what a block adds meanwhile. */
  function Mined(s: RunState, mined: Option<Event>): RunState {
    if mined.Some? then s.(log := s.log + [mined.value]) else s
  }

  /** The answers are ones this chain and its nodes may give a settle of this payment that starts now:
      the account as of height, the payment's own hash, the delivery in block. */
  ghost predicate MayAnswer(
    w: World, s: RunState, check: PaymentCheck, a: Answers, height: nat, mined: Option<Event>, block: nat)
    requires check.PaymentAccepted?
  {
    var key := w.p.txHash(check.raw);
    && OnePayer(check.tx)
    && a.claimedAt == s.clock <= a.recordedAt
    && (a.account.AccountRead? && a.account.account.Some? ==>
          InView(w, s, height) && a.account.account == AccountAt(w.p, s.log[..height], IdOf(check.tx)))
    && (a.broadcast.Admitted? ==> a.broadcast.hash == key)
    && (mined.Some? ==> ValidEvent(w.p, w.chainID, s.log, mined.value) && mined.value.time == s.clock)
    && (a.delivery != NotSeen ==> BlockHolds(w, Mined(s, mined), key, block))
    && (a.delivery == Delivered ==> Mined(s, mined).log[block].Executed? && Mined(s, mined).log[block].ok)
    && (a.delivery == DeliveryAborted && Mined(s, mined).log[block].Executed? ==> !Mined(s, mined).log[block].ok)
    && (key in s.entries && s.entries[key].state == Pending ==> s.entries[key].hash == key)
  }

  /** The settle has returned: its answer, or that a panic unwound it. */
  predicate Ended(s: RunState, t: nat, answer: Option<SettleResult>) {
    t in s.threads && s.threads[t].phase == (match answer case Some(res) => Answered(res) case None => Crashed)
  }

  /** Other settles and the table are as they were; the settle's own payment too. */
  predicate SameBut(s: RunState, s': RunState, t: nat) {
    && t in s.threads && s'.threads.Keys == s.threads.Keys
    && s'.entries == s.entries && s'.clock == s.clock
    && s'.threads[t].check == s.threads[t].check
    && forall u :: u in s.threads && u != t ==> s'.threads[u] == s.threads[u]
  }

  /** A settle about to read its account has it read. */
  lemma ReadLeads(
    w: World, from: RunState, s: RunState, t: nat, answer: AccountAnswer, height: nat) returns (s': RunState)
    requires Leads(w, from, s) && At(s, t, Checking) && s.threads[t].check.PaymentAccepted?
    requires Enabled(w, s, ReadAccount(t, answer, height))
    ensures Leads(w, from, s') && SameBut(s, s', t) && s'.log == s.log
    ensures var check := s.threads[t].check; var read := CheckAccount(w.p, w.chainID, check, answer);
            if read.PaymentAccepted? then read == check && s'.threads[t].phase == Simulating
            else s'.threads[t].phase == Returned(SettleRefusal(read))
  {
    hide Leads, VerifySignature, AccountAt;
    Then(w, from, s, ReadAccount(t, answer, height));
    s' := Apply(w, s, ReadAccount(t, answer, height));
  }

  /** A settle about to simulate reaches its broadcast, or the result that ends it before. */
  lemma SimulatingLeads(w: World, from: RunState, s: RunState, t: nat, a: Answers) returns (s': RunState)
    requires Leads(w, from, s) && At(s, t, Simulating) && s.threads[t].check.PaymentAccepted?
    requires a.broadcast.Admitted? ==> a.broadcast.hash == Key(w, s.threads[t])
    ensures Leads(w, from, s') && SameBut(s, s', t) && s'.log == s.log
    ensures var accepted := s.threads[t].check;
            var check := CheckSimulation(accepted, a.simulation);
            var th := s'.threads[t];
            if !check.PaymentAccepted? then th.phase == Returned(SettleRefusal(check))
            else
              && check == accepted
              && if a.ended then th.phase == Returned(NoVerdictError)
                 else if a.broadcast.Admitted? then
                   th.phase == Awaiting(a.broadcast.hash, check.payer) && th.admittedAt == Some(s.clock)
                 else th.phase == Returned(BroadcastRefusal(check.payer, a.broadcast))
  {
    hide Leads;
    Then(w, from, s, Simulate(t, a.simulation));
    s' := Apply(w, s, Simulate(t, a.simulation));
    if CheckSimulation(s.threads[t].check, a.simulation).PaymentAccepted? {
      var step := if a.ended then GiveUp(t) else Broadcast(t, a.broadcast);
      Then(w, from, s', step);
      s' := Apply(w, s', step);
    }
  }

  /** A settle about to check the chain reaches its broadcast, or the result that ends it before. */
  lemma CheckingLeads(
    w: World, from: RunState, s: RunState, t: nat, a: Answers, height: nat, mined: Option<Event>, block: nat)
    returns (s': RunState)
    requires Leads(w, from, s) && At(s, t, Checking) && s.threads[t].check.PaymentAccepted?
    requires MayAnswer(w, s, s.threads[t].check, a, height, mined, block)
    ensures Leads(w, from, s') && SameBut(s, s', t) && s'.log == s.log
    ensures var check := s.threads[t].check;
            if CheckAccount(w.p, w.chainID, check, a.account).PaymentAccepted?
               && CheckSimulation(check, a.simulation).PaymentAccepted? && !a.ended && a.broadcast.Admitted?
            then
              && s'.threads[t].phase == Awaiting(a.broadcast.hash, check.payer)
              && s'.threads[t].admittedAt == Some(s.clock)
            else s'.threads[t].phase == Returned(SettleFresh(w.p, w.chainID, check, a))
                 && !SettleFresh(w.p, w.chainID, check, a).Success?
  {
    hide Leads, CheckAccount, ValidEvent, BlockHolds;
    s' := ReadLeads(w, from, s, t, a.account, height);
    if s'.threads[t].phase == Simulating {
      s' := SimulatingLeads(w, from, s', t, a);
    }
  }

  /** A settle waiting for its delivery reaches its result, a block being added meanwhile or not. */
  lemma AwaitingLeads(
    w: World, from: RunState, s: RunState, t: nat, delivery: DeliveryAnswer, mined: Option<Event>, block: nat)
    returns (s': RunState)
    requires Leads(w, from, s) && t in s.threads && s.threads[t].phase.Awaiting?
    requires mined.Some? ==> ValidEvent(w.p, w.chainID, s.log, mined.value) && mined.value.time == s.clock
    requires delivery != NotSeen ==> BlockHolds(w, Mined(s, mined), s.threads[t].phase.hash, block)
    requires delivery == Delivered ==> Mined(s, mined).log[block].Executed? && Mined(s, mined).log[block].ok
    requires delivery == DeliveryAborted && Mined(s, mined).log[block].Executed? ==> !Mined(s, mined).log[block].ok
    ensures Leads(w, from, s') && SameBut(s, s', t) && s'.log == Mined(s, mined).log
    ensures s'.threads[t].phase == Returned(Delivery(s.threads[t].phase.hash, s.threads[t].phase.payer, delivery))
  {
    hide Leads;
    s' := s;
    if mined.Some? {
      Then(w, from, s', Commit(mined.value));
      s' := Apply(w, s', Commit(mined.value));
    }
    Then(w, from, s', Await(t, delivery, block));
    s' := Apply(w, s', Await(t, delivery, block));
  }

  /** A settle with its result records it. */
  lemma ReturnedLeads(w: World, from: RunState, s: RunState, t: nat, now: Time) returns (s': RunState)
    requires Leads(w, from, s) && t in s.threads && s.threads[t].phase.Returned? && s.clock <= now
    ensures Leads(w, from, s') && s'.log == s.log && s'.clock == now && s'.threads.Keys == s.threads.Keys
    ensures s'.entries == Recorded(s.entries, Key(w, s.threads[t]), s.threads[t].phase.res, now)
    ensures s'.threads[t].phase == Answered(s.threads[t].phase.res) && s'.threads[t].check == s.threads[t].check
    ensures forall u :: u in s.threads && u != t ==> s'.threads[u] == s.threads[u]
  {
    hide Leads;
    Then(w, from, s, Tick(now - s.clock));
    s' := Apply(w, s, Tick(now - s.clock));
    Then(w, from, s', ReadClockAgain(t));
    s' := Apply(w, s', ReadClockAgain(t));
    Then(w, from, s', Record(t));
    s' := Apply(w, s', Record(t));
  }

  /** A settle that arrives alone takes its claim, or is refused before it has one. */
  lemma ArrivalLeads(
    w: World, from: RunState, s: RunState, t: nat, payload: PaymentPayload, req: Requirements) returns (s': RunState)
    requires Leads(w, from, s) && t !in s.threads
    ensures Leads(w, from, s') && s'.log == s.log && s'.clock == s.clock && s'.threads.Keys == s.threads.Keys + {t}
    ensures forall u :: u in s.threads ==> s'.threads[u] == s.threads[u]
    ensures var check := CheckOffline(w.p, w.chainID, payload, req); var th := s'.threads[t];
            && th.check == check
            && if !check.PaymentAccepted? then th.phase == Answered(SettleRefusal(check)) && s'.entries == s.entries
               else
                 var claim := Claimed(s.entries, w.p.txHash(check.raw), s.clock);
                 && s'.entries == claim.entries
                 && th.phase == (if !claim.ok then Answered(Duplicate(claim.prior))
                                 else if claim.prior.state == Pending then Awaiting(claim.prior.hash, claim.prior.payer)
                                 else Checking)
  {
    hide Leads, CheckOffline, Claimed;
    Then(w, from, s, Arrive(t, payload, req));
    s' := Apply(w, s, Arrive(t, payload, req));
    if s'.threads[t].check.PaymentAccepted? {
      Then(w, from, s', ReadClock(t));
      s' := Apply(w, s', ReadClock(t));
      Then(w, from, s', TakeClaim(t));
      s' := Apply(w, s', TakeClaim(t));
    }
  }

  /** A settle holding its claim reaches the result that it would reach alone. */
  lemma ClaimLeads(
    w: World, from: RunState, s: RunState, t: nat, a: Answers, height: nat, mined: Option<Event>, block: nat,
    res: SettleResult)
    returns (s': RunState)
    requires Leads(w, from, s) && t in s.threads && s.threads[t].check.PaymentAccepted?
    requires MayAnswer(w, s, s.threads[t].check, a, height, mined, block)
    requires var th := s.threads[t];
             if th.phase.Awaiting? then
               th.phase.hash == Key(w, th) && res == Delivery(th.phase.hash, th.phase.payer, a.delivery)
             else th.phase == Checking && res == SettleFresh(w.p, w.chainID, th.check, a)
    ensures Leads(w, from, s') && SameBut(s, s', t) && s'.threads[t].phase == Returned(res)
    ensures res.Success? ==> s'.log == Mined(s, mined).log
  {
    hide Leads;
    s' := s;
    if s.threads[t].phase == Checking {
      s' := CheckingLeads(w, from, s, t, a, height, mined, block);
    }
    if s'.threads[t].phase.Awaiting? {
      s' := AwaitingLeads(w, from, s', t, a.delivery, mined, block);
    }
  }

  /** Whatever the facilitator's Settle computes alone, some run of the process computes: it ends in
      the same answer and leaves the same table. */
  lemma SettleAloneIsARun(
    w: World, from: RunState, s: RunState, t: nat, payload: PaymentPayload, req: Requirements, a: Answers,
    height: nat, mined: Option<Event>, block: nat)
    returns (s': RunState)
    requires Leads(w, from, s) && t !in s.threads
    requires var check := CheckOffline(w.p, w.chainID, payload, req);
             check.PaymentAccepted? ==> MayAnswer(w, s, check, a, height, mined, block)
    ensures Leads(w, from, s')
    ensures var (answer, entries) := SettledAlone(w.p, w.chainID, s.entries, payload, req, a);
            && s'.entries == entries && Ended(s', t, answer)
            && s'.threads[t].check == CheckOffline(w.p, w.chainID, payload, req)
            && s'.threads.Keys == s.threads.Keys + {t}
            && (forall u :: u in s.threads ==> s'.threads[u] == s.threads[u])
            && (answer.Some? && answer.value.Success? ==> s'.clock == a.recordedAt && s'.log == Mined(s, mined).log)
  {
    hide Leads, CheckOffline, Recorded, AccountAt, ValidEvent;
    var check := CheckOffline(w.p, w.chainID, payload, req);
    s' := ArrivalLeads(w, from, s, t, payload, req);
    if check.PaymentAccepted? && !s'.threads[t].phase.Answered? {
      if a.panicked {
        Then(w, from, s', Panic(t));
        s' := Apply(w, s', Panic(t));
      } else {
        var prior := Claimed(s.entries, w.p.txHash(check.raw), a.claimedAt).prior;
        var res := if prior.state == Pending then Delivery(prior.hash, prior.payer, a.delivery)
                   else SettleFresh(w.p, w.chainID, check, a);
        s' := ClaimLeads(w, from, s', t, a, height, mined, block, res);
        s' := ReturnedLeads(w, from, s', t, a.recordedAt);
      }
    }
  }

  // ---- the bound on the lag is needed

  /** The payment is accepted offline and fresh for this account. */
  ghost predicate FreshFor(w: World, payload: PaymentPayload, req: Requirements, account: Account) {
    var check := CheckOffline(w.p, w.chainID, payload, req);
    && check.PaymentAccepted? && OnePayer(check.tx)
    && VerifySignature(w.p, check.tx, Some(account), TxSigner(check.tx).value, w.chainID) == Fresh
  }

  /** Every node answers in the payment's favour. */
  function Favourable(now: Time, account: Account, key: string): Answers {
    Answers(now, AccountRead(Some(account)), Simulated, false, Admitted(key), Delivered, false, now)
  }

  lemma FavourableSettles(
    w: World, entries: Entries, payload: PaymentPayload, req: Requirements, account: Account, now: Time)
    requires FreshFor(w, payload, req, account)
    requires var check := CheckOffline(w.p, w.chainID, payload, req);
             var key := w.p.txHash(check.raw);
             key in entries ==> entries[key].state == Settled && now - entries[key].at > SETTLEMENT_TTL
    ensures var check := CheckOffline(w.p, w.chainID, payload, req); var key := w.p.txHash(check.raw);
            var a := Favourable(now, account, key);
            SettledAlone(w.p, w.chainID, entries, payload, req, a).0 == Some(Success(key, check.payer))
  {
    hide CheckOffline;
    var check := CheckOffline(w.p, w.chainID, payload, req);
    var key := w.p.txHash(check.raw);
    assert Claimed(entries, key, now).prior == NO_SETTLEMENT;
    assert CheckAccount(w.p, w.chainID, check, AccountRead(Some(account))) == check;
  }

  /** A table that settled the payment now holds exactly its settled entry. */
  lemma FavourableLeaves(w: World, payload: PaymentPayload, req: Requirements, account: Account, now: Time)
    requires FreshFor(w, payload, req, account)
    ensures var check := CheckOffline(w.p, w.chainID, payload, req); var key := w.p.txHash(check.raw);
            var after := SettledAlone(w.p, w.chainID, map[], payload, req, Favourable(now, account, key)).1;
            key in after && after[key] == Settlement(Settled, "", key, now)
  {
    FavourableSettles(w, map[], payload, req, account, now);
  }

  /** A chain that holds nothing but the account. */
  lemma FundedChain(w: World, id: AccountId, account: Account) returns (s0: RunState, s: RunState)
    ensures Initial(s0) && Leads(w, s0, s)
    ensures s == RunState(1, map[], map[], [Moved(id, account, 1)])
    ensures s.log[..1] == s.log && AccountAt(w.p, s.log, id) == Some(account)
  {
    hide Leads;
    s0 := RunState(1, map[], map[], []);
    Stay(w, s0);
    Then(w, s0, s0, Commit(Moved(id, account, 1)));
    s := Apply(w, s0, Commit(Moved(id, account, 1)));
    assert s.log[..0] == [];
  }

  /** A settle of the payment that every answer favours, on a chain whose first event is the account. */
  lemma FavourableRun(
    w: World, from: RunState, s: RunState, t: nat, payload: PaymentPayload, req: Requirements, account: Account,
    mined: Option<Event>)
    returns (s': RunState)
    requires Leads(w, from, s) && t !in s.threads && FreshFor(w, payload, req, account)
    requires var check := CheckOffline(w.p, w.chainID, payload, req); var key := w.p.txHash(check.raw);
             && InView(w, s, 1) && AccountAt(w.p, s.log[..1], IdOf(check.tx)) == Some(account)
             && (key in s.entries ==> s.entries[key].state == Settled && s.clock - s.entries[key].at > SETTLEMENT_TTL)
             && (mined.Some? ==> ValidEvent(w.p, w.chainID, s.log, mined.value) && mined.value.time == s.clock)
             && BlockHolds(w, Mined(s, mined), key, 1)
             && Mined(s, mined).log[1].Executed? && Mined(s, mined).log[1].ok
    ensures Leads(w, from, s') && s'.clock == s.clock && s'.log == Mined(s, mined).log
    ensures s'.threads.Keys == s.threads.Keys + {t}
    ensures forall u :: u in s.threads ==> s'.threads[u] == s.threads[u]
    ensures PaidFor(s', t, IdOf(CheckOffline(w.p, w.chainID, payload, req).tx), account.sequence)
    ensures var key := w.p.txHash(CheckOffline(w.p, w.chainID, payload, req).raw);
            s'.entries == SettledAlone(w.p, w.chainID, s.entries, payload, req, Favourable(s.clock, account, key)).1
  {
    hide CheckOffline, SettledAlone, Leads;
    var check := CheckOffline(w.p, w.chainID, payload, req);
    VerdictPinsSequence(w.p, check.tx, account, TxSigner(check.tx).value, w.chainID);
    FavourableSettles(w, s.entries, payload, req, account, s.clock);
    var a := Favourable(s.clock, account, w.p.txHash(check.raw));
    s' := SettleAloneIsARun(w, from, s, t, payload, req, a, 1, mined, 1);
  }

  /** The payment's own block, on a chain that holds nothing but its account. */
  lemma OwnBlockIsValid(w: World, payload: PaymentPayload, req: Requirements, account: Account)
    requires FreshFor(w, payload, req, account)
    ensures var check := CheckOffline(w.p, w.chainID, payload, req);
            ValidEvent(w.p, w.chainID, [Moved(IdOf(check.tx), account, 1)], Executed(check.raw, check.tx, true, 1))
  {
    var check := CheckOffline(w.p, w.chainID, payload, req);
    var log := [Moved(IdOf(check.tx), account, 1)];
    assert log[..|log| - 1] == [];
  }

  /** The state a run of two settles of one payment ends in, both answered settled. */
  lemma SettledTwice(w: World, payload: PaymentPayload, req: Requirements, account: Account)
    returns (s0: RunState, s: RunState)
    requires w.lag > SETTLEMENT_TTL && FreshFor(w, payload, req, account)
    ensures Initial(s0) && Leads(w, s0, s)
    ensures var id := IdOf(CheckOffline(w.p, w.chainID, payload, req).tx);
            PaidFor(s, 0, id, account.sequence) && PaidFor(s, 1, id, account.sequence)
  {
    hide CheckOffline, SettledAlone, Leads, AccountAt, Favourable, VerifySignature;
    var check := CheckOffline(w.p, w.chainID, payload, req);
    var paid := Executed(check.raw, check.tx, true, 1);
    var s1;
    s0, s1 := FundedChain(w, IdOf(check.tx), account);
    OwnBlockIsValid(w, payload, req, account);
    FavourableLeaves(w, payload, req, account, 1);
    var s2 := FavourableRun(w, s0, s1, 0, payload, req, account, Some(paid));
    Then(w, s0, s2, Tick(SETTLEMENT_TTL + 1));
    var s3 := Apply(w, s2, Tick(SETTLEMENT_TTL + 1));
    assert s3.log[..1] == s1.log;
    s := FavourableRun(w, s0, s3, 1, payload, req, account, None);
  }

  /** Against nodes that may lag the chain by more than the TTL, any payment the facilitator accepts
      offline and that is fresh for some account can be answered settled twice: the second settle
      claims it after the first record expired, reads an account that still shows its sequence
      unspent, broadcasts it to a node as far behind, and is shown the first settle's own block. */
  lemma LagBoundIsNeeded(w: World, payload: PaymentPayload, req: Requirements, account: Account)
    returns (states: seq<RunState>, steps: seq<Step>)
    requires w.lag > SETTLEMENT_TTL && FreshFor(w, payload, req, account)
    ensures IsRun(w, states, steps)
    ensures var id := IdOf(CheckOffline(w.p, w.chainID, payload, req).tx); var s := states[|steps|];
            PaidFor(s, 0, id, account.sequence) && PaidFor(s, 1, id, account.sequence)
  {
    hide CheckOffline, IsPath, PaidFor, Leads;
    var s0, s := SettledTwice(w, payload, req, account);
    states, steps := PathTo(w, s0, s);
  }

  /** The state a run reaches that broadcasts one payment twice at one instant. */
  lemma BroadcastTwice(w: World, payload: PaymentPayload, req: Requirements, account: Account)
    returns (s0: RunState, s: RunState)
    requires w.lag >= 0 && FreshFor(w, payload, req, account)
    ensures Initial(s0) && Leads(w, s0, s)
    ensures && 0 in s.threads && 1 in s.threads && SameBytes(s.threads[0], s.threads[1])
            && s.threads[0].admittedAt == s.threads[1].admittedAt == Some(s.clock)
  {
    hide CheckOffline, Leads, AccountAt, VerifySignature;
    var check := CheckOffline(w.p, w.chainID, payload, req);
    var s1;
    s0, s1 := FundedChain(w, IdOf(check.tx), account);
    var s2 := BroadcastLeads(w, s0, s1, 0, payload, req, account);
    Then(w, s0, s2, Panic(0));
    var s3 := Apply(w, s2, Panic(0));
    assert w.p.txHash(check.raw) !in s3.entries;
    s := BroadcastLeads(w, s0, s3, 1, payload, req, account);
  }

  /** A panic while a settle waits for its delivery drops the record of a payment a node has admitted:
      the next settle of the same bytes broadcasts them again, at the same instant if it likes. */
  lemma PanicCanRepeatABroadcast(w: World, payload: PaymentPayload, req: Requirements, account: Account)
    returns (states: seq<RunState>, steps: seq<Step>)
    requires w.lag >= 0 && FreshFor(w, payload, req, account)
    ensures IsRun(w, states, steps)
    ensures var s := states[|steps|];
            && 0 in s.threads && 1 in s.threads && SameBytes(s.threads[0], s.threads[1])
            && s.threads[0].admittedAt == s.threads[1].admittedAt == Some(s.clock)
  {
    hide CheckOffline, IsPath, Leads;
    var s0, s := BroadcastTwice(w, payload, req, account);
    states, steps := PathTo(w, s0, s);
  }

  /** A settle of an unrecorded payment that the node's answers favour is admitted. */
  lemma BroadcastLeads(
    w: World, from: RunState, s: RunState, t: nat, payload: PaymentPayload, req: Requirements, account: Account)
    returns (s': RunState)
    requires Leads(w, from, s) && t !in s.threads && InView(w, s, 1)
    requires FreshFor(w, payload, req, account)
    requires var check := CheckOffline(w.p, w.chainID, payload, req);
             && w.p.txHash(check.raw) !in s.entries
             && AccountAt(w.p, s.log[..1], IdOf(check.tx)) == Some(account)
    ensures Leads(w, from, s') && s'.log == s.log && s'.clock == s.clock && s'.threads.Keys == s.threads.Keys + {t}
    ensures forall u :: u in s.threads ==> s'.threads[u] == s.threads[u]
    ensures var check := CheckOffline(w.p, w.chainID, payload, req); var th := s'.threads[t];
            && th.check == check && th.admittedAt == Some(s.clock)
            && th.phase == Awaiting(w.p.txHash(check.raw), check.payer)
  {
    hide CheckOffline, Leads;
    var check := CheckOffline(w.p, w.chainID, payload, req);
    var a := Favourable(s.clock, account, w.p.txHash(check.raw)).(delivery := NotSeen);
    assert CheckAccount(w.p, w.chainID, check, a.account) == check;
    hide CheckAccount, VerifySignature, AccountAt, FreshFor;
    var s1 := ArrivalLeads(w, from, s, t, payload, req);
    s' := CheckingLeads(w, from, s1, t, a, 1, None, 0);
  }

  lemma PathTo(w: World, from: RunState, to: RunState) returns (states: seq<RunState>, steps: seq<Step>)
    requires Leads(w, from, to)
    ensures IsPath(w, states, steps) && states[0] == from && states[|steps|] == to
  {
    states, steps :| IsPath(w, states, steps) && states[0] == from && states[|steps|] == to;
  }
}
