/** What holds of every run of one facilitator process, whatever the interleaving. */
module SettleTheorems {
  import opened Options
  import opened Account
  import opened Settlements
  import opened Facilitator
  import opened Ledger
  import opened SettleRuns
  import opened SettleInvariant
  import opened SettleOnce

  ghost predicate Invariant(w: World, s: RunState) {
    ThreadsFit(w, s) && TableFits(w, s) && (w.lag <= SETTLEMENT_TTL ==> ConclusionsFit(w, s))
  }

  lemma StepKeepsInvariant(w: World, s: RunState, step: Step)
    requires Ideal(w) && Invariant(w, s) && Enabled(w, s, step)
    ensures Invariant(w, Apply(w, s, step))
  {
    ThreadsKept(w, s, step);
    TableKept(w, s, step);
    if w.lag <= SETTLEMENT_TTL {
      ConclusionsKept(w, s, step);
    }
  }

  lemma {:induction false} RunKeepsInvariant(w: World, states: seq<RunState>, steps: seq<Step>, i: nat)
    requires Ideal(w) && IsRun(w, states, steps) && i < |states|
    ensures Invariant(w, states[i])
  {
    if i == 0 {
      InitialFits(w, states[0]);
    } else {
      RunKeepsInvariant(w, states, steps, i - 1);
      StepKeepsInvariant(w, states[i - 1], steps[i - 1]);
      assert states[i - 1 + 1] == Apply(w, states[i - 1], steps[i - 1]);
    }
  }

  // ---- once only

  /** Settle t was answered settled for a payment signed at this sequence of this account. */
  predicate PaidFor(s: RunState, t: nat, id: AccountId, sequence: nat) {
    && t in s.threads && s.threads[t].phase.Answered? && s.threads[t].phase.answer.Success?
    && s.threads[t].check.PaymentAccepted? && OnePayer(s.threads[t].check.tx)
    && IdOf(s.threads[t].check.tx) == id && SignedSequence(s.threads[t].check.tx) == Some(sequence)
  }

  /** Settle t saw a block that executed the payment signed at this sequence of this account. */
  predicate ExecutedFor(s: RunState, t: nat, id: AccountId, sequence: nat) {
    && t in s.threads && SawExecution(s, s.threads[t])
    && s.threads[t].check.PaymentAccepted? && OnePayer(s.threads[t].check.tx)
    && IdOf(s.threads[t].check.tx) == id && SignedSequence(s.threads[t].check.tx) == Some(sequence)
  }

  /** In every run against a chain whose account answers lag by at most the TTL, at most one settle
      ever sees a block that executed the payment of one account and sequence, whatever the block's
      verdict, whatever the encodings of the payment, however the settles interleave, through
      expiries, pending records, reconciles and panics. */
  lemma {:induction false} OneExecutionSeenPerSequence(
    w: World, states: seq<RunState>, steps: seq<Step>, i: nat, t: nat, u: nat, id: AccountId, sequence: nat)
    requires Ideal(w) && w.lag <= SETTLEMENT_TTL && IsRun(w, states, steps) && i < |states|
    requires ExecutedFor(states[i], t, id, sequence) && ExecutedFor(states[i], u, id, sequence)
    ensures t == u
  {
    var s := states[i];
    RunKeepsInvariant(w, states, steps, i);
    SeenBlockHoldsItsBytes(w, s, t);
    SeenBlockHoldsItsBytes(w, s, u);
    OneExecutionPerSequence(w.p, w.chainID, s.log, s.threads[t].seen.value, s.threads[u].seen.value);
    assert Key(w, s.threads[t]) == Key(w, s.threads[u]);
    if t != u {
      OnePaymentOneWitness(w, s, t, u);
    }
  }

  /** A settle that saw a block execute its payment holds it still or was answered. */
  lemma WitnessHoldsOrConcluded(w: World, s: RunState, t: nat)
    requires Ideal(w) && ThreadsFit(w, s)
    requires t in s.threads && SawExecution(s, s.threads[t]) && s.threads[t].check.PaymentAccepted?
    ensures !Harmless(s, s.threads[t])
    ensures Holds(s.threads[t]) || Concluded(w, s, t, Key(w, s.threads[t]))
  {
    assert ThreadFits(w, s, s.threads[t]);
  }

  lemma OnePaymentOneWitness(w: World, s: RunState, t: nat, u: nat)
    requires Ideal(w) && ThreadsFit(w, s) && OwnersFit(w, s) && ConclusionsFit(w, s)
    requires t in s.threads && SawExecution(s, s.threads[t]) && s.threads[t].check.PaymentAccepted?
    requires u in s.threads && SawExecution(s, s.threads[u]) && s.threads[u].check.PaymentAccepted?
    requires Key(w, s.threads[t]) == Key(w, s.threads[u])
    ensures t == u
  {
    WitnessHoldsOrConcluded(w, s, t);
    WitnessHoldsOrConcluded(w, s, u);
  }

  /** So at most one settle is ever answered settled for one account and sequence. */
  lemma {:induction false} OneSuccessPerSequence(
    w: World, states: seq<RunState>, steps: seq<Step>, i: nat, t: nat, u: nat, id: AccountId, sequence: nat)
    requires Ideal(w) && w.lag <= SETTLEMENT_TTL && IsRun(w, states, steps) && i < |states|
    requires PaidFor(states[i], t, id, sequence) && PaidFor(states[i], u, id, sequence)
    ensures t == u
  {
    RunKeepsInvariant(w, states, steps, i);
    SuccessSawItsBlock(w, states[i], t);
    SuccessSawItsBlock(w, states[i], u);
    OneExecutionSeenPerSequence(w, states, steps, i, t, u, id, sequence);
  }

  /** The block a settle saw executing its payment held exactly the bytes the settle checked. */
  lemma SeenBlockHoldsItsBytes(w: World, s: RunState, t: nat)
    requires Ideal(w) && ThreadsFit(w, s)
    requires t in s.threads && SawExecution(s, s.threads[t]) && s.threads[t].check.PaymentAccepted?
    ensures var th := s.threads[t]; var e := s.log[th.seen.value];
            e.raw == th.check.raw && e.tx == th.check.tx
  {
    var th := s.threads[t];
    var j := th.seen.value;
    assert Saw(w, s, th) && Sound(w.p, th.check) by { assert ThreadFits(w, s, th); }
    assert ValidEvent(w.p, w.chainID, s.log[..j], s.log[j]);
    assert w.p.txHash(s.log[j].raw) == w.p.txHash(th.check.raw);
  }

  /** A settle answered settled saw a block execute its payment. */
  lemma SuccessSawItsBlock(w: World, s: RunState, t: nat)
    requires ThreadsFit(w, s)
    requires t in s.threads && s.threads[t].phase.Answered? && s.threads[t].phase.answer.Success?
    ensures SawExecution(s, s.threads[t])
  {
    assert ThreadFits(w, s, s.threads[t]);
  }

  // ---- broadcasts

  /** In every run two admitted broadcasts of one payment are more than the TTL apart, however stale
      the clock readings its claims and records used, unless between them a panic unwound a settle
      of it that a node had admitted. */
  lemma {:induction false} AdmittedBroadcastsAreApart(
    w: World, states: seq<RunState>, steps: seq<Step>, i: nat, j: nat, key: string)
    requires Ideal(w) && IsRun(w, states, steps) && i < j < |steps|
    requires Admits(w, states[i], steps[i], key) && Admits(w, states[j], steps[j], key)
    requires forall k {:trigger steps[k]} :: i < k < j ==> !DropsPending(w, states[k], steps[k], key)
    ensures states[j].clock > states[i].clock + SETTLEMENT_TTL
  {
    StaysGuarded(w, states, steps, i, j, key);
    RunKeepsInvariant(w, states, steps, j);
    GuardHoldsBroadcastsBack(w, states[j], steps[i].t, steps[j].t, steps[j].broadcast, key, states[i].clock);
  }

  lemma {:induction false} StaysGuarded(
    w: World, states: seq<RunState>, steps: seq<Step>, i: nat, j: nat, key: string)
    requires Ideal(w) && IsRun(w, states, steps) && i < j <= |steps| && Admits(w, states[i], steps[i], key)
    requires forall k {:trigger steps[k]} :: i < k < j ==> !DropsPending(w, states[k], steps[k], key)
    ensures Guarded(w, states[j], steps[i].t, key, states[i].clock)
    decreases j
  {
    hide Apply, Enabled, Guarded, DropsPending;
    if i == j - 1 {
      AdmissionIsGuarded(w, states[i], steps[i], key);
    } else {
      StaysGuarded(w, states, steps, i, j - 1, key);
      RunKeepsInvariant(w, states, steps, j - 1);
      GuardKept(w, states[j - 1], steps[j - 1], steps[i].t, key, states[i].clock);
    }
    assert states[j - 1 + 1] == Apply(w, states[j - 1], steps[j - 1]);
  }

  // ---- ownership

  /** An entry reads settling exactly while one settle holds that payment, and then it is exactly
      what that settle's claim left. */
  lemma {:induction false} SettlingExactlyWhileHeld(
    w: World, states: seq<RunState>, steps: seq<Step>, i: nat, key: string)
    requires Ideal(w) && IsRun(w, states, steps) && i < |states| && key != ""
    ensures var s := states[i];
            && ((key in s.entries && s.entries[key].state == Settling)
                <==> exists t :: t in s.threads && Holds(s.threads[t]) && Key(w, s.threads[t]) == key)
            && (forall t, u ::
                  (t in s.threads && u in s.threads && Holds(s.threads[t]) && Holds(s.threads[u])
                   && Key(w, s.threads[t]) == key && Key(w, s.threads[u]) == key) ==> t == u)
            && (forall t :: t in s.threads && Holds(s.threads[t]) && Key(w, s.threads[t]) == key ==>
                  s.entries[key] == Settlement(Settling, "", s.threads[t].prior.hash, s.threads[t].prior.at))
  {
    RunKeepsInvariant(w, states, steps, i);
    var s := states[i];
    if key in s.entries && s.entries[key].state == Settling {
      assert EntryFits(w, s, key);
      assert Held(w, s, key);
    }
    forall t | t in s.threads && Holds(s.threads[t]) && Key(w, s.threads[t]) == key
      ensures key in s.entries
      ensures s.entries[key] == Settlement(Settling, "", s.threads[t].prior.hash, s.threads[t].prior.at)
    {
      assert Owned(w, s, s.threads[t]);
    }
  }

  /** No step of another settle, a sweep included, changes the entry of a payment a settle holds. */
  lemma {:induction false} OthersLeaveAHeldEntry(w: World, states: seq<RunState>, steps: seq<Step>, i: nat, t: nat)
    requires Ideal(w) && IsRun(w, states, steps) && i < |steps|
    requires t in states[i].threads && Holds(states[i].threads[t]) && Mover(steps[i]) != Some(t)
    ensures var key := Key(w, states[i].threads[t]);
            && key in states[i].entries && key in states[i + 1].entries
            && states[i + 1].entries[key] == states[i].entries[key]
  {
    RunKeepsInvariant(w, states, steps, i);
    RunKeepsInvariant(w, states, steps, i + 1);
    assert Owned(w, states[i], states[i].threads[t]);
    assert Owned(w, states[i + 1], states[i + 1].threads[t]);
  }

  /** Once every settle has returned, the table holds no claim. */
  lemma {:induction false} NothingHeldWhenAllReturned(w: World, states: seq<RunState>, steps: seq<Step>, i: nat)
    requires Ideal(w) && IsRun(w, states, steps) && i < |states|
    requires forall t :: t in states[i].threads ==>
               states[i].threads[t].phase.Answered? || states[i].threads[t].phase.Crashed?
    ensures forall k :: k in states[i].entries ==> states[i].entries[k].state in {Settled, Pending}
  {
    RunKeepsInvariant(w, states, steps, i);
    forall k | k in states[i].entries
      ensures states[i].entries[k].state in {Settled, Pending}
    {
      UnheldEntry(w, states[i], k);
    }
  }

  lemma UnheldEntry(w: World, s: RunState, key: string)
    requires EntriesFit(w, s) && key in s.entries
    requires forall t :: t in s.threads ==> !Holds(s.threads[t])
    ensures s.entries[key].state in {Settled, Pending}
  {
    assert EntryFits(w, s, key);
  }

  // ---- what a record leaves

  /** record sees only the shape of the result, and yet leaves the payment settled exactly when a
      block was seen holding it, pending exactly when it is in flight and none was, and free
      exactly when this settle got no admission. So a reconcile never releases. */
  lemma {:induction false} RecordMatchesWhatHappened(w: World, states: seq<RunState>, steps: seq<Step>, i: nat, t: nat)
    requires Ideal(w) && IsRun(w, states, steps) && i < |steps| && steps[i] == Record(t)
    ensures var th := states[i].threads[t]; var key := Key(w, th); var after := states[i + 1].entries;
            && (key in after <==> InFlight(th))
            && (key in after && after[key].state == Settled <==> th.seen.Some?)
            && (key in after && after[key].state == Pending <==> InFlight(th) && th.seen.None?)
            && (th.prior.state == Pending ==> key in after && after[key].hash == th.prior.hash)
  {
    RunKeepsInvariant(w, states, steps, i);
    var s := states[i];
    assert states[i + 1] == Apply(w, s, steps[i]);
    assert ThreadFits(w, s, s.threads[t]);
    assert Owned(w, s, s.threads[t]);
    hide Invariant, IsRun, ThreadsFit, TableFits;
    RecordMatchesShape(w, s, t);
  }

  lemma RecordMatchesShape(w: World, s: RunState, t: nat)
    requires Ideal(w) && Enabled(w, s, Record(t)) && ThreadFits(w, s, s.threads[t]) && Owned(w, s, s.threads[t])
    ensures var th := s.threads[t]; var key := Key(w, th); var after := Apply(w, s, Record(t)).entries;
            && (key in after <==> InFlight(th))
            && (key in after && after[key].state == Settled <==> th.seen.Some?)
            && (key in after && after[key].state == Pending <==> InFlight(th) && th.seen.None?)
            && (th.prior.state == Pending ==> key in after && after[key].hash == th.prior.hash)
  {
    hide Sound, OnePayer, VerifySignature, TxSigner, CheckOffline, SettleRefusal;
  }

  /** A claim of a pending payment that reads the clock within the TTL of its record's time
      reconciles, waiting under the record's hash and naming its payer; one reading it later starts
      afresh. The record is one that some settle left, admitted by a node, under its own signature. */
  lemma {:induction false} PendingClaimsReconcile(
    w: World, states: seq<RunState>, steps: seq<Step>, i: nat, key: string, t: nat)
    requires Ideal(w) && IsRun(w, states, steps) && i < |steps|
    requires key in states[i].entries && states[i].entries[key].state == Pending
    requires steps[i] == TakeClaim(t) && Key(w, states[i].threads[t]) == key
    ensures var e := states[i].entries[key]; var now := states[i].threads[t].phase.now;
            && e.hash == key
            && (exists first :: LeftPending(w, states[i], first, key, e.payer, e.at))
            && states[i + 1].threads[t].phase ==
                 (if now <= e.at + SETTLEMENT_TTL then Awaiting(key, e.payer) else Checking)
  {
    RunKeepsInvariant(w, states, steps, i);
    var s := states[i];
    assert EntryFits(w, s, key);
    assert PendingSince(w, s, key, s.entries[key].payer, s.entries[key].at);
    ClaimByAge(s.entries, key, s.threads[t].phase.now);
    assert states[i + 1] == Apply(w, s, steps[i]);
  }

  // ---- what goes on the wire

  /** Every payer an answer names was confirmed by a signature over the same bytes: by this settle,
      at the account's current or previous sequence, or by the one that left the payment pending, at
      its current one. Every hash an answer names belongs to those bytes, and a node admitted them. */
  lemma {:induction false} WireNamesOnlyWhatWasEstablished(
    w: World, states: seq<RunState>, steps: seq<Step>, i: nat, t: nat)
    requires Ideal(w) && IsRun(w, states, steps) && i < |states|
    requires t in states[i].threads && states[i].threads[t].phase.Answered?
    ensures var s := states[i]; var th := s.threads[t]; var res := th.phase.answer;
            && (WirePayer(res) != "" ==>
                  && th.check.PaymentAccepted?
                  && ((Confirmed(w, th) && WirePayer(res) == th.check.payer)
                      || exists first :: LeftPending(w, s, first, Key(w, th), WirePayer(res), th.prior.at)))
            && (WireHash(res) != "" ==>
                  && th.check.PaymentAccepted? && WireHash(res) == w.p.txHash(th.check.raw)
                  && exists u :: u in s.threads && s.threads[u].admittedAt.Some? && SameBytes(s.threads[u], th))
  {
    RunKeepsInvariant(w, states, steps, i);
    var s := states[i];
    var th := s.threads[t];
    var res := th.phase.answer;
    assert ThreadFits(w, s, th);
    AnswerNames(w, s, th);
    assert th.prior.state == Pending ==> PendingSince(w, s, Key(w, th), th.prior.payer, th.prior.at);
    if WireHash(res) != "" {
      if InFlight(th) {
        InFlightWasAdmitted(w, s, t);
      }
      AdmittedSameBytes(w, s, th);
    }
  }

  /** What one answer names, in terms of its own settle. */
  lemma AnswerNames(w: World, s: RunState, th: Thread)
    requires Ideal(w) && ThreadFits(w, s, th) && th.phase.Answered?
    ensures var res := th.phase.answer;
            && (WirePayer(res) != "" ==>
                  && th.check.PaymentAccepted?
                  && if th.prior.state == Pending then WirePayer(res) == th.prior.payer
                     else Confirmed(w, th) && WirePayer(res) == th.check.payer)
            && (WireHash(res) != "" ==>
                  th.check.PaymentAccepted? && WireHash(res) == Key(w, th) && (InFlight(th) || HashOnCopy(th)))
  {
    hide Sound, OnePayer, VerifySignature, TxSigner, CheckOffline;
  }

  lemma AdmittedSameBytes(w: World, s: RunState, th: Thread)
    requires Ideal(w) && ThreadsFit(w, s) && th.check.PaymentAccepted? && WasAdmitted(w, s, Key(w, th))
    ensures exists u :: u in s.threads && s.threads[u].admittedAt.Some? && SameBytes(s.threads[u], th)
  {
    var u :| u in s.threads && s.threads[u].admittedAt.Some? && Key(w, s.threads[u]) == Key(w, th);
    assert ThreadFits(w, s, s.threads[u]);
    assert SameBytes(s.threads[u], th);
  }

  predicate SameBytes(a: Thread, b: Thread) {
    a.check.PaymentAccepted? && b.check.PaymentAccepted? && a.check.raw == b.check.raw
  }

  /** A copy refused while its payment is held carries no hash exactly when the holder is not
      reconciling, although a node may have admitted the holder's broadcast already. */
  lemma {:induction false} CopyOfAFirstSettleCarriesNoHash(
    w: World, states: seq<RunState>, steps: seq<Step>, i: nat, t: nat, holder: nat)
    requires Ideal(w) && IsRun(w, states, steps) && i < |steps| && steps[i] == TakeClaim(t)
    requires holder in states[i].threads && Holds(states[i].threads[holder])
    requires Key(w, states[i].threads[holder]) == Key(w, states[i].threads[t])
    ensures var answer := states[i + 1].threads[t].phase;
            && answer.Answered? && answer.answer.SettleError? && answer.answer.reason == DuplicateSettlement
            && (WireHash(answer.answer) == "" <==> states[i].threads[holder].prior.state == Unclaimed)
  {
    RunKeepsInvariant(w, states, steps, i);
    var s := states[i];
    var h := s.threads[holder];
    assert ThreadFits(w, s, h);
    assert Owned(w, s, h);
    ClaimByAge(s.entries, Key(w, h), s.threads[t].phase.now);
    assert states[i + 1] == Apply(w, s, steps[i]);
    hide Invariant, IsRun, ThreadsFit, TableFits, Sweep, Recorded, CheckOffline, CheckAccount;
  }
}
