/** Why one payment is broadcast at most once per TTL, and answered settled at most once. */
module SettleOnce {
  import opened Options
  import opened Clock
  import opened Account
  import opened Settlements
  import opened Facilitator
  import opened Ledger
  import opened SettleRuns
  import opened SettleInvariant

  // ---- broadcasts of one payment are more than the TTL apart

  predicate AdmittedAs(w: World, s: RunState, t: nat, key: string) {
    t in s.threads && s.threads[t].admittedAt.Some? && Key(w, s.threads[t]) == key
  }

  /** Thread t was admitted at b, and nothing can broadcast its payment again until more than the
      TTL after that. */
  predicate Guarded(w: World, s: RunState, t: nat, key: string, b: Time) {
    && AdmittedAs(w, s, t, key) && s.threads[t].admittedAt == Some(b)
    && (Holds(s.threads[t]) || (key in s.entries && s.entries[key].at >= b) || s.clock > b + SETTLEMENT_TTL)
  }

  /** The step is a broadcast of this payment that a node admits. */
  predicate Admits(w: World, s: RunState, step: Step, key: string) {
    step.Broadcast? && step.broadcast.Admitted? && step.t in s.threads && Key(w, s.threads[step.t]) == key
  }

  /** A panic unwinds a settle of this payment after a node has admitted it. */
  predicate DropsPending(w: World, s: RunState, step: Step, key: string) {
    && step.Panic? && step.t in s.threads
    && s.threads[step.t].phase.Awaiting? && Key(w, s.threads[step.t]) == key
  }

  lemma AdmissionIsGuarded(w: World, s: RunState, step: Step, key: string)
    requires Enabled(w, s, step) && Admits(w, s, step, key)
    ensures Guarded(w, Apply(w, s, step), step.t, key, s.clock)
  {
  }

  /** A key's holder is the only one of its settles the table can be waiting for. */
  lemma OtherSettlesArePast(w: World, s: RunState, m: nat, t: nat, key: string, b: Time)
    requires OwnersFit(w, s) && m in s.threads && Holds(s.threads[m]) && Key(w, s.threads[m]) == key
    requires Guarded(w, s, t, key, b) && t != m
    ensures !Holds(s.threads[t])
    ensures s.threads[m].prior.at >= b || s.clock > b + SETTLEMENT_TTL
  {
    assert Owned(w, s, s.threads[m]);
  }

  lemma QuietStepKeepsGuard(w: World, s: RunState, step: Step, t: nat, key: string, b: Time)
    requires Ideal(w) && ThreadsFit(w, s) && Enabled(w, s, step) && !TouchesTable(step) && Guarded(w, s, t, key, b)
    ensures Guarded(w, Apply(w, s, step), t, key, b)
  {
    assert ThreadFits(w, s, s.threads[t]);
    QuietStepKeepsClaims(w, s, step);
  }

  lemma ClaimKeepsGuard(w: World, s: RunState, m: nat, t: nat, key: string, b: Time)
    requires Enabled(w, s, TakeClaim(m)) && ClaimSeen(w, s, m) && Guarded(w, s, t, key, b) && b > ZERO_TIME
    ensures Guarded(w, Apply(w, s, TakeClaim(m)), t, key, b)
  {
    SweepKeepsEntries(s.entries, s.threads[m].phase.now);
  }

  /** A record, or a panic before any admission, seen from the broadcasts it leaves guarded: it
      releases only what was never admitted, and dates what it marks no earlier than its own
      admission and the record it reconciles. */
  ghost predicate EndGuards(w: World, s: RunState, s': RunState, m: nat) {
    && EndsClaim(w, s, s', m)
    && var key := Key(w, s.threads[m]); var th := s.threads[m];
    && s'.threads[m].admittedAt == th.admittedAt
    && (if key in s'.entries then
          && s'.entries[key].at >= th.prior.at
          && (th.admittedAt.Some? ==> s'.entries[key].at >= th.admittedAt.value)
        else th.admittedAt.None? && th.prior.at == ZERO_TIME)
  }

  lemma EndingKeepsGuard(w: World, s: RunState, step: Step, m: nat, t: nat, key: string, b: Time)
    requires OwnersFit(w, s) && Enabled(w, s, step) && Mover(step) == Some(m)
    requires EndGuards(w, s, Apply(w, s, step), m)
    requires Guarded(w, s, t, key, b) && b > ZERO_TIME
    ensures Guarded(w, Apply(w, s, step), t, key, b)
  {
    if key == Key(w, s.threads[m]) && t != m {
      OtherSettlesArePast(w, s, m, t, key, b);
    }
  }

  lemma RecordGuards(w: World, s: RunState, m: nat)
    requires Ideal(w) && Enabled(w, s, Record(m)) && ThreadFits(w, s, s.threads[m]) && Owned(w, s, s.threads[m])
    ensures EndGuards(w, s, Apply(w, s, Record(m)), m)
  {
    RecordEndsClaim(w, s, m);
  }

  lemma PanicGuards(w: World, s: RunState, m: nat)
    requires Ideal(w) && Enabled(w, s, Panic(m)) && ThreadFits(w, s, s.threads[m]) && !s.threads[m].phase.Awaiting?
    ensures EndGuards(w, s, Apply(w, s, Panic(m)), m)
  {
    PanicEndsClaim(w, s, m);
  }

  /** A panic that unwinds a settle of another payment. */
  lemma OtherPanicKeepsGuard(w: World, s: RunState, m: nat, t: nat, key: string, b: Time)
    requires Enabled(w, s, Panic(m)) && EndsClaim(w, s, Apply(w, s, Panic(m)), m)
    requires Guarded(w, s, t, key, b) && Key(w, s.threads[m]) != key
    ensures Guarded(w, Apply(w, s, Panic(m)), t, key, b)
  {
  }

  lemma PanicKeepsGuard(w: World, s: RunState, m: nat, t: nat, key: string, b: Time)
    requires Ideal(w) && ThreadsFit(w, s) && OwnersFit(w, s) && Enabled(w, s, Panic(m))
    requires Guarded(w, s, t, key, b) && b > ZERO_TIME && !DropsPending(w, s, Panic(m), key)
    ensures Guarded(w, Apply(w, s, Panic(m)), t, key, b)
  {
    assert ThreadFits(w, s, s.threads[m]);
    hide ThreadFits, Guarded, ThreadsFit, OwnersFit, Apply;
    if s.threads[m].phase.Awaiting? {
      PanicEndsClaim(w, s, m);
      OtherPanicKeepsGuard(w, s, m, t, key, b);
    } else {
      PanicGuards(w, s, m);
      EndingKeepsGuard(w, s, Panic(m), m, t, key, b);
    }
  }

  /** An admitted broadcast stays guarded through every step but a panic that drops its payment. */
  lemma GuardKept(w: World, s: RunState, step: Step, t: nat, key: string, b: Time)
    requires Ideal(w) && ThreadsFit(w, s) && OwnersFit(w, s) && Enabled(w, s, step)
    requires Guarded(w, s, t, key, b) && !DropsPending(w, s, step, key)
    ensures Guarded(w, Apply(w, s, step), t, key, b)
  {
    assert b > ZERO_TIME by { assert ThreadFits(w, s, s.threads[t]); }
    if step.TakeClaim? {
      ClaimIsSeen(w, s, step.t);
      hide *;
      ClaimKeepsGuard(w, s, step.t, t, key, b);
    } else if step.Record? {
      assert ThreadFits(w, s, s.threads[step.t]) && Owned(w, s, s.threads[step.t]);
      hide *;
      RecordGuards(w, s, step.t);
      EndingKeepsGuard(w, s, step, step.t, t, key, b);
    } else if step.Panic? {
      PanicKeepsGuard(w, s, step.t, t, key, b);
    } else {
      QuietStepKeepsGuard(w, s, step, t, key, b);
    }
  }

  /** While a payment is guarded by a settle's admission, no other broadcast of it starts. */
  lemma GuardHoldsBroadcastsBack(w: World, s: RunState, t: nat, u: nat, answer: BroadcastAnswer, key: string, b: Time)
    requires Ideal(w) && ThreadsFit(w, s) && OwnersFit(w, s) && Enabled(w, s, Broadcast(u, answer))
    requires Guarded(w, s, t, key, b) && Key(w, s.threads[u]) == key
    ensures s.clock > b + SETTLEMENT_TTL
  {
    assert ThreadFits(w, s, s.threads[t]) && ThreadFits(w, s, s.threads[u]);
    hide Sound, OnePayer, VerifySignature, TxSigner;
    OtherSettlesArePast(w, s, u, t, key, b);
  }

  // ---- one settle sees a payment executed

  /** The settle saw a block that executed its payment, successfully or not. */
  predicate SawExecution(s: RunState, th: Thread) {
    th.seen.Some? && th.seen.value < |s.log| && s.log[th.seen.value].Executed?
  }

  /** A settle of this payment was answered, settled or aborted, after it saw it executed. */
  predicate Concluded(w: World, s: RunState, t: nat, key: string) {
    && t in s.threads && s.threads[t].phase.Answered?
    && SawExecution(s, s.threads[t]) && Key(w, s.threads[t]) == key
  }

  /** When the block that the settle saw executing its payment was committed. */
  function CommitTime(s: RunState, t: nat): Time
    requires t in s.threads
  {
    var seen := s.threads[t].seen;
    if seen.Some? && seen.value < |s.log| then s.log[seen.value].time else ZERO_TIME
  }

  /** The settle neither sees its payment executed nor leaves it pending. */
  predicate Harmless(s: RunState, th: Thread) {
    match th.phase
    case Arrived | Stamped(_) | Checking | Crashed => true
    case Simulating | Ready | Awaiting(_, _) => false
    case Returned(res) => WireHash(res) == ""
    case Recording(res, _) => WireHash(res) == ""
    case Answered(_) => !SawExecution(s, th)
  }

  /** A concluded payment's entry stands until more than the TTL after its block. */
  predicate Spent(s: RunState, key: string, commit: Time) {
    && (key in s.entries ==> s.entries[key].state != Pending)
    && ((key in s.entries && s.entries[key].state == Settled && s.entries[key].at >= commit)
        || s.clock > commit + SETTLEMENT_TTL)
  }

  ghost predicate ConclusionsFit(w: World, s: RunState) {
    forall t, key :: Concluded(w, s, t, key) ==>
      && Spent(s, key, CommitTime(s, t))
      && forall u :: u in s.threads && u != t && Key(w, s.threads[u]) == key ==> Harmless(s, s.threads[u])
  }

  /** An old conclusion, seen after a step that was not its own. */
  lemma ConclusionStays(w: World, s: RunState, step: Step, t: nat, key: string)
    requires Enabled(w, s, step) && Concluded(w, s, t, key)
    ensures Mover(step) != Some(t)
    ensures var s' := Apply(w, s, step); Concluded(w, s', t, key) && CommitTime(s', t) == CommitTime(s, t)
  {
  }

  /** Time and the chain alone make no settle harmful. */
  lemma HarmlessStays(w: World, s: RunState, s': RunState, th: Thread)
    requires ThreadFits(w, s, th) && s.log <= s'.log && Harmless(s, th)
    ensures Harmless(s', th)
  {
  }

  /** A settle whose payment some block executed more than the lag ago is not found fresh. */
  lemma LateReadRefuses(w: World, s: RunState, m: nat, answer: AccountAnswer, height: nat, j: nat)
    requires Ideal(w) && w.lag <= SETTLEMENT_TTL && Enabled(w, s, ReadAccount(m, answer, height))
    requires ValidLog(w.p, w.chainID, s.log) && Sound(w.p, s.threads[m].check)
    requires j < |s.log| && s.log[j].Executed? && w.p.txHash(s.log[j].raw) == Key(w, s.threads[m])
    requires s.clock > s.log[j].time + SETTLEMENT_TTL
    ensures var s' := Apply(w, s, ReadAccount(m, answer, height)); Harmless(s', s'.threads[m])
  {
    var check := s.threads[m].check;
    assert ValidEvent(w.p, w.chainID, s.log[..j], s.log[j]);
    assert s.log[j].tx == check.tx;
    if answer.AccountRead? && answer.account.Some? {
      assert j < height;
      SpentIsNeverFresh(w.p, w.chainID, s.log, j, height);
    }
  }

  /** What keeps the mover harmless to an old conclusion of its own payment. */
  lemma MoverStaysHarmless(w: World, s: RunState, step: Step, t: nat, key: string)
    requires Ideal(w) && w.lag <= SETTLEMENT_TTL && ThreadsFit(w, s) && OwnersFit(w, s) && Enabled(w, s, step)
    requires Concluded(w, s, t, key) && key != "" && Spent(s, key, CommitTime(s, t))
    requires Mover(step).Some? && Mover(step) != Some(t)
    requires var m := Mover(step).value; m in s.threads ==> Key(w, s.threads[m]) == key && Harmless(s, s.threads[m])
    ensures var s' := Apply(w, s, step); Harmless(s', s'.threads[Mover(step).value])
  {
    var m := Mover(step).value;
    if step.ReadAccount? {
      ReadStaysHarmless(w, s, m, step.account, step.height, t, key);
    } else if m in s.threads {
      assert ThreadFits(w, s, s.threads[m]);
    }
  }

  lemma ReadStaysHarmless(
    w: World, s: RunState, m: nat, answer: AccountAnswer, height: nat, t: nat, key: string)
    requires Ideal(w) && w.lag <= SETTLEMENT_TTL && ThreadsFit(w, s) && OwnersFit(w, s)
    requires Enabled(w, s, ReadAccount(m, answer, height)) && Key(w, s.threads[m]) == key
    requires Concluded(w, s, t, key) && key != "" && Spent(s, key, CommitTime(s, t))
    ensures var s' := Apply(w, s, ReadAccount(m, answer, height)); Harmless(s', s'.threads[m])
  {
    assert ThreadFits(w, s, s.threads[m]) && ThreadFits(w, s, s.threads[t]) && Owned(w, s, s.threads[m]);
    LateReadRefuses(w, s, m, answer, height, s.threads[t].seen.value);
    hide ThreadFits;
  }

  lemma ClaimKeepsSpent(w: World, s: RunState, m: nat, key: string, commit: Time)
    requires Enabled(w, s, TakeClaim(m)) && ClaimSeen(w, s, m) && Spent(s, key, commit)
    ensures Spent(Apply(w, s, TakeClaim(m)), key, commit)
  {
    SweepKeepsEntries(s.entries, s.threads[m].phase.now);
  }

  /** Ending a claim of another payment, or of this one with nothing on the wire. */
  lemma EndKeepsSpent(w: World, s: RunState, step: Step, m: nat, key: string, commit: Time)
    requires Enabled(w, s, step) && EndsClaim(w, s, Apply(w, s, step), m) && Owned(w, s, s.threads[m])
    requires Spent(s, key, commit)
    requires Key(w, s.threads[m]) == key ==> key !in Apply(w, s, step).entries
    ensures Spent(Apply(w, s, step), key, commit)
  {
  }

  lemma SpentKept(w: World, s: RunState, step: Step, t: nat, key: string)
    requires Ideal(w) && ThreadsFit(w, s) && OwnersFit(w, s) && ConclusionsFit(w, s) && Enabled(w, s, step)
    requires Concluded(w, s, t, key) && key != "" && Mover(step) != Some(t)
    ensures Spent(Apply(w, s, step), key, CommitTime(s, t))
  {
    if step.TakeClaim? {
      ClaimIsSeen(w, s, step.t);
      ClaimKeepsSpent(w, s, step.t, key, CommitTime(s, t));
    } else if step.Record? {
      RecordEndsClaim(w, s, step.t);
      assert Owned(w, s, s.threads[step.t]);
      EndKeepsSpent(w, s, step, step.t, key, CommitTime(s, t));
    } else if step.Panic? {
      PanicEndsClaim(w, s, step.t);
      assert Owned(w, s, s.threads[step.t]);
      EndKeepsSpent(w, s, step, step.t, key, CommitTime(s, t));
    } else {
      QuietStepKeepsClaims(w, s, step);
    }
  }

  /** A settle that saw its payment executed records it settled no earlier than its block. */
  lemma NewConclusion(w: World, s: RunState, m: nat)
    requires Ideal(w) && Enabled(w, s, Record(m)) && ThreadFits(w, s, s.threads[m]) && SawExecution(s, s.threads[m])
    ensures var key := Key(w, s.threads[m]); var s' := Apply(w, s, Record(m));
            && key != "" && !Harmless(s, s.threads[m])
            && Concluded(w, s', m, key) && Spent(s', key, CommitTime(s', m))
  {
  }

  /** While one settle holds a payment that it may see executed, no other settle of it can. */
  lemma RivalsAreHarmless(w: World, s: RunState, m: nat, u: nat)
    requires OwnersFit(w, s) && ConclusionsFit(w, s)
    requires m in s.threads && Holds(s.threads[m]) && !Harmless(s, s.threads[m])
    requires u in s.threads && u != m && Key(w, s.threads[u]) == Key(w, s.threads[m])
    ensures Harmless(s, s.threads[u])
  {
    assert !Holds(s.threads[u]);
    if s.threads[u].phase.Answered? && SawExecution(s, s.threads[u]) {
      assert Concluded(w, s, u, Key(w, s.threads[m]));
    }
  }

  /** Only a record concludes a payment. */
  lemma ConclusionIsRecorded(w: World, s: RunState, step: Step, t: nat, key: string)
    requires Enabled(w, s, step) && Concluded(w, Apply(w, s, step), t, key)
    requires t in s.threads ==> ThreadFits(w, s, s.threads[t])
    ensures (Mover(step) != Some(t) && Concluded(w, s, t, key))
         || (step == Record(t) && SawExecution(s, s.threads[t]) && Key(w, s.threads[t]) == key)
  {
    hide CheckAccount, CheckSimulation, CheckOffline, VerifySignature;
  }

  lemma ConclusionHasKey(w: World, s: RunState, t: nat, key: string)
    requires Ideal(w) && ThreadsFit(w, s) && Concluded(w, s, t, key)
    ensures key != "" && ThreadFits(w, s, s.threads[t])
  {
    assert ThreadFits(w, s, s.threads[t]);
  }

  lemma ConclusionsKept(w: World, s: RunState, step: Step)
    requires Ideal(w) && w.lag <= SETTLEMENT_TTL && ThreadsFit(w, s) && OwnersFit(w, s) && ConclusionsFit(w, s)
    requires Enabled(w, s, step)
    ensures ConclusionsFit(w, Apply(w, s, step))
  {
    var s' := Apply(w, s, step);
    forall t, key | Concluded(w, s', t, key)
      ensures Spent(s', key, CommitTime(s', t))
      ensures forall u :: u in s'.threads && u != t && Key(w, s'.threads[u]) == key ==> Harmless(s', s'.threads[u])
    {
      ConclusionIsRecorded(w, s, step, t, key);
      if step == Record(t) {
        NewConclusion(w, s, t);
        forall u | u in s'.threads && u != t && Key(w, s'.threads[u]) == key
          ensures Harmless(s', s'.threads[u])
        {
          RivalsAreHarmless(w, s, t, u);
        }
      } else {
        OldConclusionKept(w, s, step, t, key);
      }
    }
  }

  lemma OldConclusionKept(w: World, s: RunState, step: Step, t: nat, key: string)
    requires Ideal(w) && w.lag <= SETTLEMENT_TTL && ThreadsFit(w, s) && OwnersFit(w, s) && ConclusionsFit(w, s)
    requires Enabled(w, s, step) && Concluded(w, s, t, key) && Mover(step) != Some(t)
    ensures var s' := Apply(w, s, step);
            && Spent(s', key, CommitTime(s', t))
            && forall u :: u in s'.threads && u != t && Key(w, s'.threads[u]) == key ==> Harmless(s', s'.threads[u])
  {
    var s' := Apply(w, s, step);
    ConclusionHasKey(w, s, t, key);
    ConclusionStays(w, s, step, t, key);
    SpentKept(w, s, step, t, key);
    forall u | u in s'.threads && u != t && Key(w, s'.threads[u]) == key
      ensures Harmless(s', s'.threads[u])
    {
      if Mover(step) == Some(u) {
        MoverKeepsKey(w, s, step);
        MoverStaysHarmless(w, s, step, t, key);
      } else {
        HarmlessStays(w, s, s', s.threads[u]);
      }
    }
  }

  lemma MoverKeepsKey(w: World, s: RunState, step: Step)
    requires Enabled(w, s, step) && Mover(step).Some?
    ensures var m := Mover(step).value;
            m in s.threads ==> Key(w, Apply(w, s, step).threads[m]) == Key(w, s.threads[m])
  {
  }
}
