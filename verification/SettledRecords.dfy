/** What becomes of a settled record over a run: until it expires, it refuses every copy with its hash
    (facilitator/exact/facilitator.go:149-152). */
module SettledRecords {
  import opened Settlements
  import opened Facilitator
  import opened SettleRuns
  import opened SettleInvariant
  import opened SettleTheorems
  import opened PendingRecords

  predicate SettledAs(s: RunState, key: string, e: Settlement) {
    key in s.entries && s.entries[key] == e && e.state == Settled
  }

  lemma ClaimLeavesSettled(w: World, s: RunState, m: nat, key: string, e: Settlement)
    requires Enabled(w, s, TakeClaim(m)) && ClaimSeen(w, s, m) && SettledAs(s, key, e)
    requires !ClaimsAfter(s, TakeClaim(m), e.at + SETTLEMENT_TTL)
    ensures SettledAs(Apply(w, s, TakeClaim(m)), key, e)
  {
    SweepKeepsEntries(s.entries, s.threads[m].phase.now);
    ClaimByAge(s.entries, key, s.threads[m].phase.now);
  }

  /** No settle holds a settled payment, so ending a claim is another payment's affair. */
  lemma EndLeavesSettled(w: World, s: RunState, step: Step, m: nat, key: string, e: Settlement)
    requires Enabled(w, s, step) && EndsClaim(w, s, Apply(w, s, step), m) && Owned(w, s, s.threads[m])
    requires SettledAs(s, key, e)
    ensures SettledAs(Apply(w, s, step), key, e)
  {
  }

  lemma StepLeavesSettled(w: World, s: RunState, step: Step, key: string, e: Settlement)
    requires Ideal(w) && ThreadsFit(w, s) && TableFits(w, s) && Enabled(w, s, step)
    requires SettledAs(s, key, e) && !ClaimsAfter(s, step, e.at + SETTLEMENT_TTL)
    ensures SettledAs(Apply(w, s, step), key, e)
  {
    if step.TakeClaim? {
      ClaimIsSeen(w, s, step.t);
      ClaimLeavesSettled(w, s, step.t, key, e);
    } else if step.Record? || step.Panic? {
      AnyEndLeavesSettled(w, s, step, step.t, key, e);
    } else {
      QuietStepKeepsClaims(w, s, step);
    }
  }

  lemma AnyEndLeavesSettled(w: World, s: RunState, step: Step, m: nat, key: string, e: Settlement)
    requires Ideal(w) && ThreadsFit(w, s) && OwnersFit(w, s) && Enabled(w, s, step) && SettledAs(s, key, e)
    requires step == Record(m) || step == Panic(m)
    ensures SettledAs(Apply(w, s, step), key, e)
  {
    assert ThreadFits(w, s, s.threads[m]) && Owned(w, s, s.threads[m]);
    hide *;
    if step.Record? {
      RecordEndsClaim(w, s, m);
    } else {
      PanicEndsClaim(w, s, m);
    }
    EndLeavesSettled(w, s, step, m, key, e);
  }

  /** A settled record stands as it is until a claim of some payment reads the clock more than the TTL
      after its time: no copy, record, release or panic touches it. */
  lemma {:induction false} SettledStandsUntilExpiry(
    w: World, states: seq<RunState>, steps: seq<Step>, i: nat, j: nat, key: string, e: Settlement)
    requires Ideal(w) && IsRun(w, states, steps) && i <= j < |states| && SettledAs(states[i], key, e)
    requires forall k {:trigger steps[k]} :: i <= k < j ==> !ClaimsAfter(states[k], steps[k], e.at + SETTLEMENT_TTL)
    ensures SettledAs(states[j], key, e)
    decreases j
  {
    hide Apply, Enabled, SettledAs, ThreadsFit, ClaimsAfter, TableFits;
    if i < j {
      SettledStandsUntilExpiry(w, states, steps, i, j - 1, key, e);
      RunKeepsInvariant(w, states, steps, j - 1);
      assert states[j - 1 + 1] == Apply(w, states[j - 1], steps[j - 1]);
      StepLeavesSettled(w, states[j - 1], steps[j - 1], key, e);
    }
  }

  lemma CopyIsRefused(w: World, s: RunState, t: nat, key: string, e: Settlement)
    requires Enabled(w, s, TakeClaim(t)) && Key(w, s.threads[t]) == key && EntriesFit(w, s)
    requires SettledAs(s, key, e) && s.threads[t].phase.now <= e.at + SETTLEMENT_TTL
    ensures Apply(w, s, TakeClaim(t)).threads[t].phase == Answered(SettleError(DuplicateSettlement, "", key))
  {
    assert EntryFits(w, s, key);
    ClaimByAge(s.entries, key, s.threads[t].phase.now);
  }

  /** Once a settle has recorded a payment that it saw in a block, every copy whose claim reads the
      clock within the TTL of the record is refused as a duplicate carrying the payment's hash, unless
      a claim before it read the clock later than that. */
  lemma {:induction false} CopiesOfASettledPaymentAreRefused(
    w: World, states: seq<RunState>, steps: seq<Step>, i: nat, j: nat, m: nat, t: nat)
    requires Ideal(w) && IsRun(w, states, steps) && i < j < |steps|
    requires steps[i] == Record(m) && states[i].threads[m].seen.Some?
    requires steps[j] == TakeClaim(t) && Key(w, states[j].threads[t]) == Key(w, states[i].threads[m])
    requires var deadline := states[i].threads[m].phase.at + SETTLEMENT_TTL;
             forall k {:trigger steps[k]} :: i < k <= j ==> !ClaimsAfter(states[k], steps[k], deadline)
    ensures states[j + 1].threads[t].phase
         == Answered(SettleError(DuplicateSettlement, "", Key(w, states[i].threads[m])))
  {
    var key := Key(w, states[i].threads[m]);
    RecordMatchesWhatHappened(w, states, steps, i, m);
    var e := states[i + 1].entries[key];
    RecordIsDated(w, states[i], m);
    assert states[i + 1] == Apply(w, states[i], steps[i]);
    hide Apply, ThreadsFit, TableFits;
    SettledStandsUntilExpiry(w, states, steps, i + 1, j, key, e);
    RunKeepsInvariant(w, states, steps, j);
    assert states[j + 1] == Apply(w, states[j], steps[j]);
    CopyIsRefused(w, states[j], t, key, e);
  }

  /** A record that settles its payment carries its own clock reading. */
  lemma RecordIsDated(w: World, s: RunState, m: nat)
    requires Enabled(w, s, Record(m))
    ensures var key := Key(w, s.threads[m]); var after := Apply(w, s, Record(m)).entries;
            key in after && after[key].state == Settled ==> after[key].at == s.threads[m].phase.at
  {
  }
}
