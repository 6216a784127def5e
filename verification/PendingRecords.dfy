/** What becomes of a pending record over a run: through any number of reconciles it stays the record
    its first settle left, until it expires, or a panic drops it. */
module PendingRecords {
  import opened Options
  import opened Clock
  import opened Settlements
  import opened SettleRuns
  import opened SettleInvariant
  import opened SettleOnce
  import opened SettleTheorems

  /** The payment left pending by record e is pending under it still, being reconciled under it, or
      settled since. */
  ghost predicate Kept(w: World, s: RunState, key: string, e: Settlement) {
    && key in s.entries
    && match s.entries[key].state
       case Unclaimed => false
       case Pending => s.entries[key] == e
       case Settled => s.entries[key].at >= e.at
       case Settling =>
         forall t :: t in s.threads && Holds(s.threads[t]) && Key(w, s.threads[t]) == key ==> s.threads[t].prior == e
  }

  /** The step claims this payment and reads the clock more than the TTL after the record's time. */
  predicate ClaimsExpired(w: World, s: RunState, step: Step, key: string, e: Settlement) {
    ClaimsAfter(s, step, e.at + SETTLEMENT_TTL) && Key(w, s.threads[step.t]) == key
  }

  /** The step claims some payment, having read the clock after the deadline. */
  predicate ClaimsAfter(s: RunState, step: Step, deadline: Time) {
    && step.TakeClaim? && step.t in s.threads && s.threads[step.t].phase.Stamped?
    && s.threads[step.t].phase.now > deadline
  }

  lemma OwnClaimKeeps(w: World, s: RunState, m: nat, key: string, e: Settlement)
    requires Enabled(w, s, TakeClaim(m)) && ClaimSeen(w, s, m) && EntriesFit(w, s) && OwnersFit(w, s)
    requires Key(w, s.threads[m]) == key && s.threads[m].phase.now <= e.at + SETTLEMENT_TTL
    requires Kept(w, s, key, e) && e.state == Pending
    ensures Kept(w, Apply(w, s, TakeClaim(m)), key, e)
  {
    assert EntryFits(w, s, key);
    ClaimByAge(s.entries, key, s.threads[m].phase.now);
    var s' := Apply(w, s, TakeClaim(m));
    hide Apply, Enabled, EntriesFit, EntryFits, Claimed;
    forall t | t in s'.threads && Holds(s'.threads[t]) && Key(w, s'.threads[t]) == key
      ensures s'.threads[t].prior == e
    {
      if t != m {
        assert Owned(w, s, s.threads[t]);
      }
    }
  }

  lemma OtherClaimKeeps(w: World, s: RunState, m: nat, key: string, e: Settlement)
    requires Enabled(w, s, TakeClaim(m)) && ClaimSeen(w, s, m) && Key(w, s.threads[m]) != key && Kept(w, s, key, e)
    requires key in Apply(w, s, TakeClaim(m)).entries
    ensures Kept(w, Apply(w, s, TakeClaim(m)), key, e)
  {
    SweepKeepsEntries(s.entries, s.threads[m].phase.now);
  }

  /** A step that ends the claim of another payment. */
  lemma OtherEndKeeps(w: World, s: RunState, step: Step, m: nat, key: string, e: Settlement)
    requires Enabled(w, s, step) && Mover(step) == Some(m) && EndsClaim(w, s, Apply(w, s, step), m)
    requires Key(w, s.threads[m]) != key && Kept(w, s, key, e)
    ensures Kept(w, Apply(w, s, step), key, e)
  {
  }

  /** A reconcile puts back the record it found, or settles its payment no earlier. */
  lemma ReconcilePutsBack(w: World, s: RunState, m: nat, e: Settlement)
    requires Ideal(w) && Enabled(w, s, Record(m)) && ThreadFits(w, s, s.threads[m]) && Owned(w, s, s.threads[m])
    requires s.threads[m].prior == e && e.state == Pending
    ensures var key := Key(w, s.threads[m]); var after := Apply(w, s, Record(m)).entries;
            key in after && (after[key] == e || (after[key].state == Settled && after[key].at >= e.at))
  {
    RecordedEntry(w, s, m);
    RecordGuards(w, s, m);
    RecordMatchesShape(w, s, m);
  }

  lemma OwnRecordKeeps(w: World, s: RunState, m: nat, key: string, e: Settlement)
    requires Ideal(w) && ThreadsFit(w, s) && OwnersFit(w, s) && Enabled(w, s, Record(m))
    requires Key(w, s.threads[m]) == key && Kept(w, s, key, e) && e.state == Pending
    ensures Kept(w, Apply(w, s, Record(m)), key, e)
  {
    assert ThreadFits(w, s, s.threads[m]) && Owned(w, s, s.threads[m]);
    ReconcilePutsBack(w, s, m, e);
  }

  lemma QuietStepKeeps(w: World, s: RunState, step: Step, key: string, e: Settlement)
    requires Enabled(w, s, step) && !TouchesTable(step) && Kept(w, s, key, e) && key != ""
    ensures Kept(w, Apply(w, s, step), key, e)
  {
    QuietStepKeepsClaims(w, s, step);
  }

  /** A step keeps the record, unless it claims the payment too late or leaves no entry for it. */
  lemma StepKeeps(w: World, s: RunState, step: Step, key: string, e: Settlement)
    requires Ideal(w) && ThreadsFit(w, s) && TableFits(w, s) && Enabled(w, s, step)
    requires Kept(w, s, key, e) && e.state == Pending
    requires key in Apply(w, s, step).entries && !ClaimsExpired(w, s, step, key, e)
    ensures Kept(w, Apply(w, s, step), key, e)
  {
    if step.TakeClaim? {
      ClaimIsSeen(w, s, step.t);
      hide ThreadsFit, ThreadFits, EntriesFit, Kept, Apply;
      if Key(w, s.threads[step.t]) == key {
        OwnClaimKeeps(w, s, step.t, key, e);
      } else {
        OtherClaimKeeps(w, s, step.t, key, e);
      }
    } else if step.Record? {
      assert ThreadFits(w, s, s.threads[step.t]);
      hide ThreadFits, EntriesFit, Kept, Apply;
      if Key(w, s.threads[step.t]) == key {
        OwnRecordKeeps(w, s, step.t, key, e);
      } else {
        RecordEndsClaim(w, s, step.t);
        OtherEndKeeps(w, s, step, step.t, key, e);
      }
    } else if step.Panic? {
      assert ThreadFits(w, s, s.threads[step.t]);
      PanicReleases(w, s, step.t);
      hide ThreadFits, EntriesFit, Kept, Apply;
      PanicEndsClaim(w, s, step.t);
      OtherEndKeeps(w, s, step, step.t, key, e);
    } else {
      EntryHasKey(w, s, key);
      QuietStepKeeps(w, s, step, key, e);
    }
  }

  lemma PanicReleases(w: World, s: RunState, m: nat)
    requires Enabled(w, s, Panic(m))
    ensures Key(w, s.threads[m]) !in Apply(w, s, Panic(m)).entries
  {
  }

  /** Only a claim, of any payment, that reads the clock more than the TTL after the record's time,
      or a panic of the settle reconciling the payment, leaves no entry for it. */
  lemma OnlyExpiryOrPanicDrops(w: World, s: RunState, step: Step, key: string, e: Settlement)
    requires Ideal(w) && ThreadsFit(w, s) && TableFits(w, s) && Enabled(w, s, step)
    requires Kept(w, s, key, e) && e.state == Pending && key !in Apply(w, s, step).entries
    ensures ClaimsAfter(s, step, e.at + SETTLEMENT_TTL) || DropsPending(w, s, step, key)
  {
    if step.TakeClaim? {
      ClaimIsSeen(w, s, step.t);
      ClaimDropsOnlyExpired(w, s, step.t, key, e);
    } else if step.Record? {
      RecordDropsNothing(w, s, step.t, key, e);
    } else if step.Panic? {
      PanicDropsPending(w, s, step.t, key, e);
    } else {
      QuietStepKeepsClaims(w, s, step);
    }
  }

  lemma RecordDropsNothing(w: World, s: RunState, m: nat, key: string, e: Settlement)
    requires Ideal(w) && ThreadsFit(w, s) && OwnersFit(w, s) && Enabled(w, s, Record(m))
    requires Kept(w, s, key, e) && e.state == Pending
    ensures key in Apply(w, s, Record(m)).entries
  {
    assert ThreadFits(w, s, s.threads[m]) && Owned(w, s, s.threads[m]);
    hide ThreadFits, Apply;
    RecordEndsClaim(w, s, m);
    if Key(w, s.threads[m]) == key {
      ReconcilePutsBack(w, s, m, e);
    }
  }

  lemma PanicDropsPending(w: World, s: RunState, m: nat, key: string, e: Settlement)
    requires Ideal(w) && ThreadsFit(w, s) && OwnersFit(w, s) && Enabled(w, s, Panic(m))
    requires Kept(w, s, key, e) && e.state == Pending && key !in Apply(w, s, Panic(m)).entries
    ensures DropsPending(w, s, Panic(m), key)
  {
    assert ThreadFits(w, s, s.threads[m]) && Owned(w, s, s.threads[m]);
    PanicEndsClaim(w, s, m);
  }

  lemma ClaimDropsOnlyExpired(w: World, s: RunState, m: nat, key: string, e: Settlement)
    requires Enabled(w, s, TakeClaim(m)) && ClaimSeen(w, s, m) && Kept(w, s, key, e)
    requires key !in Apply(w, s, TakeClaim(m)).entries
    ensures ClaimsAfter(s, TakeClaim(m), e.at + SETTLEMENT_TTL)
  {
    SweepKeepsEntries(s.entries, s.threads[m].phase.now);
  }

  /** The table leaves the record, or its reconcile, standing until a claim of some payment reads the
      clock more than the TTL after the record's time, or a panic drops it. */
  lemma {:induction false} PendingStandsUntilExpiry(
    w: World, states: seq<RunState>, steps: seq<Step>, i: nat, j: nat, key: string)
    requires Ideal(w) && IsRun(w, states, steps) && i <= j < |states|
    requires key in states[i].entries && states[i].entries[key].state == Pending
    requires forall k {:trigger steps[k]} :: i <= k < j ==>
               && !ClaimsAfter(states[k], steps[k], states[i].entries[key].at + SETTLEMENT_TTL)
               && !DropsPending(w, states[k], steps[k], key)
    ensures Kept(w, states[j], key, states[i].entries[key])
    decreases j
  {
    hide Apply, Enabled, Kept, ThreadsFit, ClaimsAfter, DropsPending, TableFits;
    var e := states[i].entries[key];
    if i == j {
      PendingIsKept(w, states[i], key);
    } else {
      PendingStandsUntilExpiry(w, states, steps, i, j - 1, key);
      RunKeepsInvariant(w, states, steps, j - 1);
      var s, step := states[j - 1], steps[j - 1];
      assert states[j - 1 + 1] == Apply(w, s, step);
      if key !in Apply(w, s, step).entries {
        OnlyExpiryOrPanicDrops(w, s, step, key, e);
      }
      StepKeeps(w, s, step, key, e);
    }
  }

  /** While an entry stands for the payment and no claim of it reads the clock more than the TTL after
      the record's time, the record left by its first settle is kept through every reconcile:
      wherever the payment is pending again it is under that same hash, payer and time, and a settle
      in flight for it holds that record. */
  lemma {:induction false} PendingKeepsItsFirstRecord(
    w: World, states: seq<RunState>, steps: seq<Step>, i: nat, j: nat, key: string)
    requires Ideal(w) && IsRun(w, states, steps) && i <= j < |states|
    requires key in states[i].entries && states[i].entries[key].state == Pending
    requires forall k :: i <= k <= j ==> key in states[k].entries
    requires forall k {:trigger steps[k]} :: i <= k < j ==>
               !ClaimsExpired(w, states[k], steps[k], key, states[i].entries[key])
    ensures Kept(w, states[j], key, states[i].entries[key])
    decreases j
  {
    hide Apply, Enabled, Kept, ThreadsFit, ClaimsExpired, TableFits;
    var e := states[i].entries[key];
    if i == j {
      PendingIsKept(w, states[i], key);
    } else {
      PendingKeepsItsFirstRecord(w, states, steps, i, j - 1, key);
      RunKeepsInvariant(w, states, steps, j - 1);
      assert states[j - 1 + 1] == Apply(w, states[j - 1], steps[j - 1]);
      StepKeeps(w, states[j - 1], steps[j - 1], key, e);
    }
  }

  lemma PendingIsKept(w: World, s: RunState, key: string)
    requires key in s.entries && s.entries[key].state == Pending
    ensures Kept(w, s, key, s.entries[key])
  {
  }

  lemma EntryHasKey(w: World, s: RunState, key: string)
    requires EntriesFit(w, s) && key in s.entries
    ensures key != ""
  {
    assert EntryFits(w, s, key);
  }
}
