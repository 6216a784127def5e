/** In what order a settle of any run comes to its broadcast. */
module SettleOrder {
  import opened Facilitator
  import opened OfflineRules
  import opened SettleRuns
  import opened SettleInvariant
  import opened SettleTheorems

  /** Each phase on the way to a broadcast is entered by one step, from the phase before. */
  lemma EnteredBy(w: World, s: RunState, step: Step, t: nat)
    requires Enabled(w, s, step) && t in Apply(w, s, step).threads
    requires t in s.threads ==> s.threads[t].phase != Apply(w, s, step).threads[t].phase
    ensures var phase := Apply(w, s, step).threads[t].phase;
            && (phase == Checking ==> step == TakeClaim(t))
            && (phase == Simulating ==> At(s, t, Checking) && step.ReadAccount? && step.t == t)
            && (phase == Ready ==> At(s, t, Simulating) && step == Simulate(t, Simulated))
  {
    hide CheckOffline, VerifyAccountChecks;
  }

  /** The step by which a thread came into its phase. */
  lemma {:induction false} Entered(w: World, states: seq<RunState>, steps: seq<Step>, i: nat, t: nat, phase: Phase)
    returns (k: nat)
    requires IsRun(w, states, steps) && i < |states| && At(states[i], t, phase)
    ensures k < i && At(states[k + 1], t, phase) && !At(states[k], t, phase)
    decreases i
  {
    if At(states[i - 1], t, phase) {
      k := Entered(w, states, steps, i - 1, t, phase);
    } else {
      k := i - 1;
    }
  }

  lemma {:induction false} EnteredFrom(w: World, states: seq<RunState>, steps: seq<Step>, i: nat, t: nat, phase: Phase)
    returns (k: nat)
    requires IsRun(w, states, steps) && i < |states| && At(states[i], t, phase)
    ensures k < i
    ensures phase == Checking ==> steps[k] == TakeClaim(t)
    ensures phase == Simulating ==>
              At(states[k], t, Checking) && steps[k].ReadAccount? && steps[k].t == t && At(states[k + 1], t, Simulating)
    ensures phase == Ready ==> At(states[k], t, Simulating) && steps[k] == Simulate(t, Simulated)
  {
    k := Entered(w, states, steps, i, t, phase);
    assert Enabled(w, states[k], steps[k]) && states[k + 1] == Apply(w, states[k], steps[k]);
    EnteredBy(w, states[k], steps[k], t);
  }

  /** A read account that lets a settle go on is one the payment is signed for as it stands. */
  lemma ReadWasCurrent(w: World, s: RunState, step: Step, t: nat)
    requires Ideal(w) && ThreadsFit(w, s) && Enabled(w, s, step) && step.ReadAccount? && step.t == t
    requires At(Apply(w, s, step), t, Simulating)
    ensures var check := s.threads[t].check;
            && check.PaymentAccepted? && |check.tx.signatures| == 1 && OneSend(check.tx)
            && ReadSigned(w.p, w.chainID, check.tx, step.account, 0)
  {
    assert ThreadFits(w, s, s.threads[t]);
    AccountVerdictsMean(w.p, w.chainID, s.threads[t].check, step.account);
    hide CheckAccount, ThreadFits, ReadSigned;
  }

  /** Every broadcast of every run comes after its settle claimed the payment, then read an account
      that the payment is signed for at its sequence, and then had the payment simulated. Nothing that
      the chain refused at a simulation, or never answered, is ever broadcast. */
  lemma {:induction false} BroadcastIsChecked(w: World, states: seq<RunState>, steps: seq<Step>, j: nat, t: nat)
    returns (claim: nat, read: nat, simulation: nat)
    requires Ideal(w) && IsRun(w, states, steps) && j < |steps| && steps[j].Broadcast? && steps[j].t == t
    ensures claim < read < simulation < j
    ensures steps[claim] == TakeClaim(t) && steps[simulation] == Simulate(t, Simulated)
    ensures steps[read].ReadAccount? && steps[read].t == t && t in states[read].threads
    ensures var check, answer := states[read].threads[t].check, steps[read].account;
            && check.PaymentAccepted? && |check.tx.signatures| == 1 && OneSend(check.tx)
            && ReadSigned(w.p, w.chainID, check.tx, answer, 0)
  {
    assert Enabled(w, states[j], steps[j]);
    simulation := EnteredFrom(w, states, steps, j, t, Ready);
    read := EnteredFrom(w, states, steps, simulation, t, Simulating);
    claim := EnteredFrom(w, states, steps, read, t, Checking);
    RunKeepsInvariant(w, states, steps, read);
    assert Enabled(w, states[read], steps[read]) && states[read + 1] == Apply(w, states[read], steps[read]);
    ReadWasCurrent(w, states[read], steps[read], t);
  }
}
