/** Every interleaving of the settles of one facilitator process, as a step system
    (facilitator/exact/facilitator.go:153-252 over facilitator/exact/settlements.go:49-98).

    A settle is a thread that advances one step at a time; the clock, the chain and any other
    thread may move between two of its steps. Reading the clock is a step of its own, so the
    reading a table step receives may be older than one another thread already used. Threads are
    never removed: a finished one keeps its answer, so a state carries its own history. */
module SettleRuns {
  import opened Options
  import opened Clock
  import opened Gno
  import opened Account
  import opened Rules
  import opened Settlements
  import opened Facilitator
  import opened Ledger

  /** What does not change during a run. lag is how far a node's account answers may trail the chain. */
  datatype World = World(p: Platform, chainID: string, lag: Time)

  datatype Phase =
    | Arrived                                 // the offline rules accepted it; about to read the clock
    | Stamped(now: Time)                      // about to claim
    | Checking                                // about to read the signer's account
    | Simulating                              // about to simulate
    | Ready                                   // about to look at the request's context and broadcast
    | Awaiting(hash: string, payer: string)   // waiting for a delivery
    | Returned(res: SettleResult)             // about to read the clock again
    | Recording(result: SettleResult, at: Time)
    | Answered(answer: SettleResult)
    | Crashed                                 // a call to the node panicked

  /** A settle and what has happened to it: the record its claim found, the account it read, when a
      node admitted its broadcast, the block it saw holding its payment, and when it recorded. */
  datatype Thread = Thread(
    check: PaymentCheck, phase: Phase, prior: Settlement, read: Option<Account>,
    admittedAt: Option<Time>, seen: Option<nat>, recordedAt: Time)

  datatype RunState = RunState(clock: Time, entries: Entries, threads: map<nat, Thread>, log: Log)

  ghost predicate Initial(s: RunState) {
    s.clock > ZERO_TIME && s.entries == map[] && s.threads == map[] && s.log == []
  }

  datatype Step =
    | Tick(d: Time)
    | Commit(e: Event)
    | Arrive(t: nat, payload: PaymentPayload, req: Requirements)
    | ReadClock(t: nat)
    | TakeClaim(t: nat)
    | ReadAccount(t: nat, account: AccountAnswer, height: nat)
    | Simulate(t: nat, simulation: SimulateAnswer)
    | GiveUp(t: nat)
    | Broadcast(t: nat, broadcast: BroadcastAnswer)
    | Await(t: nat, delivery: DeliveryAnswer, block: nat)
    | ReadClockAgain(t: nat)
    | Record(t: nat)
    | Panic(t: nat)

  function Key(w: World, th: Thread): string {
    if th.check.PaymentAccepted? then w.p.txHash(th.check.raw) else ""
  }

  /** The settle is between its claim and its record: the table's entry is its own. */
  predicate Holds(th: Thread) {
    match th.phase
    case Checking | Simulating | Ready | Awaiting(_, _) | Returned(_) | Recording(_, _) => true
    case _ => false
  }

  predicate At(s: RunState, t: nat, phase: Phase) {
    t in s.threads && s.threads[t].phase == phase
  }

  /** A node at this height has every event older than the lag. */
  ghost predicate InView(w: World, s: RunState, height: nat) {
    height <= |s.log| && forall j :: height <= j < |s.log| ==> s.clock - s.log[j].time <= w.lag
  }

  /** The block holds the payment the node admitted under hash. */
  predicate BlockHolds(w: World, s: RunState, hash: string, block: nat) {
    block < |s.log| && !s.log[block].Moved? && w.p.txHash(s.log[block].raw) == hash
  }

  ghost predicate Enabled(w: World, s: RunState, step: Step) {
    match step
    case Tick(d) => d >= 0
    case Commit(e) => ValidEvent(w.p, w.chainID, s.log, e) && e.time == s.clock
    case Arrive(t, _, _) => t !in s.threads
    case ReadClock(t) => At(s, t, Arrived)
    case TakeClaim(t) => t in s.threads && s.threads[t].phase.Stamped?
    case ReadAccount(t, answer, height) =>
      && At(s, t, Checking)
      && s.threads[t].check.PaymentAccepted? && OnePayer(s.threads[t].check.tx)
      && (answer.AccountRead? && answer.account.Some? ==>
            && InView(w, s, height)
            && answer.account == AccountAt(w.p, s.log[..height], IdOf(s.threads[t].check.tx)))
    case Simulate(t, _) => At(s, t, Simulating) && s.threads[t].check.PaymentAccepted?
    case GiveUp(t) => At(s, t, Ready)
    case Broadcast(t, answer) =>
      && At(s, t, Ready) && s.threads[t].check.PaymentAccepted?
      && (answer.Admitted? ==> answer.hash == Key(w, s.threads[t]))
    case Await(t, answer, block) =>
      && t in s.threads && s.threads[t].phase.Awaiting?
      && (answer != NotSeen ==> BlockHolds(w, s, s.threads[t].phase.hash, block))
      && (answer == Delivered ==> s.log[block].Executed? && s.log[block].ok)
      && (answer == DeliveryAborted ==> s.log[block].Executed? ==> !s.log[block].ok)
    case ReadClockAgain(t) => t in s.threads && s.threads[t].phase.Returned?
    case Record(t) => t in s.threads && s.threads[t].phase.Recording?
    case Panic(t) =>
      t in s.threads && (s.threads[t].phase in {Checking, Simulating, Ready} || s.threads[t].phase.Awaiting?)
  }

  function Put(s: RunState, t: nat, th: Thread): RunState {
    s.(threads := s.threads[t := th])
  }

  function Move(s: RunState, t: nat, phase: Phase): RunState
    requires t in s.threads
  {
    Put(s, t, s.threads[t].(phase := phase))
  }

  /** The one thread a step moves, if any. */
  function Mover(step: Step): Option<nat> {
    match step
    case Tick(_) => None
    case Commit(_) => None
    case Arrive(t, _, _) => Some(t)
    case ReadClock(t) => Some(t)
    case TakeClaim(t) => Some(t)
    case ReadAccount(t, _, _) => Some(t)
    case Simulate(t, _) => Some(t)
    case GiveUp(t) => Some(t)
    case Broadcast(t, _) => Some(t)
    case Await(t, _, _) => Some(t)
    case ReadClockAgain(t) => Some(t)
    case Record(t) => Some(t)
    case Panic(t) => Some(t)
  }

  /** What a step does. It moves at most its own thread, and time and the chain only go forward. */
  function Apply(w: World, s: RunState, step: Step): (s': RunState)
    requires Enabled(w, s, step)
    ensures s.clock <= s'.clock && s.log <= s'.log
    ensures s'.threads.Keys == s.threads.Keys + (if Mover(step).Some? then {Mover(step).value} else {})
    ensures forall t :: t in s.threads && Mover(step) != Some(t) ==> s'.threads[t] == s.threads[t]
  {
    match step
    case Tick(d) => s.(clock := s.clock + d)
    case Commit(e) => s.(log := s.log + [e])
    case Arrive(t, payload, req) =>
      var check := CheckOffline(w.p, w.chainID, payload, req);
      var phase := if check.PaymentAccepted? then Arrived else Answered(SettleRefusal(check));
      Put(s, t, Thread(check, phase, NO_SETTLEMENT, None, None, None, ZERO_TIME))
    case ReadClock(t) => Move(s, t, Stamped(s.clock))
    case TakeClaim(t) =>
      var th := s.threads[t];
      var claim := Claimed(s.entries, Key(w, th), th.phase.now);
      var phase :=
        if !claim.ok then Answered(Duplicate(claim.prior))
        else if claim.prior.state == Pending then Awaiting(claim.prior.hash, claim.prior.payer)
        else Checking;
      Put(s, t, th.(phase := phase, prior := if claim.ok then claim.prior else th.prior)).(entries := claim.entries)
    case ReadAccount(t, answer, _) =>
      var th := s.threads[t];
      var check := CheckAccount(w.p, w.chainID, th.check, answer);
      var phase := if check.PaymentAccepted? then Simulating else Returned(SettleRefusal(check));
      Put(s, t, th.(phase := phase, read := if answer.AccountRead? then answer.account else None))
    case Simulate(t, answer) =>
      var check := CheckSimulation(s.threads[t].check, answer);
      Move(s, t, if check.PaymentAccepted? then Ready else Returned(SettleRefusal(check)))
    case GiveUp(t) => Move(s, t, Returned(NoVerdictError))
    case Broadcast(t, answer) =>
      var th := s.threads[t];
      if answer.Admitted? then
        Put(s, t, th.(phase := Awaiting(answer.hash, th.check.payer), admittedAt := Some(s.clock)))
      else
        Move(s, t, Returned(BroadcastRefusal(th.check.payer, answer)))
    case Await(t, answer, block) =>
      var th := s.threads[t];
      Put(s, t, th.(phase := Returned(Delivery(th.phase.hash, th.phase.payer, answer)),
                    seen := if answer == NotSeen then None else Some(block)))
    case ReadClockAgain(t) => Move(s, t, Recording(s.threads[t].phase.res, s.clock))
    case Record(t) =>
      var th := s.threads[t];
      Put(s, t, th.(phase := Answered(th.phase.result), recordedAt := th.phase.at))
        .(entries := Recorded(s.entries, Key(w, th), th.phase.result, th.phase.at))
    case Panic(t) =>
      var th := s.threads[t];
      Move(s, t, Crashed).(entries := Released(s.entries, Key(w, th)))
  }

  /** Steps taken one after another: the states they go through. */
  ghost predicate IsPath(w: World, states: seq<RunState>, steps: seq<Step>) {
    && |states| == |steps| + 1
    && forall i :: 0 <= i < |steps| ==>
         Enabled(w, states[i], steps[i]) && states[i + 1] == Apply(w, states[i], steps[i])
  }

  /** A run of the process: a path from a state in which nothing has happened. */
  ghost predicate IsRun(w: World, states: seq<RunState>, steps: seq<Step>) {
    IsPath(w, states, steps) && Initial(states[0])
  }
}
