/** What the throttle decides, over whole runs: that forgetting shows in no decision, how much a
    peer can be granted, and that asking too often costs nothing. */
module RateLimitTheorems {
  import opened Sets
  import opened RateLimiter

  /** The tokens a request by key at now would find. */
  function Level(c: Limits, buckets: Buckets, key: string, now: real): real {
    if key in buckets then Refilled(c, buckets[key], now).tokens else c.burst
  }

  /** How far a clock that read from and then to moved forward. */
  function Later(from: real, to: real): real {
    if from <= to then to - from else 0.0
  }

  /** A bucket gains what the clock's forward motion since its last request earns, up to the burst; a
      clock that stepped back takes nothing from it; and a new peer's is full. */
  lemma LevelIsTheMotionEarned(c: Limits, buckets: Buckets, key: string, now: real)
    requires c.Sane() && WithinBurst(c, buckets)
    ensures Level(c, buckets, key, now)
         == (if key in buckets
             then Min(buckets[key].tokens + Later(buckets[key].last, now) * c.ratePerSecond, c.burst)
             else c.burst)
  {
  }

  // ---- one decision, read off the level

  lemma SweepKeepsLevels(c: Limits, t: Table, key: string, now: real)
    requires c.Sane() && Valid(c, t)
    ensures Level(c, SweepFull(c, t, now).buckets, key, now) == Level(c, t.buckets, key, now)
  {
    hide Earned;
    SweepShrinks(c, t, now);
    if key in t.buckets {
      EarnedSign(c, now - t.buckets[key].last);
    }
  }

  /** A request is granted when its level holds a token, unless the table is full; a grant takes one
      token from its own peer and nothing else changes any level. */
  lemma DecisionIsTheLevel(c: Limits, t: Table, key: string, now: real, other: string)
    requires c.Sane() && Valid(c, t)
    ensures var (d, t') := Decide(c, t, key, now);
            && (d != Full ==> (d == Granted <==> Level(c, t.buckets, key, now) >= 1.0))
            && Level(c, t'.buckets, other, now)
                 == Level(c, t.buckets, other, now) - (if d == Granted && other == key then 1.0 else 0.0)
            && (d == Full ==> Level(c, t.buckets, key, now) == c.burst)
  {
    hide Earned, HasRefilled, SweepFull;
    SweepKeepsLevels(c, t, key, now);
    SweepKeepsLevels(c, t, other, now);
    EarnedSign(c, now - now);
    var swept := SweepFull(c, t, now);
    SweepShrinks(c, t, now);
    if key in swept.buckets {
      RefillStaysInBounds(c, swept.buckets[key], now);
    }
  }

  // ---- how much a peer can be granted, whatever the clock does

  /** How far the clock moves forward over a trace; steps back count for nothing. */
  function Forward(trace: seq<Request>): real
    decreases |trace|
  {
    if |trace| <= 1 then 0.0 else Later(trace[0].now, trace[1].now) + Forward(trace[1..])
  }

  function Grants(c: Limits, t: Table, trace: seq<Request>, key: string): nat
    decreases |trace|
  {
    if trace == [] then 0
    else
      var (d, t') := Decide(c, t, trace[0].key, trace[0].now);
      (if d == Granted && trace[0].key == key then 1 else 0) + Grants(c, t', trace[1..], key)
  }

  /** A level rises no faster than the clock moves forward. */
  lemma LevelRisesWithTheClock(c: Limits, buckets: Buckets, key: string, from: real, to: real)
    requires c.Sane() && WithinBurst(c, buckets)
    ensures Level(c, buckets, key, to) <= Level(c, buckets, key, from) + Earned(c, Later(from, to))
  {
    hide Earned;
    EarnedSign(c, Later(from, to));
    if key in buckets {
      var b := buckets[key];
      RefillStaysInBounds(c, b, from);
      RefillStaysInBounds(c, b, to);
      EarnedSign(c, to - from);
      EarnedSign(c, b.last - from);
      EarnedAddsUp(c, b.last, from, to);
      EarnedAddsUp(c, from, b.last, to);
    }
  }

  /** One decision more at the front of a trace. */
  lemma {:induction false} GrantsStep(c: Limits, t: Table, trace: seq<Request>, key: string)
    requires trace != []
    ensures Grants(c, t, trace, key) == Got(c, t, trace[0], key) + Grants(c, Next(c, t, trace[0]), trace[1..], key)
  {
  }

  function Next(c: Limits, t: Table, r: Request): Table {
    Decide(c, t, r.key, r.now).1
  }

  function Got(c: Limits, t: Table, r: Request, key: string): nat {
    if Decide(c, t, r.key, r.now).0 == Granted && r.key == key then 1 else 0
  }

  lemma OneRequest(c: Limits, t: Table, r: Request, key: string, at: real, refill: real) returns (t': Table, got: nat)
    requires c.Sane() && Valid(c, t) && refill == Earned(c, Later(r.now, at))
    ensures t' == Next(c, t, r) && got == Got(c, t, r, key) && Valid(c, t')
    ensures Level(c, t'.buckets, key, at) <= Level(c, t.buckets, key, r.now) - got as real + refill
  {
    hide Earned, Decide, Level;
    t', got := Next(c, t, r), Got(c, t, r, key);
    DecisionIsTheLevel(c, t, r.key, r.now, key);
    DecideKeepsValid(c, t, r.key, r.now);
    LevelRisesWithTheClock(c, t'.buckets, key, r.now, at);
  }

  lemma {:induction false} OneRequestGrants(c: Limits, t: Table, trace: seq<Request>, key: string)
    requires c.Sane() && Valid(c, t) && |trace| == 1
    ensures Grants(c, t, trace, key) as real <= Level(c, t.buckets, key, trace[0].now)
  {
    var (d, t') := Decide(c, t, trace[0].key, trace[0].now);
    DecisionIsTheLevel(c, t, trace[0].key, trace[0].now, key);
    LevelIsNotNegative(c, t, key, trace[0].now);
    assert Grants(c, t', trace[1..], key) == 0;
  }

  /** What a trace's clock can refill. */
  function Refill(c: Limits, trace: seq<Request>): real
    decreases |trace|
  {
    if |trace| <= 1 then 0.0 else Earned(c, Later(trace[0].now, trace[1].now)) + Refill(c, trace[1..])
  }

  lemma {:induction false} RefillIsRateTimesMotion(c: Limits, trace: seq<Request>)
    ensures Refill(c, trace) == Forward(trace) * c.ratePerSecond
    decreases |trace|
  {
    if |trace| > 1 {
      RefillIsRateTimesMotion(c, trace[1..]);
      EarnedAddsUp(c, 0.0, Later(trace[0].now, trace[1].now), Forward(trace));
    }
  }

  /** The first request of a trace: what it grants the peer, and the level the next one finds. */
  lemma {:induction false} FirstRequest(
    c: Limits, t: Table, trace: seq<Request>, key: string) returns (t': Table, got: nat)
    requires c.Sane() && Valid(c, t) && |trace| > 1
    ensures Valid(c, t')
    ensures Grants(c, t, trace, key) == got + Grants(c, t', trace[1..], key)
    ensures Level(c, t'.buckets, key, trace[1].now) + Refill(c, trace[1..])
         <= Level(c, t.buckets, key, trace[0].now) - got as real + Refill(c, trace)
  {
    hide Earned, Decide, Level, Grants, Got;
    GrantsStep(c, t, trace, key);
    t', got := OneRequest(c, t, trace[0], key, trace[1].now, Refill(c, trace) - Refill(c, trace[1..]));
  }

  lemma {:induction false} GrantsFitTheLevel(c: Limits, t: Table, trace: seq<Request>, key: string)
    requires c.Sane() && Valid(c, t) && trace != []
    ensures Grants(c, t, trace, key) as real <= Level(c, t.buckets, key, trace[0].now) + Refill(c, trace)
    decreases |trace|
  {
    if |trace| == 1 {
      OneRequestGrants(c, t, trace, key);
    } else {
      var t', got := FirstRequest(c, t, trace, key);
      assert trace[1..][0] == trace[1];
      GrantsFitTheLevel(c, t', trace[1..], key);
    }
  }

  lemma LevelIsNotNegative(c: Limits, t: Table, key: string, now: real)
    requires c.Sane() && Valid(c, t)
    ensures 0.0 <= Level(c, t.buckets, key, now) <= c.burst
  {
    if key in t.buckets {
      RefillStaysInBounds(c, t.buckets[key], now);
    }
  }

  /** In every run from an empty table and every window of it, with any sweeps, any table fill and
      any backward clock steps, a peer is granted at most the burst plus the rate times the clock's
      forward motion over the window. */
  lemma {:induction false} WindowGrantsAreBounded(
    c: Limits, lastSweep: real, before: seq<Request>, window: seq<Request>, key: string)
    requires c.Sane() && window != []
    ensures Grants(c, After(c, Table(map[], lastSweep), before), window, key) as real
         <= c.burst + c.ratePerSecond * Forward(window)
  {
    var t := After(c, Table(map[], lastSweep), before);
    RunKeepsValid(c, Table(map[], lastSweep), before);
    GrantsFitTheLevel(c, t, window, key);
    RefillIsRateTimesMotion(c, window);
    LevelIsNotNegative(c, t, key, window[0].now);
  }

  // ---- the limiter that never forgets

  /** No sweep and no cap: each peer keeps its bucket for good. */
  function DecideForever(c: Limits, u: Buckets, key: string, now: real): (Decision, Buckets) {
    var b := if key in u then Refilled(c, u[key], now) else Bucket(c.burst, now);
    (if b.tokens >= 1.0 then Granted else Short, u[key := Spent(b)])
  }

  /** No bucket is dated after now. */
  predicate Anchored(buckets: Buckets, now: real) {
    forall k :: k in buckets ==> buckets[k].last <= now
  }

  /** The peer's bucket is not dated after now. */
  predicate DatedBy(buckets: Buckets, key: string, now: real) {
    key in buckets ==> buckets[key].last <= now
  }

  /** Every peer would find the same tokens in either table. */
  ghost predicate SameLevels(c: Limits, a: Buckets, b: Buckets, now: real) {
    && Anchored(a, now) && Anchored(b, now) && WithinBurst(c, a) && WithinBurst(c, b)
    && forall key :: Level(c, a, key, now) == Level(c, b, key, now)
  }

  /** While the clock goes forward, a level moves by the refill and nothing else. */
  lemma LevelAdvances(c: Limits, buckets: Buckets, key: string, now: real, later: real)
    requires c.Sane() && DatedBy(buckets, key, now) && WithinBurst(c, buckets) && now <= later
    ensures Level(c, buckets, key, later) == Min(Level(c, buckets, key, now) + Earned(c, later - now), c.burst)
  {
    hide Earned;
    EarnedSign(c, later - now);
    if key in buckets {
      EarnedAddsUp(c, buckets[key].last, now, later);
      EarnedSign(c, now - buckets[key].last);
    }
  }

  lemma SameLevelsLast(c: Limits, a: Buckets, b: Buckets, now: real, later: real)
    requires c.Sane() && SameLevels(c, a, b, now) && now <= later
    ensures SameLevels(c, a, b, later)
  {
    forall key
      ensures Level(c, a, key, later) == Level(c, b, key, later)
    {
      LevelAdvances(c, a, key, now, later);
      LevelAdvances(c, b, key, now, later);
    }
  }

  lemma ForeverIsTheLevel(c: Limits, u: Buckets, key: string, now: real, other: string)
    requires c.Sane() && WithinBurst(c, u) && Anchored(u, now)
    ensures var (d, u') := DecideForever(c, u, key, now);
            && (d == Granted <==> Level(c, u, key, now) >= 1.0) && d != Full
            && Level(c, u', other, now)
                 == Level(c, u, other, now) - (if d == Granted && other == key then 1.0 else 0.0)
            && WithinBurst(c, u') && Anchored(u', now)
  {
    hide Earned;
    EarnedSign(c, now - now);
    if key in u {
      RefillStaysInBounds(c, u[key], now);
    }
  }

  lemma DecideKeepsAnchored(c: Limits, t: Table, key: string, now: real)
    requires c.Sane() && Valid(c, t) && Anchored(t.buckets, now)
    ensures Anchored(Decide(c, t, key, now).1.buckets, now)
  {
    SweepShrinks(c, t, now);
  }

  lemma DecideKeepsDate(c: Limits, t: Table, key: string, now: real, other: string)
    requires DatedBy(t.buckets, other, now)
    ensures DatedBy(Decide(c, t, key, now).1.buckets, other, now)
  {
    SweepShrinks(c, t, now);
  }

  // ---- a peer refills from its last request

  /** A served request dates its peer's bucket, whatever it was dated before: a clock that stepped
      back past the old date does not keep the peer from refilling until it catches up. */
  lemma ServedIsDatedNow(c: Limits, t: Table, key: string, now: real)
    requires Decide(c, t, key, now).0 != Full
    ensures var t' := Decide(c, t, key, now).1; key in t'.buckets && t'.buckets[key].last == now
  {
  }

  /** So from then on, while the clock goes forward, the peer's level rises by all the clock's motion
      earns, up to the burst. */
  lemma RefillsFromItsLastRequest(c: Limits, t: Table, key: string, now: real, later: real)
    requires c.Sane() && Valid(c, t) && Decide(c, t, key, now).0 != Full && now <= later
    ensures var t' := Decide(c, t, key, now).1;
            Level(c, t'.buckets, key, later) == Min(Level(c, t'.buckets, key, now) + Earned(c, later - now), c.burst)
  {
    ServedIsDatedNow(c, t, key, now);
    DecideKeepsValid(c, t, key, now);
    LevelAdvances(c, Decide(c, t, key, now).1.buckets, key, now, later);
  }

  // ---- what the table keeps

  /** No bucket kept had refilled at the last sweep. */
  predicate Unrefilled(c: Limits, t: Table) {
    forall k :: k in t.buckets ==> !HasRefilled(c, t.buckets[k], t.lastSweep)
  }

  lemma DecideKeepsUnrefilled(c: Limits, t: Table, key: string, now: real)
    requires c.Sane() && Valid(c, t) && Unrefilled(c, t)
    ensures var t' := Decide(c, t, key, now).1;
            Unrefilled(c, t') && t'.lastSweep <= now < t'.lastSweep + SWEEP_INTERVAL
  {
    hide Earned;
    var t' := Decide(c, t, key, now).1;
    DecideKeepsValid(c, t, key, now);
    if key in t'.buckets {
      EarnedSign(c, t'.lastSweep - t'.buckets[key].last);
    }
  }

  /** Whatever the clock does, the table a request leaves was swept less than a minute before that
      request's reading, and keeps no bucket that had refilled by then. */
  lemma {:induction false} NothingIsKeptPastItsRefill(c: Limits, t: Table, trace: seq<Request>)
    requires c.Sane() && Valid(c, t) && Unrefilled(c, t) && trace != []
    ensures var t', now := After(c, t, trace), trace[|trace| - 1].now;
            && t'.lastSweep <= now < t'.lastSweep + 60.0
            && forall k :: k in t'.buckets ==> !HasRefilled(c, t'.buckets[k], t'.lastSweep)
    decreases |trace|
  {
    hide Decide;
    DecideKeepsUnrefilled(c, t, trace[0].key, trace[0].now);
    DecideKeepsValid(c, t, trace[0].key, trace[0].now);
    if |trace| > 1 {
      NothingIsKeptPastItsRefill(c, Next(c, t, trace[0]), trace[1..]);
    } else {
      assert After(c, Next(c, t, trace[0]), trace[1..]) == Next(c, t, trace[0]);
    }
  }

  // ---- when the table is full

  /** The peers that have not refilled. */
  function Spending(c: Limits, buckets: Buckets, now: real): set<string> {
    set k | k in buckets && Level(c, buckets, k, now) < c.burst
  }

  lemma SweptAreSpending(c: Limits, t: Table, now: real)
    requires c.Sane() && Valid(c, t) && SweepDue(c, t, now)
    ensures SweepFull(c, t, now).buckets.Keys == Spending(c, t.buckets, now)
  {
    hide Earned;
    forall k | k in t.buckets
      ensures HasRefilled(c, t.buckets[k], now) <==> Level(c, t.buckets, k, now) >= c.burst
    {
      EarnedSign(c, now - t.buckets[k].last);
    }
  }

  /** A request is refused as full exactly when as many other peers as the table may hold have not
      refilled, and its own peer has: buckets kept past their refill never cost anyone a place. */
  lemma FullMeansCrowded(c: Limits, t: Table, key: string, now: real)
    requires c.Sane() && Valid(c, t)
    ensures var spending := Spending(c, t.buckets, now);
            Decide(c, t, key, now).0 == Full <==> key !in spending && |spending| >= c.maxBuckets
  {
    hide Earned, HasRefilled, Level;
    var swept := SweepFull(c, t, now).buckets;
    var spending := Spending(c, t.buckets, now);
    assert |swept| == |swept.Keys| && |t.buckets| == |t.buckets.Keys|;
    if SweepDue(c, t, now) {
      SweptAreSpending(c, t, now);
    } else {
      SubsetIsSmaller(spending, t.buckets.Keys);
    }
  }

  lemma SpendingIsBelowBurst(c: Limits, buckets: Buckets, key: string, now: real)
    requires WithinBurst(c, buckets)
    ensures Level(c, buckets, key, now) <= c.burst
    ensures key in Spending(c, buckets, now) <==> Level(c, buckets, key, now) < c.burst
  {
  }

  /** Tables in which every peer would find the same tokens have the same peers spending. */
  lemma SameLevelsSameSpending(c: Limits, a: Buckets, b: Buckets, now: real)
    requires SameLevels(c, a, b, now)
    ensures Spending(c, a, now) == Spending(c, b, now)
  {
    forall k
      ensures k in Spending(c, a, now) <==> k in Spending(c, b, now)
    {
      assert Level(c, a, k, now) == Level(c, b, k, now);
    }
  }

  /** One request decided by both limiters, from tables that agree. */
  lemma BothDecideAlike(c: Limits, t: Table, u: Buckets, key: string, now: real)
    requires c.Sane() && Valid(c, t) && SameLevels(c, t.buckets, u, now)
    ensures var (d, t') := Decide(c, t, key, now); var (e, u') := DecideForever(c, u, key, now);
            && Valid(c, t')
            && (if d == Full then SameLevels(c, t'.buckets, u, now)
                else d == e && SameLevels(c, t'.buckets, u', now))
  {
    var (d, t') := Decide(c, t, key, now);
    var (e, u') := DecideForever(c, u, key, now);
    DecideKeepsValid(c, t, key, now);
    DecideKeepsAnchored(c, t, key, now);
    DecisionIsTheLevel(c, t, key, now, key);
    ForeverIsTheLevel(c, u, key, now, key);
    forall other
      ensures Level(c, t'.buckets, other, now) == Level(c, if d == Full then u else u', other, now)
    {
      DecisionIsTheLevel(c, t, key, now, other);
      ForeverIsTheLevel(c, u, key, now, other);
    }
  }

  /** No sweep, and a cap on the peers that are spending, not on those remembered. */
  function DecideUnswept(c: Limits, u: Buckets, key: string, now: real): (Decision, Buckets) {
    var spending := Spending(c, u, now);
    if key !in spending && |spending| >= c.maxBuckets then (Full, u) else DecideForever(c, u, key, now)
  }

  function DecisionsUnswept(c: Limits, u: Buckets, trace: seq<Request>): seq<Decision>
    decreases |trace|
  {
    if trace == [] then []
    else
      var (d, u') := DecideUnswept(c, u, trace[0].key, trace[0].now);
      [d] + DecisionsUnswept(c, u', trace[1..])
  }

  /** With a clock that never goes back, and nothing deleted, the sweeping limiter decides every
      request as one that remembers every peer and caps only how many are spending at once. */
  lemma {:induction false} SweepingIsInvisible(c: Limits, t: Table, u: Buckets, start: real, trace: seq<Request>)
    requires c.Sane() && Valid(c, t) && SameLevels(c, t.buckets, u, start) && Nondecreasing(start, trace)
    ensures Decisions(c, t, trace) == DecisionsUnswept(c, u, trace)
    decreases |trace|
  {
    if trace != [] {
      var key, now := trace[0].key, trace[0].now;
      SameLevelsLast(c, t.buckets, u, start, now);
      FullMeansCrowded(c, t, key, now);
      SameLevelsSameSpending(c, t.buckets, u, now);
      BothDecideAlike(c, t, u, key, now);
      SweepingIsInvisible(c, Decide(c, t, key, now).1, DecideUnswept(c, u, key, now).1, now, trace[1..]);
    }
  }

  // ---- refused requests

  /** The items a mask keeps. */
  function Pick<T>(items: seq<T>, mask: seq<bool>): seq<T>
    requires |items| == |mask|
  {
    if items == [] then [] else (if mask[0] then [items[0]] else []) + Pick(items[1..], mask[1..])
  }

  /** One request decided by two capped tables in which every peer would find the same tokens. */
  lemma AlikeTablesDecideAlike(c: Limits, t: Table, u: Table, key: string, now: real)
    requires c.Sane() && Valid(c, t) && Valid(c, u) && SameLevels(c, t.buckets, u.buckets, now)
    ensures var (d, t') := Decide(c, t, key, now); var (e, u') := Decide(c, u, key, now);
            && d == e && Valid(c, t') && Valid(c, u') && SameLevels(c, t'.buckets, u'.buckets, now)
            && (d != Granted ==> SameLevels(c, t'.buckets, u.buckets, now))
  {
    hide Decide, Level, Spending;
    FullMeansCrowded(c, t, key, now);
    FullMeansCrowded(c, u, key, now);
    SameLevelsSameSpending(c, t.buckets, u.buckets, now);
    DecideKeepsValid(c, t, key, now);
    DecideKeepsValid(c, u, key, now);
    DecideKeepsAnchored(c, t, key, now);
    DecideKeepsAnchored(c, u, key, now);
    DecisionIsTheLevel(c, t, key, now, key);
    DecisionIsTheLevel(c, u, key, now, key);
    forall other
      ensures var (d, t') := Decide(c, t, key, now); var u' := Decide(c, u, key, now).1;
              && Level(c, t'.buckets, other, now) == Level(c, u'.buckets, other, now)
              && (d != Granted ==> Level(c, t'.buckets, other, now) == Level(c, u.buckets, other, now))
    {
      DecisionIsTheLevel(c, t, key, now, other);
      DecisionIsTheLevel(c, u, key, now, other);
    }
  }

  lemma {:induction false} RefusalsLeaveNoTrace(
    c: Limits, t: Table, u: Table, start: real, trace: seq<Request>, mask: seq<bool>)
    requires c.Sane() && Valid(c, t) && Valid(c, u) && SameLevels(c, t.buckets, u.buckets, start)
    requires Nondecreasing(start, trace) && |mask| == |trace|
    requires forall i :: 0 <= i < |trace| && !mask[i] ==> Decisions(c, t, trace)[i] != Granted
    ensures Decisions(c, u, Pick(trace, mask)) == Pick(Decisions(c, t, trace), mask)
    decreases |trace|
  {
    if trace != [] {
      var key, now := trace[0].key, trace[0].now;
      SameLevelsLast(c, t.buckets, u.buckets, start, now);
      AlikeTablesDecideAlike(c, t, u, key, now);
      var (d, t') := Decide(c, t, key, now);
      var ds := Decisions(c, t, trace);
      assert ds[0] == d && ds[1..] == Decisions(c, t', trace[1..]);
      var kept := Pick(trace, mask);
      if mask[0] {
        assert kept[0] == trace[0] && kept[1..] == Pick(trace[1..], mask[1..]);
        RefusalsLeaveNoTrace(c, t', Decide(c, u, key, now).1, now, trace[1..], mask[1..]);
      } else {
        assert kept == Pick(trace[1..], mask[1..]);
        RefusalsLeaveNoTrace(c, t', u, now, trace[1..], mask[1..]);
      }
    }
  }

  /** With a clock that never goes back, from any table, deleting any of the refused requests, of any
      peers, refused for lack of tokens or because the table was full, changes no other decision. */
  lemma {:induction false} RefusedRequestsCostNothing(
    c: Limits, t: Table, start: real, trace: seq<Request>, mask: seq<bool>)
    requires c.Sane() && Valid(c, t) && Anchored(t.buckets, start)
    requires Nondecreasing(start, trace) && |mask| == |trace|
    requires forall i :: 0 <= i < |trace| && !mask[i] ==> Decisions(c, t, trace)[i] != Granted
    ensures Decisions(c, t, Pick(trace, mask)) == Pick(Decisions(c, t, trace), mask)
  {
    RefusalsLeaveNoTrace(c, t, t, start, trace, mask);
  }

  /** A level after dt of refill. */
  function Topped(c: Limits, level: real, dt: real): real {
    Min(level + Earned(c, dt), c.burst)
  }

  lemma ToppedSince(c: Limits, level: real, start: real, at: real, now: real)
    requires c.Sane() && start <= at <= now
    ensures Topped(c, Topped(c, level, at - start), now - at) == Topped(c, level, now - start)
  {
    hide Earned;
    EarnedAddsUp(c, start, at, now);
    EarnedSign(c, now - at);
  }

  lemma {:induction false} LastIsLatest(start: real, trace: seq<Request>, last: Request)
    requires Nondecreasing(start, trace + [last])
    ensures start <= last.now
    decreases |trace|
  {
    var whole := trace + [last];
    if trace != [] {
      assert whole[1..] == trace[1..] + [last];
      LastIsLatest(trace[0].now, trace[1..], last);
    }
  }

  /** The first of some requests that grant the peer nothing leaves it the refill since start. */
  lemma {:induction false} FirstUngranted(
    c: Limits, t: Table, start: real, trace: seq<Request>, key: string, last: Request) returns (t': Table)
    requires c.Sane() && Valid(c, t) && DatedBy(t.buckets, key, start) && trace != []
    requires Nondecreasing(start, trace + [last]) && Grants(c, t, trace, key) == 0
    ensures Valid(c, t') && DatedBy(t'.buckets, key, trace[0].now)
    ensures start <= trace[0].now && Nondecreasing(trace[0].now, trace[1..] + [last])
    ensures After(c, t, trace) == After(c, t', trace[1..]) && Grants(c, t', trace[1..], key) == 0
    ensures Level(c, t'.buckets, key, trace[0].now) == Topped(c, Level(c, t.buckets, key, start), trace[0].now - start)
  {
    var whole := trace + [last];
    assert whole[0] == trace[0] && whole[1..] == trace[1..] + [last];
    GrantsStep(c, t, trace, key);
    t' := UngrantedRequest(c, t, start, trace[0], key);
  }

  lemma UngrantedRequest(c: Limits, t: Table, start: real, r: Request, key: string) returns (t': Table)
    requires c.Sane() && Valid(c, t) && DatedBy(t.buckets, key, start) && start <= r.now && Got(c, t, r, key) == 0
    ensures t' == Next(c, t, r) && Valid(c, t') && DatedBy(t'.buckets, key, r.now)
    ensures Level(c, t'.buckets, key, r.now) == Topped(c, Level(c, t.buckets, key, start), r.now - start)
  {
    hide Earned, Decide, Level;
    t' := Next(c, t, r);
    LevelAdvances(c, t.buckets, key, start, r.now);
    DecisionIsTheLevel(c, t, r.key, r.now, key);
    DecideKeepsValid(c, t, r.key, r.now);
    DecideKeepsDate(c, t, r.key, r.now, key);
  }

  /** A peer's level after requests that granted it nothing is its refill and nothing else. */
  lemma {:induction false} LevelWithoutGrants(
    c: Limits, t: Table, start: real, trace: seq<Request>, key: string, now: real)
    requires c.Sane() && Valid(c, t) && DatedBy(t.buckets, key, start)
    requires Nondecreasing(start, trace + [Request(key, now)]) && Grants(c, t, trace, key) == 0
    ensures Level(c, After(c, t, trace).buckets, key, now) == Topped(c, Level(c, t.buckets, key, start), now - start)
    decreases |trace|
  {
    hide Earned, Level;
    if trace == [] {
      assert (trace + [Request(key, now)])[0] == Request(key, now);
      LevelAdvances(c, t.buckets, key, start, now);
    } else {
      var t' := FirstUngranted(c, t, start, trace, key, Request(key, now));
      LastIsLatest(trace[0].now, trace[1..], Request(key, now));
      LevelWithoutGrants(c, t', trace[0].now, trace[1..], key, now);
      ToppedSince(c, Level(c, t.buckets, key, start), start, trace[0].now, now);
    }
  }

  /** A peer that asks again after requests that granted it nothing is refused for lack of tokens
      exactly until the refill since start covers its shortfall, that is shortfall / rate later; it
      is refused as full exactly when it has wholly refilled and as many others as the table may hold
      have not; and it is granted otherwise. So a short peer that has not wholly refilled is never
      refused as full, however crowded the table and however often it, or anyone, asked meanwhile. */
  lemma {:induction false} ShortPeerWaitsItsShortfall(
    c: Limits, t: Table, start: real, trace: seq<Request>, key: string, now: real)
    requires c.Sane() && Valid(c, t) && DatedBy(t.buckets, key, start)
    requires Nondecreasing(start, trace + [Request(key, now)]) && Grants(c, t, trace, key) == 0
    ensures var level, refill := Level(c, t.buckets, key, start), (now - start) * c.ratePerSecond;
            var after := After(c, t, trace);
            var d := Decide(c, after, key, now).0;
            && (d == Short <==> refill < 1.0 - level)
            && (d == Full <==> refill >= c.burst - level && |Spending(c, after.buckets, now)| >= c.maxBuckets)
  {
    hide Decide, Level, Topped, After, Grants, Spending;
    LevelWithoutGrants(c, t, start, trace, key, now);
    RunKeepsValid(c, t, trace);
    DecidedOnceTopped(c, After(c, t, trace), key, now, Level(c, t.buckets, key, start), now - start);
  }

  /** After any course of the clock and any requests, a peer that has just been served waits exactly
      its shortfall from that request, on a clock that goes forward from there. */
  lemma {:induction false} ServedPeerWaitsFromItsLastRequest(
    c: Limits, lastSweep: real, before: seq<Request>, key: string, at: real, trace: seq<Request>, now: real)
    requires c.Sane() && Nondecreasing(at, trace + [Request(key, now)])
    requires var t := After(c, Table(map[], lastSweep), before);
             Decide(c, t, key, at).0 != Full && Grants(c, Decide(c, t, key, at).1, trace, key) == 0
    ensures var served := Decide(c, After(c, Table(map[], lastSweep), before), key, at).1;
            var level := Level(c, served.buckets, key, at);
            Decide(c, After(c, served, trace), key, now).0 == Short <==> (now - at) * c.ratePerSecond < 1.0 - level
  {
    var t := After(c, Table(map[], lastSweep), before);
    RunKeepsValid(c, Table(map[], lastSweep), before);
    ServedIsDatedNow(c, t, key, at);
    DecideKeepsValid(c, t, key, at);
    ShortPeerWaitsItsShortfall(c, Decide(c, t, key, at).1, at, trace, key, now);
  }

  lemma DecidedOnceTopped(c: Limits, t: Table, key: string, now: real, level: real, dt: real)
    requires c.Sane() && Valid(c, t)
    requires Level(c, t.buckets, key, now) == Topped(c, level, dt)
    ensures var d := Decide(c, t, key, now).0;
            && (d == Short <==> dt * c.ratePerSecond < 1.0 - level)
            && (d == Full <==> dt * c.ratePerSecond >= c.burst - level && |Spending(c, t.buckets, now)| >= c.maxBuckets)
  {
    hide Decide, Level, Topped, Spending;
    DecisionIsTheLevel(c, t, key, now, key);
    FullMeansCrowded(c, t, key, now);
    SpendingIsBelowBurst(c, t.buckets, key, now);
    ToppedReaches(c, level, dt, 1.0);
    ToppedReaches(c, level, dt, c.burst);
  }

  lemma ToppedReaches(c: Limits, level: real, dt: real, goal: real)
    requires goal <= c.burst
    ensures Topped(c, level, dt) >= goal <==> dt * c.ratePerSecond >= goal - level
  {
  }
}
