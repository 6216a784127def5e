/** When forgetting shows: the sweeping, capped limiter against one that never forgets and has no cap,
    over every course a clock may take. */
module RateLimitClock {
  import opened RateLimiter
  import opened RateLimitTheorems

  function DecisionsForever(c: Limits, u: Buckets, trace: seq<Request>): seq<Decision>
    decreases |trace|
  {
    if trace == [] then []
    else
      var (d, u') := DecideForever(c, u, trace[0].key, trace[0].now);
      [d] + DecisionsForever(c, u', trace[1..])
  }

  /** The requests of a trace that were not refused because the table was full, and their decisions. */
  function Served(c: Limits, t: Table, trace: seq<Request>): seq<Request>
    decreases |trace|
  {
    if trace == [] then []
    else
      var (d, t') := Decide(c, t, trace[0].key, trace[0].now);
      (if d == Full then [] else [trace[0]]) + Served(c, t', trace[1..])
  }

  function ServedDecisions(c: Limits, t: Table, trace: seq<Request>): seq<Decision>
    decreases |trace|
  {
    if trace == [] then []
    else
      var (d, t') := Decide(c, t, trace[0].key, trace[0].now);
      (if d == Full then [] else [d]) + ServedDecisions(c, t', trace[1..])
  }

  /** The served requests of a trace, from an empty table, are decided as if nothing was forgotten. */
  predicate Invisible(c: Limits, lastSweep: real, trace: seq<Request>) {
    var t := Table(map[], lastSweep);
    DecisionsForever(c, map[], Served(c, t, trace)) == ServedDecisions(c, t, trace)
  }

  // ---- a clock that rises

  /** Every decision leaves its bucket below the burst. */
  predicate BelowBurst(c: Limits, u: Buckets) {
    forall k :: k in u ==> u[k].tokens < c.burst
  }

  /** What the table holds is what the limiter that never forgets holds, and the rest has refilled. */
  predicate Remembers(c: Limits, t: Buckets, u: Buckets, now: real) {
    && BelowBurst(c, u)
    && (forall k :: k in t ==> k in u && u[k] == t[k])
    && (forall k :: k in u && k !in t ==> HasRefilled(c, u[k], now))
  }

  lemma RemembersLater(c: Limits, t: Buckets, u: Buckets, now: real, later: real)
    requires c.Sane() && Remembers(c, t, u, now) && now <= later
    ensures Remembers(c, t, u, later)
  {
    hide Earned;
    forall k | k in u && k !in t
      ensures HasRefilled(c, u[k], later)
    {
      EarnedAddsUp(c, u[k].last, now, later);
      EarnedSign(c, later - now);
    }
  }

  lemma SweepRemembers(c: Limits, t: Table, u: Buckets, now: real)
    requires Remembers(c, t.buckets, u, now)
    ensures Remembers(c, SweepFull(c, t, now).buckets, u, now)
  {
    hide HasRefilled;
    SweepShrinks(c, t, now);
  }

  /** A forgotten peer is found as a new one is. */
  lemma RefilledIsFull(c: Limits, b: Bucket, now: real)
    requires c.Sane() && b.tokens < c.burst && HasRefilled(c, b, now)
    ensures Refilled(c, b, now) == Bucket(c.burst, now)
  {
    hide Earned;
    EarnedSign(c, now - b.last);
  }

  /** One request decided by both limiters. */
  lemma RememberingDecidesAlike(c: Limits, t: Table, u: Buckets, key: string, now: real)
    requires c.Sane() && Remembers(c, t.buckets, u, now)
    ensures var (d, t') := Decide(c, t, key, now); var (e, u') := DecideForever(c, u, key, now);
            if d == Full then Remembers(c, t'.buckets, u, now) else d == e && Remembers(c, t'.buckets, u', now)
  {
    var swept := SweepFull(c, t, now);
    SweepRemembers(c, t, u, now);
    if key in u && key !in swept.buckets {
      RefilledIsFull(c, u[key], now);
    }
    hide HasRefilled, Earned, SweepFull;
  }

  lemma {:induction false} RisingIsInvisible(c: Limits, t: Table, u: Buckets, start: real, trace: seq<Request>)
    requires c.Sane() && Remembers(c, t.buckets, u, start) && Nondecreasing(start, trace)
    ensures DecisionsForever(c, u, Served(c, t, trace)) == ServedDecisions(c, t, trace)
    decreases |trace|
  {
    if trace != [] {
      hide Decide, DecideForever, Remembers;
      var key, now := trace[0].key, trace[0].now;
      RemembersLater(c, t.buckets, u, start, now);
      RememberingDecidesAlike(c, t, u, key, now);
      var (d, t') := Decide(c, t, key, now);
      RisingIsInvisible(c, t', if d == Full then u else DecideForever(c, u, key, now).1, now, trace[1..]);
      ServedStep(c, t, u, trace);
    }
  }

  /** One request more at the front of a trace, for both limiters. */
  lemma {:induction false} ServedStep(c: Limits, t: Table, u: Buckets, trace: seq<Request>)
    requires trace != []
    ensures var (d, t') := Decide(c, t, trace[0].key, trace[0].now);
            var (e, u') := DecideForever(c, u, trace[0].key, trace[0].now);
            if d == Full then
              && Served(c, t, trace) == Served(c, t', trace[1..])
              && ServedDecisions(c, t, trace) == ServedDecisions(c, t', trace[1..])
            else
              && DecisionsForever(c, u, Served(c, t, trace)) == [e] + DecisionsForever(c, u', Served(c, t', trace[1..]))
              && ServedDecisions(c, t, trace) == [d] + ServedDecisions(c, t', trace[1..])
  {
    hide Decide, DecideForever;
    var (d, t') := Decide(c, t, trace[0].key, trace[0].now);
    if d != Full {
      var served := Served(c, t, trace);
      assert served[0] == trace[0] && served[1..] == Served(c, t', trace[1..]);
    }
  }

  // ---- a clock that falls first

  /** No bucket is dated before now. */
  predicate DatedFrom(buckets: Buckets, now: real) {
    forall k :: k in buckets ==> now <= buckets[k].last
  }

  /** Readings that never rise forget nothing: no bucket refills. */
  lemma FallingForgetsNothing(c: Limits, t: Table, now: real)
    requires c.Sane() && BelowBurst(c, t.buckets) && DatedFrom(t.buckets, now)
    ensures SweepFull(c, t, now).buckets == t.buckets
  {
    hide Earned;
    forall k | k in t.buckets
      ensures !HasRefilled(c, t.buckets[k], now)
    {
      EarnedSign(c, now - t.buckets[k].last);
    }
  }

  lemma FallingDecidesAlike(c: Limits, t: Table, key: string, now: real)
    requires c.Sane() && BelowBurst(c, t.buckets) && DatedFrom(t.buckets, now)
    ensures var (d, t') := Decide(c, t, key, now); var (e, u') := DecideForever(c, t.buckets, key, now);
            && BelowBurst(c, t'.buckets) && DatedFrom(t'.buckets, now)
            && if d == Full then t'.buckets == t.buckets else d == e && t'.buckets == u'
  {
    FallingForgetsNothing(c, t, now);
    if key in t.buckets {
      EarnedSign(c, now - t.buckets[key].last);
    }
    hide Earned, SweepFull;
  }

  /** Readings that fall, from start on, and then only rise. */
  predicate FallsThenRises(start: real, trace: seq<Request>)
    decreases |trace|
  {
    Nondecreasing(start, trace)
    || (trace != [] && trace[0].now <= start && FallsThenRises(trace[0].now, trace[1..]))
  }

  lemma {:induction false} FallingThenRisingIsInvisible(c: Limits, t: Table, start: real, trace: seq<Request>)
    requires c.Sane() && BelowBurst(c, t.buckets) && DatedFrom(t.buckets, start) && FallsThenRises(start, trace)
    ensures DecisionsForever(c, t.buckets, Served(c, t, trace)) == ServedDecisions(c, t, trace)
    decreases |trace|
  {
    if Nondecreasing(start, trace) {
      RisingIsInvisible(c, t, t.buckets, start, trace);
    } else {
      FallingDecidesAlike(c, t, trace[0].key, trace[0].now);
      ServedStep(c, t, t.buckets, trace);
      hide Decide, DecideForever;
      FallingThenRisingIsInvisible(c, Next(c, t, trace[0]), trace[0].now, trace[1..]);
    }
  }

  /** With a clock that never goes back, once the requests refused because the table was full are
      deleted from the trace, the sweeping and capped limiter makes exactly the decisions of one that
      never forgets and has no cap. */
  lemma {:induction false} ForgettingIsInvisible(c: Limits, lastSweep: real, start: real, trace: seq<Request>)
    requires c.Sane() && Nondecreasing(start, trace)
    ensures Invisible(c, lastSweep, trace)
  {
    RisingIsInvisible(c, Table(map[], lastSweep), map[], start, trace);
  }

  // ---- exactly which clocks

  /** The clock never drops below a reading it had risen to: it falls, and then it rises. */
  predicate Valley(readings: seq<real>) {
    forall i, j, k :: 0 <= i < j < k < |readings| ==> !(readings[i] < readings[j] && readings[k] < readings[j])
  }

  /** Request n of the trace is made at reading at[n], the clock's readings coming in their order: any
      number of requests at each, or none. */
  predicate MadeAt(trace: seq<Request>, readings: seq<real>, at: seq<nat>) {
    && |at| == |trace|
    && (forall n :: 0 <= n < |at| ==> at[n] < |readings| && trace[n].now == readings[at[n]])
    && (forall m, n :: 0 <= m < n < |at| ==> at[m] <= at[n])
  }

  ghost predicate Follows(trace: seq<Request>, readings: seq<real>) {
    exists at :: MadeAt(trace, readings, at)
  }

  predicate ValleyTrace(trace: seq<Request>) {
    forall i, j, k :: 0 <= i < j < k < |trace| ==> !(trace[i].now < trace[j].now && trace[k].now < trace[j].now)
  }

  lemma {:induction false} ValleyTraceFallsThenRises(trace: seq<Request>)
    requires trace != [] && ValleyTrace(trace)
    ensures FallsThenRises(trace[0].now, trace)
    decreases |trace|
  {
    var rest := trace[1..];
    if rest != [] {
      if rest[0].now <= trace[0].now {
        assert ValleyTrace(rest);
        ValleyTraceFallsThenRises(rest);
        FallsOnward(trace[0].now, rest);
      } else {
        forall n | 0 <= n < |rest| - 1
          ensures rest[n].now <= rest[n + 1].now && trace[0].now < rest[n].now
        {
          StaysAbove(trace, n);
        }
        StepsRise(trace[0].now, rest);
      }
    }
  }

  lemma {:induction false} FallsOnward(start: real, trace: seq<Request>)
    requires trace != [] && trace[0].now <= start && FallsThenRises(trace[0].now, trace)
    ensures FallsThenRises(start, trace)
  {
    if Nondecreasing(trace[0].now, trace) {
      assert Nondecreasing(trace[0].now, trace[1..]);
    }
  }

  /** After its first rise a valley only rises. */
  lemma {:induction false} StaysAbove(trace: seq<Request>, n: nat)
    requires ValleyTrace(trace) && n + 2 < |trace| && trace[0].now < trace[1].now
    ensures trace[0].now < trace[n + 1].now <= trace[n + 2].now
  {
    if n > 0 {
      StaysAbove(trace, n - 1);
    }
  }

  lemma {:induction false} StepsRise(start: real, trace: seq<Request>)
    requires trace != [] ==> start <= trace[0].now
    requires forall n :: 0 <= n < |trace| - 1 ==> trace[n].now <= trace[n + 1].now
    ensures Nondecreasing(start, trace)
    decreases |trace|
  {
    if trace != [] {
      var rest := trace[1..];
      forall n | 0 <= n < |rest| - 1
        ensures rest[n].now <= rest[n + 1].now
      {
        assert trace[n + 1].now <= trace[n + 2].now;
      }
      StepsRise(trace[0].now, rest);
    }
  }

  lemma {:induction false} ValleyIsInvisible(
    c: Limits, lastSweep: real, trace: seq<Request>, readings: seq<real>, at: seq<nat>)
    requires c.Sane() && Valley(readings) && MadeAt(trace, readings, at)
    ensures Invisible(c, lastSweep, trace)
  {
    if trace != [] {
      forall i, j, k | 0 <= i < j < k < |trace|
        ensures !(trace[i].now < trace[j].now && trace[k].now < trace[j].now)
      {
        assert at[i] <= at[j] <= at[k];
      }
      ValleyTraceFallsThenRises(trace);
      FallingThenRisingIsInvisible(c, Table(map[], lastSweep), trace[0].now, trace);
    }
  }

  /** What a rise to high and a drop below it forgets: two peers spend at low, a request at high
      sweeps both, and the one that asks again after the drop is a new peer to the table, and a
      spent one to a limiter that kept it. */
  function TellTale(low: real, high: real, after: real): seq<Request> {
    [Request("b", low), Request("a", low), Request("b", high), Request("a", after)]
  }

  function TellTaleLimits(low: real, high: real): Limits
    requires low < high
  {
    Limits(1.0 / (high - low), 1.0, 2)
  }

  lemma TellTaleRefill(low: real, high: real, after: real)
    requires low < high && after < high
    ensures var c := TellTaleLimits(low, high);
            c.Sane() && Earned(c, high - low) == 1.0 && Earned(c, after - low) < 1.0 && Earned(c, 0.0) == 0.0
  {
    var c := TellTaleLimits(low, high);
    EarnedSign(c, high - after);
    EarnedAddsUp(c, low, after, high);
  }

  /** The table grants all four: the last peer it forgot at the third. */
  lemma TableGrantsAll(lastSweep: real, low: real, high: real, after: real) returns (t1: Table, t2: Table, t3: Table)
    requires low < high && after < high
    ensures var c := TellTaleLimits(low, high);
            && Decide(c, Table(map[], lastSweep), "b", low) == (Granted, t1)
            && Decide(c, t1, "a", low) == (Granted, t2)
            && Decide(c, t2, "b", high) == (Granted, t3)
            && Decide(c, t3, "a", after).0 == Granted
  {
    var c := TellTaleLimits(low, high);
    TellTaleRefill(low, high, after);
    EarnedSign(c, after - high);
    hide Earned;
    t1 := Decide(c, Table(map[], lastSweep), "b", low).1;
    assert t1.buckets == map["b" := Bucket(0.0, low)] && SweepFull(c, t1, low).buckets == t1.buckets;
    t2 := Decide(c, t1, "a", low).1;
    assert t2.buckets == map["b" := Bucket(0.0, low), "a" := Bucket(0.0, low)];
    assert |t2.buckets.Keys| == 2 && SweepFull(c, t2, high).buckets == map[];
    t3 := Decide(c, t2, "b", high).1;
    assert t3.buckets == map["b" := Bucket(0.0, high)] && SweepFull(c, t3, after).buckets == t3.buckets;
  }

  lemma OtherRefusesTheLast(low: real, high: real, after: real) returns (u1: Buckets, u2: Buckets, u3: Buckets)
    requires low < high && after < high
    ensures var c := TellTaleLimits(low, high);
            && DecideForever(c, map[], "b", low) == (Granted, u1)
            && DecideForever(c, u1, "a", low) == (Granted, u2)
            && DecideForever(c, u2, "b", high) == (Granted, u3)
            && DecideForever(c, u3, "a", after).0 == Short
  {
    var c := TellTaleLimits(low, high);
    TellTaleRefill(low, high, after);
    hide Earned;
    u1 := DecideForever(c, map[], "b", low).1;
    u2 := DecideForever(c, u1, "a", low).1;
    u3 := DecideForever(c, u2, "b", high).1;
    assert u3["a"] == Bucket(0.0, low);
  }

  /** The table's decisions and the other limiter's differ at the last request. */
  lemma RiseThenDropShows(lastSweep: real, low: real, high: real, after: real)
    requires low < high && after < high
    ensures var c := TellTaleLimits(low, high); var trace := TellTale(low, high, after);
            var t := Table(map[], lastSweep);
            && Served(c, t, trace) == trace
            && ServedDecisions(c, t, trace) == [Granted, Granted, Granted, Granted]
            && DecisionsForever(c, map[], trace) == [Granted, Granted, Granted, Short]
  {
    var c := TellTaleLimits(low, high);
    var trace := TellTale(low, high, after);
    var t1, t2, t3 := TableGrantsAll(lastSweep, low, high, after);
    var u1, u2, u3 := OtherRefusesTheLast(low, high, after);
    var t := Table(map[], lastSweep);
    hide Decide, DecideForever, TellTaleLimits;
    GrantedFirst(c, t3, u3, trace[3..]);
    GrantedFirst(c, t2, u2, trace[2..]);
    GrantedFirst(c, t1, u1, trace[1..]);
    GrantedFirst(c, t, map[], trace);
  }

  /** A trace whose first request the table grants and whose others it all serves. */
  lemma {:induction false} GrantedFirst(c: Limits, t: Table, u: Buckets, trace: seq<Request>)
    requires trace != [] && Decide(c, t, trace[0].key, trace[0].now).0 == Granted
    requires Served(c, Next(c, t, trace[0]), trace[1..]) == trace[1..]
    ensures var (e, u') := DecideForever(c, u, trace[0].key, trace[0].now);
            && Served(c, t, trace) == trace
            && ServedDecisions(c, t, trace) == [Granted] + ServedDecisions(c, Next(c, t, trace[0]), trace[1..])
            && DecisionsForever(c, u, trace) == [e] + DecisionsForever(c, u', trace[1..])
  {
    assert [trace[0]] + trace[1..] == trace;
  }

  /** Forgetting shows in no decision, whatever the limits, the peers and the requests made at each
      reading, exactly when the clock never drops below a reading it had risen to. */
  lemma {:induction false} ForgettingShowsExactlyOutsideValleys(readings: seq<real>)
    ensures Valley(readings) <==>
            forall c: Limits, lastSweep, trace ::
              c.Sane() && Follows(trace, readings) ==> Invisible(c, lastSweep, trace)
  {
    if Valley(readings) {
      forall c: Limits, lastSweep, trace | c.Sane() && Follows(trace, readings)
        ensures Invisible(c, lastSweep, trace)
      {
        var at :| MadeAt(trace, readings, at);
        ValleyIsInvisible(c, lastSweep, trace, readings, at);
      }
    } else {
      var i, j, k :| 0 <= i < j < k < |readings| && readings[i] < readings[j] && readings[k] < readings[j];
      var low, high, after := readings[i], readings[j], readings[k];
      var trace := TellTale(low, high, after);
      assert MadeAt(trace, readings, [i, i, j, k]);
      RiseThenDropShows(0.0, low, high, after);
      TellTaleRefill(low, high, after);
      assert !Invisible(TellTaleLimits(low, high), 0.0, trace);
    }
  }
}
