/** The facilitator's per-peer throttle: token buckets in a table that forgets and is capped
    (facilitator/ratelimit.go). Time is in seconds and tokens are real. */
module RateLimiter {
  import opened Sets

  const DEFAULT_RATE_PER_SECOND := 10.0
  const DEFAULT_RATE_BURST := 20.0
  const SWEEP_INTERVAL := 60.0
  const DEFAULT_MAX_BUCKETS: nat := 0x1_0000

  datatype Bucket = Bucket(tokens: real, last: real)

  datatype Limits = Limits(ratePerSecond: real, burst: real, maxBuckets: nat) {
    predicate Sane() {
      ratePerSecond > 0.0 && burst >= 1.0
    }
  }

  type Buckets = map<string, Bucket>

  datatype Table = Table(buckets: Buckets, lastSweep: real)

  /** Granted, refused for lack of tokens, or refused because the table is full. */
  datatype Decision = Granted | Short | Full

  function Min(a: real, b: real): real {
    if a <= b then a else b
  }

  /** The configuration after the defaults. */
  function Configured(perSecond: real, burst: int): Limits {
    Limits(if perSecond <= 0.0 then DEFAULT_RATE_PER_SECOND else perSecond,
           if burst <= 0 then DEFAULT_RATE_BURST else burst as real,
           DEFAULT_MAX_BUCKETS)
  }

  /** The tokens dt seconds earn. */
  function Earned(c: Limits, dt: real): real {
    dt * c.ratePerSecond
  }

  lemma EarnedAddsUp(c: Limits, start: real, middle: real, end: real)
    ensures Earned(c, middle - start) + Earned(c, end - middle) == Earned(c, end - start)
  {
  }

  lemma EarnedSign(c: Limits, dt: real)
    requires c.ratePerSecond > 0.0
    ensures dt > 0.0 ==> Earned(c, dt) > 0.0
    ensures dt < 0.0 ==> Earned(c, dt) < 0.0
    ensures dt == 0.0 ==> Earned(c, dt) == 0.0
  {
  }

  predicate HasRefilled(c: Limits, b: Bucket, now: real) {
    b.tokens + Earned(c, now - b.last) >= c.burst
  }

  predicate SweepDue(c: Limits, t: Table, now: real) {
    now - t.lastSweep >= SWEEP_INTERVAL || now < t.lastSweep || |t.buckets| >= c.maxBuckets
  }

  function SweepFull(c: Limits, t: Table, now: real): Table {
    if !SweepDue(c, t, now) then t
    else Table(map k | k in t.buckets && !HasRefilled(c, t.buckets[k], now) :: t.buckets[k], now)
  }

  /** A bucket as a request at now finds it: refilled, or re-anchored when the clock stepped back. */
  function Refilled(c: Limits, b: Bucket, now: real): Bucket {
    if now < b.last then Bucket(b.tokens, now)
    else Bucket(Min(b.tokens + Earned(c, now - b.last), c.burst), now)
  }

  function Spent(b: Bucket): Bucket {
    if b.tokens >= 1.0 then Bucket(b.tokens - 1.0, b.last) else b
  }

  /** allow, as a function of the table. */
  function Decide(c: Limits, t: Table, key: string, now: real): (Decision, Table) {
    var swept := SweepFull(c, t, now);
    if key !in swept.buckets && |swept.buckets| >= c.maxBuckets then (Full, swept)
    else
      var b := if key in swept.buckets then Refilled(c, swept.buckets[key], now) else Bucket(c.burst, now);
      (if b.tokens >= 1.0 then Granted else Short, swept.(buckets := swept.buckets[key := Spent(b)]))
  }

  class RateLimiterTable {
    const limits: Limits
    var buckets: Buckets
    var lastSweep: real

    function Contents(): Table
      reads this
    {
      Table(buckets, lastSweep)
    }

    constructor (perSecond: real, burst: int)
      ensures limits == Configured(perSecond, burst) && limits.Sane() && limits.maxBuckets == 65_536
      ensures limits.ratePerSecond == if perSecond > 0.0 then perSecond else 10.0
      ensures limits.burst == if burst > 0 then burst as real else 20.0
      ensures Contents() == Table(map[], 0.0)
    {
      limits := Configured(perSecond, burst);
      buckets := map[];
      lastSweep := 0.0;
    }

    /** Rebuilds the table from what has not refilled, in whatever order the map is scanned. */
    method Sweep(now: real)
      modifies this
      ensures Contents() == SweepFull(limits, old(Contents()), now)
    {
      hide Earned;
      if !(now - lastSweep >= SWEEP_INTERVAL || now < lastSweep || |buckets| >= limits.maxBuckets) {
        return;
      }
      lastSweep := now;
      var kept: Buckets := map[];
      var unseen := buckets.Keys;
      while unseen != {}
        invariant unseen <= buckets.Keys && buckets == old(buckets) && lastSweep == now
        invariant forall k :: k in kept <==> k in buckets && k !in unseen && !HasRefilled(limits, buckets[k], now)
        invariant forall k :: k in kept ==> kept[k] == buckets[k]
        decreases |unseen|
      {
        var k :| k in unseen;
        var b := buckets[k];
        if b.tokens + Earned(limits, now - b.last) < limits.burst {
          kept := kept[k := b];
        }
        unseen := unseen - {k};
      }
      buckets := kept;
      assert buckets == SweepFull(limits, old(Contents()), now).buckets;
    }

    method Allow(key: string, now: real) returns (granted: bool)
      modifies this
      ensures granted <==> Decide(limits, old(Contents()), key, now).0 == Granted
      ensures Contents() == Decide(limits, old(Contents()), key, now).1
    {
      hide Earned;
      Sweep(now);
      var b;
      if key !in buckets && |buckets| >= limits.maxBuckets {
        return false;
      } else if key !in buckets {
        b := Bucket(limits.burst, now);
      } else if now < buckets[key].last {
        b := buckets[key].(last := now);
      } else {
        b := Bucket(Min(buckets[key].tokens + Earned(limits, now - buckets[key].last), limits.burst), now);
      }
      granted := b.tokens >= 1.0;
      if granted {
        b := b.(tokens := b.tokens - 1.0);
      }
      buckets := buckets[key := b];
    }
  }

  // ---- runs

  datatype Request = Request(key: string, now: real)

  function Decisions(c: Limits, t: Table, trace: seq<Request>): (ds: seq<Decision>)
    ensures |ds| == |trace|
    decreases |trace|
  {
    if trace == [] then []
    else
      var (d, t') := Decide(c, t, trace[0].key, trace[0].now);
      [d] + Decisions(c, t', trace[1..])
  }

  function After(c: Limits, t: Table, trace: seq<Request>): Table
    decreases |trace|
  {
    if trace == [] then t
    else After(c, Decide(c, t, trace[0].key, trace[0].now).1, trace[1..])
  }

  /** Clock readings that never go back, from start on. */
  predicate Nondecreasing(start: real, trace: seq<Request>)
    decreases |trace|
  {
    trace != [] ==> start <= trace[0].now && Nondecreasing(trace[0].now, trace[1..])
  }

  /** Tokens stay between none and the burst: below it, since every decision leaves its bucket spent
      or short of a token. */
  predicate WithinBurst(c: Limits, buckets: Buckets) {
    forall k :: k in buckets ==> 0.0 <= buckets[k].tokens < c.burst
  }

  /** And the table stays within its cap. */
  predicate Valid(c: Limits, t: Table) {
    |t.buckets| <= c.maxBuckets && WithinBurst(c, t.buckets)
  }

  lemma SweepShrinks(c: Limits, t: Table, now: real)
    ensures SweepFull(c, t, now).buckets.Keys <= t.buckets.Keys
    ensures |SweepFull(c, t, now).buckets| <= |t.buckets|
    ensures forall k :: k in SweepFull(c, t, now).buckets ==> SweepFull(c, t, now).buckets[k] == t.buckets[k]
    ensures forall k :: k in t.buckets && k !in SweepFull(c, t, now).buckets ==> HasRefilled(c, t.buckets[k], now)
  {
    SubsetIsSmaller(SweepFull(c, t, now).buckets.Keys, t.buckets.Keys);
    assert |SweepFull(c, t, now).buckets| == |SweepFull(c, t, now).buckets.Keys|;
    assert |t.buckets| == |t.buckets.Keys|;
  }

  lemma DecideKeepsValid(c: Limits, t: Table, key: string, now: real)
    requires c.Sane() && Valid(c, t)
    ensures Valid(c, Decide(c, t, key, now).1)
  {
    hide Earned;
    var swept := SweepFull(c, t, now);
    SweepShrinks(c, t, now);
    var t' := Decide(c, t, key, now).1;
    if key in swept.buckets {
      assert t'.buckets.Keys == swept.buckets.Keys;
      RefillStaysInBounds(c, swept.buckets[key], now);
      assert |t'.buckets| == |t'.buckets.Keys|;
      assert |swept.buckets| == |swept.buckets.Keys|;
    }
  }

  lemma RefillStaysInBounds(c: Limits, b: Bucket, now: real)
    requires c.Sane() && 0.0 <= b.tokens <= c.burst
    ensures 0.0 <= Refilled(c, b, now).tokens <= c.burst
    ensures b.tokens <= Refilled(c, b, now).tokens
  {
    hide Earned;
    EarnedSign(c, now - b.last);
  }

  /** In every run, whatever the clock does, tokens stay in bounds and the table within its cap. */
  lemma {:induction false} RunKeepsValid(c: Limits, t: Table, trace: seq<Request>)
    requires c.Sane() && Valid(c, t)
    ensures Valid(c, After(c, t, trace))
    decreases |trace|
  {
    hide Decide;
    if trace != [] {
      DecideKeepsValid(c, t, trace[0].key, trace[0].now);
      RunKeepsValid(c, Decide(c, t, trace[0].key, trace[0].now).1, trace[1..]);
    }
  }
}
