/** The weather seller's one bucket for its priced route (examples/weather/ratelimit.go), and why it
    never runs into the facilitator's per-peer limit. */
module SellerLimit {
  import opened RateLimiter
  import opened RateLimitTheorems

  const SELLER_RATE_PER_SECOND := 5.0
  const SELLER_RATE_BURST := 10.0

  /** A configured rate, as a float64 may hold it. */
  datatype Rate = Finite(value: real) | PositiveInfinity | NegativeInfinity | NotANumber

  function ConfiguredRate(perSecond: Rate): real {
    if perSecond.Finite? && perSecond.value > 0.0 then perSecond.value else SELLER_RATE_PER_SECOND
  }

  function ConfiguredBurst(burst: int): real {
    if burst <= 0 then SELLER_RATE_BURST else burst as real
  }

  datatype SellerBucket = SellerBucket(perSecond: real, burst: real, tokens: real, last: real)

  function NewBucket(perSecond: Rate, burst: int, now: real): SellerBucket {
    SellerBucket(ConfiguredRate(perSecond), ConfiguredBurst(burst), ConfiguredBurst(burst), now)
  }

  /** The tokens a request at now finds. */
  function SellerLevel(b: SellerBucket, now: real): real {
    Min(b.burst, b.tokens + Earned(SellerRate(b), now - b.last))
  }

  /** The seller's rate, to earn at. */
  function SellerRate(b: SellerBucket): Limits {
    Limits(b.perSecond, b.burst, 0)
  }

  /** allow, as a function of the bucket. */
  function SellerDecide(b: SellerBucket, now: real): (bool, SellerBucket) {
    var tokens := SellerLevel(b, now);
    if tokens < 1.0 then (false, b.(tokens := tokens, last := now))
    else (true, b.(tokens := tokens - 1.0, last := now))
  }

  class SellerRateLimit {
    const perSecond: real
    const burst: real
    var tokens: real
    var last: real

    function Contents(): SellerBucket
      reads this
    {
      SellerBucket(perSecond, burst, tokens, last)
    }

    constructor (perSecond: Rate, burst: int, now: real)
      ensures Contents() == NewBucket(perSecond, burst, now)
      ensures this.perSecond == if perSecond.Finite? && perSecond.value > 0.0 then perSecond.value else 5.0
      ensures this.burst == if burst > 0 then burst as real else 10.0
    {
      this.perSecond := ConfiguredRate(perSecond);
      this.burst := ConfiguredBurst(burst);
      tokens := ConfiguredBurst(burst);
      last := now;
    }

    method Allow(now: real) returns (granted: bool)
      modifies this
      ensures granted == SellerDecide(old(Contents()), now).0
      ensures Contents() == SellerDecide(old(Contents()), now).1
    {
      tokens := Min(burst, tokens + (now - last) * perSecond);
      assert tokens == SellerLevel(old(Contents()), now);
      last := now;
      if tokens < 1.0 {
        return false;
      }
      tokens := tokens - 1.0;
      return true;
    }
  }

  // ---- the seller in front of the facilitator

  /** A request on the seller's priced route, or a request of another peer at the facilitator. */
  datatype Arrival = Priced(now: real) | Elsewhere(key: string, now: real)

  /** Both limiters; every priced request the seller grants makes its verify and its settle call to
      the facilitator, from the seller's address, at the instant of the grant. */
  datatype Pair = Pair(seller: SellerBucket, table: Table)

  /** The facilitator's decisions on the calls one arrival makes, and the pair after it. */
  function Arrive(c: Limits, address: string, pair: Pair, a: Arrival): (seq<Decision>, Pair) {
    match a
    case Elsewhere(key, now) => ([], pair.(table := Next(c, pair.table, Request(key, now))))
    case Priced(now) =>
      var (granted, seller) := SellerDecide(pair.seller, now);
      if !granted then ([], pair.(seller := seller))
      else
        var (verify, t1) := Decide(c, pair.table, address, now);
        var (settle, t2) := Decide(c, t1, address, now);
        ([verify, settle], Pair(seller, t2))
  }

  /** Every decision the facilitator makes on the seller's calls. */
  function SellerCalls(c: Limits, address: string, pair: Pair, arrivals: seq<Arrival>): seq<Decision>
    decreases |arrivals|
  {
    if arrivals == [] then []
    else
      var (ds, pair') := Arrive(c, address, pair, arrivals[0]);
      ds + SellerCalls(c, address, pair', arrivals[1..])
  }

  predicate InOrder(start: real, arrivals: seq<Arrival>)
    decreases |arrivals|
  {
    arrivals != [] ==> start <= arrivals[0].now && InOrder(arrivals[0].now, arrivals[1..])
  }

  /** The facilitator's limits are at least twice the seller's. */
  predicate TwiceTheSeller(c: Limits, seller: SellerBucket) {
    c.ratePerSecond >= 2.0 * seller.perSecond && c.burst >= 2.0 * seller.burst
    && seller.perSecond > 0.0 && seller.burst >= 1.0
  }

  /** The facilitator would find at least two tokens for each the seller holds. */
  predicate Covered(c: Limits, address: string, pair: Pair, now: real) {
    && Valid(c, pair.table) && Anchored(pair.table.buckets, now)
    && pair.seller.last <= now && pair.seller.tokens >= 0.0 && TwiceTheSeller(c, pair.seller)
    && Level(c, pair.table.buckets, address, now) >= 2.0 * SellerLevel(pair.seller, now)
  }

  lemma CoverLasts(c: Limits, address: string, pair: Pair, now: real, later: real)
    requires c.Sane() && Covered(c, address, pair, now) && now <= later
    ensures Covered(c, address, pair, later)
  {
    hide Earned, Level, SellerLevel;
    LevelAdvances(c, pair.table.buckets, address, now, later);
    SellerLevelAdvances(pair.seller, now, later);
    EarnsTwice(c, SellerRate(pair.seller), later - now);
  }

  lemma EarnsTwice(fast: Limits, slow: Limits, dt: real)
    requires dt >= 0.0 && fast.ratePerSecond >= 2.0 * slow.ratePerSecond
    ensures Earned(fast, dt) >= 2.0 * Earned(slow, dt)
  {
    assert dt * (fast.ratePerSecond - 2.0 * slow.ratePerSecond) >= 0.0;
  }

  lemma SellerLevelAdvances(b: SellerBucket, now: real, later: real)
    requires b.perSecond > 0.0 && now <= later
    ensures SellerLevel(b, later) == Min(b.burst, SellerLevel(b, now) + Earned(SellerRate(b), later - now))
  {
    hide Earned;
    var rate := SellerRate(b);
    EarnedAddsUp(rate, b.last, now, later);
    EarnedSign(rate, later - now);
  }

  lemma ArrivalKeepsCover(c: Limits, address: string, pair: Pair, a: Arrival)
    requires c.Sane() && Covered(c, address, pair, a.now) && (a.Elsewhere? ==> a.key != address)
    ensures var (ds, pair') := Arrive(c, address, pair, a);
            Covered(c, address, pair', a.now) && forall d :: d in ds ==> d != Short
  {
    hide Earned, Decide, Level, SellerLevel;
    var now := a.now;
    match a {
      case Elsewhere(key, _) =>
        DecisionIsTheLevel(c, pair.table, key, now, address);
        DecideKeepsValid(c, pair.table, key, now);
        DecideKeepsAnchored(c, pair.table, key, now);
      case Priced(_) =>
        PricedKeepsCover(c, address, pair, now);
    }
  }

  lemma SellerAfter(b: SellerBucket, now: real)
    requires b.last <= now && b.tokens >= 0.0 && b.perSecond > 0.0 && b.burst >= 1.0
    ensures var (granted, b') := SellerDecide(b, now);
            && SellerLevel(b', now) == SellerLevel(b, now) - (if granted then 1.0 else 0.0)
            && (granted <==> SellerLevel(b, now) >= 1.0)
            && b'.tokens >= 0.0 && b'.last == now && b'.perSecond == b.perSecond && b'.burst == b.burst
  {
    hide Earned;
    EarnedSign(SellerRate(b), now - b.last);
    EarnedSign(SellerRate(b), now - now);
  }

  lemma PricedKeepsCover(c: Limits, address: string, pair: Pair, now: real)
    requires c.Sane() && Covered(c, address, pair, now)
    ensures var (ds, pair') := Arrive(c, address, pair, Priced(now));
            Covered(c, address, pair', now) && forall d :: d in ds ==> d != Short
  {
    hide Earned, Decide, Level, SellerLevel;
    SellerAfter(pair.seller, now);
    if SellerDecide(pair.seller, now).0 {
      var (verify, t1) := Decide(c, pair.table, address, now);
      DecisionIsTheLevel(c, pair.table, address, now, address);
      DecideKeepsValid(c, pair.table, address, now);
      DecideKeepsAnchored(c, pair.table, address, now);
      DecisionIsTheLevel(c, t1, address, now, address);
      DecideKeepsValid(c, t1, address, now);
      DecideKeepsAnchored(c, t1, address, now);
    }
  }

  lemma {:induction false} CoveredCallsAreNeverShort(
    c: Limits, address: string, pair: Pair, start: real, arrivals: seq<Arrival>)
    requires c.Sane() && Covered(c, address, pair, start) && InOrder(start, arrivals)
    requires forall a :: a in arrivals && a.Elsewhere? ==> a.key != address
    ensures forall d :: d in SellerCalls(c, address, pair, arrivals) ==> d != Short
    decreases |arrivals|
  {
    if arrivals != [] {
      CoverLasts(c, address, pair, start, arrivals[0].now);
      ArrivalKeepsCover(c, address, pair, arrivals[0]);
      CoveredCallsAreNeverShort(c, address, Arrive(c, address, pair, arrivals[0]).1, arrivals[0].now, arrivals[1..]);
    }
  }

  /** The seller grants while it counts as a new peer and as many others as the table may hold have
      not refilled. */
  predicate Crowded(c: Limits, address: string, pair: Pair, a: Arrival) {
    && a.Priced? && SellerDecide(pair.seller, a.now).0
    && var spending := Spending(c, pair.table.buckets, a.now);
    address !in spending && |spending| >= c.maxBuckets
  }

  predicate EverCrowded(c: Limits, address: string, pair: Pair, arrivals: seq<Arrival>)
    decreases |arrivals|
  {
    arrivals != [] &&
    (Crowded(c, address, pair, arrivals[0])
     || EverCrowded(c, address, Arrive(c, address, pair, arrivals[0]).1, arrivals[1..]))
  }

  /** A peer a request has just been decided for is spending or was refused as full, so that a
      second request at the same instant is refused as full exactly when the first was. */
  lemma SecondCallFaresAlike(c: Limits, t: Table, key: string, now: real)
    requires c.Sane() && Valid(c, t) && Anchored(t.buckets, now)
    ensures var (d, t') := Decide(c, t, key, now); Decide(c, t', key, now).0 == Full <==> d == Full
  {
    hide Earned, Decide, Level;
    var (d, t') := Decide(c, t, key, now);
    DecideKeepsValid(c, t, key, now);
    DecideKeepsAnchored(c, t, key, now);
    FullMeansCrowded(c, t, key, now);
    FullMeansCrowded(c, t', key, now);
    DecisionIsTheLevel(c, t, key, now, key);
    if d == Full {
      RefusalKeepsLevels(c, t, key, now);
      SameLevelsSameSpending(c, t.buckets, t'.buckets, now);
    } else {
      SpendingIsBelowBurst(c, t.buckets, key, now);
      SpendingIsBelowBurst(c, t'.buckets, key, now);
    }
  }

  lemma RefusalKeepsLevels(c: Limits, t: Table, key: string, now: real)
    requires c.Sane() && Valid(c, t) && Anchored(t.buckets, now) && Decide(c, t, key, now).0 != Granted
    ensures SameLevels(c, t.buckets, Decide(c, t, key, now).1.buckets, now)
  {
    AlikeTablesDecideAlike(c, t, t, key, now);
  }

  lemma {:induction false} FullOnlyWhenCrowded(
    c: Limits, address: string, pair: Pair, start: real, arrivals: seq<Arrival>)
    requires c.Sane() && Covered(c, address, pair, start) && InOrder(start, arrivals)
    requires forall a :: a in arrivals && a.Elsewhere? ==> a.key != address
    ensures Full in SellerCalls(c, address, pair, arrivals) <==> EverCrowded(c, address, pair, arrivals)
    decreases |arrivals|
  {
    if arrivals != [] {
      var a := arrivals[0];
      CoverLasts(c, address, pair, start, a.now);
      ArrivalKeepsCover(c, address, pair, a);
      FullMeansCrowded(c, pair.table, address, a.now);
      SecondCallFaresAlike(c, pair.table, address, a.now);
      FullOnlyWhenCrowded(c, address, Arrive(c, address, pair, a).1, a.now, arrivals[1..]);
    }
  }

  predicate NeverShort(c: Limits, address: string, pair: Pair, arrivals: seq<Arrival>) {
    Short !in SellerCalls(c, address, pair, arrivals)
  }

  /** On one clock that never goes back, a facilitator whose limits are at least twice the seller's,
      and whose table grants the seller's address two tokens for each the seller holds, refuses none of
      the calls the seller's granted requests make for lack of tokens, whatever other peers do and
      whatever is swept; and it grants every one exactly when its table has room each time: when the
      seller never comes new while as many other peers as the table may hold have not refilled. */
  lemma {:induction false} CoveredCallsAreGranted(
    c: Limits, address: string, pair: Pair, start: real, arrivals: seq<Arrival>)
    requires c.Sane() && Covered(c, address, pair, start) && InOrder(start, arrivals)
    requires forall a :: a in arrivals && a.Elsewhere? ==> a.key != address
    ensures NeverShort(c, address, pair, arrivals)
    ensures (forall d :: d in SellerCalls(c, address, pair, arrivals) ==> d == Granted) <==>
            !EverCrowded(c, address, pair, arrivals)
  {
    CoveredCallsAreNeverShort(c, address, pair, start, arrivals);
    FullOnlyWhenCrowded(c, address, pair, start, arrivals);
  }

  /** Both limiters as their processes start them. */
  function Started(perSecond: Rate, burst: int, opening: real): Pair {
    Pair(NewBucket(perSecond, burst, opening), Table(map[], 0.0))
  }

  lemma StartedIsCovered(c: Limits, address: string, perSecond: Rate, burst: int, opening: real)
    requires TwiceTheSeller(c, NewBucket(perSecond, burst, opening))
    ensures Covered(c, address, Started(perSecond, burst, opening), opening)
  {
  }

  /** So it is for two processes just started with both limits at their defaults. */
  lemma {:induction false} SellerNeverMeetsTheThrottle(address: string, opening: real, arrivals: seq<Arrival>)
    requires InOrder(opening, arrivals)
    requires forall a :: a in arrivals && a.Elsewhere? ==> a.key != address
    ensures var c, pair := Configured(0.0, 0), Started(Finite(0.0), 0, opening);
            && NeverShort(c, address, pair, arrivals)
            && ((forall d :: d in SellerCalls(c, address, pair, arrivals) ==> d == Granted) <==>
                !EverCrowded(c, address, pair, arrivals))
  {
    StartedIsCovered(Configured(0.0, 0), address, Finite(0.0), 0, opening);
    CoveredCallsAreGranted(Configured(0.0, 0), address, Started(Finite(0.0), 0, opening), opening, arrivals);
  }

  // ---- and only then

  /** The table has met no peer but the seller. */
  predicate Alone(c: Limits, address: string, table: Table, now: real) {
    Valid(c, table) && Anchored(table.buckets, now) && table.buckets.Keys <= {address}
  }

  /** A lone peer is not refused as full. */
  lemma LoneCall(c: Limits, address: string, table: Table, now: real)
    requires c.Sane() && c.maxBuckets > 0 && Alone(c, address, table, now)
    ensures var (d, table') := Decide(c, table, address, now);
            && d != Full && Alone(c, address, table', now)
            && (d == Granted <==> Level(c, table.buckets, address, now) >= 1.0)
            && Level(c, table'.buckets, address, now)
                 == Level(c, table.buckets, address, now) - (if d == Granted then 1.0 else 0.0)
  {
    FullMeansCrowded(c, table, address, now);
    assert address !in Spending(c, table.buckets, now) ==> Spending(c, table.buckets, now) == {};
    DecisionIsTheLevel(c, table, address, now, address);
    DecideKeepsValid(c, table, address, now);
    DecideKeepsAnchored(c, table, address, now);
    SweepShrinks(c, table, now);
  }

  /** The seller and its lone peer, as a priced request at now finds them: the facilitator would find
      level tokens and the seller holds tokens. */
  predicate LonePair(c: Limits, address: string, pair: Pair, now: real, level: real, tokens: real) {
    && Alone(c, address, pair.table, now) && Level(c, pair.table.buckets, address, now) == level
    && pair.seller.last <= now && pair.seller.tokens >= 0.0
    && pair.seller.perSecond > 0.0 && pair.seller.burst >= 1.0 && SellerLevel(pair.seller, now) == tokens
  }

  /** A request the seller grants takes two tokens of the facilitator's, or is short. */
  lemma GrantTakesTwo(c: Limits, address: string, pair: Pair, now: real, level: real, tokens: real)
    requires c.Sane() && c.maxBuckets > 0 && LonePair(c, address, pair, now, level, tokens) && tokens >= 1.0
    ensures var (ds, pair') := Arrive(c, address, pair, Priced(now));
            Short !in ds ==> level >= 2.0 && LonePair(c, address, pair', now, level - 2.0, tokens - 1.0)
    ensures var pair' := Arrive(c, address, pair, Priced(now)).1;
            pair'.seller.perSecond == pair.seller.perSecond && pair'.seller.burst == pair.seller.burst
  {
    hide Earned, Decide, Level, SellerLevel, Alone;
    SellerAfter(pair.seller, now);
    LoneCall(c, address, pair.table, now);
    var t1 := Decide(c, pair.table, address, now).1;
    LoneCall(c, address, t1, now);
  }

  /** Priced requests, a period apart. */
  function Requests(n: nat, start: real, period: real): seq<Arrival> {
    if n == 0 then [] else [Priced(start)] + Requests(n - 1, start + period, period)
  }

  lemma {:induction false} RequestsInOrder(n: nat, start: real, period: real)
    requires period >= 0.0
    ensures InOrder(start, Requests(n, start, period)) && forall a :: a in Requests(n, start, period) ==> a.Priced?
  {
    if n > 0 {
      RequestsInOrder(n - 1, start + period, period);
      var rest := Requests(n - 1, start + period, period);
      assert Requests(n, start, period)[1..] == rest;
      assert n > 1 ==> rest[0] == Priced(start + period);
    }
  }

  lemma {:induction false} FirstOfRequests(
    c: Limits, address: string, pair: Pair, n: nat, start: real, period: real)
    requires n > 0 && NeverShort(c, address, pair, Requests(n, start, period))
    ensures var (ds, pair') := Arrive(c, address, pair, Priced(start));
            Short !in ds && NeverShort(c, address, pair', Requests(n - 1, start + period, period))
  {
    var all := Requests(n, start, period);
    assert all[0] == Priced(start) && all[1..] == Requests(n - 1, start + period, period);
    var (ds, pair') := Arrive(c, address, pair, all[0]);
    assert SellerCalls(c, address, pair, all) == ds + SellerCalls(c, address, pair', all[1..]);
  }

  /** Requests at one instant, as many as the seller holds tokens for, need twice as many. */
  lemma {:induction false} BurstTakesTwice(
    c: Limits, address: string, pair: Pair, n: nat, start: real, level: real, tokens: real)
    requires c.Sane() && c.maxBuckets > 0 && LonePair(c, address, pair, start, level, tokens) && tokens >= n as real
    requires NeverShort(c, address, pair, Requests(n, start, 0.0))
    ensures level >= 2.0 * n as real
    decreases n
  {
    hide LonePair, Arrive, NeverShort;
    if n == 0 {
      LevelHasTokens(c, address, pair, start, level, tokens);
    } else {
      FirstOfRequests(c, address, pair, n, start, 0.0);
      GrantTakesTwo(c, address, pair, start, level, tokens);
      var pair' := Arrive(c, address, pair, Priced(start)).1;
      BurstTakesTwice(c, address, pair', n - 1, start + 0.0, level - 2.0, tokens - 1.0);
    }
  }

  lemma LevelHasTokens(c: Limits, address: string, pair: Pair, now: real, level: real, tokens: real)
    requires c.Sane() && LonePair(c, address, pair, now, level, tokens)
    ensures level >= 0.0
  {
    hide Earned;
    if address in pair.table.buckets {
      RefillStaysInBounds(c, pair.table.buckets[address], now);
    }
  }

  /** A seller that is granted one request each time it earns a token stays full, and what the
      facilitator earns meanwhile must keep up. */
  lemma {:induction false} RateTakesTwice(
    c: Limits, address: string, pair: Pair, n: nat, start: real, period: real, level: real)
    requires c.Sane() && c.maxBuckets > 0 && period >= 0.0
    requires LonePair(c, address, pair, start, level, pair.seller.burst)
    requires Earned(SellerRate(pair.seller), period) == 1.0
    requires NeverShort(c, address, pair, Requests(n, start, period))
    ensures level >= Drain(n, Earned(c, period))
    decreases n
  {
    hide Arrive, NeverShort, Earned, Drain;
    if n == 0 {
      NothingDrained(Earned(c, period));
      LevelHasTokens(c, address, pair, start, level, pair.seller.burst);
    } else {
      FirstOfRequests(c, address, pair, n, start, period);
      GrantTakesTwo(c, address, pair, start, level, pair.seller.burst);
      var pair' := Arrive(c, address, pair, Priced(start)).1;
      var level' := LonePairLater(c, address, pair', start, period, level - 2.0, pair.seller.burst - 1.0);
      RateTakesTwice(c, address, pair', n - 1, start + period, period, level');
      DrainStep(n, Earned(c, period));
    }
  }

  /** What n requests take in all, and what the first leaves the others. */
  function Drain(n: nat, earned: real): real {
    n as real * (2.0 - earned)
  }

  lemma DrainStep(n: nat, earned: real)
    requires n > 0
    ensures Drain(n, earned) == Drain(n - 1, earned) + 2.0 - earned
  {
  }

  lemma NothingDrained(earned: real)
    ensures Drain(0, earned) == 0.0
  {
  }

  lemma LonePairLater(
    c: Limits, address: string, pair: Pair, now: real, period: real, level: real, tokens: real) returns (level': real)
    requires c.Sane() && period >= 0.0 && LonePair(c, address, pair, now, level, tokens)
    requires tokens == pair.seller.burst - 1.0 && Earned(SellerRate(pair.seller), period) == 1.0
    ensures level' <= level + Earned(c, period)
    ensures LonePair(c, address, pair, now + period, level', pair.seller.burst)
  {
    hide Earned, Level, SellerLevel;
    LevelAdvances(c, pair.table.buckets, address, now, now + period);
    SellerLevelAdvances(pair.seller, now, now + period);
    assert now + period - now == period;
    level' := Level(c, pair.table.buckets, address, now + period);
  }

  lemma StartedIsLone(c: Limits, address: string, perSecond: Rate, burst: int, opening: real)
    requires c.Sane()
    ensures LonePair(c, address, Started(perSecond, burst, opening), opening, c.burst, ConfiguredBurst(burst))
  {
    EarnedSign(SellerRate(NewBucket(perSecond, burst, opening)), opening - opening);
  }

  /** Enough of any positive amount passes any bound. */
  lemma EnoughPasses(each: real, bound: real) returns (n: nat)
    requires each > 0.0 && bound >= 0.0
    ensures n as real * each > bound
  {
    var ratio := bound / each;
    n := ratio.Floor + 1;
    assert n as real > ratio;
    assert (n as real - ratio) * each > 0.0;
    assert ratio * each == bound;
  }

  lemma BurstMustBeTwice(c: Limits, perSecond: Rate, burst: int)
    requires c.Sane() && c.maxBuckets > 0 && NeverShortFromStart(c, perSecond, burst)
    ensures c.burst >= 2.0 * ConfiguredBurst(burst)
  {
    var n: nat := if burst <= 0 then 10 else burst;
    RequestsInOrder(n, 0.0, 0.0);
    StartedIsLone(c, "", perSecond, burst, 0.0);
    assert NeverShort(c, "", Started(perSecond, burst, 0.0), Requests(n, 0.0, 0.0));
    BurstTakesTwice(c, "", Started(perSecond, burst, 0.0), n, 0.0, c.burst, ConfiguredBurst(burst));
  }

  lemma RateMustBeTwice(c: Limits, perSecond: Rate, burst: int)
    requires c.Sane() && c.maxBuckets > 0 && NeverShortFromStart(c, perSecond, burst)
    ensures c.ratePerSecond >= 2.0 * ConfiguredRate(perSecond)
  {
    var rate := ConfiguredRate(perSecond);
    if c.ratePerSecond < 2.0 * rate {
      var period := PeriodOf(rate);
      SlowRefill(c, rate, period);
      var n := EnoughPasses(2.0 - Earned(c, period), c.burst);
      RequestsInOrder(n, 0.0, period);
      StartedIsLone(c, "", perSecond, burst, 0.0);
      var pair := Started(perSecond, burst, 0.0);
      assert NeverShort(c, "", pair, Requests(n, 0.0, period));
      assert Earned(SellerRate(pair.seller), period) == 1.0;
      hide Earned, LonePair, NeverShort, NeverShortFromStart, InOrder, Requests;
      RateTakesTwice(c, "", pair, n, 0.0, period, c.burst);
    }
  }

  lemma PeriodOf(rate: real) returns (period: real)
    requires rate > 0.0
    ensures period > 0.0 && period * rate == 1.0
  {
    period := 1.0 / rate;
  }

  lemma SlowRefill(c: Limits, rate: real, period: real)
    requires c.ratePerSecond < 2.0 * rate && period > 0.0 && period * rate == 1.0
    ensures Earned(c, period) < 2.0
  {
    assert period * (2.0 * rate - c.ratePerSecond) > 0.0;
  }

  /** From two processes just started, in no course of arrivals is a call refused for lack of tokens. */
  ghost predicate NeverShortFromStart(c: Limits, perSecond: Rate, burst: int) {
    forall address, opening, arrivals: seq<Arrival> ::
      InOrder(opening, arrivals) && (forall a :: a in arrivals && a.Elsewhere? ==> a.key != address) ==>
        NeverShort(c, address, Started(perSecond, burst, opening), arrivals)
  }

  /** However both are configured, the seller's calls are never refused for lack of tokens, in any
      course of arrivals, exactly when the facilitator's rate and burst are at least twice its own. */
  lemma NeverShortExactlyAtTwice(perSecond: Rate, burst: int, theirPerSecond: real, theirBurst: int)
    ensures var c := Configured(theirPerSecond, theirBurst);
            NeverShortFromStart(c, perSecond, burst) <==>
              c.ratePerSecond >= 2.0 * ConfiguredRate(perSecond) && c.burst >= 2.0 * ConfiguredBurst(burst)
  {
    var c := Configured(theirPerSecond, theirBurst);
    if NeverShortFromStart(c, perSecond, burst) {
      BurstMustBeTwice(c, perSecond, burst);
      RateMustBeTwice(c, perSecond, burst);
    } else if c.ratePerSecond >= 2.0 * ConfiguredRate(perSecond) && c.burst >= 2.0 * ConfiguredBurst(burst) {
      forall address, opening, arrivals: seq<Arrival> |
          InOrder(opening, arrivals) && (forall a :: a in arrivals && a.Elsewhere? ==> a.key != address)
        ensures NeverShort(c, address, Started(perSecond, burst, opening), arrivals)
      {
        StartedIsCovered(c, address, perSecond, burst, opening);
        CoveredCallsAreNeverShort(c, address, Started(perSecond, burst, opening), opening, arrivals);
      }
    }
  }
}
