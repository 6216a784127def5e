/** The book of payments settled under a visit token (examples/weather/visits.go:44-96), and the
    age-ordered queue it stands in for. */
module Visits {
  import opened Options
  import opened Clock
  import opened Sets

  const VISIT_TTL: Time := 15 * MINUTE
  const MAX_VISITS: nat := 1000

  datatype Visit = Visit(transaction: string, network: string, payer: string, body: string)

  datatype Kept = Kept(visit: Visit, at: Time)

  type Book = map<string, Kept>

  predicate Live(k: Kept, now: Time) {
    now - k.at < VISIT_TTL
  }

  function LiveBook(b: Book, now: Time): Book {
    map t | t in b && Live(b[t], now) :: b[t]
  }

  predicate Oldest(b: Book, token: string) {
    token in b && forall other :: other in b ==> b[token].at <= b[other].at
  }

  /** What record may leave: which of equally old entries a full book forgets is the map's choice. */
  ghost predicate Records(b: Book, token: string, visit: Visit, now: Time, b': Book) {
    if token in b && Live(b[token], now) then b' == b
    else if |b| < MAX_VISITS then b' == b[token := Kept(visit, now)]
    else
      var live := LiveBook(b, now);
      if |live| < MAX_VISITS then b' == live[token := Kept(visit, now)]
      else exists oldest :: Oldest(live, oldest) && b' == (live - {oldest})[token := Kept(visit, now)]
  }

  function Lookup(b: Book, token: string, now: Time): Option<Visit> {
    if token in b && Live(b[token], now) then Some(b[token].visit) else None
  }

  class VisitBook {
    var visits: Book

    /** No visit has the empty token: the loop's mark for no oldest entry yet. */
    predicate Valid()
      reads this
    {
      |visits| <= MAX_VISITS && "" !in visits
    }

    constructor ()
      ensures Valid() && visits == map[]
    {
      visits := map[];
    }

    method Record(token: string, visit: Visit, now: Time)
      requires Valid() && token != ""
      modifies this
      ensures Valid()
      ensures Records(old(visits), token, visit, now, visits)
    {
      if token in visits && now - visits[token].at < VISIT_TTL {
        return;
      }
      ghost var live := LiveBook(visits, now);
      ghost var book := visits;
      if |visits| >= MAX_VISITS {
        var oldest := "";
        var unseen := visits.Keys;
        while unseen != {}
          invariant unseen <= book.Keys && book == old(visits) && live == LiveBook(book, now)
          invariant forall t :: t in visits <==> t in book && (t in unseen || t in live)
          invariant forall t :: t in visits ==> visits[t] == book[t]
          invariant oldest == "" ==> forall t :: t in visits ==> t in unseen
          invariant oldest != "" ==> oldest in visits && oldest !in unseen
          invariant oldest != "" ==> forall t :: t in visits && t !in unseen ==> visits[oldest].at <= visits[t].at
          decreases |unseen|
        {
          var other :| other in unseen;
          if now - visits[other].at >= VISIT_TTL {
            visits := visits - {other};
          } else if oldest == "" || visits[other].at < visits[oldest].at {
            oldest := other;
          }
          unseen := unseen - {other};
        }
        assert visits == live;
        SubsetIsSmaller(live.Keys, book.Keys);
        assert |live| == |live.Keys| && |book| == |book.Keys|;
        if |visits| >= MAX_VISITS {
          assert Oldest(live, oldest);
          OneFewer(visits, oldest);
          visits := visits - {oldest};
        }
      }
      OneMore(visits, token, Kept(visit, now));
      visits := visits[token := Kept(visit, now)];
    }

    method LookUp(token: string, now: Time) returns (found: Option<Visit>)
      ensures found == Lookup(visits, token, now)
    {
      if token !in visits || now - visits[token].at >= VISIT_TTL {
        return None;
      }
      return Some(visits[token].visit);
    }
  }

  lemma OneFewer(b: Book, token: string)
    requires token in b
    ensures |b - {token}| == |b| - 1
  {
    var b' := b - {token};
    assert b'.Keys == b.Keys - {token};
    assert |b'| == |b'.Keys| && |b| == |b.Keys|;
  }

  lemma OneMore(b: Book, token: string, k: Kept)
    ensures |b[token := k]| == if token in b then |b| else |b| + 1
  {
    var b' := b[token := k];
    assert b'.Keys == b.Keys + {token};
    assert |b'| == |b'.Keys| && |b| == |b.Keys|;
  }

  // ---- the queue

  datatype Entry = Entry(token: string, visit: Visit, at: Time)

  type Queue = seq<Entry>

  predicate LiveEntry(e: Entry, now: Time) {
    now - e.at < VISIT_TTL
  }

  predicate QueueHas(q: Queue, token: string, now: Time) {
    exists i :: 0 <= i < |q| && q[i].token == token && LiveEntry(q[i], now)
  }

  /** The queue appends a payment unless a live one is kept under its token, and then keeps the
      newest MAX_VISITS: a full queue forgets its front, or an entry exactly as old as its front. */
  ghost predicate Queues(q: Queue, token: string, visit: Visit, now: Time, q': Queue) {
    if QueueHas(q, token, now) then q' == q
    else if |q| < MAX_VISITS then q' == q + [Entry(token, visit, now)]
    else exists i :: 0 <= i < |q| && q[i].at == q[0].at && q' == Without(q, i) + [Entry(token, visit, now)]
  }

  function Without(q: Queue, i: nat): (r: Queue)
    requires i < |q|
    ensures |r| == |q| - 1 && forall j :: 0 <= j < |r| ==> r[j] == q[if j < i then j else j + 1]
  {
    q[..i] + q[i + 1..]
  }

  /** The first live entry under the token, oldest first. */
  function QueueLookup(q: Queue, token: string, now: Time): Option<Visit> {
    if q == [] then None
    else if q[0].token == token && LiveEntry(q[0], now) then Some(q[0].visit)
    else QueueLookup(q[1..], token, now)
  }

  predicate ByAge(q: Queue) {
    forall i, j :: 0 <= i < j < |q| ==> q[i].at <= q[j].at
  }

  // ---- agreement

  predicate InBook(b: Book, e: Entry) {
    e.token in b && b[e.token] == Kept(e.visit, e.at)
  }

  /** The live entries of the book and of the queue are the same. */
  ghost predicate Agree(b: Book, q: Queue, now: Time) {
    && |b| <= MAX_VISITS && |q| <= MAX_VISITS && ByAge(q)
    && (forall i :: 0 <= i < |q| ==> q[i].at <= now)
    && (forall i :: 0 <= i < |q| && LiveEntry(q[i], now) ==> InBook(b, q[i]))
    && (forall t :: t in b && Live(b[t], now) ==> Entry(t, b[t].visit, b[t].at) in q)
    && (forall i, j :: 0 <= i < j < |q| && LiveEntry(q[i], now) && LiveEntry(q[j], now) ==> q[i].token != q[j].token)
  }

  lemma {:induction false} AgreementAges(b: Book, q: Queue, now: Time, later: Time)
    requires Agree(b, q, now) && now <= later
    ensures Agree(b, q, later)
  {
  }

  /** Book and queue that agree answer every lookup alike, now and later. */
  lemma {:induction false} AgreeingLookups(b: Book, q: Queue, token: string, now: Time, later: Time)
    requires Agree(b, q, now) && now <= later
    ensures Lookup(b, token, later) == QueueLookup(q, token, later)
  {
    AgreementAges(b, q, now, later);
    if token in b && Live(b[token], later) {
      var e := Entry(token, b[token].visit, b[token].at);
      var i :| 0 <= i < |q| && q[i] == e;
      LookupFinds(q, i, later);
    } else {
      LookupMisses(q, token, later);
    }
  }

  lemma {:induction false} LookupFinds(q: Queue, i: nat, now: Time)
    requires i < |q| && LiveEntry(q[i], now)
    requires forall j :: 0 <= j < i ==> !(q[j].token == q[i].token && LiveEntry(q[j], now))
    ensures QueueLookup(q, q[i].token, now) == Some(q[i].visit)
  {
    if i > 0 {
      LookupFinds(q[1..], i - 1, now);
    }
  }

  lemma {:induction false} LookupMisses(q: Queue, token: string, now: Time)
    requires forall j :: 0 <= j < |q| ==> !(q[j].token == token && LiveEntry(q[j], now))
    ensures QueueLookup(q, token, now) == None
  {
    if q != [] {
      LookupMisses(q[1..], token, now);
    }
  }

  function Tokens(q: Queue): set<string> {
    set e | e in q :: e.token
  }

  lemma {:induction false} AtMostOneTokenEach(q: Queue)
    ensures |Tokens(q)| <= |q|
    ensures (forall i, j :: 0 <= i < j < |q| ==> q[i].token != q[j].token) ==> |Tokens(q)| == |q|
  {
    if q != [] {
      var rest := q[1..];
      AtMostOneTokenEach(rest);
      assert q == [q[0]] + rest;
      assert Tokens(q) == Tokens(rest) + {q[0].token};
      if q[0].token in Tokens(rest) {
        var e :| e in rest && e.token == q[0].token;
        var j :| 0 <= j < |rest| && rest[j] == e;
        assert q[j + 1].token == q[0].token;
      }
    }
  }

  /** The front is the first to expire. */
  lemma {:induction false} FrontExpiresFirst(q: Queue, now: Time)
    requires ByAge(q) && q != []
    ensures LiveEntry(q[0], now) ==> forall i :: 0 <= i < |q| ==> LiveEntry(q[i], now)
  {
  }

  /** A queue whose front is live holds exactly as many entries as the book has live ones; one whose
      front has expired holds more. */
  lemma {:induction false} LiveCounts(b: Book, q: Queue, now: Time)
    requires Agree(b, q, now) && q != []
    ensures if LiveEntry(q[0], now) then |LiveBook(b, now)| == |q| else |LiveBook(b, now)| < |q|
  {
    var live := LiveBook(b, now);
    assert |live| == |live.Keys|;
    FrontExpiresFirst(q, now);
    if LiveEntry(q[0], now) {
      AtMostOneTokenEach(q);
      assert Tokens(q) == live.Keys;
    } else {
      AtMostOneTokenEach(q[1..]);
      forall t | t in live.Keys
        ensures t in Tokens(q[1..])
      {
        var e := Entry(t, b[t].visit, b[t].at);
        var i :| 0 <= i < |q| && q[i] == e;
        assert q[1..][i - 1] == e;
      }
      SubsetIsSmaller(live.Keys, Tokens(q[1..]));
    }
  }

  /** The book after a record that forgot nothing live. */
  predicate RecordedKeepingLive(b: Book, token: string, visit: Visit, now: Time, b': Book) {
    && |b'| <= MAX_VISITS && token in b' && b'[token] == Kept(visit, now)
    && (forall t :: t in b && Live(b[t], now) && t != token ==> t in b' && b'[t] == b[t])
    && (forall t :: t in b' && Live(b'[t], now) && t != token ==> t in b && b[t] == b'[t])
  }

  lemma RoomKeepsLive(b: Book, token: string, visit: Visit, now: Time, b': Book)
    requires |LiveBook(b, now)| < MAX_VISITS
    requires || (|b| < MAX_VISITS && b' == b[token := Kept(visit, now)])
             || b' == LiveBook(b, now)[token := Kept(visit, now)]
    ensures RecordedKeepingLive(b, token, visit, now, b')
  {
    OneMore(b, token, Kept(visit, now));
    OneMore(LiveBook(b, now), token, Kept(visit, now));
  }

  /** Appending a new entry, on both sides. */
  lemma {:induction false} AppendAgrees(live: Book, q: Queue, token: string, visit: Visit, now: Time, b': Book)
    requires Agree(live, q, now) && |q| < MAX_VISITS
    requires !QueueHas(q, token, now) && RecordedKeepingLive(live, token, visit, now, b')
    ensures Agree(b', q + [Entry(token, visit, now)], now)
  {
    var q' := q + [Entry(token, visit, now)];
    assert q'[|q|] == Entry(token, visit, now);
    forall t | t in b' && Live(b'[t], now)
      ensures Entry(t, b'[t].visit, b'[t].at) in q'
    {
      if t == token {
        assert b'[t] == Kept(visit, now);
      } else {
        var e := Entry(t, live[t].visit, live[t].at);
        assert e in q;
      }
    }
  }

  /** The queue without one entry agrees with the book without that entry's token, when they are
      both forgotten, or when the entry had expired. */
  lemma {:induction false} ForgetAgrees(b: Book, q: Queue, now: Time, i: nat, b': Book)
    requires Agree(b, q, now) && i < |q| && |b'| <= MAX_VISITS
    requires forall t :: t in b' && Live(b'[t], now) ==>
               t in b && b[t] == b'[t] && Entry(t, b[t].visit, b[t].at) != q[i]
    requires forall t :: t in b && Live(b[t], now) && Entry(t, b[t].visit, b[t].at) != q[i] ==> t in b' && b'[t] == b[t]
    ensures Agree(b', Without(q, i), now)
  {
    var q' := Without(q, i);
    hide Without;
    forall j | 0 <= j < |q'| && LiveEntry(q'[j], now)
      ensures InBook(b', q'[j])
    {
      var k := if j < i then j else j + 1;
      assert q'[j] == q[k] && InBook(b, q[k]);
      if LiveEntry(q[i], now) {
        assert q[k].token != q[i].token;
      }
    }
    forall t | t in b' && Live(b'[t], now)
      ensures Entry(t, b'[t].visit, b'[t].at) in q'
    {
      var e := Entry(t, b[t].visit, b[t].at);
      var k :| 0 <= k < |q| && q[k] == e;
      assert k != i;
      assert q'[if k < i then k else k - 1] == e;
    }
  }

  lemma {:induction false} HasExactlyWhenLive(b: Book, q: Queue, token: string, now: Time)
    requires Agree(b, q, now)
    ensures QueueHas(q, token, now) <==> token in b && Live(b[token], now)
  {
    if token in b && Live(b[token], now) {
      var e := Entry(token, b[token].visit, b[token].at);
      var i :| 0 <= i < |q| && q[i] == e;
    }
  }

  /** Each step of the book is a step of the queue, whichever of equally old entries the book's scan
      settled on. */
  lemma {:induction false} RecordIsQueued(
    b: Book, q: Queue, token: string, visit: Visit, now: Time, b': Book) returns (q': Queue)
    requires Agree(b, q, now) && Records(b, token, visit, now, b')
    ensures Queues(q, token, visit, now, q') && Agree(b', q', now)
  {
    HasExactlyWhenLive(b, q, token, now);
    if QueueHas(q, token, now) {
      q' := q;
    } else {
      var live := LiveBook(b, now);
      SubsetIsSmaller(live.Keys, b.Keys);
      assert |live| == |live.Keys| && |b| == |b.Keys|;
      if q != [] {
        LiveCounts(b, q, now);
      }
      if |b| < MAX_VISITS || |live| < MAX_VISITS {
        RoomKeepsLive(b, token, visit, now, b');
        q' := QueueAfterRoom(b, q, token, visit, now, b');
      } else {
        var oldest :| Oldest(live, oldest) && b' == (live - {oldest})[token := Kept(visit, now)];
        q' := QueueAfterEviction(b, q, token, visit, now, oldest);
      }
    }
  }

  lemma {:induction false} QueueAfterRoom(
    b: Book, q: Queue, token: string, visit: Visit, now: Time, b': Book) returns (q': Queue)
    requires Agree(b, q, now) && !QueueHas(q, token, now) && RecordedKeepingLive(b, token, visit, now, b')
    requires q != [] && LiveEntry(q[0], now) ==> |q| < MAX_VISITS
    ensures Queues(q, token, visit, now, q') && Agree(b', q', now)
  {
    if |q| < MAX_VISITS {
      q' := q + [Entry(token, visit, now)];
      AppendAgrees(b, q, token, visit, now, b');
    } else {
      var rest := Without(q, 0);
      q' := rest + [Entry(token, visit, now)];
      assert Agree(b, rest, now) by { ForgetAgrees(b, q, now, 0, b); }
      assert !QueueHas(rest, token, now) by { NotHadWithout(q, 0, token, now); }
      AppendAgrees(b, rest, token, visit, now, b');
    }
  }

  lemma {:induction false} NotHadWithout(q: Queue, i: nat, token: string, now: Time)
    requires i < |q| && !QueueHas(q, token, now)
    ensures !QueueHas(Without(q, i), token, now)
  {
    var q' := Without(q, i);
    forall j | 0 <= j < |q'|
      ensures !(q'[j].token == token && LiveEntry(q'[j], now))
    {
      assert q'[j] == q[if j < i then j else j + 1];
    }
  }

  /** The book's oldest live entry is as old as the queue's front. */
  lemma {:induction false} OldestIsInFront(b: Book, q: Queue, now: Time, oldest: string) returns (i: nat)
    requires Agree(b, q, now) && q != [] && LiveEntry(q[0], now) && Oldest(LiveBook(b, now), oldest)
    ensures i < |q| && q[i] == Entry(oldest, b[oldest].visit, b[oldest].at) && q[i].at == q[0].at
  {
    i :| 0 <= i < |q| && q[i] == Entry(oldest, b[oldest].visit, b[oldest].at);
    assert InBook(b, q[0]) && q[0].token in LiveBook(b, now);
  }

  lemma {:induction false} QueueAfterEviction(
    b: Book, q: Queue, token: string, visit: Visit, now: Time, oldest: string) returns (q': Queue)
    requires Agree(b, q, now) && !QueueHas(q, token, now)
    requires |q| == MAX_VISITS && LiveEntry(q[0], now) && |LiveBook(b, now)| == MAX_VISITS
    requires Oldest(LiveBook(b, now), oldest)
    ensures Queues(q, token, visit, now, q')
    ensures Agree((LiveBook(b, now) - {oldest})[token := Kept(visit, now)], q', now)
  {
    var rest := LiveBook(b, now) - {oldest};
    var b' := rest[token := Kept(visit, now)];
    var i := OldestIsInFront(b, q, now, oldest);
    var fewer := Without(q, i);
    q' := fewer + [Entry(token, visit, now)];
    assert RecordedKeepingLive(rest, token, visit, now, b') by {
      OneFewer(LiveBook(b, now), oldest);
      SubsetIsSmaller(LiveBook(rest, now).Keys, rest.Keys);
      RoomKeepsLive(rest, token, visit, now, b');
    }
    assert Agree(rest, fewer, now) by { EvictionAgrees(b, q, now, oldest, i); }
    assert !QueueHas(fewer, token, now) by { NotHadWithout(q, i, token, now); }
    hide Agree, QueueHas, RecordedKeepingLive, LiveBook, Oldest;
    AppendAgrees(rest, fewer, token, visit, now, b');
  }

  lemma {:induction false} EvictionAgrees(b: Book, q: Queue, now: Time, oldest: string, i: nat)
    requires Agree(b, q, now) && oldest in LiveBook(b, now) && |LiveBook(b, now)| == MAX_VISITS
    requires i < |q| && q[i] == Entry(oldest, b[oldest].visit, b[oldest].at)
    ensures Agree(LiveBook(b, now) - {oldest}, Without(q, i), now)
  {
    OneFewer(LiveBook(b, now), oldest);
    ForgetAgrees(b, q, now, i, LiveBook(b, now) - {oldest});
  }

  // ---- runs

  datatype Settled = Settled(token: string, visit: Visit, now: Time)

  predicate InOrder(settled: seq<Settled>) {
    forall i, j :: 0 <= i < j < |settled| ==> settled[i].now <= settled[j].now
  }

  /** The books one run of records goes through, from an empty one. */
  ghost predicate BookRun(settled: seq<Settled>, books: seq<Book>) {
    && |books| == |settled| + 1 && books[0] == map[]
    && forall i :: 0 <= i < |settled| ==>
         Records(books[i], settled[i].token, settled[i].visit, settled[i].now, books[i + 1])
  }

  ghost predicate QueueRun(settled: seq<Settled>, queues: seq<Queue>) {
    && |queues| == |settled| + 1 && queues[0] == []
    && forall i :: 0 <= i < |settled| ==>
         Queues(queues[i], settled[i].token, settled[i].visit, settled[i].now, queues[i + 1])
  }

  /** The clock as the first n records left it. */
  predicate NotBefore(settled: seq<Settled>, n: nat, now: Time)
    requires n <= |settled|
  {
    n > 0 ==> settled[n - 1].now <= now
  }

  /** With a clock that never goes back, whatever order the map loops take and whichever of equally
      old entries goes, some run of the age-ordered queue answers every lookup the book answers, at
      every point of the run, and neither ever holds more than MAX_VISITS. */
  lemma {:induction false} BookIsAQueue(settled: seq<Settled>, books: seq<Book>) returns (queues: seq<Queue>)
    requires InOrder(settled) && BookRun(settled, books)
    ensures QueueRun(settled, queues)
    ensures forall n, token, now :: 0 <= n <= |settled| && NotBefore(settled, n, now) ==>
              Lookup(books[n], token, now) == QueueLookup(queues[n], token, now)
    ensures forall n :: 0 <= n <= |settled| ==> |books[n]| <= MAX_VISITS && |queues[n]| <= MAX_VISITS
  {
    queues := MatchingQueues(settled, books);
    forall n, token, now | 0 <= n <= |settled| && NotBefore(settled, n, now)
      ensures Lookup(books[n], token, now) == QueueLookup(queues[n], token, now)
    {
      if n > 0 {
        AgreeingLookups(books[n], queues[n], token, settled[n - 1].now, now);
      }
    }
  }

  lemma {:induction false} MatchingQueues(settled: seq<Settled>, books: seq<Book>) returns (queues: seq<Queue>)
    requires InOrder(settled) && BookRun(settled, books)
    ensures QueueRun(settled, queues)
    ensures forall n :: 0 < n <= |settled| ==> Agree(books[n], queues[n], settled[n - 1].now)
    decreases |settled|
  {
    if settled == [] {
      queues := [[]];
    } else {
      var k := |settled| - 1;
      var last := settled[k];
      var before := MatchingQueues(settled[..k], books[..k + 1]);
      if k > 0 {
        assert Agree(books[k], before[k], settled[..k][k - 1].now);
        AgreementAges(books[k], before[k], settled[k - 1].now, last.now);
      }
      assert Records(books[k], last.token, last.visit, last.now, books[k + 1]);
      var q' := RecordIsQueued(books[k], before[k], last.token, last.visit, last.now, books[k + 1]);
      queues := before + [q'];
      forall i | 0 <= i < |settled|
        ensures Queues(queues[i], settled[i].token, settled[i].visit, settled[i].now, queues[i + 1])
      {
        if i < k {
          assert Queues(before[i], settled[..k][i].token, settled[..k][i].visit, settled[..k][i].now, before[i + 1]);
        }
      }
      forall n | 0 < n <= |settled|
        ensures Agree(books[n], queues[n], settled[n - 1].now)
      {
        if n <= k {
          assert Agree(books[..k + 1][n], before[n], settled[..k][n - 1].now);
        }
      }
    }
  }

  /** When no two payments are kept at one instant the queue has no choice: it forgets its front. */
  lemma {:induction false} DistinctTimesMakeItFifo(q: Queue, token: string, visit: Visit, now: Time, q': Queue)
    requires forall i, j :: 0 <= i < j < |q| ==> q[i].at < q[j].at
    requires Queues(q, token, visit, now, q') && !QueueHas(q, token, now) && |q| >= MAX_VISITS
    ensures q' == q[1..] + [Entry(token, visit, now)]
  {
    var i :| 0 <= i < |q| && q[i].at == q[0].at && q' == Without(q, i) + [Entry(token, visit, now)];
    assert i == 0;
    assert Without(q, 0) == q[1..];
  }
}
