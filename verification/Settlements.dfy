/** The table of payments one facilitator process is settling or has settled
    (facilitator/exact/settlements.go). The functions say what each table step does to the
    entries; the class takes the steps in place, as the program does under its mutex. */
module Settlements {
  import opened Clock

  /** Go's zero time, which no clock reads. */
  const ZERO_TIME: Time := 0
  const SETTLEMENT_TTL: Time := 5 * MINUTE

  datatype State = Unclaimed | Settling | Settled | Pending

  datatype Settlement = Settlement(state: State, payer: string, hash: string, at: Time)

  /** What a Go map lookup returns for a key it does not hold. */
  const NO_SETTLEMENT := Settlement(Unclaimed, "", "", ZERO_TIME)

  type Entries = map<string, Settlement>

  predicate Expired(e: Settlement, now: Time) {
    e.state != Settling && now - e.at > SETTLEMENT_TTL
  }

  function Sweep(entries: Entries, now: Time): Entries {
    map k | k in entries && !Expired(entries[k], now) :: entries[k]
  }

  function Lookup(entries: Entries, key: string): Settlement {
    if key in entries then entries[key] else NO_SETTLEMENT
  }

  /** What claim returns, and the entries it leaves. */
  datatype Claim = Claim(prior: Settlement, ok: bool, entries: Entries)

  function Claimed(entries: Entries, key: string, now: Time): Claim {
    var swept := Sweep(entries, now);
    var prior := Lookup(swept, key);
    if prior.state == Settling || prior.state == Settled then Claim(prior, false, swept)
    else Claim(prior, true, swept[key := Settlement(Settling, "", prior.hash, prior.at)])
  }

  function Released(entries: Entries, key: string): Entries {
    map k | k in entries && k != key :: entries[k]
  }

  function MarkedSettled(entries: Entries, key: string, hash: string, now: Time): Entries {
    entries[key := Settlement(Settled, "", hash, now)]
  }

  function MarkedPending(entries: Entries, key: string, payer: string, hash: string, now: Time): Entries {
    var since := Lookup(entries, key).at;
    entries[key := Settlement(Pending, payer, hash, if since != ZERO_TIME then since else now)]
  }

  class SettlementTable {
    var entries: Entries

    constructor ()
      ensures entries == map[]
    {
      entries := map[];
    }

    /** Sweeps what has expired, in whatever order the map is scanned, then takes key unless
        another settle holds it or it has settled. */
    method Claim(key: string, now: Time) returns (prior: Settlement, ok: bool)
      modifies this
      ensures prior == Claimed(old(entries), key, now).prior
      ensures ok == Claimed(old(entries), key, now).ok
      ensures entries == Claimed(old(entries), key, now).entries
    {
      var unseen := entries.Keys;
      while unseen != {}
        invariant unseen <= old(entries).Keys
        invariant forall k :: k in entries <==>
            k in old(entries) && (k in unseen || !Expired(old(entries)[k], now))
        invariant forall k :: k in entries ==> entries[k] == old(entries)[k]
        decreases |unseen|
      {
        var k :| k in unseen;
        if Expired(entries[k], now) {
          entries := entries - {k};
        }
        unseen := unseen - {k};
      }
      assert entries == Sweep(old(entries), now);
      prior := Lookup(entries, key);
      if prior.state == Settling || prior.state == Settled {
        return prior, false;
      }
      entries := entries[key := Settlement(Settling, "", prior.hash, prior.at)];
      ok := true;
    }

    method Release(key: string)
      modifies this
      ensures entries == Released(old(entries), key)
    {
      entries := entries - {key};
    }

    method MarkSettled(key: string, hash: string, now: Time)
      modifies this
      ensures entries == MarkedSettled(old(entries), key, hash, now)
    {
      entries := entries[key := Settlement(Settled, "", hash, now)];
    }

    method MarkPending(key: string, payer: string, hash: string, now: Time)
      modifies this
      ensures entries == MarkedPending(old(entries), key, payer, hash, now)
    {
      var broadcastAt := now;
      var since := Lookup(entries, key).at;
      if since != ZERO_TIME {
        broadcastAt := since;
      }
      entries := entries[key := Settlement(Pending, payer, hash, broadcastAt)];
    }
  }

  /** A claim taken within the TTL of what is recorded reconciles a pending payment and refuses
      a settled one; one reading the clock later starts the payment afresh. A claim in progress
      is refused whatever the clock reads, and no other payment's claim is disturbed. */
  lemma ClaimByAge(entries: Entries, key: string, now: Time)
    requires key in entries && entries[key].state != Unclaimed
    ensures var e := entries[key]; var c := Claimed(entries, key, now);
            && (e.state == Settling ==> !c.ok && c.entries[key] == e)
            && (e.state == Settled && now <= e.at + SETTLEMENT_TTL ==> !c.ok && c.prior == e && c.entries[key] == e)
            && (e.state == Pending && now <= e.at + SETTLEMENT_TTL ==> c.ok && c.prior == e)
            && (e.state != Settling && now > e.at + SETTLEMENT_TTL ==> c.ok && c.prior == NO_SETTLEMENT)
            && (forall k :: k in entries && entries[k].state == Settling ==>
                  k in c.entries && c.entries[k] == entries[k])
  {
    var swept := Sweep(entries, now);
    assert key in swept <==> !Expired(entries[key], now);
    forall k | k in entries && entries[k].state == Settling
      ensures k in swept && swept[k] == entries[k]
    {
      assert !Expired(entries[k], now);
    }
  }

  /** Pending, claimed again and still pending: the record keeps its hash and its time, however
      late the new clock reading is, though the claim in between forgot the payer. */
  lemma ReconcileKeepsTheFirstRecord(entries: Entries, key: string, now: Time, later: Time)
    requires key in entries && entries[key].state == Pending && entries[key].at != ZERO_TIME
    requires now <= entries[key].at + SETTLEMENT_TTL
    ensures var c := Claimed(entries, key, now);
            var again := MarkedPending(c.entries, key, c.prior.payer, c.prior.hash, later);
            c.ok && c.entries[key].payer == "" && again[key] == entries[key]
  {
    ClaimByAge(entries, key, now);
  }
}
