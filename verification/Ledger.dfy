/** The chain a facilitator settles on, as far as a payment meets it: a log of what blocks
    executed and of every other change to an account. A node answers from a prefix of the log. */
module Ledger {
  import opened Options
  import opened Clock
  import opened Gno
  import opened Account

  /** The account a signature is verified against: the session account when one is named. */
  datatype AccountId = AccountId(signer: Address, session: Address)

  datatype Event =
      /** A block executed the payment, successfully or not; either way its sequence is spent. */
    | Executed(raw: Bytes, tx: Tx, ok: bool, time: Time)
      /** A block held the payment's bytes and the ante refused them. */
    | Rejected(raw: Bytes, time: Time)
      /** Anything else that creates an account or moves it on. */
    | Moved(id: AccountId, account: Account, time: Time)

  type Log = seq<Event>

  predicate OnePayer(tx: Tx) {
    |tx.signatures| == 1 && TxSigner(tx).Some?
  }

  function IdOf(tx: Tx): AccountId
    requires OnePayer(tx)
  {
    AccountId(TxSigner(tx).value, tx.signatures[0].sessionAddr)
  }

  /** The account after the log. Executing a payment spends one sequence and adopts the key. */
  function AccountAt(p: Platform, log: Log, id: AccountId): Option<Account> {
    if log == [] then None
    else
      var before := AccountAt(p, log[..|log| - 1], id);
      match log[|log| - 1]
      case Executed(_, tx, _, _) =>
        if OnePayer(tx) && IdOf(tx) == id && before.Some? then
          var key := SigningKey(p, tx.signatures[0], before.value, id.signer);
          Some(before.value.(sequence := before.value.sequence + 1, pubKey := key))
        else before
      case Rejected(_, _) => before
      case Moved(moved, account, _) => if moved == id then Some(account) else before
  }

  function SequenceAt(p: Platform, log: Log, id: AccountId): nat {
    var account := AccountAt(p, log, id);
    if account.Some? then account.value.sequence else 0
  }

  /** What may come next: a block executes a payment whose signature is fresh, and no account's
      sequence goes back. */
  predicate ValidEvent(p: Platform, chainID: string, log: Log, e: Event) {
    match e
    case Executed(raw, tx, _, _) =>
      && p.aminoDecode(raw) == Some(tx)
      && OnePayer(tx)
      && VerifySignature(p, tx, AccountAt(p, log, IdOf(tx)), TxSigner(tx).value, chainID) == Fresh
    case Rejected(_, _) => true
    case Moved(id, account, _) => SequenceAt(p, log, id) <= account.sequence
  }

  ghost predicate ValidLog(p: Platform, chainID: string, log: Log) {
    forall i :: 0 <= i < |log| ==> ValidEvent(p, chainID, log[..i], log[i])
  }

  lemma {:induction false} ValidLogGrows(p: Platform, chainID: string, log: Log, e: Event)
    requires ValidLog(p, chainID, log) && ValidEvent(p, chainID, log, e)
    ensures ValidLog(p, chainID, log + [e])
  {
    var longer := log + [e];
    assert longer[..|log|] == log;
    forall i | 0 <= i < |longer|
      ensures ValidEvent(p, chainID, longer[..i], longer[i])
    {
      if i < |log| {
        assert longer[..i] == log[..i];
      }
    }
  }

  /** A sequence a longer prefix shows is never below the one a shorter prefix shows. */
  lemma {:induction false} SequencesOnlyGrow(p: Platform, chainID: string, log: Log, m: nat, n: nat, id: AccountId)
    requires ValidLog(p, chainID, log) && m <= n <= |log|
    ensures SequenceAt(p, log[..m], id) <= SequenceAt(p, log[..n], id)
    decreases n - m
  {
    if m < n {
      SequencesOnlyGrow(p, chainID, log, m, n - 1, id);
      assert ValidEvent(p, chainID, log[..n - 1], log[n - 1]);
      assert log[..n][..n - 1] == log[..n - 1];
    }
  }

  /** The sequence a payment was signed for is the account's when a block executes it, and is
      spent in every prefix that holds that block. */
  lemma {:induction false} ExecutionSpendsItsSequence(p: Platform, chainID: string, log: Log, j: nat, n: nat)
    requires ValidLog(p, chainID, log) && j < n <= |log| && log[j].Executed?
    ensures OnePayer(log[j].tx)
    ensures SignedSequence(log[j].tx) == Some(SequenceAt(p, log[..j], IdOf(log[j].tx)))
    ensures SequenceAt(p, log[..n], IdOf(log[j].tx)) > SequenceAt(p, log[..j], IdOf(log[j].tx))
  {
    assert ValidEvent(p, chainID, log[..j], log[j]);
    var tx := log[j].tx;
    var id := IdOf(tx);
    var account := AccountAt(p, log[..j], id);
    VerdictPinsSequence(p, tx, account.value, id.signer, chainID);
    assert log[..j + 1][..j] == log[..j];
    assert SequenceAt(p, log[..j + 1], id) == SequenceAt(p, log[..j], id) + 1;
    SequencesOnlyGrow(p, chainID, log, j + 1, n, id);
  }

  /** At most one block executes a payment for one account and sequence, whatever its encoding. */
  lemma {:induction false} OneExecutionPerSequence(p: Platform, chainID: string, log: Log, i: nat, j: nat)
    requires ValidLog(p, chainID, log) && i < |log| && j < |log| && log[i].Executed? && log[j].Executed?
    requires OnePayer(log[i].tx) && OnePayer(log[j].tx) && IdOf(log[i].tx) == IdOf(log[j].tx)
    requires SignedSequence(log[i].tx) == SignedSequence(log[j].tx)
    ensures i == j
  {
    ExecutionSpendsItsSequence(p, chainID, log, i, |log|);
    ExecutionSpendsItsSequence(p, chainID, log, j, |log|);
    if i < j {
      ExecutionSpendsItsSequence(p, chainID, log, i, j);
    } else if j < i {
      ExecutionSpendsItsSequence(p, chainID, log, j, i);
    }
  }

  /** A payment some block executed never verifies as fresh against a prefix holding that block. */
  lemma {:induction false} SpentIsNeverFresh(p: Platform, chainID: string, log: Log, j: nat, n: nat)
    requires ValidLog(p, chainID, log) && j < n <= |log| && log[j].Executed?
    ensures OnePayer(log[j].tx)
    ensures var tx := log[j].tx;
            VerifySignature(p, tx, AccountAt(p, log[..n], IdOf(tx)), TxSigner(tx).value, chainID) != Fresh
  {
    ExecutionSpendsItsSequence(p, chainID, log, j, n);
    var tx := log[j].tx;
    var account := AccountAt(p, log[..n], IdOf(tx));
    if account.Some? {
      VerdictPinsSequence(p, tx, account.value, TxSigner(tx).value, chainID);
    }
  }
}
