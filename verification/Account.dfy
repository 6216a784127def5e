/** What a payment's signature proves about its account's sequence (facilitator/exact/account.go). */
module Account {
  import opened Options
  import opened Gno

  datatype Account = Account(pubKey: Option<PubKey>, number: nat, sequence: nat)

  datatype SignatureState = Fresh | Consumed | Unverifiable

  /** The one address that authorizes tx, when it has exactly one signer and one signature. */
  function TxSigner(tx: Tx): Option<Address> {
    if |tx.Signers()| != 1 || |tx.signatures| != 1 then None else Some(tx.Signers()[0])
  }

  /** The key the auth ante verifies sig against, or None when no key can satisfy it. */
  function SigningKey(p: Platform, sig: Signature, acc: Account, signer: Address): Option<PubKey> {
    if acc.pubKey.Some? then
      if sig.pubKey.Some? && sig.pubKey != acc.pubKey then None else acc.pubKey
    else if sig.pubKey.None? || p.keyAddress(sig.pubKey.value) != signer then None
    else sig.pubKey
  }

  function VerifySignature(p: Platform, tx: Tx, acc: Option<Account>, signer: Address, chainID: string): SignatureState
    requires |tx.signatures| == 1
  {
    if acc.None? then Unverifiable
    else
      var key := SigningKey(p, tx.signatures[0], acc.value, signer);
      if key.None? then Unverifiable
      else if Verifies(tx, key.value, chainID, acc.value, acc.value.sequence) then Fresh
      else if acc.value.sequence > 0 && Verifies(tx, key.value, chainID, acc.value, acc.value.sequence - 1)
      then Consumed
      else Unverifiable
  }

  predicate Verifies(tx: Tx, key: PubKey, chainID: string, acc: Account, sequence: nat)
    requires |tx.signatures| == 1
  {
    VerifySeal(key, tx.Doc(chainID, acc.number, sequence), tx.signatures[0].seal).Some?
  }

  /** The sequence a payment's signature commits to, when it commits to any. */
  function SignedSequence(tx: Tx): Option<nat>
    requires |tx.signatures| == 1
  {
    var seal := tx.signatures[0].seal;
    if seal.Sealed? then Some(seal.doc.sequence) else None
  }

  /** The verdict read off the signature: fresh and consumed each pin the account's sequence
      exactly, so no two account states a block apart give one payment the same one of them. */
  lemma VerdictPinsSequence(p: Platform, tx: Tx, acc: Account, signer: Address, chainID: string)
    requires |tx.signatures| == 1
    ensures VerifySignature(p, tx, Some(acc), signer, chainID) == Fresh ==>
              SignedSequence(tx) == Some(acc.sequence)
    ensures VerifySignature(p, tx, Some(acc), signer, chainID) == Consumed ==>
              acc.sequence > 0 && SignedSequence(tx) == Some(acc.sequence - 1)
  {
  }

  /** The account after k more of its sequences were consumed. A key, once stored, stays. */
  function Advanced(acc: Account, key: PubKey, k: nat): Account {
    acc.(pubKey := Some(key), sequence := acc.sequence + k)
  }

  /** A fresh payment reports consumed once its account has moved on by exactly one
      sequence, and unverifiable ever after: staleness is named one step back and no further. */
  lemma FreshThenConsumedThenUnverifiable(p: Platform, tx: Tx, acc: Account, signer: Address, chainID: string, k: nat)
    requires |tx.signatures| == 1
    requires VerifySignature(p, tx, Some(acc), signer, chainID) == Fresh
    ensures var key := SigningKey(p, tx.signatures[0], acc, signer).value;
            VerifySignature(p, tx, Some(Advanced(acc, key, k)), signer, chainID)
              == (if k == 0 then Fresh else if k == 1 then Consumed else Unverifiable)
  {
  }
}
