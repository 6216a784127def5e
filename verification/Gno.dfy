/** The gno chain's vocabulary: addresses, keys, coins, transactions and signatures,
    and the foreign code (amino, base64, bech32, hashing) as parameters.

    Signatures are ideal: a signature is either a seal made by one key over one sign
    document, or noise that verifies for nothing. */
module Gno {
  import opened Options

  newtype Byte = x: int | 0 <= x < 256
  type Bytes = seq<Byte>

  datatype Address = Address(id: nat)
  const ZERO_ADDRESS := Address(0)

  datatype PubKey = Single(id: nat) | Threshold(id: nat)

  datatype Coin = Coin(denom: string, amount: int)

  datatype Msg = Send(from: Address, to: Address, amount: seq<Coin>) | OtherMsg(signers: seq<Address>)

  datatype Fee = Fee(gasWanted: int, gasFee: Coin)

  /** Everything of a payment a signature covers. */
  datatype SignDoc = SignDoc(chainID: string, number: nat, sequence: nat, fee: Fee, msgs: seq<Msg>, memo: string)

  /** The two renderings of one sign document that the chain accepts. */
  datatype Rendering = Canonical | LegacyFeeNames

  datatype Seal = Sealed(key: PubKey, doc: SignDoc, rendering: Rendering) | Noise(id: nat)

  datatype Signature = Signature(pubKey: Option<PubKey>, seal: Seal, sessionAddr: Address)

  datatype Tx = Tx(msgs: seq<Msg>, fee: Fee, signatures: seq<Signature>, memo: string) {
    function Doc(chainID: string, number: nat, sequence: nat): SignDoc {
      SignDoc(chainID, number, sequence, fee, msgs, memo)
    }

    /** The addresses whose accounts authorize the transaction, each once. */
    function Signers(): seq<Address> {
      SignersOf(msgs)
    }
  }

  function SignersOf(msgs: seq<Msg>): seq<Address> {
    if msgs == [] then []
    else
      var before := SignersOf(msgs[..|msgs| - 1]);
      match msgs[|msgs| - 1]
      case Send(from, _, _) => if from in before then before else before + [from]
      case OtherMsg(signers) => AppendNew(before, signers)
  }

  function AppendNew(before: seq<Address>, more: seq<Address>): seq<Address>
    decreases |more|
  {
    if more == [] then before
    else AppendNew(if more[0] in before then before else before + [more[0]], more[1..])
  }

  /** The rendering a seal verifies under, or None when it does not verify: one key over one document. */
  function VerifySeal(key: PubKey, doc: SignDoc, seal: Seal): Option<Rendering> {
    if seal.Sealed? && seal.key == key && seal.doc == doc then Some(seal.rendering) else None
  }

  /** The code this project does not model, as parameters. */
  datatype Platform = Platform(
    keyAddress: PubKey -> Address,
    addressText: Address -> string,
    addressOf: string -> Option<Address>,
    aminoEncode: Tx -> Option<Bytes>,
    aminoDecode: Bytes -> Option<Tx>,
    base64Encode: Bytes -> string,
    base64Decode: string -> Option<Bytes>,
    parseCoins: string -> Option<seq<Coin>>,
    validSend: Msg -> bool,
    validTx: Tx -> bool,
    validDenom: string -> bool,
    txHash: Bytes -> string)
  {
    /** Encoders and decoders are inverse, and an encoded transaction is not empty. */
    ghost predicate RoundTrips() {
      && (forall tx: Tx :: aminoEncode(tx).Some? ==>
            aminoEncode(tx).value != [] && aminoDecode(aminoEncode(tx).value) == Some(tx))
      && (forall raw: Bytes :: base64Decode(base64Encode(raw)) == Some(raw))
    }

    /** Transaction hashes are never empty and never collide. */
    ghost predicate HashesIdentify() {
      && (forall raw: Bytes :: txHash(raw) != "")
      && (forall a: Bytes, b: Bytes :: txHash(a) == txHash(b) ==> a == b)
    }
  }
}
