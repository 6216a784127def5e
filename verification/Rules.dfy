/** The offer's vocabulary and the rules the payer and the facilitator both enforce
    (internal/scheme/scheme.go). */
module Rules {
  import opened Options

  const SCHEME_EXACT := "exact"
  const NAMESPACE := "gno"
  const ASSET_TRANSFER_METHOD := "bank-send"
  const PAYMENT_FLOW := "authorization"
  const MAX_MEMO_BYTES := 256
  const MAX_CHAIN_ID := 32

  /** A decoded JSON value, as far as the rules look into one. */
  datatype Value = Null | Text(text: string) | NotText(id: nat)

  type Extra = map<string, Value>

  datatype Requirements = Requirements(
    scheme: string, network: string, asset: string, amount: string, payTo: string,
    maxTimeoutSeconds: int, extra: Extra)

  predicate ChainIDChar(c: char) {
    c == '-' || c == '_' || 'a' <= c <= 'z' || 'A' <= c <= 'Z' || '0' <= c <= '9'
  }

  predicate ValidChainID(chainID: string) {
    1 <= |chainID| <= MAX_CHAIN_ID && forall i :: 0 <= i < |chainID| ==> ChainIDChar(chainID[i])
  }

  /** A Go map read: a key the map does not hold reads as nil. */
  function ReadKey(extra: Extra, key: string): Value {
    if key in extra then extra[key] else Null
  }

  /** Neither reserved key names anything but what this mechanism implements. */
  predicate SupportedTerms(extra: Extra) {
    && ReadKey(extra, "assetTransferMethod") in {Null, Text(ASSET_TRANSFER_METHOD)}
    && ReadKey(extra, "paymentFlow") in {Null, Text(PAYMENT_FLOW)}
  }

  /** The memo the terms bind, "" when they bind none, and None when it is unusable. */
  function BoundMemo(extra: Extra): Option<string> {
    if "memo" !in extra then Some("")
    else match extra["memo"]
      case Text(m) => if |m| > MAX_MEMO_BYTES then None else Some(m)
      case _ => None
  }
}
