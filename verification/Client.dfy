/** The payer's half of the mechanism: what it signs for an offer (client/exact/scheme.go). */
module Client {
  import opened Options
  import opened Gno
  import opened Account
  import opened Rules
  import opened Decimal

  const GAS_WANTED := 10_000_000
  const GAS_PRICE_MARGIN := 2
  const UGNOT := "ugnot"
  const UNPRICED_GAS_FEE := Coin(UGNOT, 1_000_000)
  const MAX_GAS_FEE := Coin(UGNOT, 1_000_000)
  const MAX_DENOM_LENGTH := 274
  const MAX_INT64: int := 0x7fff_ffff_ffff_ffff

  // ---- the grammars

  predicate DenomStart(c: char) {
    'a' <= c <= 'z' || c == '/'
  }

  predicate DenomChar(c: char) {
    'a' <= c <= 'z' || '0' <= c <= '9' || c == '_' || c == '.' || c == ':' || c == '/' || c == '-'
  }

  predicate Denomination(s: string) {
    && 3 <= |s| <= MAX_DENOM_LENGTH && DenomStart(s[0])
    && forall i :: 1 <= i < |s| ==> DenomChar(s[i])
  }

  predicate PositiveAmount(s: string) {
    s != [] && Digits(s) && s[0] != '0'
  }

  predicate AtomicAmount(s: string) {
    s != [] && Digits(s)
  }

  // ---- what an offer asks for

  datatype Refusal =
    | RequirementsRefused | CapMalformed | ExceedsSpendCap | NoNode | NoKey | MultisigCannotPay
    | NodeFailed | ChainMismatch | BadGasPrice | ExcessiveFee | InvalidSend | NoAccount
    | WrongKey | SignatureDoesNotVerify | InvalidTransaction | EncodeFailed

  datatype Result<T> = Ok(value: T) | Err(why: Refusal)

  datatype Terms = Terms(chainID: string, payTo: Address, price: Coin, memo: string)

  /** strings.Cut(s, ":"): what is before and after the first colon. */
  function CutAtColon(s: string): (string, string) {
    if s == [] then ("", "")
    else if s[0] == ':' then ("", s[1..])
    else var (before, after) := CutAtColon(s[1..]); ([s[0]] + before, after)
  }

  function ChainIDOf(network: string): Option<string> {
    var (ns, chainID) := CutAtColon(network);
    if ns != NAMESPACE || !ValidChainID(chainID) then None else Some(chainID)
  }

  function ReadTerms(p: Platform, req: Requirements): Result<Terms> {
    var chainID := ChainIDOf(req.network);
    if chainID.None? then Err(RequirementsRefused)
    else if req.scheme != SCHEME_EXACT then Err(RequirementsRefused)
    else if !Denomination(req.asset) then Err(RequirementsRefused)
    else if !PositiveAmount(req.amount) then Err(RequirementsRefused)
    else if req.payTo == "" then Err(RequirementsRefused)
    else
      var payTo := p.addressOf(req.payTo);
      if payTo.None? || p.addressText(payTo.value) != req.payTo || payTo.value == ZERO_ADDRESS then
        Err(RequirementsRefused)
      else if !SupportedTerms(req.extra) then Err(RequirementsRefused)
      else if BoundMemo(req.extra).None? then Err(RequirementsRefused)
      else
        var coins := p.parseCoins(req.amount + req.asset);
        if coins.None? || |coins.value| != 1 then Err(RequirementsRefused)
        else Ok(Terms(chainID.value, payTo.value, coins.value[0], BoundMemo(req.extra).value))
  }

  function WithinCap(price: Coin, limit: string): Option<Refusal> {
    if limit == "" then None
    else if !AtomicAmount(limit) then Some(CapMalformed)
    else if price.amount > Number(limit) then Some(ExceedsSpendCap)
    else None
  }

  // ---- the fee

  /** The chain's gas price: price for gas units of gas. Both numbers are int64. */
  datatype GasPrice = GasPrice(gas: int, price: Coin)

  /** What big.Int arithmetic gives: the margin times the price for the gas wanted, rounded up. */
  function RoundedFee(gas: int, amount: int): int
    requires gas > 0 && amount > 0
  {
    (GAS_WANTED * GAS_PRICE_MARGIN * amount + gas - 1) / gas
  }

  function GasFee(p: Platform, price: Option<GasPrice>): Result<Coin> {
    if price.None? || price.value.gas == 0 || price.value.price.amount == 0 then Ok(UNPRICED_GAS_FEE)
    else if price.value.gas < 0 || price.value.price.amount < 0 then Err(BadGasPrice)
    else
      var fee := RoundedFee(price.value.gas, price.value.price.amount);
      if fee > MAX_INT64 || !p.validDenom(price.value.price.denom) then Err(BadGasPrice)
      else Ok(Coin(price.value.price.denom, fee))
  }

  // ---- building and completing a payment

  /** What the payer's node answers; None where the read failed. */
  datatype NodeAnswers = NodeAnswers(
    chainID: Option<string>, gasPrice: Option<Option<GasPrice>>, account: Option<Option<Account>>)

  datatype Payment = Payment(
    tx: Tx, chainID: string, number: nat, sequence: nat, key: Option<PubKey>, sessionAddr: Address)

  function Prepare(
    p: Platform, node: Option<NodeAnswers>, pub: Option<PubKey>, master: Address, req: Requirements, cap: string)
    : Result<Payment>
  {
    var terms := ReadTerms(p, req);
    if terms.Err? then Err(terms.why)
    else
      var t := terms.value;
      if WithinCap(t.price, cap).Some? then Err(WithinCap(t.price, cap).value)
      else if node.None? then Err(NoNode)
      else if pub.None? then Err(NoKey)
      else if pub.value.Threshold? then Err(MultisigCannotPay)
      else
        var key := p.keyAddress(pub.value);
        if node.value.chainID.None? then Err(NodeFailed)
        else if node.value.chainID.value != t.chainID then Err(ChainMismatch)
        else if node.value.gasPrice.None? then Err(NodeFailed)
        else
          var fee := GasFee(p, node.value.gasPrice.value);
          if fee.Err? then Err(fee.why)
          else if fee.value.denom != MAX_GAS_FEE.denom || fee.value.amount > MAX_GAS_FEE.amount then Err(ExcessiveFee)
          else
            var payer := if master != ZERO_ADDRESS then master else key;
            var session := if master != ZERO_ADDRESS then key else ZERO_ADDRESS;
            var send := Send(payer, t.payTo, [t.price]);
            if !p.validSend(send) then Err(InvalidSend)
            else if node.value.account.None? then Err(NodeFailed)
            else if node.value.account.value.None? then Err(NoAccount)
            else
              var account := node.value.account.value.value;
              Ok(Payment(Tx([send], Fee(GAS_WANTED, fee.value), [], t.memo),
                         t.chainID, account.number, account.sequence, pub, session))
  }

  /** Attach the signature, once it verifies the way the chain will verify it. */
  function Complete(p: Platform, payment: Payment, seal: Seal): Result<Extra> {
    if payment.key.None? then Err(NoKey)
    else
      var key := payment.key.value;
      var signer := if payment.sessionAddr == ZERO_ADDRESS && |payment.tx.msgs| == 1 && payment.tx.msgs[0].Send?
                    then payment.tx.msgs[0].from else payment.sessionAddr;
      if p.keyAddress(key) != signer then Err(WrongKey)
      else if VerifySeal(key, payment.tx.Doc(payment.chainID, payment.number, payment.sequence), seal).None? then
        Err(SignatureDoesNotVerify)
      else
        var tx := payment.tx.(signatures := [Signature(Some(key), seal, payment.sessionAddr)]);
        if !p.validTx(tx) then Err(InvalidTransaction)
        else
          var raw := p.aminoEncode(tx);
          if raw.None? then Err(EncodeFailed)
          else Ok(map["transaction" := Text(p.base64Encode(raw.value))])
  }
}
