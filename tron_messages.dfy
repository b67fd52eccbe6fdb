/**
 * The TRON plugin's messages provider: `bake` builds the unsigned transaction through
 * TronGrid, hands out its id to sign and keeps the transaction as a base64 blob; `send`
 * reads the blob back, attaches the signature and broadcasts it.
 */
module TronMessages {
  import opened Wrappers
  import opened JsText
  import opened JsObjects
  import opened TronGrid
  import Base64

  /** The part of a bake request the provider reads. */
  datatype Transfer = Transfer(asset: string, sender: string, recipient: string, amount: string)

  datatype BakedTransaction = BakedTransaction(transaction: Transaction)

  /**
   * JSON (RFC 8259) in UTF-8: `stringify` is `Buffer.from(JSON.stringify(b), 'utf8')`,
   * `parse` is `JSON.parse(buffer.toString('utf8'))`, `None` where it throws.
   */
  datatype Json = Json(stringify: BakedTransaction -> seq<byte>, parse: seq<byte> -> Option<BakedTransaction>)

  /** JSON reads back what it wrote, and the text of an object is never empty. */
  ghost predicate Faithful(json: Json) {
    forall b :: json.parse(json.stringify(b)) == Some(b) && |json.stringify(b)| > 0
  }

  /** `BakedTransactionBase64`. */
  function ToBase64(json: Json, b: BakedTransaction): string {
    Base64.Encode(json.stringify(b))
  }

  /** `BakedTransactionFromBase64`; a JSON syntax error throws. */
  function FromBase64(json: Json, s: string): Result<BakedTransaction> {
    match json.parse(Base64.Decode(s))
    case None => Err(Thrown("SyntaxError"))
    case Some(b) => Ok(b)
  }

  /** The blob round trip: base64 of JSON, read back, is the baked transaction. */
  lemma BlobRoundTrip(json: Json, b: BakedTransaction)
    requires Faithful(json)
    ensures FromBase64(json, ToBase64(json, b)) == Ok(b)
    ensures ToBase64(json, b) != ""
  {
    Base64.RoundTrip(json.stringify(b));
  }

  // ---------------------------------------------------------------------------
  // bake

  const ContractFeeLimit: int := 100_000_000

  /** `parseInt(amount)` as the request carries it: a number or NaN. */
  function IntAmount(amount: string): Value {
    match ParseInt(amount)
    case Some(v) => Number(v)
    case None => NaN
  }

  function TrxArgs(t: Transfer): map<string, Value> {
    map["owner_address" := Str(t.sender), "to_address" := Str(t.recipient), "amount" := IntAmount(t.amount)]
  }

  function AssetArgs(t: Transfer): map<string, Value> {
    map["owner_address" := Str(t.sender), "to_address" := Str(t.recipient),
        "asset_name" := Str(t.asset), "amount" := IntAmount(t.amount)]
  }

  function ContractArgs(t: Transfer, amount: int): map<string, Value> {
    map["contract_address" := Str(t.asset), "owner_address" := Str(t.sender),
        "to_address" := Str(t.recipient), "amount" := BigInt(amount),
        "fee_limit" := Number(ContractFeeLimit)]
  }

  /** What the `create*` call resolved to: a transaction, or the contract call's `[transaction, fee]`. */
  datatype Created = Single(tx: Transaction) | Pair(tx: Transaction, fee: int)

  /**
   * The dispatch of `bake`: TRX for '_', a TRC-20 contract call when the asset is a TRON
   * address, a TRC-10 asset transfer otherwise.
   */
  method Create(t: Transfer, node: Node) returns (r: Result<Created>)
    ensures t.asset == "_" ==>
      r == Ok(Single(node.createTransaction(Assign(VisibleDefault(), TrxArgs(t)))))
    ensures t.asset != "_" && !IsTRONAddress(node, t.asset) ==>
      r == Ok(Single(node.transferAsset(Assign(VisibleDefault(), AssetArgs(t)))))
    ensures t.asset != "_" && IsTRONAddress(node, t.asset) ==>
      match BigIntOf(t.amount)
      case None => r == Err(Thrown("SyntaxError"))
      case Some(amount) =>
        match TransferParameter(node, t.recipient, amount)
        case Err(e) => r == Err(e)
        case Ok(p) =>
          match ContractOutcome(node, ContractRequest(ContractArgs(t, amount), p))
          case Err(e) => r == Err(e)
          case Ok(pair) => r == Ok(Pair(pair.0, pair.1))
  {
    if t.asset == "_" {
      var args := new JsObject(TrxArgs(t));
      var tx, _ := CreateTRXTransaction(args, node);
      return Ok(Single(tx));
    } else if IsTRONAddress(node, t.asset) {
      var amount := BigIntOf(t.amount);
      if amount.None? {
        return Err(Thrown("SyntaxError"));
      }
      var args := new JsObject(ContractArgs(t, amount.value));
      var created, _ := CreateContractTransaction(args, node);
      if created.Err? {
        return Err(created.error);
      }
      return Ok(Pair(created.value.0, created.value.1));
    } else {
      var args := new JsObject(AssetArgs(t));
      var tx, _ := CreateAssetTransaction(args, node);
      return Ok(Single(tx));
    }
  }

  datatype Baked = Baked(shouldSign: string, estimatedFees: int, extraData: string)

  /** What `bake` returns for a built transaction: its id as base64 bytes, no fee, the blob. */
  function BakedFor(json: Json, tx: Transaction): Baked {
    Baked(Base64.Encode(HexDecode(tx.txID)), 0, ToBase64(json, BakedTransaction(tx)))
  }

  /**
   * `bake` as written: the contract branch assigns the `[transaction, fee]` pair to a
   * transaction variable, so `transaction.txID` is undefined and `Buffer.from` throws.
   */
  method BakeAsWritten(t: Transfer, node: Node, json: Json) returns (r: Result<Baked>)
    ensures t.asset == "_" ==>
      r == Ok(BakedFor(json, node.createTransaction(Assign(VisibleDefault(), TrxArgs(t)))))
    ensures t.asset != "_" && !IsTRONAddress(node, t.asset) ==>
      r == Ok(BakedFor(json, node.transferAsset(Assign(VisibleDefault(), AssetArgs(t)))))
    ensures t.asset != "_" && IsTRONAddress(node, t.asset) ==> r.Err?
  {
    var created :- Create(t, node);
    match created
    case Single(tx) => r := Ok(BakedFor(json, tx));
    case Pair(_, _) => r := Err(Thrown("TypeError"));
  }

  /** `bake` with the pair destructured: every branch signs the id of the built transaction. */
  method Bake(t: Transfer, node: Node, json: Json) returns (r: Result<Baked>)
    ensures t.asset == "_" ==>
      r == Ok(BakedFor(json, node.createTransaction(Assign(VisibleDefault(), TrxArgs(t)))))
    ensures t.asset != "_" && !IsTRONAddress(node, t.asset) ==>
      r == Ok(BakedFor(json, node.transferAsset(Assign(VisibleDefault(), AssetArgs(t)))))
    ensures t.asset != "_" && IsTRONAddress(node, t.asset) ==>
      match BigIntOf(t.amount)
      case None => r == Err(Thrown("SyntaxError"))
      case Some(amount) =>
        match TransferParameter(node, t.recipient, amount)
        case Err(e) => r == Err(e)
        case Ok(p) =>
          match ContractOutcome(node, ContractRequest(ContractArgs(t, amount), p))
          case Err(e) => r == Err(e)
          case Ok(pair) => r == Ok(BakedFor(json, pair.0))
    ensures t.asset != "_" && IsTRONAddress(node, t.asset) ==>
      (r.Ok? <==> (BigIntOf(t.amount).Some?
                   && TransferParameter(node, t.recipient, BigIntOf(t.amount).value).Ok?
                   && node.triggerSmartContract(
                        ContractRequest(ContractArgs(t, BigIntOf(t.amount).value),
                                        TransferParameter(node, t.recipient, BigIntOf(t.amount).value).value)).Some?))
  {
    var created :- Create(t, node);
    r := Ok(BakedFor(json, created.tx));
  }

  /** The contract request carries the 100 TRX fee limit and the asset as the contract. */
  lemma ContractRequestLimits(t: Transfer, amount: int, parameter: string)
    ensures var q := ContractRequest(ContractArgs(t, amount), parameter);
      && "fee_limit" in q && q["fee_limit"] == Number(ContractFeeLimit)
      && "contract_address" in q && q["contract_address"] == Str(t.asset)
      && "owner_address" in q && q["owner_address"] == Str(t.sender)
      && "amount" !in q && "to_address" !in q
  {
    var args := ContractArgs(t, amount);
    ContractRequestShape(args, parameter);
    KeptField(args, parameter, "fee_limit");
    KeptField(args, parameter, "contract_address");
    KeptField(args, parameter, "owner_address");
  }

  /** A field of the caller's request that the rewrite does not touch reaches the posted request. */
  lemma KeptField(args: map<string, Value>, parameter: string, k: string)
    requires k in args && k != "amount" && k != "to_address" && k != "function_selector" && k != "parameter"
    ensures var q := ContractRequest(args, parameter);
      k in q && q[k] == args[k]
  {
    ContractRequestShape(args, parameter);
  }

  // ---------------------------------------------------------------------------
  // send

  /** The reply of `wallet/broadcasttransaction`. */
  datatype SendResponse = SendResponse(result: Option<bool>, txid: string, code: Option<int>, message: Option<string>)

  datatype Sent = Sent(submitted: Option<SignedTransaction>, outcome: Result<string>)

  /**
   * `send`: no blob is an error before anything is submitted; otherwise the transaction is
   * submitted with the one signature `hex(base64-decode(userSignature))`; a non-zero
   * `code` in the reply is raised with its message, else the event hash is `txid`.
   */
  function Send(extraData: Option<string>, userSignature: string, json: Json,
                broadcast: SignedTransaction -> SendResponse): (s: Sent)
    ensures extraData.None? || extraData == Some("") ==>
      s == Sent(None, Err(PluginError(0, "Can't parse internal transaction data")))
    ensures s.submitted.Some? ==> s.submitted.value.signature == [HexEncode(Base64.Decode(userSignature))]
  {
    if extraData.None? || extraData.value == "" then
      Sent(None, Err(PluginError(0, "Can't parse internal transaction data")))
    else
      match FromBase64(json, extraData.value)
      case Err(e) => Sent(None, Err(e))
      case Ok(baked) =>
        var signed := SignedTransaction(baked.transaction, [HexEncode(Base64.Decode(userSignature))]);
        var response := broadcast(signed);
        if response.code.Some? && response.code.value != 0 then
          Sent(Some(signed), Err(PluginError(response.code.value, response.message.GetOr(""))))
        else Sent(Some(signed), Ok(response.txid))
  }

  /**
   * Sending a baked blob submits exactly the baked transaction, signed once; the reply's
   * non-zero code becomes the error, otherwise its `txid` is the event hash.
   */
  lemma SendAfterBake(json: Json, tx: Transaction, userSignature: string,
                      broadcast: SignedTransaction -> SendResponse)
    requires Faithful(json)
    ensures var signed := SignedTransaction(tx, [HexEncode(Base64.Decode(userSignature))]);
      var s := Send(Some(BakedFor(json, tx).extraData), userSignature, json, broadcast);
      var reply := broadcast(signed);
      s.submitted == Some(signed)
      && (reply.code.Some? && reply.code.value != 0 ==>
            s.outcome == Err(PluginError(reply.code.value, reply.message.GetOr(""))))
      && (reply.code.None? || reply.code.value == 0 ==> s.outcome == Ok(reply.txid))
  {
    BlobRoundTrip(json, BakedTransaction(tx));
  }
}
