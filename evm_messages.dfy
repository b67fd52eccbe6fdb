/**
 * The EVM plugins' messages provider: `bake` fills an EIP-1559 (type 2) transaction
 * field by field, a plain value transfer or an ERC-20 `transfer` call, checks balances
 * and hands out its unsigned hash; `send` reads the transaction back, attaches the
 * signature and submits the raw transaction.
 */
module EvmMessages {
  import opened Wrappers
  import opened JsText
  import Units
  import Base64

  /** The network settings a provider is configured with. */
  datatype Configuration = Configuration(mainnetChainId: int, testnetChainId: int,
                                         mainnetEndpoint: string, testnetEndpoint: string)

  /** `endpoint`: the testnet endpoint exactly when testnet is enabled. */
  function Endpoint(c: Configuration, testnet: bool): (e: string)
    ensures testnet ==> e == c.testnetEndpoint
    ensures !testnet ==> e == c.mainnetEndpoint
  {
    if testnet then c.testnetEndpoint else c.mainnetEndpoint
  }

  /** `chainID`: the testnet chain id exactly when testnet is enabled. */
  function ChainId(c: Configuration, testnet: bool): (id: int)
    ensures testnet ==> id == c.testnetChainId
    ensures !testnet ==> id == c.mainnetChainId
  {
    if testnet then c.testnetChainId else c.mainnetChainId
  }

  /** A transaction's fields as a value (what `JSON.stringify` and the hashes see). */
  datatype Tx = Tx(chainId: int, txType: Option<int>, nonce: int, gasPrice: Option<int>,
                   maxPriorityFeePerGas: Option<int>, maxFeePerGas: Option<int>,
                   to: Option<string>, data: string, value: int, gasLimit: int,
                   signature: Option<string>)

  /** An `ethers` `Transaction`, whose fields `bake` and `send` assign one by one. */
  class Transaction {
    var chainId: int
    var txType: Option<int>
    var nonce: int
    var gasPrice: Option<int>
    var maxPriorityFeePerGas: Option<int>
    var maxFeePerGas: Option<int>
    var to: Option<string>
    var data: string
    var value: int
    var gasLimit: int
    var signature: Option<string>

    /** `new Transaction()`: every field at the library's empty default. */
    constructor ()
      ensures Fields() == Tx(0, None, 0, None, None, None, None, "0x", 0, 0, None)
    {
      chainId, txType, nonce, gasPrice := 0, None, 0, None;
      maxPriorityFeePerGas, maxFeePerGas, to, data := None, None, None, "0x";
      value, gasLimit, signature := 0, 0, None;
    }

    /** `Transaction.from(tx)`. */
    constructor From(tx: Tx)
      ensures Fields() == tx
    {
      chainId, txType, nonce, gasPrice := tx.chainId, tx.txType, tx.nonce, tx.gasPrice;
      maxPriorityFeePerGas, maxFeePerGas, to, data := tx.maxPriorityFeePerGas, tx.maxFeePerGas, tx.to, tx.data;
      value, gasLimit, signature := tx.value, tx.gasLimit, tx.signature;
    }

    function Fields(): Tx
      reads this
    {
      Tx(chainId, txType, nonce, gasPrice, maxPriorityFeePerGas, maxFeePerGas, to, data, value, gasLimit, signature)
    }
  }

  /** The fee data of the node; either cap may be missing (`null`). */
  datatype FeeData = FeeData(maxFeePerGas: Option<int>, maxPriorityFeePerGas: Option<int>)

  /**
   * A gas estimate request: the sender, and the transaction's fields when the request
   * carries them (`None` is the bare `{from}`).
   */
  datatype GasRequest = GasRequest(from: string, fields: Option<Tx>)

  /**
   * Which request `bake` estimates. `FromOnly` is what `Object.assign({from}, transaction)`
   * gives with an ethers v6 `Transaction`, whose fields live in private slots behind
   * accessors, so that no field is copied; `WholeTransaction` carries every field.
   */
  datatype GasQuery = FromOnly | WholeTransaction

  function GasRequestFor(query: GasQuery, sender: string, tx: Tx): GasRequest {
    match query
    case FromOnly => GasRequest(sender, None)
    case WholeTransaction => GasRequest(sender, Some(tx))
  }

  /**
   * The node and the libraries around it: `nonce` is `getTransactionCount(sender,
   * 'latest')`; `resolve` is `ethers.resolveAddress` (`None` where it throws);
   * `tokenBalance(token, owner)` is the ERC-20 `balanceOf`; `encodeTransfer(recipient,
   * amount)` the `transfer` call data (`Err` where encoding throws); `estimateGas` the
   * node's estimate for a request; `balance` the native balance; `signature` is
   * `Signature.from` on hex text, the signature it normalises to or `None` where it throws
   * (not 64 or 65 bytes, a bad `v`, a non-canonical `s`); `unsignedHash`, `hash` and
   * `serialized` the transaction's hashes and raw encoding; `stringify` and `parse` are
   * JSON in UTF-8 (`None` where parsing throws).
   */
  datatype Rpc = Rpc(
    testnet: bool,
    feeData: FeeData,
    nonce: string -> int,
    resolve: string -> Option<string>,
    tokenBalance: (string, string) -> int,
    encodeTransfer: (string, string) -> Result<string>,
    estimateGas: GasRequest -> Result<int>,
    balance: string -> int,
    signature: string -> Option<string>,
    unsignedHash: Tx -> seq<byte>,
    hash: Tx -> string,
    serialized: Tx -> string,
    stringify: Tx -> seq<byte>,
    parse: seq<byte> -> Option<Tx>)

  /** The part of a bake request the provider reads. */
  datatype Transfer = Transfer(asset: string, author: string, recipient: string, amount: string)

  // ---------------------------------------------------------------------------
  // bake

  /**
   * The value, destination and call data of the transaction: the amount to the recipient
   * with empty data for the native coin; otherwise no value, to the token contract, with
   * `transfer(recipient, amount)` data, provided the token balance covers the amount.
   */
  function Payload(t: Transfer, rpc: Rpc, amount: int, recipient: string): (r: Result<(int, string, string)>)
    ensures t.asset == "_" ==> r == Ok((amount, recipient, "0x"))
    ensures t.asset != "_" && amount > rpc.tokenBalance(t.asset, t.author) ==>
      r == Err(PluginError(0, "Not enough token balance"))
    ensures t.asset != "_" && r.Ok? ==>
      r.value.0 == 0 && r.value.1 == t.asset && Ok(r.value.2) == rpc.encodeTransfer(recipient, t.amount)
  {
    if t.asset == "_" then Ok((amount, recipient, "0x"))
    else if amount > rpc.tokenBalance(t.asset, t.author) then Err(PluginError(0, "Not enough token balance"))
    else
      var data :- rpc.encodeTransfer(recipient, t.amount);
      Ok((0, t.asset, data))
  }

  /** The unsigned transaction before its gas limit is known. */
  function Unsigned(c: Configuration, rpc: Rpc, t: Transfer, payload: (int, string, string)): Tx {
    Tx(ChainId(c, rpc.testnet), Some(2), rpc.nonce(t.author), None,
       rpc.feeData.maxPriorityFeePerGas, rpc.feeData.maxFeePerGas,
       Some(payload.1), payload.2, payload.0, 0, None)
  }

  /** `gas * (maxFeePerGas + maxPriorityFeePerGas)`; adding a missing cap throws. */
  function Fees(fee: FeeData, gas: int): (r: Result<int>)
    ensures r.Ok? <==> fee.maxFeePerGas.Some? && fee.maxPriorityFeePerGas.Some?
    ensures r.Ok? ==> r.value == gas * (fee.maxFeePerGas.value + fee.maxPriorityFeePerGas.value)
  {
    if fee.maxFeePerGas.None? || fee.maxPriorityFeePerGas.None? then Err(Thrown("TypeError"))
    else Ok(gas * (fee.maxFeePerGas.value + fee.maxPriorityFeePerGas.value))
  }

  datatype Baked = Baked(shouldSign: string, estimatedFees: string, extraData: string)

  function BakedFor(rpc: Rpc, tx: Tx, fees: int): Baked {
    Baked(Base64.Encode(rpc.unsignedHash(tx)), Units.Bn(fees, 18), Base64.Encode(rpc.stringify(tx)))
  }

  /**
   * `bake`. The amount must be an integer and the recipient must resolve; the payload
   * may fail on the token balance; then the gas is estimated for the request `query`
   * makes of the author and the unsigned transaction (as written, `FromOnly`: the author
   * alone), and the fees plus the value must not exceed the native balance. The result
   * signs and stores the transaction with that gas limit.
   */
  method Bake(c: Configuration, t: Transfer, rpc: Rpc, query: GasQuery) returns (r: Result<Baked>)
    ensures BigIntOf(t.amount).None? ==> r == Err(Thrown("SyntaxError"))
    ensures BigIntOf(t.amount).Some? && rpc.resolve(t.recipient).None? ==>
      r == Err(PluginError(0, "Can't resolve " + t.recipient + " address"))
    ensures BigIntOf(t.amount).Some? && rpc.resolve(t.recipient).Some? ==>
      var p := Payload(t, rpc, BigIntOf(t.amount).value, rpc.resolve(t.recipient).value);
      && (p.Err? ==> r == Err(p.error))
      && (p.Ok? ==>
            var tx := Unsigned(c, rpc, t, p.value);
            var gas := rpc.estimateGas(GasRequestFor(query, t.author, tx));
            && (gas.Err? ==> r == Err(gas.error))
            && (gas.Ok? ==>
                  var fees := Fees(rpc.feeData, gas.value);
                  && (fees.Err? ==> r == Err(fees.error))
                  && (fees.Ok? && fees.value + p.value.0 > rpc.balance(t.author) ==>
                        r == Err(PluginError(0, "Not enough balance")))
                  && (fees.Ok? && fees.value + p.value.0 <= rpc.balance(t.author) ==>
                        r == Ok(BakedFor(rpc, tx.(gasLimit := gas.value), fees.value)))))
  {
    var gasPrice := rpc.feeData;
    var transaction := new Transaction();
    transaction.chainId := ChainId(c, rpc.testnet);
    transaction.txType := Some(2);

    var sender := t.author;
    transaction.nonce := rpc.nonce(sender);

    transaction.gasPrice := None;
    transaction.maxPriorityFeePerGas := gasPrice.maxPriorityFeePerGas;
    transaction.maxFeePerGas := gasPrice.maxFeePerGas;

    var amount := BigIntOf(t.amount);
    if amount.None? {
      return Err(Thrown("SyntaxError"));
    }

    var resolved := rpc.resolve(t.recipient);
    if resolved.None? {
      return Err(PluginError(0, "Can't resolve " + t.recipient + " address"));
    }
    var recipient := resolved.value;
    ghost var payload := Payload(t, rpc, amount.value, recipient);
    ghost var start := transaction.Fields();
    assert start == Unsigned(c, rpc, t, (0, "", "0x")).(to := None);
    var carried := SetPayload(transaction, t, rpc, amount.value, recipient);
    if carried.Err? {
      return Err(carried.error);
    }
    var nvalue := carried.value;

    transaction.value := nvalue;
    assert transaction.Fields() == start.(to := Some(payload.value.1), data := payload.value.2, value := nvalue);
    var request := GasRequest(sender, None);
    if query == WholeTransaction {
      request := request.(fields := Some(transaction.Fields()));
    }
    var gas := rpc.estimateGas(request);
    if gas.Err? {
      return Err(gas.error);
    }

    var balance := rpc.balance(t.author);
    var fees := Fees(gasPrice, gas.value);
    if fees.Err? {
      return Err(fees.error);
    }
    if fees.value + nvalue > balance {
      return Err(PluginError(0, "Not enough balance"));
    }

    transaction.gasLimit := gas.value;
    var tx := transaction.Fields();
    assert tx == Unsigned(c, rpc, t, payload.value).(gasLimit := gas.value);
    r := Ok(BakedFor(rpc, tx, fees.value));
  }

  /**
   * The asset branch of `bake`: a native transfer sends the amount to the recipient with
   * empty data; a token transfer checks the token balance, sends no value and carries
   * the encoded `transfer` call to the token contract. The result is the value to send.
   */
  method SetPayload(transaction: Transaction, t: Transfer, rpc: Rpc, amount: int, recipient: string)
    returns (r: Result<int>)
    modifies transaction
    ensures var p := Payload(t, rpc, amount, recipient);
      && (p.Err? ==> r == Err(p.error))
      && (p.Ok? ==>
            r == Ok(p.value.0)
            && transaction.Fields() == old(transaction.Fields()).(to := Some(p.value.1), data := p.value.2))
  {
    if t.asset == "_" {
      transaction.to := Some(recipient);
      transaction.data := "0x";
      return Ok(amount);
    }
    if amount > rpc.tokenBalance(t.asset, t.author) {
      return Err(PluginError(0, "Not enough token balance"));
    }
    var data := rpc.encodeTransfer(recipient, t.amount);
    if data.Err? {
      return Err(data.error);
    }
    transaction.to := Some(t.asset);
    transaction.data := data.value;
    return Ok(0);
  }

  /**
   * What `bake` builds for a transfer is an EIP-1559 transaction on the configured
   * network: type 2, no legacy gas price, the node's fee caps, the author's nonce; a
   * native transfer carries the amount to the recipient, a token transfer carries no
   * value and goes to the token contract.
   */
  lemma BakedTransactionShape(c: Configuration, rpc: Rpc, t: Transfer, amount: int, recipient: string, gas: int)
    requires Payload(t, rpc, amount, recipient).Ok?
    ensures var tx := Unsigned(c, rpc, t, Payload(t, rpc, amount, recipient).value).(gasLimit := gas);
      && tx.txType == Some(2) && tx.gasPrice.None? && tx.signature.None?
      && tx.chainId == (if rpc.testnet then c.testnetChainId else c.mainnetChainId)
      && tx.maxFeePerGas == rpc.feeData.maxFeePerGas
      && tx.maxPriorityFeePerGas == rpc.feeData.maxPriorityFeePerGas
      && tx.nonce == rpc.nonce(t.author) && tx.gasLimit == gas
      && (t.asset == "_" ==> tx.value == amount && tx.to == Some(recipient) && tx.data == "0x")
      && (t.asset != "_" ==>
            tx.value == 0 && tx.to == Some(t.asset) && amount <= rpc.tokenBalance(t.asset, t.author))
  {
  }

  /**
   * As written, the estimate is asked of the author alone: two transfers from one author,
   * of any assets, amounts and recipients, get their gas limit from the same request.
   */
  lemma GasIgnoresTransfer(c: Configuration, rpc: Rpc, t1: Transfer, t2: Transfer,
                           p1: (int, string, string), p2: (int, string, string))
    requires t1.author == t2.author
    ensures GasRequestFor(FromOnly, t1.author, Unsigned(c, rpc, t1, p1))
         == GasRequestFor(FromOnly, t2.author, Unsigned(c, rpc, t2, p2))
    ensures GasRequestFor(FromOnly, t1.author, Unsigned(c, rpc, t1, p1)).fields.None?
  {
  }

  /**
   * Asked of the whole transaction, the estimate sees what is sent: a native transfer's
   * amount to the recipient with no data, a token transfer's call of the token contract;
   * and two different transactions are different requests.
   */
  lemma GasRequestShape(c: Configuration, rpc: Rpc, t: Transfer, amount: int, recipient: string)
    requires Payload(t, rpc, amount, recipient).Ok?
    ensures var q := GasRequestFor(WholeTransaction, t.author, Unsigned(c, rpc, t, Payload(t, rpc, amount, recipient).value));
      && q.from == t.author && q.fields.Some?
      && (t.asset == "_" ==> q.fields.value.to == Some(recipient) && q.fields.value.value == amount
                             && q.fields.value.data == "0x")
      && (t.asset != "_" ==> q.fields.value.to == Some(t.asset) && q.fields.value.value == 0
                             && Ok(q.fields.value.data) == rpc.encodeTransfer(recipient, t.amount))
    ensures forall tx1, tx2 :: tx1 != tx2 ==>
      GasRequestFor(WholeTransaction, t.author, tx1) != GasRequestFor(WholeTransaction, t.author, tx2)
  {
  }

  // ---------------------------------------------------------------------------
  // send

  datatype Sent = Sent(raw: string, eventHash: string)

  /**
   * `send`: the stored transaction read back, with the signature
   * `"0x" + hex(base64-decode(userSignature))` as `Signature.from` reads it; its raw
   * encoding is submitted (without waiting for the node) and its hash is the event hash.
   * A missing blob throws, and so does a signature `Signature.from` refuses, before
   * anything is submitted.
   */
  method Send(extraData: Option<string>, userSignature: string, rpc: Rpc) returns (r: Result<Sent>)
    ensures extraData.None? ==> r == Err(Thrown("TypeError"))
    ensures extraData.Some? && rpc.parse(Base64.Decode(extraData.value)).None? ==> r == Err(Thrown("SyntaxError"))
    ensures extraData.Some? && rpc.parse(Base64.Decode(extraData.value)).Some? ==>
      match rpc.signature("0x" + HexEncode(Base64.Decode(userSignature)))
      case None => r == Err(Thrown("TypeError"))
      case Some(sig) =>
        var signed := rpc.parse(Base64.Decode(extraData.value)).value.(signature := Some(sig));
        r == Ok(Sent(rpc.serialized(signed), rpc.hash(signed)))
  {
    if extraData.None? {
      return Err(Thrown("TypeError"));
    }
    var data := rpc.parse(Base64.Decode(extraData.value));
    if data.None? {
      return Err(Thrown("SyntaxError"));
    }
    var transaction := new Transaction.From(data.value);
    var signature := rpc.signature("0x" + HexEncode(Base64.Decode(userSignature)));
    if signature.None? {
      return Err(Thrown("TypeError"));
    }
    transaction.signature := signature;
    var signed := transaction.Fields();
    r := Ok(Sent(rpc.serialized(signed), rpc.hash(signed)));
  }

  /** JSON reads back what it wrote. */
  ghost predicate Faithful(rpc: Rpc) {
    forall tx :: rpc.parse(rpc.stringify(tx)) == Some(tx)
  }

  /**
   * The blob `bake` stores reads back as the baked transaction, every field as baked;
   * so `send` signs and submits the very transaction whose unsigned hash was signed.
   */
  lemma SendAfterBake(rpc: Rpc, tx: Tx, fees: int)
    requires Faithful(rpc)
    ensures rpc.parse(Base64.Decode(BakedFor(rpc, tx, fees).extraData)) == Some(tx)
  {
    Base64.RoundTrip(rpc.stringify(tx));
  }
}
