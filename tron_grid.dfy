/**
 * The TronGrid service of the TRON plugin: address conversion, the energy price, the
 * fee of a TRC-20 call, and the requests that create transfers. Each HTTP call is a
 * function of the request it posts; Base58 decoding and Solidity ABI encoding are
 * parameters.
 */
module TronGrid {
  import opened Wrappers
  import opened JsText
  import opened JsObjects

  datatype RawData = RawData(
    contract: string,
    refBlockBytes: string,
    refBlockHash: string,
    expiration: int,
    timestamp: int)

  /** A node-built transaction; `txID` is its hash in hex. */
  datatype Transaction = Transaction(visible: bool, txID: string, rawData: RawData, rawDataHex: string)

  datatype SignedTransaction = SignedTransaction(transaction: Transaction, signature: seq<string>)

  /** The reply of `wallet/triggerconstantcontract`. */
  datatype EstimatedFees = EstimatedFees(result: bool, energyUsed: int, energyPenalty: Option<int>)

  /**
   * What the service reads from outside: `decodeBase58` (`None` where it throws), the ABI
   * encoder for `(address, uint256)`, and the node's replies to each posted request.
   */
  datatype Node = Node(
    decodeBase58: string -> Option<nat>,
    abiEncode: (string, string) -> Result<string>,
    createTransaction: map<string, Value> -> Transaction,
    transferAsset: map<string, Value> -> Transaction,
    triggerSmartContract: map<string, Value> -> Option<Transaction>,
    triggerConstantContract: map<string, Value> -> EstimatedFees,
    energyPrices: Option<string>)

  // ---------------------------------------------------------------------------
  // Addresses

  /** `s.slice(0, -n)` for n > 0: all but the last n characters, empty when too short. */
  function DropLast(s: string, n: nat): (t: string)
    ensures |t| == if |s| <= n then 0 else |s| - n
  {
    if |s| <= n then [] else s[..|s| - n]
  }

  /** `isTRONAddress`: the decoded number's hex starts with "41"; a decode error is false. */
  predicate IsTRONAddress(node: Node, value: string) {
    match node.decodeBase58(value)
    case None => false
    case Some(n) => StartsWith(ToBase(n, 16), "41")
  }

  /**
   * `base58AddressToHEX`: the decoded number in hex, its last eight digits (the 4-byte
   * checksum) dropped, a leading "41" replaced by "0x", lower-cased. A decode error throws.
   */
  function Base58AddressToHex(node: Node, base58: string): Result<string> {
    match node.decodeBase58(base58)
    case None => Err(Thrown("Error"))
    case Some(n) =>
      var t := DropLast(ToBase(n, 16), 8);
      Ok(ToLower(if StartsWith(t, "41") then "0x" + t[2..] else t))
  }

  lemma HexDigitsHaveNoX(t: string)
    requires AllDigits(t, 16)
    ensures forall i :: 0 <= i < |t| ==> t[i] != 'x' && t[i] != 'X'
  {
    forall i | 0 <= i < |t| ensures t[i] != 'x' && t[i] != 'X' {
      assert DigitIn(t[i], 16).Some?;
    }
  }

  /**
   * The hex form carries the "0x" prefix exactly when the payload (without the checksum)
   * started with the TRON prefix byte 0x41, and it keeps the payload's length.
   */
  lemma Base58HexPrefix(node: Node, base58: string)
    requires node.decodeBase58(base58).Some?
    ensures var t := DropLast(ToBase(node.decodeBase58(base58).value, 16), 8);
      var h := Base58AddressToHex(node, base58).value;
      Base58AddressToHex(node, base58).Ok? && |h| == |t|
      && (StartsWith(h, "0x") <==> StartsWith(t, "41"))
  {
    var n := node.decodeBase58(base58).value;
    var hex := ToBase(n, 16);
    ToBaseValue(n, 16);
    var t := DropLast(hex, 8);
    assert AllDigits(t, 16) by {
      forall i | 0 <= i < |t| ensures DigitIn(t[i], 16).Some? {
        assert t[i] == hex[i];
      }
    }
    HexDigitsHaveNoX(t);
    var h := Base58AddressToHex(node, base58).value;
    if !StartsWith(t, "41") && |t| >= 2 {
      assert h[1] == LowerChar(t[1]) != 'x';
    }
  }

  /** A TRON address long enough to hold a checksum converts to a "0x" address. */
  lemma TronAddressToHex(node: Node, value: string)
    requires IsTRONAddress(node, value) && |ToBase(node.decodeBase58(value).value, 16)| >= 10
    ensures Base58AddressToHex(node, value).Ok? && StartsWith(Base58AddressToHex(node, value).value, "0x")
  {
    var hex := ToBase(node.decodeBase58(value).value, 16);
    var t := DropLast(hex, 8);
    assert t[..2] == hex[..2];
    Base58HexPrefix(node, value);
  }

  // ---------------------------------------------------------------------------
  // Energy

  const DefaultEnergyPrice: int := 420

  /**
   * `getEnergyPrice`: 420 without a price list; otherwise the last comma-separated entry
   * must be `<time>:<price>` and a price that `parseInt` reads as NaN or 0 is 420 too.
   */
  function GetEnergyPrice(prices: Option<string>): (p: int)
    ensures prices.None? || prices == Some("") ==> p == DefaultEnergyPrice
  {
    if prices.None? || prices.value == "" then DefaultEnergyPrice
    else
      var elements := Split(prices.value, ',');
      if |elements| == 0 then DefaultEnergyPrice
      else
        var data := Split(elements[|elements| - 1], ':');
        if |data| != 2 then DefaultEnergyPrice else ParseIntOr(data[1], DefaultEnergyPrice)
  }

  /** A list whose last entry is `<time>:<price>` with a non-zero price gives that price. */
  lemma EnergyPriceFromLastEntry(entries: seq<string>, time: string, price: int)
    requires forall k :: 0 <= k < |entries| ==> ',' !in entries[k]
    requires ',' !in time && ':' !in time && price != 0
    ensures GetEnergyPrice(Some(Join(entries + [time + ":" + IntToString(price)], ','))) == price
  {
    NotInInteger(',', price);
    NotInInteger(':', price);
    ParseIntToString(price);
    EnergyPriceOfNumeral(entries, time, IntToString(price), price);
  }

  /** The same, for any numeral `num` that `parseInt` reads as a non-zero `price`. */
  lemma EnergyPriceOfNumeral(entries: seq<string>, time: string, num: string, price: int)
    requires forall k :: 0 <= k < |entries| ==> ',' !in entries[k]
    requires ',' !in time && ':' !in time && ',' !in num && ':' !in num
    requires ParseIntOr(num, DefaultEnergyPrice) == price
    ensures GetEnergyPrice(Some(Join(entries + [time + ":" + num], ','))) == price
  {
    var last := time + ":" + num;
    var parts := entries + [last];
    EntrySplit(time, num);
    assert forall k :: 0 <= k < |parts| ==> ',' !in parts[k];
    JoinSplit(parts, ',');
    EntryPrice(Join(parts, ','), parts, time, num);
  }

  /** `<time>:<num>` splits at its one ':' and holds no ','. */
  lemma EntrySplit(time: string, num: string)
    requires ',' !in time && ':' !in time && ',' !in num && ':' !in num
    ensures Split(time + ":" + num, ':') == [time, num] && ',' !in time + ":" + num
  {
    assert time + ":" + num == time + [':'] + num;
    SplitAfterPart(time, ':', num);
    SplitWithoutSeparator(num, ':');
  }

  /** The price is read from the second half of the last entry. */
  lemma EntryPrice(prices: string, parts: seq<string>, time: string, num: string)
    requires Split(prices, ',') == parts && |parts| > 0 && |parts[|parts| - 1]| > 0
    requires Split(parts[|parts| - 1], ':') == [time, num]
    ensures GetEnergyPrice(Some(prices)) == ParseIntOr(num, DefaultEnergyPrice)
  {
  }

  /** A last entry without a ':' (or with two) falls back to the default price. */
  lemma EnergyPriceMalformedEntry(entries: seq<string>, last: string)
    requires forall k :: 0 <= k < |entries| ==> ',' !in entries[k]
    requires ',' !in last && ':' !in last
    ensures GetEnergyPrice(Some(Join(entries + [last], ','))) == DefaultEnergyPrice
  {
    var parts := entries + [last];
    JoinSplit(parts, ',');
    SplitWithoutSeparator(last, ':');
  }

  /**
   * The fee of a TRC-20 call: 0 when the dry run failed, otherwise energy times price,
   * where the penalty is subtracted from the energy only when it exceeds the energy used.
   */
  function ContractFee(fees: EstimatedFees, price: int): int {
    if fees.result then
      var energy := fees.energyUsed;
      var penalised := fees.energyPenalty.Some? && fees.energyPenalty.value != 0
                       && fees.energyPenalty.value > energy;
      (if penalised then energy - fees.energyPenalty.value else energy) * price
    else 0
  }

  /**
   * The three outcomes of the fee formula. The subtraction happens only when the penalty
   * is larger than the energy used, so a penalised call gets a negative fee at any
   * positive price.
   */
  lemma ContractFeeCases(fees: EstimatedFees, price: int)
    ensures !fees.result ==> ContractFee(fees, price) == 0
    ensures (fees.result && (fees.energyPenalty.None? || fees.energyPenalty.value <= fees.energyUsed))
      ==> ContractFee(fees, price) == fees.energyUsed * price
    ensures (fees.result && fees.energyPenalty.Some? && fees.energyPenalty.value > fees.energyUsed
             && fees.energyPenalty.value != 0 && price > 0)
      ==> ContractFee(fees, price) < 0
  {
    if fees.result && fees.energyPenalty.Some? && fees.energyPenalty.value > fees.energyUsed
       && fees.energyPenalty.value != 0 && price > 0 {
      var d := fees.energyUsed - fees.energyPenalty.value;
      assert d < 0;
      assert d * price < 0;
    }
  }

  // ---------------------------------------------------------------------------
  // Requests

  /** The property set both transfer requests default. */
  function VisibleDefault(): map<string, Value> {
    map["visible" := Bool(true)]
  }

  /** `createTRXTransaction`: posts the request with `visible` defaulting to true. */
  method CreateTRXTransaction(args: JsObject, node: Node) returns (tx: Transaction, posted: map<string, Value>)
    ensures posted == Assign(VisibleDefault(), args.fields)
    ensures posted["visible"] == if "visible" in args.fields then args.fields["visible"] else Bool(true)
    ensures tx == node.createTransaction(posted)
  {
    var literal := new JsObject(VisibleDefault());
    var request := Defaults(args, literal);
    posted := request.fields;
    tx := node.createTransaction(posted);
  }

  /** `createAssetTransaction`: the same defaulting, posted to `wallet/transferasset`. */
  method CreateAssetTransaction(args: JsObject, node: Node) returns (tx: Transaction, posted: map<string, Value>)
    ensures posted == Assign(VisibleDefault(), args.fields)
    ensures posted["visible"] == if "visible" in args.fields then args.fields["visible"] else Bool(true)
    ensures tx == node.transferAsset(posted)
  {
    var literal := new JsObject(VisibleDefault());
    var request := Defaults(args, literal);
    posted := request.fields;
    tx := node.transferAsset(posted);
  }

  const TransferSelector: string := "transfer(address,uint256)"

  /** The contract-call request fields after `Object.assign` and the two `delete`s. */
  function TriggerFields(args: map<string, Value>, parameter: string): map<string, Value> {
    Without(Assign(args, map["function_selector" := Str(TransferSelector), "parameter" := Str(parameter)]),
            {"amount", "to_address"})
  }

  function ContractDefaults(): map<string, Value> {
    map["call_value" := Number(0), "visible" := Bool(true)]
  }

  /**
   * The ABI parameter of the call: `abi.encode(['address','uint256'], [hex, amount])`
   * with its "0x" dropped (`slice(2)`).
   */
  function TransferParameter(node: Node, toAddress: string, amount: int): Result<string> {
    var hex :- Base58AddressToHex(node, toAddress);
    var encoded :- node.abiEncode(hex, IntToString(amount));
    Ok(if |encoded| <= 2 then "" else encoded[2..])
  }

  /** The request both contract calls post: the rewritten fields over the defaults. */
  function ContractRequest(args: map<string, Value>, parameter: string): map<string, Value> {
    Assign(ContractDefaults(), TriggerFields(args, parameter))
  }

  /** The posted contract request names the transfer selector and carries no amount or recipient. */
  lemma ContractRequestShape(args: map<string, Value>, parameter: string)
    ensures var q := ContractRequest(args, parameter);
      "amount" !in q && "to_address" !in q
      && q["function_selector"] == Str(TransferSelector) && q["parameter"] == Str(parameter)
      && "call_value" in q && "visible" in q
      && (forall k :: k in args && k !in {"amount", "to_address", "function_selector", "parameter"} ==> q[k] == args[k])
  {
  }

  /** What the call returns for a posted request: the built transaction and its fee, or the error. */
  function ContractOutcome(node: Node, request: map<string, Value>): Result<(Transaction, int)> {
    match node.triggerSmartContract(request)
    case None => Err(Thrown("Can't build TRX-20 transaction"))
    case Some(tx) =>
      Ok((tx, ContractFee(node.triggerConstantContract(request), GetEnergyPrice(node.energyPrices))))
  }

  /** The in-place rewrite of the caller's request: selector and parameter in, amount and recipient out. */
  method RewriteForCall(args: JsObject, parameter: string)
    modifies args
    ensures args.fields == TriggerFields(old(args.fields), parameter)
  {
    args.AssignFrom(map["function_selector" := Str(TransferSelector), "parameter" := Str(parameter)]);
    ghost var merged := args.fields;
    args.Delete("amount");
    args.Delete("to_address");
    WithoutTwice(merged, "amount", "to_address");
  }

  /** The fee of a dry run: energy (less a larger penalty) times the energy price. */
  method PriceCall(fees: EstimatedFees, energyPrices: Option<string>) returns (fee: int)
    ensures fee == ContractFee(fees, GetEnergyPrice(energyPrices))
  {
    fee := 0;
    if fees.result {
      var energy := fees.energyUsed;
      if fees.energyPenalty.Some? && fees.energyPenalty.value != 0 && fees.energyPenalty.value > energy {
        energy := energy - fees.energyPenalty.value;
      }
      var cost := GetEnergyPrice(energyPrices);
      fee := energy * cost;
    }
  }

  /**
   * `createContractTransaction`: encodes the transfer call, rewrites the caller's request
   * object in place (selector and parameter added, `amount` and `to_address` removed),
   * posts it with `call_value` 0 and `visible` true as defaults, and prices the call.
   * It returns the pair `[transaction, fee]`.
   */
  method CreateContractTransaction(args: JsObject, node: Node)
    returns (r: Result<(Transaction, int)>, posted: Option<map<string, Value>>)
    requires "to_address" in args.fields && args.fields["to_address"].Str?
    requires "amount" in args.fields && args.fields["amount"].BigInt?
    modifies args
    ensures match TransferParameter(node, old(args.fields)["to_address"].s, old(args.fields)["amount"].i)
      case Err(e) => r == Err(e) && posted.None? && args.fields == old(args.fields)
      case Ok(parameter) =>
        && args.fields == TriggerFields(old(args.fields), parameter)
        && posted == Some(ContractRequest(old(args.fields), parameter))
        && r == ContractOutcome(node, posted.value)
  {
    var parameters := TransferParameter(node, args.fields["to_address"].s, args.fields["amount"].i);
    if parameters.Err? {
      return Err(parameters.error), None;
    }

    RewriteForCall(args, parameters.value);

    var literal := new JsObject(ContractDefaults());
    var request := Defaults(args, literal);
    posted := Some(request.fields);
    var transaction := node.triggerSmartContract(request.fields);
    if transaction.None? {
      return Err(Thrown("Can't build TRX-20 transaction")), posted;
    }

    var literal2 := new JsObject(ContractDefaults());
    var request2 := Defaults(args, literal2);
    var fees := node.triggerConstantContract(request2.fields);

    assert request2.fields == request.fields;
    var fee := PriceCall(fees, node.energyPrices);
    r := Ok((transaction.value, fee));
  }
}
