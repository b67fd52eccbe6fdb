/**
 * The blockscout plugin's event lists: the account's transactions and its ERC-20 token
 * transfers, each fetched page by page through the shared walk, plus the single-transaction
 * lookups `update` and `status` rely on.
 */
module BlockscoutEvents {
  import opened Wrappers
  import opened JsText
  import opened Units
  import opened Plugin
  import opened BlockscoutApi

  /** `from.hash.toLowerCase() === address.toLocaleLowerCase()`. */
  predicate SentBy(from: string, owner: string) {
    ToLower(from) == ToLower(owner)
  }

  predicate Tagged(t: Transaction, tag: string) {
    t.txTypes.Some? && tag in t.txTypes.value
  }

  /** The explorer's fee, in the network's coin, without a sign. */
  function FeeText(network: Network, fee: string): (r: Result<Text>)
    ensures r.Ok? <==> BigIntOf(fee).Some?
    ensures r.Ok? ==> (r.value.value == Bn(BigIntOf(fee).value, network.decimals)
      && r.value.currency == Some(Currency(network.symbol, None)) && !r.value.copyable)
  {
    var value :- BnOfText(fee, network.decimals);
    Ok(Text(value, Some(Currency(network.symbol, None)), false))
  }

  /**
   * `parseTransaction`, given the transaction's time in milliseconds: a transaction carrying
   * token transfers gives no event (its transfer is listed separately). The source reads
   * `to.hash` of an outgoing transaction and `tx_types` unguarded, so a contract creation
   * sent by the owner, or a transaction without types, throws a TypeError.
   */
  function ParseTransaction(network: Network, owner: string, t: Transaction, ms: int): (r: Result<Option<Event>>)
    ensures Tagged(t, "token_transfer") ==> r == Ok(None)
    ensures r.Err? <==> (!Tagged(t, "token_transfer") &&
      ((SentBy(t.from, owner) && t.to.None?) || t.txTypes.None?
       || (t.feeType != "maximum" && BigIntOf(t.feeValue).None?) || BigIntOf(t.value).None?))
    ensures r.Ok? && !Tagged(t, "token_transfer") ==> r.value.Some?
    ensures r.Ok? && r.value.Some? ==>
      var e := r.value.value;
      && e.hash == t.hash && e.date == ms as real / 1000.0
      && e.status == (if t.status == "ok" then Success else Error)
      && !e.malicious && !e.incomplete && e.asset == "_" && e.images == [network.image]
    ensures r.Ok? && r.value.Some? ==>
      r.value.value.kind == (if Tagged(t, "contract_call") then (if t.calledMethod == Some("approve") then "Approval" else "Contract execution")
                             else if SentBy(t.from, owner) then Outcome else Income)
    ensures r.Ok? && r.value.Some? ==>
      r.value.value.text == Amount(Bn(BigIntOf(t.value).value, network.decimals), network.symbol,
                                   if SentBy(t.from, owner) then Negative else Positive)
    ensures r.Ok? && r.value.Some? ==>
      var fields := r.value.value.complementary;
      && |fields| == (if t.feeType == "maximum" then 1 else 2)
      && fields[0] == (if SentBy(t.from, owner) then Field("Recipient", Plain(t.to.value)) else Field("Sender", Plain(t.from)))
      && (t.feeType != "maximum" ==> fields[1] == Field("Fees", FeeText(network, t.feeValue).value))
  {
    if Tagged(t, "token_transfer") then Ok(None)
    else
      var outgoing := SentBy(t.from, owner);
      if outgoing && t.to.None? then Err(Thrown("TypeError"))
      else
        var direction := if outgoing then Field("Recipient", Plain(t.to.value)) else Field("Sender", Plain(t.from));
        var options := if outgoing then Negative else Positive;
        if t.txTypes.None? then Err(Thrown("TypeError"))
        else
          var kind := if "contract_call" in t.txTypes.value then
                        (if t.calledMethod == Some("approve") then "Approval" else "Contract execution")
                      else if outgoing then Outcome else Income;
          var fees :- if t.feeType == "maximum" then Ok([]) else
                        var fee :- FeeText(network, t.feeValue); Ok([Field("Fees", fee)]);
          var value :- BnOfText(t.value, network.decimals);
          Ok(Some(Event(t.hash, ms as real / 1000.0, if t.status == "ok" then Success else Error, kind,
                        false, false, "_", [network.image], Amount(value, network.symbol, options),
                        [direction] + fees)))
  }

  /** The amount a transaction event shows reads back as the transaction's value. */
  lemma TransactionAmount(network: Network, owner: string, t: Transaction, ms: int)
    requires ParseTransaction(network, owner, t, ms).Ok? && ParseTransaction(network, owner, t, ms).value.Some?
    requires BigIntOf(t.value).value >= 0
    ensures ParseUnits(ParseTransaction(network, owner, t, ms).value.value.text.value, network.decimals)
      == BigIntOf(t.value)
  {
    BnRoundTrip(BigIntOf(t.value).value, network.decimals);
  }

  function TransactionParser(network: Network, owner: string): (Transaction, int) -> Result<Option<Event>> {
    (t, ms) => ParseTransaction(network, owner, t, ms)
  }

  function TransactionStamp(explorer: Explorer): Transaction -> Option<int> {
    (t: Transaction) => explorer.timeOf(t.timestamp)
  }

  function TransactionPages(explorer: Explorer, owner: string): Option<Cursor> -> Result<Page<Transaction>> {
    cursor => explorer.transactions(owner, cursor)
  }

  /** The transaction events of `owner` in the window, at most `fuel` pages of them. */
  function Transactions(explorer: Explorer, network: Network, owner: string, w: Window, fuel: nat): Result<seq<Event>> {
    Walk(TransactionPages(explorer, owner), w, TransactionStamp(explorer), TransactionParser(network, owner), None, fuel)
  }

  /** What every transaction event promises, whatever page it came from. */
  predicate TransactionEvent(network: Network, w: Window, e: Event) {
    DatedIn(w, e.date) && !e.malicious && !e.incomplete && e.asset == "_" && e.images == [network.image]
    && e.status in {Success, Error}
  }

  /** `fetchTransactions`: the walk over the transaction pages. */
  method FetchTransactions(explorer: Explorer, network: Network, owner: string, w: Window, fuel: nat)
    returns (r: Result<seq<Event>>)
    ensures r == Transactions(explorer, network, owner, w, fuel)
    ensures r.Ok? ==> forall e :: e in r.value ==> TransactionEvent(network, w, e)
  {
    r := WalkPages(TransactionPages(explorer, owner), w, TransactionStamp(explorer), TransactionParser(network, owner), fuel);
    TransactionsInWindow(explorer, network, owner, w, fuel);
  }

  lemma TransactionsInWindow(explorer: Explorer, network: Network, owner: string, w: Window, fuel: nat)
    ensures Transactions(explorer, network, owner, w, fuel).Ok? ==>
      forall e :: e in Transactions(explorer, network, owner, w, fuel).value ==> TransactionEvent(network, w, e)
  {
    var P := (e: Event) => TransactionEvent(network, w, e);
    forall x: Transaction, ms: int | InWindow(w, Some(ms)) && TransactionParser(network, owner)(x, ms).Ok?
        && TransactionParser(network, owner)(x, ms).value.Some?
      ensures P(TransactionParser(network, owner)(x, ms).value.value)
    {
      KeptDated(w, ms);
    }
    WalkKeeps(TransactionPages(explorer, owner), w, TransactionStamp(explorer), TransactionParser(network, owner), P, None, fuel);
  }

  // ---------------------------------------------------------------------------
  // Token transfers

  /**
   * The mapping of one ERC-20 transfer, given its time in milliseconds: a total without a
   * value is thrown (as `undefined`), aborting the whole list.
   */
  function ParseTokenTransfer(network: Network, owner: string, tr: TokenTransfer, ms: int): (r: Result<Option<Event>>)
    ensures r.Err? <==> tr.total.None? || TokenBn(tr.total.value.value, TokenDecimals(tr.total.value.decimals, network)).Err?
    ensures r.Ok? ==> r.value.Some?
    ensures r.Ok? ==>
      var e := r.value.value;
      var outgoing := SentBy(tr.from, owner);
      && e.hash == tr.txHash && e.date == ms as real / 1000.0
      && e.status == Success && e.incomplete && !e.malicious && e.asset == tr.token.address
      && e.kind == (if outgoing then Outcome else Income)
      && e.complementary == [if outgoing then Field("Recipient", Plain(tr.to)) else Field("Sender", Plain(tr.from))]
      && (|e.images| == 1 <==> Truthy(tr.token.iconUrl)) && |e.images| <= 1
      && (|e.images| == 1 ==> e.images[0] == Image(tr.token.iconUrl.value))
      && e.text == Amount(TokenBn(tr.total.value.value, TokenDecimals(tr.total.value.decimals, network)).value,
                          tr.token.symbol, if outgoing then Negative else Positive)
  {
    var outgoing := SentBy(tr.from, owner);
    var direction := if outgoing then Field("Recipient", Plain(tr.to)) else Field("Sender", Plain(tr.from));
    if tr.total.None? then Err(Thrown("undefined"))
    else
      var decimals := TokenDecimals(tr.total.value.decimals, network);
      var images := if Truthy(tr.token.iconUrl) then [Image(tr.token.iconUrl.value)] else [];
      var value :- TokenBn(tr.total.value.value, decimals);
      Ok(Some(Event(tr.txHash, ms as real / 1000.0, Success, if outgoing then Outcome else Income, false, true,
                    tr.token.address, images, Amount(value, tr.token.symbol, if outgoing then Negative else Positive),
                    [direction])))
  }

  /**
   * The amount a transfer event shows reads back as the transfer's total, counted in the
   * token's own decimals when it declares a usable count and in the network's otherwise.
   */
  lemma TransferAmount(network: Network, owner: string, tr: TokenTransfer, ms: int)
    requires ParseTokenTransfer(network, owner, tr, ms).Ok?
    requires BigIntOf(tr.total.value.value).value >= 0
    ensures var decimals := TokenDecimals(tr.total.value.decimals, network);
      0 <= decimals <= MaxExactDecimals &&
      ParseUnits(ParseTokenTransfer(network, owner, tr, ms).value.value.text.value, decimals)
        == BigIntOf(tr.total.value.value)
  {
    var decimals := TokenDecimals(tr.total.value.decimals, network);
    BnRoundTrip(BigIntOf(tr.total.value.value).value, decimals);
  }

  function TransferParser(network: Network, owner: string): (TokenTransfer, int) -> Result<Option<Event>> {
    (tr, ms) => ParseTokenTransfer(network, owner, tr, ms)
  }

  function TransferStamp(explorer: Explorer): TokenTransfer -> Option<int> {
    (tr: TokenTransfer) => explorer.timeOf(tr.timestamp)
  }

  function TransferPages(explorer: Explorer, owner: string): Option<Cursor> -> Result<Page<TokenTransfer>> {
    cursor => explorer.tokenTransfers(owner, cursor)
  }

  /** The ERC-20 transfer events of `owner` in the window, at most `fuel` pages of them. */
  function TokenTransfers(explorer: Explorer, network: Network, owner: string, w: Window, fuel: nat): Result<seq<Event>> {
    Walk(TransferPages(explorer, owner), w, TransferStamp(explorer), TransferParser(network, owner), None, fuel)
  }

  /** What every transfer event promises, whatever page it came from. */
  predicate TransferEvent(w: Window, e: Event) {
    DatedIn(w, e.date) && e.status == Success && e.incomplete && !e.malicious && e.kind in {Income, Outcome}
  }

  /** `fetchTokenTransfers`: the walk over the token-transfer pages. */
  method FetchTokenTransfers(explorer: Explorer, network: Network, owner: string, w: Window, fuel: nat)
    returns (r: Result<seq<Event>>)
    ensures r == TokenTransfers(explorer, network, owner, w, fuel)
    ensures r.Ok? ==> forall e :: e in r.value ==> TransferEvent(w, e)
  {
    r := WalkPages(TransferPages(explorer, owner), w, TransferStamp(explorer), TransferParser(network, owner), fuel);
    TransfersInWindow(explorer, network, owner, w, fuel);
  }

  lemma TransfersInWindow(explorer: Explorer, network: Network, owner: string, w: Window, fuel: nat)
    ensures TokenTransfers(explorer, network, owner, w, fuel).Ok? ==>
      forall e :: e in TokenTransfers(explorer, network, owner, w, fuel).value ==> TransferEvent(w, e)
  {
    var P := (e: Event) => TransferEvent(w, e);
    forall x: TokenTransfer, ms: int | InWindow(w, Some(ms)) && TransferParser(network, owner)(x, ms).Ok?
        && TransferParser(network, owner)(x, ms).value.Some?
      ensures P(TransferParser(network, owner)(x, ms).value.value)
    {
      KeptDated(w, ms);
    }
    WalkKeeps(TransferPages(explorer, owner), w, TransferStamp(explorer), TransferParser(network, owner), P, None, fuel);
  }

  // ---------------------------------------------------------------------------
  // Lookups of one transaction

  /**
   * `fetchTransactionFees`: nothing for a transaction the explorer does not give or whose fee
   * is only the maximum; otherwise the fee as an amount.
   */
  function TransactionFees(explorer: Explorer, network: Network, hash: string): (r: Result<Option<Text>>)
    ensures r == Ok(None) <==> explorer.transaction(hash).None? || explorer.transaction(hash).value.feeType == "maximum"
    ensures r.Err? <==> (explorer.transaction(hash).Some? && explorer.transaction(hash).value.feeType != "maximum"
      && BigIntOf(explorer.transaction(hash).value.feeValue).None?)
    ensures r.Ok? && r.value.Some? ==> r.value.value == FeeText(network, explorer.transaction(hash).value.feeValue).value
  {
    match explorer.transaction(hash)
    case None => Ok(None)
    case Some(t) =>
      if t.feeType == "maximum" then Ok(None)
      else
        var fee :- FeeText(network, t.feeValue);
        Ok(Some(fee))
  }

  /** `fetchTransactionStatus`: the transaction's status text, when the explorer gives it. */
  function TransactionStatus(explorer: Explorer, hash: string): (r: Option<string>)
    ensures r.Some? <==> explorer.transaction(hash).Some?
    ensures r.Some? ==> r.value == explorer.transaction(hash).value.status
  {
    match explorer.transaction(hash)
    case None => None
    case Some(t) => Some(t.status)
  }
}
