/**
 * The blockscout plugin's provider: the account's assets (the network's coin, then its
 * ERC-20 tokens), its events (transactions, then token transfers), and the `update` and
 * `status` of one event.
 */
module BlockscoutProvider {
  import opened Wrappers
  import opened JsText
  import opened Units
  import opened Plugin
  import opened BlockscoutApi
  import opened BlockscoutEvents

  // ---------------------------------------------------------------------------
  // Other tokens

  /** The balances of ERC-20 tokens, in their order. */
  function Erc20(balances: seq<TokenBalance>): (kept: seq<TokenBalance>)
    ensures |kept| <= |balances|
    ensures forall b :: b in kept <==> b in balances && b.token.kind == "ERC-20"
  {
    if balances == [] then []
    else (if balances[0].token.kind == "ERC-20" then [balances[0]] else []) + Erc20(balances[1..])
  }

  /** The filter keeps the order: filtering a concatenation concatenates the filtered parts. */
  lemma {:induction false} Erc20Append(a: seq<TokenBalance>, b: seq<TokenBalance>)
    ensures Erc20(a + b) == Erc20(a) + Erc20(b)
  {
    if a == [] {
      assert a + b == b;
    } else {
      assert (a + b)[1..] == a[1..] + b;
      Erc20Append(a[1..], b);
    }
  }

  /**
   * How the source reads a price: `parseFloat(text) || 0` is `price(text)`, and a positive
   * price is written back with `text(price)`. Floating point lies outside the model.
   */
  datatype Pricing = Pricing(price: string -> real, text: real -> string)

  /** The fields shown under a token: its name, its price when positive, its contract. */
  function TokenFields(token: TokenInformation, pricing: Pricing): (fields: seq<Field>)
    ensures |fields| == (if pricing.price(token.exchangeRate) > 0.0 then 3 else 2)
    ensures fields[0] == Field("Name", Text(token.name, None, false))
    ensures fields[|fields| - 1] == Field("Contract Address", Plain(token.address))
    ensures |fields| == 3 ==>
      fields[1] == Field("Price", Text(pricing.text(pricing.price(token.exchangeRate)), Some(Currency("USD", None)), false))
  {
    var price := pricing.price(token.exchangeRate);
    [Field("Name", Text(token.name, None, false))]
    + (if price > 0.0 then [Field("Price", Text(pricing.text(price), Some(Currency("USD", None)), false))] else [])
    + [Field("Contract Address", Plain(token.address))]
  }

  /** The asset made of one ERC-20 balance: the balance in the token's own decimals. */
  function TokenAsset(network: Network, balance: TokenBalance, pricing: Pricing): (r: Result<Asset>)
    ensures r.Ok? <==> TokenBn(balance.value, TokenDecimals(balance.token.decimals, network)).Ok?
    ensures r.Ok? ==>
      var a := r.value;
      && a.name == balance.token.symbol && a.address == balance.token.address
      && a.kind == "fungible" && !a.malicious
      && a.decimals == TokenDecimals(balance.token.decimals, network)
      && a.quantity == TokenBn(balance.value, a.decimals).value
      && (a.icon.Some? <==> Truthy(balance.token.iconUrl))
      && (a.icon.Some? ==> a.icon.value == Image(balance.token.iconUrl.value))
      && a.complementary == TokenFields(balance.token, pricing)
  {
    var token := balance.token;
    var decimals := TokenDecimals(token.decimals, network);
    var icon := if Truthy(token.iconUrl) then Some(Image(token.iconUrl.value)) else None;
    var quantity :- TokenBn(balance.value, decimals);
    Ok(Asset(token.symbol, icon, quantity, decimals, token.address, "fungible", false, TokenFields(token, pricing)))
  }

  /** The assets of some balances, in order; the first balance `bn` cannot read fails them all. */
  function AssetsOf(network: Network, balances: seq<TokenBalance>, pricing: Pricing): (r: Result<seq<Asset>>)
    ensures r.Ok? <==> forall b :: b in balances ==> TokenAsset(network, b, pricing).Ok?
    ensures r.Ok? ==> |r.value| == |balances|
    ensures r.Ok? ==> forall i :: 0 <= i < |balances| ==> Ok(r.value[i]) == TokenAsset(network, balances[i], pricing)
    ensures r.Err? ==> exists b :: b in balances && TokenAsset(network, b, pricing) == Err(r.error)
  {
    if balances == [] then Ok([])
    else
      var first :- TokenAsset(network, balances[0], pricing);
      var rest :- AssetsOf(network, balances[1..], pricing);
      assert forall b :: b in balances ==> b == balances[0] || b in balances[1..];
      Ok([first] + rest)
  }

  /**
   * `fetchOtherTokens` on the explorer's balances: one asset per ERC-20 balance, in order;
   * a balance `bn` cannot read fails the whole list. Balances of other kinds cannot fail,
   * so filtering them out first changes nothing.
   */
  function OtherTokens(network: Network, balances: seq<TokenBalance>, pricing: Pricing): (r: Result<seq<Asset>>)
    ensures r.Ok? <==> forall b :: b in balances && b.token.kind == "ERC-20" ==> TokenAsset(network, b, pricing).Ok?
    ensures r.Ok? ==> |r.value| == |Erc20(balances)|
    ensures r.Ok? ==>
      forall i :: 0 <= i < |r.value| ==> Ok(r.value[i]) == TokenAsset(network, Erc20(balances)[i], pricing)
  {
    AssetsOf(network, Erc20(balances), pricing)
  }

  /** The balances of other kinds of token never reach the list, whatever they hold. */
  lemma OtherKindsIgnored(network: Network, balances: seq<TokenBalance>, other: TokenBalance, pricing: Pricing)
    requires other.token.kind != "ERC-20"
    ensures OtherTokens(network, [other] + balances, pricing) == OtherTokens(network, balances, pricing)
  {
    assert ([other] + balances)[1..] == balances;
    assert Erc20([other] + balances) == Erc20(balances);
  }

  // ---------------------------------------------------------------------------
  // The provider

  /** What the wallet asks `fetch` for: an address's events in a window, or its assets. */
  datatype FetchRequest = Events(address: string, window: Window) | Assets(address: string)

  datatype Listing = EventList(events: seq<Event>) | AssetList(assets: seq<Asset>)

  /**
   * `BlockscoutProvider.fetch`: events are the transactions followed by the token transfers;
   * assets are the network's coin followed by the other tokens. The coin's asset, which
   * needs its own request, is given as `native`; `fuel` bounds the pages of each walk.
   */
  method Fetch(request: FetchRequest, explorer: Explorer, network: Network, native: Result<Asset>,
               pricing: Pricing, fuel: nat) returns (r: Result<Listing>)
    ensures request.Events? ==> match (Transactions(explorer, network, request.address, request.window, fuel),
                                       TokenTransfers(explorer, network, request.address, request.window, fuel))
      case (Err(e), _) => r == Err(e)
      case (Ok(_), Err(e)) => r == Err(e)
      case (Ok(transactions), Ok(transfers)) => r == Ok(EventList(transactions + transfers))
    ensures request.Assets? ==> match (native, explorer.tokenBalances(request.address))
      case (Err(e), _) => r == Err(e)
      case (Ok(_), Err(e)) => r == Err(e)
      case (Ok(coin), Ok(balances)) =>
        r == (match OtherTokens(network, balances, pricing)
              case Ok(others) => Ok(AssetList([coin] + others))
              case Err(e) => Err(e))
  {
    match request
    case Events(address, window) =>
      var transactions :- FetchTransactions(explorer, network, address, window, fuel);
      var transfers :- FetchTokenTransfers(explorer, network, address, window, fuel);
      return Ok(EventList(transactions + transfers));
    case Assets(address) =>
      var coin :- native;
      var balances :- explorer.tokenBalances(address);
      var others :- OtherTokens(network, balances, pricing);
      return Ok(AssetList([coin] + others));
  }

  /**
   * `BlockscoutProvider.update`: the event, no longer incomplete, with a "Fees" field added
   * when the explorer knows the actual fee. A fee `bn` cannot read leaves the event as it was.
   */
  method Update(record: EventRecord, explorer: Explorer, network: Network) returns (r: Result<EventRecord>)
    modifies record
    ensures TransactionFees(explorer, network, old(record.event.hash)).Err? ==>
      r.Err? && record.event == old(record.event)
    ensures TransactionFees(explorer, network, old(record.event.hash)).Ok? ==> r == Ok(record)
    ensures TransactionFees(explorer, network, old(record.event.hash)).Ok? ==>
      record.event == old(record.event).(incomplete := false, complementary := old(record.event.complementary)
        + match TransactionFees(explorer, network, old(record.event.hash)).value
          case Some(fee) => [Field("Fees", fee)]
          case None => [])
  {
    var fees := TransactionFees(explorer, network, record.event.hash);
    if fees.Err? {
      return Err(fees.error);
    }
    var fields := record.event.complementary;
    if fees.value.Some? {
      fields := fields + [Field("Fees", fees.value.value)];
    }
    record.event := record.event.(incomplete := false, complementary := fields);
    return Ok(record);
  }

  /** `BlockscoutProvider.status`: unknown (or empty) is pending, "ok" success, anything else an error. */
  function StatusOf(explorer: Explorer, hash: string): (s: Status)
    ensures s == Pending <==> explorer.transaction(hash).None? || explorer.transaction(hash).value.status == ""
    ensures s == Success <==> explorer.transaction(hash).Some? && explorer.transaction(hash).value.status == "ok"
    ensures s != Failed
  {
    match TransactionStatus(explorer, hash)
    case None => Pending
    case Some(status) => if status == "" then Pending else if status == "ok" then Success else Error
  }
}
