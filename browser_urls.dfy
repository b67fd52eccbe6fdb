/**
 * The block-explorer links each plugin gives the wallet for an event or an asset. Each
 * builder is paired with a reader of the links it writes, and the reader gets back the
 * page the link was made for.
 */

/** A browser request: an event (by hash) is looked at before an asset (by address). */
module BrowserRequests {
  import opened Wrappers

  datatype Request = Request(event: Option<string>, asset: Option<string>)
}

/** The TRON plugin's links, on tronscan. */
module TronBrowser {
  import opened Wrappers
  import opened JsText
  import TronGrid
  import opened BrowserRequests

  function Endpoint(testnet: bool): string {
    if testnet then "https://shasta.tronscan.org/#" else "https://tronscan.org/#"
  }

  /** The pages of tronscan the plugin links to; the coin is token `0`. */
  datatype Page = Transaction(hash: string) | Token20(address: string) | Token(id: string)

  /** `BrowserProvider.url`; no link (`{}`) for a request with neither part. */
  function Url(node: TronGrid.Node, testnet: bool, r: Request): (url: Option<string>)
    ensures url.Some? <==> r.event.Some? || r.asset.Some?
    ensures r.event.Some? ==> url == Some(Endpoint(testnet) + "/transaction/" + r.event.value)
  {
    var base := Endpoint(testnet);
    if r.event.Some? then
      Some(base + "/transaction/" + r.event.value)
    else if r.asset.Some? then
      var address := r.asset.value;
      if TronGrid.IsTRONAddress(node, address) then
        Some(base + "/token20/" + address)
      else
        var id := if address == "_" then "0" else address;
        Some(base + "/token/" + id)
    else None
  }

  /** The page a tronscan link shows, read from its path. */
  function Read(testnet: bool, url: string): Option<Page> {
    var base := Endpoint(testnet);
    if StartsWith(url, base + "/transaction/") then Some(Transaction(url[|base + "/transaction/"|..]))
    else if StartsWith(url, base + "/token20/") then Some(Token20(url[|base + "/token20/"|..]))
    else if StartsWith(url, base + "/token/") then Some(Token(url[|base + "/token/"|..]))
    else None
  }

  /**
   * A link shows the event's transaction, a TRON address's TRC-20 page, or the token page
   * of any other asset (the coin `_` as token `0`).
   */
  lemma ReadUrl(node: TronGrid.Node, testnet: bool, r: Request)
    requires r.event.Some? || r.asset.Some?
    ensures Read(testnet, Url(node, testnet, r).value) == Some(
      if r.event.Some? then Transaction(r.event.value)
      else if TronGrid.IsTRONAddress(node, r.asset.value) then Token20(r.asset.value)
      else Token(if r.asset.value == "_" then "0" else r.asset.value))
  {
    var base := Endpoint(testnet);
    var url := Url(node, testnet, r).value;
    var transaction, token20, token := base + "/transaction/", base + "/token20/", base + "/token/";
    if r.event.Some? {
      StartsWithAppend(transaction, r.event.value);
    } else if TronGrid.IsTRONAddress(node, r.asset.value) {
      StartsWithAppend(token20, r.asset.value);
      PrefixClash(url, token20, transaction, |base| + 2);
    } else {
      StartsWithAppend(token, if r.asset.value == "_" then "0" else r.asset.value);
      PrefixClash(url, token, transaction, |base| + 2);
      PrefixClash(url, token, token20, |base| + 6);
    }
  }
}

/** The TON plugin's links, on tonviewer. */
module TonBrowser {
  import opened Wrappers
  import opened JsText
  import TonEvents
  import opened BrowserRequests

  function Endpoint(testnet: bool): string {
    if testnet then "https://testnet.tonviewer.com" else "https://tonviewer.com"
  }

  /** The pages of tonviewer the plugin links to. */
  datatype Page = Home | Transaction(hash: string) | Account(address: string)

  /**
   * `BrowserProvider.url`: the coin `_` is the site itself; any other asset is its address
   * in friendly form (`friendly` renders a raw address).
   */
  function Url(friendly: string -> string, testnet: bool, r: Request): (url: Option<string>)
    ensures url.Some? <==> r.event.Some? || r.asset.Some?
    ensures r.event.Some? ==> url == Some(Endpoint(testnet) + "/transaction/" + r.event.value)
    ensures r.event.None? && r.asset == Some("_") ==> url == Some(Endpoint(testnet))
  {
    var base := Endpoint(testnet);
    if r.event.Some? then
      Some(base + "/transaction/" + r.event.value)
    else if r.asset.Some? then
      if r.asset.value == "_" then
        Some(base)
      else
        Some(base + "/" + TonEvents.AddressFromRaw(friendly, r.asset.value))
    else None
  }

  /** The page a tonviewer link shows, read from its path. */
  function Read(testnet: bool, url: string): Option<Page> {
    var base := Endpoint(testnet);
    if url == base then Some(Home)
    else if StartsWith(url, base + "/transaction/") then Some(Transaction(url[|base + "/transaction/"|..]))
    else if StartsWith(url, base + "/") then Some(Account(url[|base + "/"|..]))
    else None
  }

  /**
   * A link shows the event's transaction, the site itself for the coin, or the account
   * page of the asset's friendly address, provided that address is not itself a path.
   */
  lemma ReadUrl(friendly: string -> string, testnet: bool, r: Request)
    requires r.event.Some? || r.asset.Some?
    requires r.event.None? && r.asset.value != "_" ==> '/' !in TonEvents.AddressFromRaw(friendly, r.asset.value)
    ensures Read(testnet, Url(friendly, testnet, r).value) == Some(
      if r.event.Some? then Transaction(r.event.value)
      else if r.asset.value == "_" then Home
      else Account(TonEvents.AddressFromRaw(friendly, r.asset.value)))
  {
    var base := Endpoint(testnet);
    var url := Url(friendly, testnet, r).value;
    if r.event.Some? {
      StartsWithAppend(base + "/transaction/", r.event.value);
      assert |url| > |base|;
    } else if r.asset.value != "_" {
      var a := TonEvents.AddressFromRaw(friendly, r.asset.value);
      StartsWithAppend(base + "/", a);
      assert |url| > |base|;
      var transaction := base + "/transaction/";
      if |a| >= 12 {
        assert url[|base| + 12] == a[11] != '/';
        assert transaction[|base| + 12] == '/';
        assert url[..|transaction|][|base| + 12] != transaction[|base| + 12];
      }
    }
  }
}

/** The Ethereum plugin's links, on etherscan. */
module EthereumBrowser {
  import opened Wrappers
  import opened JsText
  import opened BrowserRequests

  function Endpoint(testnet: bool): string {
    if testnet then "https://goerli.etherscan.io" else "https://etherscan.io"
  }

  /** The pages of etherscan the plugin links to. */
  datatype Page = Home | Transaction(hash: string) | Token(address: string)

  /** `BrowserProvider.url`: the coin `_` is the site itself. */
  function Url(testnet: bool, r: Request): (url: Option<string>)
    ensures url.Some? <==> r.event.Some? || r.asset.Some?
    ensures r.event.Some? ==> url == Some(Endpoint(testnet) + "/tx/" + r.event.value)
    ensures r.event.None? && r.asset == Some("_") ==> url == Some(Endpoint(testnet))
  {
    var base := Endpoint(testnet);
    if r.event.Some? then
      Some(base + "/tx/" + r.event.value)
    else if r.asset.Some? then
      if r.asset.value == "_" then
        Some(base)
      else
        Some(base + "/token/" + r.asset.value)
    else None
  }

  /** The page an etherscan link shows, read from its path. */
  function Read(testnet: bool, url: string): Option<Page> {
    var base := Endpoint(testnet);
    if url == base then Some(Home)
    else if StartsWith(url, base + "/tx/") then Some(Transaction(url[|base + "/tx/"|..]))
    else if StartsWith(url, base + "/token/") then Some(Token(url[|base + "/token/"|..]))
    else None
  }

  /** A link shows the event's transaction, the site itself for the coin, or the token's page. */
  lemma ReadUrl(testnet: bool, r: Request)
    requires r.event.Some? || r.asset.Some?
    ensures Read(testnet, Url(testnet, r).value) == Some(
      if r.event.Some? then Transaction(r.event.value)
      else if r.asset.value == "_" then Home
      else Token(r.asset.value))
  {
    var base := Endpoint(testnet);
    var url := Url(testnet, r).value;
    if r.event.Some? {
      StartsWithAppend(base + "/tx/", r.event.value);
      assert |url| > |base|;
    } else if r.asset.value != "_" {
      StartsWithAppend(base + "/token/", r.asset.value);
      assert |url| > |base|;
      PrefixClash(url, base + "/token/", base + "/tx/", |base| + 2);
    }
  }
}
