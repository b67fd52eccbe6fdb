/**
 * The TON plugin's QR provider: reading a `ton://transfer/<address>?…` link into a transfer
 * request, and writing one for a transfer.
 */
module TonQr {
  import opened Wrappers
  import opened JsText
  import opened TonCell

  /** A parsed URL: its protocol, its path, and its decoded query pairs in order. */
  datatype Url = Url(protocol: string, pathname: string, query: seq<(string, string)>)

  /**
   * The URL class and the address library the provider relies on. `parseUrl` is `new URL`
   * (`None` where it throws). `isRaw`/`parseRaw` and `isFriendly`/`parseFriendly` are the
   * address forms (the parsers `None` where they throw, the friendly one giving the
   * address and its bounceable flag); `parse` is `Address.parse`; `render(a, bounceable)`
   * is `a.toString({ urlSafe: true, bounceable })`.
   */
  datatype Library = Library(parseUrl: string -> Option<Url>,
                             isRaw: string -> bool, parseRaw: string -> Option<Address>,
                             isFriendly: string -> bool, parseFriendly: string -> Option<(Address, bool)>,
                             parse: string -> Option<Address>, render: (Address, bool) -> string)

  /** A transfer read from a link: the recipient re-rendered, the jetton raw, the amount as written. */
  datatype QrTransfer = QrTransfer(recipient: string, asset: Option<string>, amount: Option<string>)

  // ---------------------------------------------------------------------------
  // The query fold

  /** The variables the query loop updates. */
  datatype Query = Query(asset: Option<string>, amount: Option<string>, unsupported: bool)

  const Unsafe: set<string> := {"bin", "text", "init"}

  /**
   * One query pair: "bin", "text" and "init" mark the link unsupported and then fall
   * through into the "jetton" case, which reads the value as an address; "amount" is kept
   * as written; other keys are ignored. Keys are compared in lower case.
   */
  function Step(lib: Library, q: Query, key: string, value: string): Query {
    var k := ToLower(key);
    if k in Unsafe || k == "jetton" then
      var marked := if k in Unsafe then q.(unsupported := true) else q;
      match lib.parse(value)
      case Some(a) => marked.(asset := Some(ToRawString(a)))
      case None => marked.(unsupported := true)
    else if k == "amount" then q.(amount := Some(value))
    else q
  }

  /** The variables after the pairs, taken in order. */
  function Fold(lib: Library, query: seq<(string, string)>): Query
    decreases |query|
  {
    if query == [] then Query(None, None, false)
    else Step(lib, Fold(lib, query[..|query| - 1]), query[|query| - 1].0, query[|query| - 1].1)
  }

  /** The value of the last pair whose key is `key` in lower case. */
  function LastValue(query: seq<(string, string)>, key: string): (v: Option<string>)
    ensures v.Some? <==> exists i :: 0 <= i < |query| && ToLower(query[i].0) == key
    ensures v.Some? ==> exists i :: 0 <= i < |query| && query[i] == (query[i].0, v.value) && ToLower(query[i].0) == key
    decreases |query|
  {
    if query == [] then None
    else if ToLower(query[|query| - 1].0) == key then Some(query[|query| - 1].1)
    else
      var prefix := query[..|query| - 1];
      var v := LastValue(prefix, key);
      assert forall i :: 0 <= i < |prefix| ==> prefix[i] == query[i];
      v
  }

  /** A pair that makes the link unsupported. */
  predicate Refuses(lib: Library, pair: (string, string)) {
    ToLower(pair.0) in Unsafe || (ToLower(pair.0) == "jetton" && lib.parse(pair.1).None?)
  }

  /** The amount is the last "amount" pair's value, as written. */
  lemma {:induction false} FoldAmount(lib: Library, query: seq<(string, string)>)
    ensures Fold(lib, query).amount == LastValue(query, "amount")
    decreases |query|
  {
    if query != [] {
      var prefix := query[..|query| - 1];
      FoldAmount(lib, prefix);
      StepAmount(lib, Fold(lib, prefix), query[|query| - 1].0, query[|query| - 1].1);
    }
  }

  /** Only an "amount" pair changes the amount, and it sets it to its value. */
  lemma StepAmount(lib: Library, q: Query, key: string, value: string)
    ensures Step(lib, q, key, value).amount == if ToLower(key) == "amount" then Some(value) else q.amount
  {
    var k := ToLower(key);
    if k == "amount" {
      assert k !in Unsafe && k != "jetton";
    }
  }

  /** The link is unsupported exactly when one of its pairs refuses it. */
  lemma {:induction false} FoldUnsupported(lib: Library, query: seq<(string, string)>)
    ensures Fold(lib, query).unsupported <==> exists i :: 0 <= i < |query| && Refuses(lib, query[i])
    decreases |query|
  {
    if query != [] {
      var prefix := query[..|query| - 1];
      FoldUnsupported(lib, prefix);
      assert forall i :: 0 <= i < |prefix| ==> prefix[i] == query[i];
      if Fold(lib, query).unsupported && !Refuses(lib, query[|query| - 1]) {
        var i :| 0 <= i < |prefix| && Refuses(lib, prefix[i]);
        assert Refuses(lib, query[i]);
      }
    }
  }

  /** On a supported link, the asset is the last "jetton" pair's address, in raw form. */
  lemma {:induction false} FoldAsset(lib: Library, query: seq<(string, string)>)
    requires !Fold(lib, query).unsupported
    ensures LastValue(query, "jetton").Some? ==> lib.parse(LastValue(query, "jetton").value).Some?
    ensures Fold(lib, query).asset == match LastValue(query, "jetton")
      case None => None
      case Some(v) => Some(ToRawString(lib.parse(v).value))
    decreases |query|
  {
    if query != [] {
      var prefix := query[..|query| - 1];
      assert !Fold(lib, prefix).unsupported;
      FoldAsset(lib, prefix);
    }
  }

  /** The query loop of `resolve`. */
  method ReadQuery(lib: Library, query: seq<(string, string)>) returns (q: Query)
    ensures q == Fold(lib, query)
  {
    q := Query(None, None, false);
    for i := 0 to |query|
      invariant q == Fold(lib, query[..i])
    {
      assert query[..i + 1][..i] == query[..i];
      q := Step(lib, q, query[i].0, query[i].1);
    }
    assert query[..|query|] == query;
  }

  // ---------------------------------------------------------------------------
  // Resolve

  /** `url.pathname.slice(1)`. */
  function AfterSlash(path: string): string {
    if path == [] then [] else path[1..]
  }

  /** The address of the link's path, with the bounce flag its form gives: raw never bounces. */
  function Recipient(lib: Library, path: string): (r: Option<(Address, bool)>)
    ensures r.Some? && lib.isRaw(AfterSlash(path)) ==> !r.value.1
    ensures r.None? <==> if lib.isRaw(AfterSlash(path)) then lib.parseRaw(AfterSlash(path)).None?
                         else !lib.isFriendly(AfterSlash(path)) || lib.parseFriendly(AfterSlash(path)).None?
  {
    var s := AfterSlash(path);
    if lib.isRaw(s) then
      match lib.parseRaw(s)
      case Some(a) => Some((a, false))
      case None => None
    else if lib.isFriendly(s) then lib.parseFriendly(s)
    else None
  }

  /** What `resolve` answers for a scanned text: a transfer, or no action. */
  function Resolved(lib: Library, value: string): (action: Option<QrTransfer>)
    ensures action.Some? <==> (lib.parseUrl(value).Some? && lib.parseUrl(value).value.protocol == "ton:"
      && Recipient(lib, lib.parseUrl(value).value.pathname).Some?
      && forall i :: 0 <= i < |lib.parseUrl(value).value.query| ==> !Refuses(lib, lib.parseUrl(value).value.query[i]))
  {
    match lib.parseUrl(value)
    case None => None
    case Some(url) =>
      if url.protocol != "ton:" then None
      else
        match Recipient(lib, url.pathname)
        case None => None
        case Some((address, bounceable)) =>
          var q := Fold(lib, url.query);
          FoldUnsupported(lib, url.query);
          if q.unsupported then None
          else Some(QrTransfer(lib.render(address, bounceable), q.asset, q.amount))
  }

  /** A resolved transfer carries the last amount as written and the last jetton in raw form. */
  lemma ResolvedFields(lib: Library, value: string)
    requires Resolved(lib, value).Some?
    ensures var query := lib.parseUrl(value).value.query;
      && Resolved(lib, value).value.amount == LastValue(query, "amount")
      && Resolved(lib, value).value.asset == match LastValue(query, "jetton")
         case None => None
         case Some(v) => Some(ToRawString(lib.parse(v).value))
  {
    var query := lib.parseUrl(value).value.query;
    FoldAmount(lib, query);
    FoldAsset(lib, query);
  }

  /** `QRProvider.resolve`. */
  method Resolve(lib: Library, value: string) returns (action: Option<QrTransfer>)
    ensures action == Resolved(lib, value)
  {
    var url := lib.parseUrl(value);
    if url.None? || url.value.protocol != "ton:" {
      return None;
    }
    var recipient := Recipient(lib, url.value.pathname);
    if recipient.None? {
      return None;
    }
    var q := ReadQuery(lib, url.value.query);
    if q.unsupported {
      return None;
    }
    var (address, bounceable) := recipient.value;
    return Some(QrTransfer(lib.render(address, bounceable), q.asset, q.amount));
  }

  // ---------------------------------------------------------------------------
  // Generate

  /** What the wallet asks a link for: a transfer (of an asset, by address) or something else. */
  datatype Purpose = TransferPurpose(recipient: string, asset: Option<string>) | OtherPurpose

  /** Whether a transfer names a jetton: an asset other than the coin `_`. */
  predicate NamesJetton(asset: Option<string>) {
    asset.Some? && asset.value != "_"
  }

  /**
   * `QRProvider.generate`: the recipient, non-bounceable, after `ton://transfer/`, and a
   * `jetton` parameter for a jetton; an address the library cannot parse throws.
   */
  function Generate(lib: Library, purpose: Purpose): (r: Result<Option<string>>)
    ensures purpose.OtherPurpose? ==> r == Ok(None)
    ensures purpose.TransferPurpose? ==>
      (r.Ok? <==> lib.parse(purpose.recipient).Some? && (NamesJetton(purpose.asset) ==> lib.parse(purpose.asset.value).Some?))
    ensures purpose.TransferPurpose? && r.Ok? ==> r.value.Some?
    ensures purpose.TransferPurpose? && r.Ok? ==>
      r.value.value == "ton://transfer/" + lib.render(lib.parse(purpose.recipient).value, false)
        + (if NamesJetton(purpose.asset) then "?jetton=" + lib.render(lib.parse(purpose.asset.value).value, true) else "")
  {
    match purpose
    case OtherPurpose => Ok(None)
    case TransferPurpose(recipient, asset) =>
      match lib.parse(recipient)
      case None => Err(Thrown("Error"))
      case Some(to) =>
        var link := "ton://transfer/" + lib.render(to, false);
        if NamesJetton(asset) then
          match lib.parse(asset.value)
          case None => Err(Thrown("Error"))
          case Some(jetton) => Ok(Some(link + "?jetton=" + lib.render(jetton, true)))
        else Ok(Some(link))
  }

  /** A character a URL-safe address rendering uses. */
  predicate UrlSafeChar(c: char) {
    'A' <= c <= 'Z' || 'a' <= c <= 'z' || '0' <= c <= '9' || c == '-' || c == '_'
  }

  predicate UrlSafe(s: string) {
    forall i :: 0 <= i < |s| ==> UrlSafeChar(s[i])
  }

  /**
   * What the round trip of a generated link takes from the libraries: a rendering is
   * URL-safe, in friendly (not raw) form, and reads back as the address and flag it was
   * made from; and the URL class splits a transfer link into its path and its `jetton` pair.
   */
  ghost predicate Coherent(lib: Library) {
    && (forall a, b :: UrlSafe(lib.render(a, b)) && !lib.isRaw(lib.render(a, b)) && lib.isFriendly(lib.render(a, b))
          && lib.parseFriendly(lib.render(a, b)) == Some((a, b)) && lib.parse(lib.render(a, b)) == Some(a))
    && (forall x: string :: UrlSafe(x) ==>
          lib.parseUrl("ton://transfer/" + x) == Some(Url("ton:", "/" + x, [])))
    && (forall x: string, y: string :: UrlSafe(x) && UrlSafe(y) ==>
          lib.parseUrl("ton://transfer/" + x + "?jetton=" + y) == Some(Url("ton:", "/" + x, [("jetton", y)])))
  }

  /**
   * A generated link resolves to the transfer it was made for: the recipient rendered
   * non-bounceable, and the jetton (if any) in raw form, with no amount.
   */
  lemma GenerateThenResolve(lib: Library, recipient: string, asset: Option<string>)
    requires Coherent(lib)
    requires Generate(lib, TransferPurpose(recipient, asset)).Ok?
    ensures Resolved(lib, Generate(lib, TransferPurpose(recipient, asset)).value.value)
      == Some(QrTransfer(lib.render(lib.parse(recipient).value, false),
                         if NamesJetton(asset) then Some(ToRawString(lib.parse(asset.value).value)) else None,
                         None))
  {
    var to := lib.parse(recipient).value;
    var x := lib.render(to, false);
    assert AfterSlash("/" + x) == x;
    var link := Generate(lib, TransferPurpose(recipient, asset)).value.value;
    if NamesJetton(asset) {
      var jetton := lib.parse(asset.value).value;
      var y := lib.render(jetton, true);
      assert link == "ton://transfer/" + x + "?jetton=" + y;
      var query := [("jetton", y)];
      assert ToLower("jetton") == "jetton";
      assert query[..0] == [];
      assert Fold(lib, query) == Query(Some(ToRawString(jetton)), None, false);
    } else {
      assert link == "ton://transfer/" + x;
    }
  }
}
