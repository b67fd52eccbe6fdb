/**
 * What the blockscout plugins read from a blockscout explorer, and the paging walk both
 * event lists share: a page of items and the cursor of the next page; the items outside
 * the requested time are dropped, the rest are parsed, and the walk goes on while a whole
 * page was kept and there is a next page.
 */
module BlockscoutApi {
  import opened Wrappers
  import opened JsText
  import opened Units
  import opened Plugin

  /** The chain's own coin: the wallet shows it by symbol and image. */
  datatype Network = Network(symbol: string, decimals: Decimals, image: Image)

  /** `NextPageParameters`. */
  datatype Cursor = Cursor(blockNumber: int, index: int)

  /** `NextPageResponse`. */
  datatype Page<T> = Page(items: seq<T>, next: Option<Cursor>)

  /**
   * `Transaction`: the fields the plugins read. `to` is absent for a contract creation;
   * `txTypes` is absent when the explorer leaves it out.
   */
  datatype Transaction = Transaction(timestamp: string, feeType: string, feeValue: string, status: string,
                                     calledMethod: Option<string>, from: string, to: Option<string>, hash: string,
                                     txTypes: Option<seq<string>>, value: string)

  /** `TokenInformation`. */
  datatype TokenInformation = TokenInformation(name: string, decimals: string, symbol: string, address: string,
                                               kind: string, exchangeRate: string, iconUrl: Option<string>)

  /** `TotalERC20`; other kinds of total carry no value. */
  datatype TotalErc20 = TotalErc20(decimals: string, value: string)

  /** `TokenTransfer`. */
  datatype TokenTransfer = TokenTransfer(from: string, to: string, timestamp: string, token: TokenInformation,
                                         total: Option<TotalErc20>, txHash: string)

  /** `TokenBalance`. */
  datatype TokenBalance = TokenBalance(value: string, token: TokenInformation)

  /**
   * What the plugins ask of the explorer, all for one network. `timeOf` is `new Date(text)`
   * in milliseconds (`None` for an invalid date); `transaction` answers `None` on any
   * failure, since the source swallows it.
   */
  datatype Explorer = Explorer(transactions: (string, Option<Cursor>) -> Result<Page<Transaction>>,
                               tokenTransfers: (string, Option<Cursor>) -> Result<Page<TokenTransfer>>,
                               transaction: string -> Option<Transaction>,
                               tokenBalances: string -> Result<seq<TokenBalance>>,
                               timeOf: string -> Option<int>)

  /** An optional text that is present and not empty: what a JavaScript `if` accepts. */
  predicate Truthy(text: Option<string>) {
    text.Some? && |text.value| > 0
  }

  /**
   * `bn` on a token amount whose decimals come from the explorer: `BigInt(value)` is read
   * first; a negative count makes the power of ten a fraction, which `BigInt` refuses.
   * Counts above 22 lie outside the model.
   */
  function TokenBn(value: string, decimals: int): (r: Result<string>)
    ensures r.Ok? <==> BigIntOf(value).Some? && 0 <= decimals <= MaxExactDecimals
    ensures r.Ok? ==> r.value == Bn(BigIntOf(value).value, decimals)
  {
    if BigIntOf(value).None? then Err(Thrown("SyntaxError"))
    else if decimals < 0 then Err(Thrown("RangeError"))
    else if decimals > MaxExactDecimals then Err(Thrown("Inexact power of ten"))
    else Ok(Bn(BigIntOf(value).value, decimals))
  }

  /** `parseInt(decimals) || network.decimals`: the token's own count unless it is NaN or 0. */
  function TokenDecimals(decimals: string, network: Network): (d: int)
    ensures ParseInt(decimals).Some? && ParseInt(decimals).value != 0 ==> d == ParseInt(decimals).value
    ensures ParseInt(decimals).None? || ParseInt(decimals).value == 0 ==> d == network.decimals
  {
    ParseIntOr(decimals, network.decimals)
  }

  // ---------------------------------------------------------------------------
  // The time filter

  /** The request's time: events before a moment, or after one, in seconds. */
  datatype Window = Before(before: real) | After(after: real)

  /** `new Date(seconds * 1000).getTime()`: the milliseconds, truncated toward zero. */
  function MomentMs(seconds: real): int {
    var ms := seconds * 1000.0;
    if ms >= 0.0 then ms.Floor else -((-ms).Floor)
  }

  /** The strict filter: a time the explorer could not parse compares false either way. */
  predicate InWindow(w: Window, ms: Option<int>) {
    ms.Some? && match w
      case Before(before) => ms.value < MomentMs(before)
      case After(after) => ms.value > MomentMs(after)
  }

  /** An event dated (in seconds) inside the window, as the filter measures it. */
  predicate DatedIn(w: Window, date: real) {
    match w
    case Before(before) => date * 1000.0 < MomentMs(before) as real
    case After(after) => date * 1000.0 > MomentMs(after) as real
  }

  /** An event dated from a kept item's milliseconds lies inside the window. */
  lemma KeptDated(w: Window, ms: int)
    requires InWindow(w, Some(ms))
    ensures DatedIn(w, ms as real / 1000.0)
  {
    assert (ms as real / 1000.0) * 1000.0 == ms as real;
  }

  /** The items of a page the filter keeps, in order, each with its time in milliseconds. */
  function Kept<T>(w: Window, stamp: T -> Option<int>, items: seq<T>): (kept: seq<(T, int)>)
    ensures |kept| <= |items|
  {
    if items == [] then []
    else
      var rest := Kept(w, stamp, items[1..]);
      if InWindow(w, stamp(items[0])) then [(items[0], stamp(items[0]).value)] + rest else rest
  }

  /** The filter keeps exactly the items inside the window, with their own times. */
  lemma {:induction false} KeptExactly<T>(w: Window, stamp: T -> Option<int>, items: seq<T>)
    ensures forall p :: p in Kept(w, stamp, items) ==>
      p.0 in items && stamp(p.0) == Some(p.1) && InWindow(w, Some(p.1))
    ensures forall t :: t in items && InWindow(w, stamp(t)) ==> (t, stamp(t).value) in Kept(w, stamp, items)
    ensures |Kept(w, stamp, items)| == |items| <==> forall t :: t in items ==> InWindow(w, stamp(t))
  {
    if items != [] {
      KeptExactly(w, stamp, items[1..]);
      forall t | t in items
        ensures t == items[0] || t in items[1..]
      {
      }
    }
  }

  /** The events parsing the kept items gives: an item may give none, and an error aborts. */
  function ParseKept<T>(parse: (T, int) -> Result<Option<Event>>, kept: seq<(T, int)>): (r: Result<seq<Event>>)
    ensures r.Ok? ==> |r.value| <= |kept|
  {
    if kept == [] then Ok([])
    else
      var first :- parse(kept[0].0, kept[0].1);
      var rest :- ParseKept(parse, kept[1..]);
      Ok(if first.Some? then [first.value] + rest else rest)
  }

  /** Every event `parse` makes of an item inside the window has property `P`. */
  ghost predicate ParserKeeps<T(!new)>(w: Window, parse: (T, int) -> Result<Option<Event>>, P: Event -> bool) {
    forall x: T, ms: int ::
      InWindow(w, Some(ms)) && parse(x, ms).Ok? && parse(x, ms).value.Some? ==> P(parse(x, ms).value.value)
  }

  lemma {:induction false} ParseKeptKeeps<T(!new)>(w: Window, parse: (T, int) -> Result<Option<Event>>,
                                             P: Event -> bool, kept: seq<(T, int)>)
    requires ParserKeeps(w, parse, P)
    requires forall p :: p in kept ==> InWindow(w, Some(p.1))
    ensures ParseKept(parse, kept).Ok? ==> forall e :: e in ParseKept(parse, kept).value ==> P(e)
  {
    if kept != [] {
      assert kept[0] in kept;
      ParseKeptKeeps(w, parse, P, kept[1..]);
    }
  }

  /** Whether the walk stops after a page: nothing kept, something dropped, or no next page. */
  predicate Stops<T>(page: Page<T>, kept: nat) {
    kept == 0 || kept != |page.items| || page.next.None?
  }

  /**
   * The events of the pages from `cursor` on, at most `fuel` pages: a failed request fails
   * the walk, as does a failed parse.
   */
  function Walk<T>(get: Option<Cursor> -> Result<Page<T>>, w: Window, stamp: T -> Option<int>,
                   parse: (T, int) -> Result<Option<Event>>, cursor: Option<Cursor>, fuel: nat): Result<seq<Event>>
    decreases fuel
  {
    if fuel == 0 then Ok([])
    else
      var page :- get(cursor);
      var kept := Kept(w, stamp, page.items);
      var events :- ParseKept(parse, kept);
      if Stops(page, |kept|) then Ok(events)
      else
        var rest :- Walk(get, w, stamp, parse, page.next, fuel - 1);
        Ok(events + rest)
  }

  /** `events` followed by what `r` holds, or the failure of `r`. */
  function Prepend(events: seq<Event>, r: Result<seq<Event>>): Result<seq<Event>> {
    match r
    case Ok(more) => Ok(events + more)
    case Err(e) => Err(e)
  }

  lemma PrependTwice(first: seq<Event>, second: seq<Event>, r: Result<seq<Event>>)
    ensures Prepend(first, Prepend(second, r)) == Prepend(first + second, r)
  {
    if r.Ok? {
      assert first + (second + r.value) == (first + second) + r.value;
    }
  }

  /** The paging loop both event lists share; `fuel` bounds the number of pages. */
  method WalkPages<T>(get: Option<Cursor> -> Result<Page<T>>, w: Window, stamp: T -> Option<int>,
                      parse: (T, int) -> Result<Option<Event>>, fuel: nat) returns (r: Result<seq<Event>>)
    ensures r == Walk(get, w, stamp, parse, None, fuel)
  {
    var events: seq<Event> := [];
    var next: Option<Cursor> := None;
    var left := fuel;
    assert Prepend(events, Walk(get, w, stamp, parse, next, left)) == Walk(get, w, stamp, parse, None, fuel) by {
      var whole := Walk(get, w, stamp, parse, None, fuel);
      if whole.Ok? {
        assert [] + whole.value == whole.value;
      }
    }
    while left > 0
      invariant Prepend(events, Walk(get, w, stamp, parse, next, left)) == Walk(get, w, stamp, parse, None, fuel)
      decreases left
    {
      var result := get(next);
      if result.Err? {
        return Err(result.error);
      }
      var kept := Kept(w, stamp, result.value.items);
      var parsed := ParseKept(parse, kept);
      if parsed.Err? {
        return Err(parsed.error);
      }
      ghost var before := events;
      ghost var cursor := next;
      events := events + parsed.value;
      next := result.value.next;
      if |kept| == 0 || |kept| != |result.value.items| || next.None? {
        return Ok(events);
      }
      assert Walk(get, w, stamp, parse, cursor, left) == Prepend(parsed.value, Walk(get, w, stamp, parse, next, left - 1));
      PrependTwice(before, parsed.value, Walk(get, w, stamp, parse, next, left - 1));
      left := left - 1;
    }
    assert Walk(get, w, stamp, parse, next, 0) == Ok([]);
    assert events + [] == events;
    return Ok(events);
  }

  /**
   * Every event of a walk comes from an item inside the window: whatever `parse` promises
   * for such items holds of the whole result.
   */
  lemma {:induction false} WalkKeeps<T(!new)>(get: Option<Cursor> -> Result<Page<T>>, w: Window, stamp: T -> Option<int>,
                                        parse: (T, int) -> Result<Option<Event>>, P: Event -> bool,
                                        cursor: Option<Cursor>, fuel: nat)
    requires ParserKeeps(w, parse, P)
    ensures Walk(get, w, stamp, parse, cursor, fuel).Ok? ==>
      forall e :: e in Walk(get, w, stamp, parse, cursor, fuel).value ==> P(e)
    decreases fuel
  {
    if fuel > 0 && get(cursor).Ok? {
      var page := get(cursor).value;
      var kept := Kept(w, stamp, page.items);
      KeptExactly(w, stamp, page.items);
      ParseKeptKeeps(w, parse, P, kept);
      WalkKeeps(get, w, stamp, parse, P, page.next, fuel - 1);
    }
  }

  /**
   * A walk that gets past its first page keeps every item of it, and the walk of a single
   * page whose items all lie in the window parses all of them.
   */
  lemma WalkFirstPage<T>(get: Option<Cursor> -> Result<Page<T>>, w: Window, stamp: T -> Option<int>,
                         parse: (T, int) -> Result<Option<Event>>, fuel: nat)
    requires fuel > 0 && get(None).Ok?
    requires ParseKept(parse, Kept(w, stamp, get(None).value.items)).Ok?
    ensures var page := get(None).value;
      var first := ParseKept(parse, Kept(w, stamp, page.items)).value;
      Walk(get, w, stamp, parse, None, fuel).Ok? ==> first <= Walk(get, w, stamp, parse, None, fuel).value
    ensures var page := get(None).value;
      !Stops(page, |Kept(w, stamp, page.items)|) ==> forall t :: t in page.items ==> InWindow(w, stamp(t))
  {
    var page := get(None).value;
    KeptExactly(w, stamp, page.items);
  }
}
