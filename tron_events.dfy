/**
 * The TRON plugin's events provider: TRC-10 and TRC-20/721 transfers from tronscan become
 * wallet events; `update` adds the energy fee, `status` reads the transaction's result.
 */
module TronEvents {
  import opened Wrappers
  import opened JsText
  import opened Units
  import opened Plugin
  import opened TronImages

  /** A TRC-10 transfer; `timestamp` in milliseconds. */
  datatype Trc10Transfer = Trc10Transfer(amount: string, transactionHash: string, transferFromAddress: string,
                                         transferToAddress: string, timestamp: int, tokenInfo: TokenInfo)

  /** A TRC-20 or TRC-721 transfer; `blockTs` in milliseconds. */
  datatype Trc20Transfer = Trc20Transfer(quant: string, transactionId: string, fromAddress: string, toAddress: string,
                                         contractAddress: string, blockTs: int, tokenInfo: TokenInfo)

  /** The amount's sign for an event type: only incoming and outgoing transfers have one. */
  function CurrencyOptionsFor(kind: string): (r: Option<CurrencyOptions>)
    ensures r.Some? <==> kind == Income || kind == Outcome
    ensures kind == Income ==> r == Some(Positive)
    ensures kind == Outcome ==> r == Some(Negative)
  {
    if kind == Income then Some(Positive)
    else if kind == Outcome then Some(Negative)
    else None
  }

  /** What a transfer shows: the token logo, the amount, and the other side of the transfer. */
  datatype Preview = Preview(images: seq<Image>, text: Text, complementary: seq<Field>)

  /**
   * The transfer parsers' shared rule: the owner sending makes it outgoing with the
   * recipient under 'Receipt', otherwise incoming with the sender under 'Sender'. An
   * amount that is not an integer literal makes `bn` throw.
   */
  function ParseTransfer(address: string, from: string, to: string, quantity: string, info: TokenInfo)
    : Result<(Preview, string)>
  {
    var value :- BnOfText(quantity, info.tokenDecimal);
    var (counterpart, kind, title) := if address == from then (to, Outcome, "Receipt") else (from, Income, "Sender");
    Ok((Preview(ImagesWithTokenInfo(Some(info)),
                Text(value, Some(Currency(ToUpper(info.tokenAbbr), CurrencyOptionsFor(kind))), false),
                [Field(title, Plain(counterpart))]),
        kind))
  }

  /** `parseTRC10Transfer`. */
  function ParseTrc10Transfer(address: string, t: Trc10Transfer): Result<(Preview, string)> {
    ParseTransfer(address, t.transferFromAddress, t.transferToAddress, t.amount, t.tokenInfo)
  }

  /** `parseTRC20TRC721Transfer`. */
  function ParseTrc20Transfer(address: string, t: Trc20Transfer): Result<(Preview, string)> {
    ParseTransfer(address, t.fromAddress, t.toAddress, t.quant, t.tokenInfo)
  }

  /**
   * A transfer is outgoing exactly when the owner sent it; the shown amount then carries a
   * negative sign and the field names the recipient, otherwise a positive sign and the
   * sender. The currency is the token's abbreviation in upper case, and the amount reads
   * back as the transferred quantity.
   */
  lemma TransferDirection(address: string, from: string, to: string, quantity: string, info: TokenInfo)
    requires BigIntOf(quantity).Some?
    ensures var r := ParseTransfer(address, from, to, quantity, info);
      var outgoing := address == from;
      r.Ok?
      && (r.value.1 == Outcome <==> outgoing) && (r.value.1 == Income <==> !outgoing)
      && r.value.0.text.currency == Some(Currency(ToUpper(info.tokenAbbr), Some(if outgoing then Negative else Positive)))
      && r.value.0.complementary == [Field(if outgoing then "Receipt" else "Sender", Plain(if outgoing then to else from))]
      && (BigIntOf(quantity).value >= 0 ==>
            ParseUnits(r.value.0.text.value, info.tokenDecimal) == BigIntOf(quantity))
  {
    if BigIntOf(quantity).value >= 0 {
      BnRoundTrip(BigIntOf(quantity).value, info.tokenDecimal);
    }
  }

  /** A fetched transfer is a confirmed, incomplete event; tokens tronscan hides are malicious. */
  function EventOf(hash: string, timestampMs: int, asset: string, info: TokenInfo, parsed: (Preview, string)): Event {
    Event(hash, timestampMs as real / 1000.0, Success, parsed.1, info.tokenCanShow > 2, true, asset,
          parsed.0.images, parsed.0.text, parsed.0.complementary)
  }

  function Trc10Events(address: string, transfers: seq<Trc10Transfer>): (r: Result<seq<Event>>)
    ensures r.Ok? ==> |r.value| == |transfers|
  {
    if transfers == [] then Ok([])
    else
      var t := transfers[0];
      var parsed :- ParseTrc10Transfer(address, t);
      var rest :- Trc10Events(address, transfers[1..]);
      Ok([EventOf(t.transactionHash, t.timestamp, t.tokenInfo.tokenId, t.tokenInfo, parsed)] + rest)
  }

  function Trc20Events(address: string, transfers: seq<Trc20Transfer>): (r: Result<seq<Event>>)
    ensures r.Ok? ==> |r.value| == |transfers|
  {
    if transfers == [] then Ok([])
    else
      var t := transfers[0];
      var parsed :- ParseTrc20Transfer(address, t);
      var rest :- Trc20Events(address, transfers[1..]);
      Ok([EventOf(t.transactionId, t.blockTs, t.contractAddress, t.tokenInfo, parsed)] + rest)
  }

  /**
   * Every TRC-10 event is a success, incomplete, hashed by its transaction, filed under the
   * token id, and malicious exactly when tronscan would not show the token.
   */
  lemma {:induction false} Trc10EventsShape(address: string, transfers: seq<Trc10Transfer>)
    requires Trc10Events(address, transfers).Ok?
    ensures forall k :: 0 <= k < |transfers| ==>
      var e := Trc10Events(address, transfers).value[k];
      e.hash == transfers[k].transactionHash && e.status == Success && e.incomplete
      && e.asset == transfers[k].tokenInfo.tokenId
      && (e.malicious <==> transfers[k].tokenInfo.tokenCanShow > 2)
      && e.date == transfers[k].timestamp as real / 1000.0
  {
    if transfers != [] {
      Trc10EventsShape(address, transfers[1..]);
      var events := Trc10Events(address, transfers).value;
      forall k | 1 <= k < |transfers|
        ensures events[k] == Trc10Events(address, transfers[1..]).value[k - 1]
      {
      }
    }
  }

  /** The same for TRC-20/721 events, filed under the token contract. */
  lemma {:induction false} Trc20EventsShape(address: string, transfers: seq<Trc20Transfer>)
    requires Trc20Events(address, transfers).Ok?
    ensures forall k :: 0 <= k < |transfers| ==>
      var e := Trc20Events(address, transfers).value[k];
      e.hash == transfers[k].transactionId && e.status == Success && e.incomplete
      && e.asset == transfers[k].contractAddress
      && (e.malicious <==> transfers[k].tokenInfo.tokenCanShow > 2)
      && e.date == transfers[k].blockTs as real / 1000.0
  {
    if transfers != [] {
      Trc20EventsShape(address, transfers[1..]);
      var events := Trc20Events(address, transfers).value;
      forall k | 1 <= k < |transfers|
        ensures events[k] == Trc20Events(address, transfers[1..]).value[k - 1]
      {
      }
    }
  }

  // ---------------------------------------------------------------------------
  // update, status

  /** The part of tronscan's `transaction-info` the provider reads. */
  datatype TransactionInfo = TransactionInfo(contractRet: Option<string>, energyFee: int)

  /** The fee line `update` adds: the energy fee in TRX, as plain text. */
  function FeeField(energyFee: int): Field {
    Field("Fees", Text(Bn(energyFee, 6) + " TRX", None, false))
  }

  /**
   * `update`: a failed lookup leaves the event alone; otherwise the event is marked
   * complete and the fee line is appended after the fields it had.
   */
  method Update(record: EventRecord, getTransaction: string -> Option<TransactionInfo>) returns (r: Result<EventRecord>)
    modifies record
    ensures getTransaction(old(record.event.hash)).None? ==>
      r == Err(Thrown("Error")) && record.event == old(record.event)
    ensures getTransaction(old(record.event.hash)).Some? ==>
      r == Ok(record)
      && record.event == old(record.event).(incomplete := false,
           complementary := old(record.event.complementary)
             + [FeeField(getTransaction(old(record.event.hash)).value.energyFee)])
  {
    var response := getTransaction(record.event.hash);
    if response.None? {
      return Err(Thrown("Error"));
    }
    var fee := Bn(response.value.energyFee, 6);
    record.event := record.event.(incomplete := false);
    var complementary := record.event.complementary;
    complementary := complementary + [Field("Fees", Text(fee + " TRX", None, false))];
    record.event := record.event.(complementary := complementary);
    return Ok(record);
  }

  /** `status`: 'SUCCESS' is a success, any other result a failure. */
  function StatusOf(hash: string, getTransaction: string -> Option<TransactionInfo>): (r: Result<Status>)
    ensures getTransaction(hash).None? <==> r.Err?
    ensures r.Ok? ==> (r.value == Success <==> getTransaction(hash).value.contractRet == Some("SUCCESS"))
    ensures r.Ok? ==> r.value in {Success, Failed}
  {
    match getTransaction(hash)
    case None => Err(Thrown("Error"))
    case Some(info) => if info.contractRet == Some("SUCCESS") then Ok(Success) else Ok(Failed)
  }

  // ---------------------------------------------------------------------------
  // fetch

  datatype Window = After(after: real) | Before(before: real)

  /** A page request for one list of transfers; times in milliseconds. */
  datatype TransfersRequest = TransfersRequest(address: string, startTimestamp: real,
                                               endTimestamp: Option<real>, start: nat, limit: nat)

  /** tronscan: the two transfer lists, `None` where the request fails. */
  datatype Tronscan = Tronscan(trc10: TransfersRequest -> Option<seq<Trc10Transfer>>,
                               trc20: TransfersRequest -> Option<seq<Trc20Transfer>>)

  const Page: nat := 1000

  /** The first block of TRON's history, in milliseconds. */
  const TronGenesis: real := 1529856000000.0

  /** The time a fetch covers: from a moment on, or all of TRON's history before one. */
  function Span(w: Window): (real, Option<real>) {
    match w
    case After(after) => (after * 1000.0, None)
    case Before(before) => (TronGenesis, Some(before * 1000.0))
  }

  function RequestAt(address: string, w: Window, start: nat): (q: TransfersRequest)
    ensures q.address == address && q.start == start && q.limit == Page
    ensures w.After? ==> q.startTimestamp == w.after * 1000.0 && q.endTimestamp.None?
    ensures w.Before? ==> q.startTimestamp == TronGenesis && q.endTimestamp == Some(w.before * 1000.0)
  {
    TransfersRequest(address, Span(w).0, Span(w).1, start, Page)
  }

  /** A sort by the engine: some reordering of the events. */
  ghost predicate Reorders(sort: seq<Event> -> seq<Event>) {
    forall events :: multiset(sort(events)) == multiset(events)
  }

  /** The events of both lists, TRC-10 first, before the final sort. */
  function Combined(address: string, trc10: seq<Trc10Transfer>, trc20: seq<Trc20Transfer>): Result<seq<Event>> {
    var first :- Trc10Events(address, trc10);
    var second :- Trc20Events(address, trc20);
    Ok(first + second)
  }

  /**
   * The request loop of `fetch` as written: a list is requested while its length is a
   * multiple of the page, and the loop ends once both lengths modulo the page are at least
   * zero, which always holds, so each list is requested once, from its start. The loop's
   * closing `break` test is carried in `done`.
   */
  method RequestAsWritten(address: string, w: Window, scan: Tronscan)
    returns (r: Result<(seq<Trc10Transfer>, seq<Trc20Transfer>)>)
    ensures match (scan.trc10(RequestAt(address, w, 0)), scan.trc20(RequestAt(address, w, 0)))
      case (Some(trc10), Some(trc20)) => r == Ok((trc10, trc20))
      case _ => r == Err(Thrown("Error"))
  {
    var (startTimestamp, endTimestamp) := Span(w);
    var trc10: seq<Trc10Transfer> := [];
    var trc20: seq<Trc20Transfer> := [];
    var done := false;
    while !done
      invariant !done ==> trc10 == [] && trc20 == []
      invariant done ==> (Some(trc10) == scan.trc10(RequestAt(address, w, 0))
                          && Some(trc20) == scan.trc20(RequestAt(address, w, 0)))
      decreases if done then 0 else 1
    {
      assert TransfersRequest(address, startTimestamp, endTimestamp, 0, Page) == RequestAt(address, w, 0);
      if |trc10| % Page == 0 {
        var response := scan.trc10(TransfersRequest(address, startTimestamp, endTimestamp, |trc10|, Page));
        if response.None? {
          return Err(Thrown("Error"));
        }
        trc10 := trc10 + response.value;
        assert trc10 == response.value;
      }
      if |trc20| % Page == 0 {
        var response := scan.trc20(TransfersRequest(address, startTimestamp, endTimestamp, |trc20|, Page));
        if response.None? {
          return Err(Thrown("Error"));
        }
        trc20 := trc20 + response.value;
        assert trc20 == response.value;
      }
      done := |trc10| % Page >= 0 && |trc20| % Page >= 0;
    }
    return Ok((trc10, trc20));
  }

  /** `fetch` as written: the first page of each list, mapped to events and sorted. */
  method FetchAsWritten(address: string, w: Window, scan: Tronscan, sort: seq<Event> -> seq<Event>)
    returns (r: Result<seq<Event>>)
    ensures match (scan.trc10(RequestAt(address, w, 0)), scan.trc20(RequestAt(address, w, 0)))
      case (Some(trc10), Some(trc20)) =>
        (match Combined(address, trc10, trc20)
         case Ok(events) => r == Ok(sort(events))
         case Err(e) => r == Err(e))
      case _ => r == Err(Thrown("Error"))
  {
    var transfers :- RequestAsWritten(address, w, scan);
    var events :- Combined(address, transfers.0, transfers.1);
    r := Ok(sort(events));
  }

  /** Whatever order the sort leaves, the fetched events are exactly those of both lists. */
  lemma FetchKeepsEvents(address: string, trc10: seq<Trc10Transfer>, trc20: seq<Trc20Transfer>,
                         sort: seq<Event> -> seq<Event>)
    requires Reorders(sort) && Combined(address, trc10, trc20).Ok?
    ensures multiset(sort(Combined(address, trc10, trc20).value))
         == multiset(Trc10Events(address, trc10).value) + multiset(Trc20Events(address, trc20).value)
    ensures |sort(Combined(address, trc10, trc20).value)| == |trc10| + |trc20|
  {
    var events := Combined(address, trc10, trc20).value;
    assert multiset(sort(events)) == multiset(events);
    assert |multiset(sort(events))| == |multiset(events)|;
  }

  /**
   * One list paged to its end: from `|got|` on, a page is requested while the previous one
   * was full, at most `fuel` more times.
   */
  function Collected<T>(get: TransfersRequest -> Option<seq<T>>, address: string, w: Window,
                        got: seq<T>, fuel: nat): Result<seq<T>>
    decreases fuel
  {
    if fuel == 0 then Ok(got)
    else
      match get(RequestAt(address, w, |got|))
      case None => Err(Thrown("Error"))
      case Some(page) =>
        if |page| < Page then Ok(got + page)
        else Collected(get, address, w, got + page, fuel - 1)
  }

  /** A list tronscan serves in order, a page of up to `Page` from any start. */
  ghost predicate Serves<T>(get: TransfersRequest -> Option<seq<T>>, address: string, w: Window, all: seq<T>) {
    forall start: nat {:trigger RequestAt(address, w, start)} :: start <= |all| ==>
      get(RequestAt(address, w, start)) == Some(all[start..if start + Page <= |all| then start + Page else |all|])
  }

  /** With enough requests, paging a served list collects all of it, in order. */
  lemma {:induction false} CollectedAll<T>(get: TransfersRequest -> Option<seq<T>>, address: string, w: Window,
                                           all: seq<T>, start: nat, fuel: nat)
    requires Serves(get, address, w, all) && start <= |all|
    requires (|all| - start) / Page < fuel
    ensures Collected(get, address, w, all[..start], fuel) == Ok(all)
    decreases fuel
  {
    var end := if start + Page <= |all| then start + Page else |all|;
    assert get(RequestAt(address, w, |all[..start]|)) == Some(all[start..end]);
    assert all[..start] + all[start..end] == all[..end];
    if end - start < Page {
      assert all[..end] == all;
    } else {
      assert (|all| - end) / Page < fuel - 1 by {
        assert |all| - end == |all| - start - Page;
      }
      CollectedAll(get, address, w, all, end, fuel - 1);
    }
  }

  /** The paging loop for one list, requesting the next page only after a full one. */
  method CollectList<T>(get: TransfersRequest -> Option<seq<T>>, address: string, w: Window, fuel: nat)
    returns (r: Result<seq<T>>)
    ensures r == Collected(get, address, w, [], fuel)
  {
    var got: seq<T> := [];
    var left := fuel;
    while left > 0
      invariant Collected(get, address, w, got, left) == Collected(get, address, w, [], fuel)
      decreases left
    {
      var page := get(RequestAt(address, w, |got|));
      if page.None? {
        return Err(Thrown("Error"));
      }
      got := got + page.value;
      if |page.value| < Page {
        return Ok(got);
      }
      left := left - 1;
    }
    return Ok(got);
  }

  /** `fetch` with each list paged until a page comes back short. */
  method Fetch(address: string, w: Window, scan: Tronscan, sort: seq<Event> -> seq<Event>, fuel: nat)
    returns (r: Result<seq<Event>>)
    ensures match (Collected(scan.trc10, address, w, [], fuel), Collected(scan.trc20, address, w, [], fuel))
      case (Ok(trc10), Ok(trc20)) =>
        (match Combined(address, trc10, trc20)
         case Ok(events) => r == Ok(sort(events))
         case Err(e) => r == Err(e))
      case (Err(e), _) => r == Err(e)
      case (_, Err(e)) => r == Err(e)
  {
    var trc10 :- CollectList(scan.trc10, address, w, fuel);
    var trc20 :- CollectList(scan.trc20, address, w, fuel);
    var events :- Combined(address, trc10, trc20);
    r := Ok(sort(events));
  }

  /**
   * When tronscan serves both lists in pages, the corrected fetch returns an event for every
   * transfer of both, where the one as written stops at the first page of each.
   */
  lemma FetchComplete(address: string, w: Window, scan: Tronscan, all10: seq<Trc10Transfer>,
                      all20: seq<Trc20Transfer>, fuel: nat)
    requires Serves(scan.trc10, address, w, all10) && Serves(scan.trc20, address, w, all20)
    requires |all10| / Page < fuel && |all20| / Page < fuel
    ensures Collected(scan.trc10, address, w, [], fuel) == Ok(all10)
    ensures Collected(scan.trc20, address, w, [], fuel) == Ok(all20)
  {
    assert all10[..0] == [];
    assert all20[..0] == [];
    CollectedAll(scan.trc10, address, w, all10, 0, fuel);
    CollectedAll(scan.trc20, address, w, all20, 0, fuel);
  }

  /** The first page of a served list: up to `Page` transfers from its start. */
  function FirstPage<T>(all: seq<T>): seq<T> {
    all[..if |all| < Page then |all| else Page]
  }

  /**
   * As written, a TRC-10 history longer than a page loses everything past the first page:
   * the fetch returns the sorted events of the first page of each list only, fewer events
   * than tronscan serves transfers.
   */
  method FirstPageOnly(address: string, w: Window, scan: Tronscan, sort: seq<Event> -> seq<Event>,
                       all10: seq<Trc10Transfer>, all20: seq<Trc20Transfer>)
    returns (r: Result<seq<Event>>)
    requires Serves(scan.trc10, address, w, all10) && Serves(scan.trc20, address, w, all20)
    requires |all10| > Page && Reorders(sort)
    ensures var events := Combined(address, FirstPage(all10), FirstPage(all20));
      (events.Err? ==> r == Err(events.error))
      && (events.Ok? ==> r == Ok(sort(events.value)) && |r.value| < |all10| + |all20|)
  {
    assert scan.trc10(RequestAt(address, w, 0)) == Some(FirstPage(all10)) by {
      assert all10[0..Page] == FirstPage(all10);
    }
    assert scan.trc20(RequestAt(address, w, 0)) == Some(FirstPage(all20)) by {
      assert all20[0..if Page <= |all20| then Page else |all20|] == FirstPage(all20);
    }
    r := FetchAsWritten(address, w, scan, sort);
    ghost var events := Combined(address, FirstPage(all10), FirstPage(all20));
    if events.Ok? {
      FetchKeepsEvents(address, FirstPage(all10), FirstPage(all20), sort);
    }
  }
}
