/**
 * The TON plugin's events provider: an account event from tonapi carries a list of
 * actions; each supported action becomes one wallet event with its own hash, and the
 * account's history is fetched page by page.
 */
module TonEvents {
  import opened Wrappers
  import opened JsText
  import opened Units
  import opened Plugin

  /** `JettonPreview`: the fields an event shows. */
  datatype Jetton = Jetton(address: string, symbol: string, decimals: Decimals, image: string)

  // Actions; an account appears by its raw address. Amounts in nanotons are integral
  // numbers, jetton amounts are decimal text.
  datatype TonTransferAction = TonTransferAction(sender: string, recipient: string, amount: int)
  datatype JettonTransferAction =
    JettonTransferAction(sender: Option<string>, recipient: Option<string>, amount: string, jetton: Jetton)
  datatype JettonSwapAction =
    JettonSwapAction(amountIn: string, amountOut: string, router: string, masterIn: Jetton, masterOut: Jetton)
  datatype SubscriptionAction = SubscriptionAction(subscription: string, beneficiary: string, amount: int)
  datatype UnsubscriptionAction = UnsubscriptionAction(subscription: string, beneficiary: string)
  datatype SmartContractAction = SmartContractAction(contract: string, tonAttached: int)

  /**
   * `Action`: its status and the one kind tonapi fills in. The kinds the provider does not
   * show (NFT transfers, auction bids, NFT purchases) only matter by being present.
   */
  datatype Action = Action(
    status: string,
    tonTransfer: Option<TonTransferAction>,
    jettonTransfer: Option<JettonTransferAction>,
    jettonSwap: Option<JettonSwapAction>,
    nftItemTransfer: bool,
    contractDeploy: Option<string>,
    subscribe: Option<SubscriptionAction>,
    unsubscribe: Option<UnsubscriptionAction>,
    auctionBid: bool,
    nftPurchase: bool,
    depositStake: Option<int>,
    recoverStake: Option<int>,
    smartContractExec: Option<SmartContractAction>)

  /** `AccountEvent`; `timestamp` in seconds, `extra` the nanotons refunded (positive) or paid. */
  datatype AccountEvent = AccountEvent(eventId: string, timestamp: nat, actions: seq<Action>,
                                       isScam: bool, inProgress: bool, extra: int)

  /** What one action contributes to its event. */
  datatype Parsed = Parsed(images: seq<Image>, complementary: seq<Field>, text: Text, kind: string, asset: string)

  // ---------------------------------------------------------------------------
  // Parsing one action

  const TonImage: Image := Image("https://ton.org/download/ton_symbol.png")

  /**
   * `addressFromRaw`: no address prints as the empty text; any other is re-printed in the
   * user-friendly url-safe form by `friendly` (the TON library's `Address`).
   */
  function AddressFromRaw(friendly: string -> string, raw: string): string {
    if raw == "" then "" else friendly(raw)
  }

  function TonAmount(nanotons: int, options: CurrencyOptions): Text {
    Amount(Bn(nanotons, 9), "TON", options)
  }

  /** A transfer is outgoing when its sender is the account; the other side is then the recipient. */
  function Directed(outgoing: bool, sender: string, recipient: string): (string, CurrencyOptions, Field) {
    if outgoing then (Outcome, Negative, Field("Recipient", Plain(recipient)))
    else (Income, Positive, Field("Sender", Plain(sender)))
  }

  function ParseTonTransfer(address: string, friendly: string -> string, t: TonTransferAction): Parsed {
    var sender := AddressFromRaw(friendly, t.sender);
    var (kind, options, field) := Directed(sender == address, sender, AddressFromRaw(friendly, t.recipient));
    Parsed([TonImage], [field], TonAmount(t.amount, options), kind, "_")
  }

  /** A jetton amount that is not an integer literal makes `BigInt` throw. */
  function ParseJettonTransfer(address: string, friendly: string -> string, t: JettonTransferAction): Result<Parsed> {
    var sender := AddressFromRaw(friendly, t.sender.GetOr(""));
    var (kind, options, field) := Directed(sender == address, sender, AddressFromRaw(friendly, t.recipient.GetOr("")));
    var value :- BnOfText(t.amount, t.jetton.decimals);
    Ok(Parsed([Image(t.jetton.image)], [field], Amount(value, t.jetton.symbol, options), kind, t.jetton.address))
  }

  /** A swap shows what came in; what went out and the router are the complementary fields. */
  function ParseJettonSwap(friendly: string -> string, s: JettonSwapAction): Result<Parsed> {
    var spent :- BnOfText(s.amountOut, s.masterOut.decimals);
    var received :- BnOfText(s.amountIn, s.masterIn.decimals);
    Ok(Parsed([Image(s.masterIn.image), Image(s.masterOut.image)],
              [Field("Spended", Amount(spent, s.masterOut.symbol, Negative)),
               Field("Router", Plain(AddressFromRaw(friendly, s.router)))],
              Amount(received, s.masterIn.symbol, Positive),
              "Jetton Swap", s.masterIn.address + "#~#" + s.masterOut.address))
  }

  function ParseContractDeploy(friendly: string -> string, contract: string): Parsed {
    Parsed([TonImage], [Field("Address", Plain(AddressFromRaw(friendly, contract)))],
           TonAmount(0, Negative), "Contract Deploy", "_")
  }

  function SubscriptionFields(friendly: string -> string, subscription: string, beneficiary: string): seq<Field> {
    [Field("Subscription", Plain(subscription)), Field("Beneficiary", Plain(AddressFromRaw(friendly, beneficiary)))]
  }

  function ParseSubscribe(friendly: string -> string, s: SubscriptionAction): Parsed {
    Parsed([TonImage], SubscriptionFields(friendly, s.subscription, s.beneficiary),
           TonAmount(s.amount, Negative), Outcome, "_")
  }

  function ParseUnsubscribe(friendly: string -> string, s: UnsubscriptionAction): Parsed {
    Parsed([TonImage], SubscriptionFields(friendly, s.subscription, s.beneficiary),
           TonAmount(0, Negative), Outcome, "_")
  }

  function ParseDepositStake(amount: int): Parsed {
    Parsed([TonImage], [], TonAmount(amount, Negative), "Stake", "_")
  }

  function ParseRecoverStake(amount: int): Parsed {
    Parsed([TonImage], [], TonAmount(amount, Positive), "Unsatake", "_")
  }

  function ParseSmartContractExecution(friendly: string -> string, s: SmartContractAction): Parsed {
    Parsed([TonImage], [Field("Contract Address", Plain(AddressFromRaw(friendly, s.contract)))],
           TonAmount(s.tonAttached, Negative), "Contract Execution", "_")
  }

  /**
   * The first kind present, in the provider's order, decides; NFT transfers, auction bids
   * and NFT purchases give no event (`None`), and neither does an action with no known kind.
   */
  function ParseAction(address: string, friendly: string -> string, a: Action): Result<Option<Parsed>> {
    if a.tonTransfer.Some? then Ok(Some(ParseTonTransfer(address, friendly, a.tonTransfer.value)))
    else if a.jettonTransfer.Some? then
      var p :- ParseJettonTransfer(address, friendly, a.jettonTransfer.value); Ok(Some(p))
    else if a.jettonSwap.Some? then
      var p :- ParseJettonSwap(friendly, a.jettonSwap.value); Ok(Some(p))
    else if a.nftItemTransfer then Ok(None)
    else if a.contractDeploy.Some? then Ok(Some(ParseContractDeploy(friendly, a.contractDeploy.value)))
    else if a.subscribe.Some? then Ok(Some(ParseSubscribe(friendly, a.subscribe.value)))
    else if a.unsubscribe.Some? then Ok(Some(ParseUnsubscribe(friendly, a.unsubscribe.value)))
    else if a.auctionBid then Ok(None)
    else if a.nftPurchase then Ok(None)
    else if a.depositStake.Some? then Ok(Some(ParseDepositStake(a.depositStake.value)))
    else if a.recoverStake.Some? then Ok(Some(ParseRecoverStake(a.recoverStake.value)))
    else if a.smartContractExec.Some? then Ok(Some(ParseSmartContractExecution(friendly, a.smartContractExec.value)))
    else Ok(None)
  }

  /** An action carrying a jetton amount that is not an integer literal. */
  predicate BadJettonAmount(a: Action) {
    if a.jettonTransfer.Some? then
      BigIntOf(a.jettonTransfer.value.amount).None?
    else
      a.jettonSwap.Some? && (BigIntOf(a.jettonSwap.value.amountOut).None? || BigIntOf(a.jettonSwap.value.amountIn).None?)
  }

  /** Whether the first kind present in the action is one the provider shows. */
  predicate Shown(a: Action) {
    a.tonTransfer.Some? || a.jettonTransfer.Some? || a.jettonSwap.Some?
    || (!a.nftItemTransfer
        && (a.contractDeploy.Some? || a.subscribe.Some? || a.unsubscribe.Some?
            || (!a.auctionBid && !a.nftPurchase
                && (a.depositStake.Some? || a.recoverStake.Some? || a.smartContractExec.Some?))))
  }

  /**
   * An action fails only on a bad jetton amount of the kind that decides it, and otherwise
   * yields an event exactly when the deciding kind is one the provider shows.
   */
  lemma ParseActionOutcome(address: string, friendly: string -> string, a: Action)
    ensures a.tonTransfer.None? ==> (ParseAction(address, friendly, a).Err? <==> BadJettonAmount(a))
    ensures a.tonTransfer.Some? ==> ParseAction(address, friendly, a).Ok?
    ensures ParseAction(address, friendly, a).Ok? ==> (ParseAction(address, friendly, a).value.Some? <==> Shown(a))
  {
  }

  /**
   * A transfer of TON or of a jetton is outgoing exactly when the sender, printed
   * user-friendly, is the account: it then shows a negative amount and names the
   * recipient; otherwise a positive amount and the sender.
   */
  lemma TransferDirection(address: string, friendly: string -> string, a: Action)
    requires ParseAction(address, friendly, a).Ok? && ParseAction(address, friendly, a).value.Some?
    requires a.tonTransfer.Some? || a.jettonTransfer.Some?
    ensures var p := ParseAction(address, friendly, a).value.value;
      var sender := if a.tonTransfer.Some? then a.tonTransfer.value.sender else a.jettonTransfer.value.sender.GetOr("");
      var recipient := if a.tonTransfer.Some? then a.tonTransfer.value.recipient else a.jettonTransfer.value.recipient.GetOr("");
      var outgoing := AddressFromRaw(friendly, sender) == address;
      (p.kind == Outcome <==> outgoing) && (p.kind == Income <==> !outgoing)
      && p.text.currency.Some? && p.text.currency.value.options == Some(if outgoing then Negative else Positive)
      && |p.complementary| == 1
      && p.complementary[0].text == Plain(AddressFromRaw(friendly, if outgoing then recipient else sender))
  {
  }

  /** The TON amount an outgoing or incoming transfer shows reads back as its nanotons. */
  lemma TonTransferAmount(address: string, friendly: string -> string, t: TonTransferAction)
    requires t.amount >= 0
    ensures ParseUnits(ParseTonTransfer(address, friendly, t).text.value, 9) == Some(t.amount)
    ensures ParseTonTransfer(address, friendly, t).text.currency.value.abbreviation == "TON"
  {
    BnRoundTrip(t.amount, 9);
  }

  // ---------------------------------------------------------------------------
  // From actions to events

  /** The k-th event of an account event takes the event id, suffixed `#~#k` after the first. */
  function HashFor(eventId: string, k: nat): string {
    if k > 0 then eventId + "#~#" + IntToString(k) else eventId
  }

  /** The events of one account event have pairwise different hashes. */
  lemma HashesDistinct(eventId: string, i: nat, j: nat)
    requires i != j
    ensures HashFor(eventId, i) != HashFor(eventId, j)
  {
    if i > 0 && j > 0 {
      var p := eventId + "#~#";
      if HashFor(eventId, i) == HashFor(eventId, j) {
        assert NatToString(i) == HashFor(eventId, i)[|p|..];
        assert NatToString(j) == HashFor(eventId, j)[|p|..];
        NatToStringInjective(i, j);
      }
    } else {
      NatToStringValue(if i > 0 then i else j);
    }
  }

  /** Pending while tonapi still processes the event, else an error for a failed action. */
  function StatusFor(inProgress: bool, actionStatus: string): Status {
    if inProgress then Pending else if actionStatus == "failed" then Error else Success
  }

  /** The closing field: what was refunded when `extra` is positive, else the fee paid. */
  function FeeField(extra: int): Field {
    Field(if extra > 0 then "Refund" else "Fees",
          Text(Bn(if extra < 0 then -extra else extra, 9), Some(Currency("TON", None)), false))
  }

  /** The date as written: the text `timestamp.k` read as a number. */
  function DateAsWritten(timestamp: nat, k: nat): real {
    timestamp as real + k as real / Pow10(|NatToString(k)|) as real
  }

  /** Event 10 is dated like event 1, and before event 2. */
  lemma DateCollision(timestamp: nat)
    ensures DateAsWritten(timestamp, 10) == DateAsWritten(timestamp, 1)
    ensures DateAsWritten(timestamp, 10) < DateAsWritten(timestamp, 2)
  {
    assert NatToString(1) == "1";
    assert NatToString(2) == "2";
    assert NatToString(10) == NatToString(1) + "0";
  }

  /**
   * The date with the index written in as many digits as the action count has, so that
   * `timestamp.k` stays below the next second and grows with `k`.
   */
  function Date(timestamp: nat, k: nat, count: nat): real {
    timestamp as real + k as real / Pow10(|NatToString(count)|) as real
  }

  lemma DivideLess(a: real, b: real, p: real)
    requires 0.0 < p && a < b
    ensures a / p < b / p
  {
    assert b / p - a / p == (b - a) / p;
  }

  /** Events of one account event are dated in order, within its second. */
  lemma DatesOrdered(timestamp: nat, i: nat, j: nat, count: nat)
    requires i < j < count
    ensures Date(timestamp, i, count) < Date(timestamp, j, count)
    ensures timestamp as real <= Date(timestamp, i, count) && Date(timestamp, j, count) < timestamp as real + 1.0
  {
    var p := Pow10(|NatToString(count)|);
    NatToStringBound(count);
    FractionsOrdered(timestamp as real, i, j, p);
  }

  /** Offsets `i / p < j / p` for `i < j < p` stay within one unit. */
  lemma FractionsOrdered(t: real, i: nat, j: nat, p: nat)
    requires i < j < p
    ensures t + i as real / p as real < t + j as real / p as real
    ensures t <= t + i as real / p as real && t + j as real / p as real < t + 1.0
  {
    var q := p as real;
    DivideLess(i as real, j as real, q);
    DivideLess(j as real, q, q);
    assert q / q == 1.0;
    assert 0.0 <= i as real / q;
  }

  /**
   * How the k-th event of an account event is dated: `AsWritten` reads `timestamp.k` as a
   * number, `Padded` writes `k` in as many digits as the action count has.
   */
  datatype Dating = AsWritten | Padded

  function DateBy(dating: Dating, timestamp: nat, k: nat, count: nat): real {
    match dating
    case AsWritten => DateAsWritten(timestamp, k)
    case Padded => Date(timestamp, k, count)
  }

  /** The k-th event of `e`, made of action `a`. */
  function EventFor(dating: Dating, e: AccountEvent, a: Action, p: Parsed, k: nat): Event {
    Event(HashFor(e.eventId, k), DateBy(dating, e.timestamp, k, |e.actions|), StatusFor(e.inProgress, a.status),
          p.kind, e.isScam, false, p.asset, p.images, p.text, p.complementary + [FeeField(e.extra)])
  }

  /** The events the first `n` actions of `e` give, numbered in order. */
  function Emitted(parse: Action -> Result<Option<Parsed>>, dating: Dating, e: AccountEvent, n: nat): Result<seq<Event>>
    requires n <= |e.actions|
  {
    if n == 0 then Ok([])
    else
      var events :- Emitted(parse, dating, e, n - 1);
      var parsed :- parse(e.actions[n - 1]);
      if parsed.None? then Ok(events)
      else Ok(events + [EventFor(dating, e, e.actions[n - 1], parsed.value, |events|)])
  }

  /** One more action: its error ends the walk, its event (if any) is numbered next. */
  lemma EmittedStep(parse: Action -> Result<Option<Parsed>>, dating: Dating, e: AccountEvent, n: nat, events: seq<Event>)
    requires n < |e.actions| && Emitted(parse, dating, e, n) == Ok(events)
    ensures parse(e.actions[n]).Err? ==> Emitted(parse, dating, e, n + 1) == Err(parse(e.actions[n]).error)
    ensures parse(e.actions[n]) == Ok(None) ==> Emitted(parse, dating, e, n + 1) == Ok(events)
    ensures parse(e.actions[n]).Ok? && parse(e.actions[n]).value.Some? ==>
      Emitted(parse, dating, e, n + 1) == Ok(events + [EventFor(dating, e, e.actions[n], parse(e.actions[n]).value.value, |events|)])
  {
  }

  /** Once an action throws, the whole account event throws. */
  lemma {:induction false} EmittedFails(parse: Action -> Result<Option<Parsed>>, dating: Dating, e: AccountEvent, n: nat, m: nat)
    requires n <= m <= |e.actions| && Emitted(parse, dating, e, n).Err?
    ensures Emitted(parse, dating, e, m) == Emitted(parse, dating, e, n)
    decreases m
  {
    if m > n {
      EmittedFails(parse, dating, e, n, m - 1);
      var prev := Emitted(parse, dating, e, m - 1);
      assert prev.Err?;
      assert Emitted(parse, dating, e, m) == Err(prev.error);
    }
  }

  /** The events parse without error exactly when each action does. */
  lemma {:induction false} EmittedOk(parse: Action -> Result<Option<Parsed>>, dating: Dating, e: AccountEvent, n: nat)
    requires n <= |e.actions|
    ensures Emitted(parse, dating, e, n).Ok? <==>
      forall j :: 0 <= j < n ==> parse(e.actions[j]).Ok?
  {
    if n > 0 {
      EmittedOk(parse, dating, e, n - 1);
      var prev := Emitted(parse, dating, e, n - 1);
      var parsed := parse(e.actions[n - 1]);
      assert Emitted(parse, dating, e, n).Ok? <==> prev.Ok? && parsed.Ok?;
      assert (forall j :: 0 <= j < n ==> parse(e.actions[j]).Ok?) <==>
        (forall j :: 0 <= j < n - 1 ==> parse(e.actions[j]).Ok?) && parsed.Ok?;
    }
  }

  /**
   * What holds of the k-th event of `e`: hashed `id#~#k`, dated `timestamp.k`, carrying the
   * event's scam flag, complete, pending while the event is in progress, and closing with
   * its fee or refund field.
   */
  predicate Numbered(dating: Dating, e: AccountEvent, event: Event, k: nat) {
    event.hash == HashFor(e.eventId, k) && event.date == DateBy(dating, e.timestamp, k, |e.actions|)
    && event.malicious == e.isScam && !event.incomplete
    && (e.inProgress ==> event.status == Pending)
    && |event.complementary| >= 1
    && event.complementary[|event.complementary| - 1] == FeeField(e.extra)
  }

  /** At most one event per action, each numbered by its position. */
  lemma {:induction false} EmittedEvents(parse: Action -> Result<Option<Parsed>>, dating: Dating, e: AccountEvent, n: nat)
    requires n <= |e.actions| && Emitted(parse, dating, e, n).Ok?
    ensures |Emitted(parse, dating, e, n).value| <= n
    ensures forall k :: 0 <= k < |Emitted(parse, dating, e, n).value| ==>
      Numbered(dating, e, Emitted(parse, dating, e, n).value[k], k)
  {
    if n > 0 {
      EmittedEvents(parse, dating, e, n - 1);
      var events := Emitted(parse, dating, e, n - 1).value;
      var parsed := parse(e.actions[n - 1]).value;
      if parsed.Some? {
        var last := EventFor(dating, e, e.actions[n - 1], parsed.value, |events|);
        assert Numbered(dating, e, last, |events|);
        assert Emitted(parse, dating, e, n).value == events + [last];
        NumberedAppend(dating, e, events, last);
      }
    }
  }

  /** Appending the next numbered event keeps every event numbered by its position. */
  lemma NumberedAppend(dating: Dating, e: AccountEvent, events: seq<Event>, last: Event)
    requires forall k :: 0 <= k < |events| ==> Numbered(dating, e, events[k], k)
    requires Numbered(dating, e, last, |events|)
    ensures forall k :: 0 <= k < |events| + 1 ==> Numbered(dating, e, (events + [last])[k], k)
  {
    var all := events + [last];
    forall k | 0 <= k < |all| ensures Numbered(dating, e, all[k], k) {
      if k < |events| {
        assert all[k] == events[k];
      }
    }
  }

  /** An account event whose actions are all shown gives one event per action, in order. */
  lemma {:induction false} EmittedAll(parse: Action -> Result<Option<Parsed>>, dating: Dating, e: AccountEvent, n: nat)
    requires n <= |e.actions|
    requires forall j :: 0 <= j < n ==>
      parse(e.actions[j]).Ok? && parse(e.actions[j]).value.Some?
    ensures Emitted(parse, dating, e, n).Ok?
    ensures |Emitted(parse, dating, e, n).value| == n
    ensures forall k :: 0 <= k < n ==>
      Emitted(parse, dating, e, n).value[k]
        == EventFor(dating, e, e.actions[k], parse(e.actions[k]).value.value, k)
  {
    if n > 0 {
      EmittedAll(parse, dating, e, n - 1);
      var events := Emitted(parse, dating, e, n - 1).value;
      var parsed := parse(e.actions[n - 1]);
      assert parsed.Ok? && parsed.value.Some?;
      var last := EventFor(dating, e, e.actions[n - 1], parsed.value.value, n - 1);
      var all := events + [last];
      assert Emitted(parse, dating, e, n) == Ok(all);
      forall k | 0 <= k < n
        ensures all[k] == EventFor(dating, e, e.actions[k], parse(e.actions[k]).value.value, k)
      {
        if k < n - 1 {
          assert events[k] == EventFor(dating, e, e.actions[k], parse(e.actions[k]).value.value, k);
          assert all[k] == events[k];
        } else {
          assert k == n - 1 && all[k] == last;
        }
      }
    }
  }

  /**
   * Dated as written, an account event whose actions are all shown gives its eleventh
   * event the date of its second, and an earlier one than its third.
   */
  lemma EmittedDateCollision(parse: Action -> Result<Option<Parsed>>, e: AccountEvent)
    requires |e.actions| > 10
    requires forall j :: 0 <= j < |e.actions| ==>
      parse(e.actions[j]).Ok? && parse(e.actions[j]).value.Some?
    ensures Emitted(parse, AsWritten, e, |e.actions|).Ok?
    ensures var events := Emitted(parse, AsWritten, e, |e.actions|).value;
      |events| > 10 && events[10].date == events[1].date && events[10].date < events[2].date
  {
    EmittedAll(parse, AsWritten, e, |e.actions|);
    DateCollision(e.timestamp);
  }

  /** Dated with the padded index, the events of an account event are in date order. */
  lemma EmittedDatesOrdered(parse: Action -> Result<Option<Parsed>>, e: AccountEvent, n: nat)
    requires n <= |e.actions| && Emitted(parse, Padded, e, n).Ok?
    ensures var events := Emitted(parse, Padded, e, n).value;
      forall i, j :: 0 <= i < j < |events| ==> events[i].date < events[j].date
  {
    var events := Emitted(parse, Padded, e, n).value;
    EmittedEvents(parse, Padded, e, n);
    forall i, j | 0 <= i < j < |events|
      ensures events[i].date < events[j].date
    {
      assert Numbered(Padded, e, events[i], i) && Numbered(Padded, e, events[j], j);
      DatesOrdered(e.timestamp, i, j, |e.actions|);
    }
  }

  /** The action switch of `parse`, for one account address and name lookup. */
  function ActionParser(address: string, friendly: string -> string): Action -> Result<Option<Parsed>>
  {
    a => ParseAction(address, friendly, a)
  }

  /** The event built for the `index`-th shown action: status, hash, date and fee field. */
  method MakeEvent(dating: Dating, e: AccountEvent, a: Action, p: Parsed, index: nat) returns (event: Event)
    ensures event == EventFor(dating, e, a, p, index)
  {
    var status: Status;
    if e.inProgress {
      status := Pending;
    } else if a.status == "failed" {
      status := Error;
    } else {
      status := Success;
    }
    var hash := e.eventId;
    if index > 0 {
      hash := hash + "#~#" + IntToString(index);
    }
    event := Event(hash, DateBy(dating, e.timestamp, index, |e.actions|), status, p.kind, e.isScam, false,
                   p.asset, p.images, p.text, p.complementary + [FeeField(e.extra)]);
  }

  /**
   * `parse`: walk the actions, numbering the events as they are made. The action switch
   * for the account is passed in as `parse` (see `ActionParser`).
   */
  method Parse(parse: Action -> Result<Option<Parsed>>, dating: Dating, e: AccountEvent) returns (r: Result<seq<Event>>)
    ensures r == Emitted(parse, dating, e, |e.actions|)
  {
    var result: seq<Event> := [];
    var index := 0;
    var i := 0;
    while i < |e.actions|
      invariant i <= |e.actions|
      invariant Emitted(parse, dating, e, i) == Ok(result) && index == |result|
    {
      var a := e.actions[i];
      var parsed := parse(a);
      EmittedStep(parse, dating, e, i, result);
      if parsed.Err? {
        EmittedFails(parse, dating, e, i + 1, |e.actions|);
        return Err(parsed.error);
      }
      if parsed.value.Some? {
        var event := MakeEvent(dating, e, a, parsed.value.value, index);
        result := result + [event];
        index := index + 1;
      }
      assert Emitted(parse, dating, e, i + 1) == Ok(result);
      i := i + 1;
    }
    return Ok(result);
  }

  // ---------------------------------------------------------------------------
  // update, status, fetch

  /** `update`: the event handed in is marked incomplete and handed back. */
  method Update(record: EventRecord) returns (r: EventRecord)
    modifies record
    ensures r == record && record.event == old(record.event).(incomplete := true)
  {
    record.event := record.event.(incomplete := true);
    r := record;
  }

  /** `status`: not supported for TON; every query is refused. */
  function StatusOf(hash: string): (r: Result<Status>)
    ensures r.Err? && r.error == PluginError(0, "Unsupported")
  {
    Err(PluginError(0, "Unsupported"))
  }

  /** The time a fetch covers: after a moment until now, or everything before one. */
  datatype Window = After(after: real) | Before(before: real)

  /** `GetAccountEventsRequest`. */
  datatype Request = Request(address: string, subjectOnly: bool, startDate: int, limit: nat,
                             endDate: int, beforeLt: Option<int>)

  /** `GetAccountEventsResponse`. */
  datatype Response = Response(events: seq<AccountEvent>, nextFrom: int)

  const Page: nat := 50

  /** `Math.ceil`. */
  function Ceil(x: real): (c: int)
    ensures x <= c as real < x + 1.0
  {
    -((-x).Floor)
  }

  /** The seconds a fetch asks for; `nowMs` is the clock in milliseconds. */
  function Bounds(w: Window, nowMs: real): (bounds: (int, int))
    ensures w.After? ==> bounds.0 as real >= w.after && bounds.1 as real >= nowMs / 1000.0
    ensures w.Before? ==> bounds.0 == 0 && bounds.1 as real >= w.before && bounds.1 as real < w.before + 1.0
  {
    match w
    case After(after) => (Ceil(after), Ceil(nowMs / 1000.0))
    case Before(before) => (0, Ceil(before))
  }

  /** A page request; the cursor is passed on only when it is set and not zero. */
  function RequestFor(address: string, bounds: (int, int), cursor: Option<int>): Request {
    Request(address, false, bounds.0, Page, bounds.1,
            if cursor.Some? && cursor.value != 0 then cursor else None)
  }

  /**
   * The account events the pages hold, up to `fuel` requests: a failed request ends the
   * walk, and so does a page shorter than `Page`; the next page starts before `nextFrom`.
   */
  function Pages(get: Request -> Option<Response>, address: string, bounds: (int, int),
                 cursor: Option<int>, fuel: nat): seq<AccountEvent>
    decreases fuel
  {
    if fuel == 0 then []
    else
      match get(RequestFor(address, bounds, cursor))
      case None => []
      case Some(response) =>
        if |response.events| == 0 || |response.events| < Page then response.events
        else response.events + Pages(get, address, bounds, Some(response.nextFrom), fuel - 1)
  }

  /** The first page comes first; a short first page is all there is, a failed one gives nothing. */
  lemma PagesStart(get: Request -> Option<Response>, address: string, bounds: (int, int), fuel: nat)
    requires fuel > 0
    ensures var first := get(RequestFor(address, bounds, None));
      var pages := Pages(get, address, bounds, None, fuel);
      (first.None? ==> pages == [])
      && (first.Some? ==> first.value.events <= pages)
      && (first.Some? && |first.value.events| < Page ==> pages == first.value.events)
  {
  }

  /** Every request of a fetch asks for one page of the window, never only the subject's events. */
  lemma RequestShape(address: string, bounds: (int, int), cursor: Option<int>)
    ensures var q := RequestFor(address, bounds, cursor);
      q.address == address && !q.subjectOnly && q.limit == 50
      && q.startDate == bounds.0 && q.endDate == bounds.1
      && (q.beforeLt.Some? <==> cursor.Some? && cursor.value != 0)
      && (q.beforeLt.Some? ==> q.beforeLt == cursor)
  {
  }

  /** The events one whole account event gives. */
  function EventEmitter(parse: Action -> Result<Option<Parsed>>, dating: Dating): AccountEvent -> Result<seq<Event>>
  {
    (e: AccountEvent) => Emitted(parse, dating, e, |e.actions|)
  }

  /** `events.flatMap(parse)` over the first `n` account events, `emit` parsing one of them. */
  function ParsedAll(emit: AccountEvent -> Result<seq<Event>>, events: seq<AccountEvent>, n: nat): Result<seq<Event>>
    requires n <= |events|
  {
    if n == 0 then Ok([])
    else
      var head :- ParsedAll(emit, events, n - 1);
      var last :- emit(events[n - 1]);
      Ok(head + last)
  }

  lemma {:induction false} ParsedAllFails(emit: AccountEvent -> Result<seq<Event>>, events: seq<AccountEvent>, n: nat, m: nat)
    requires n <= m <= |events| && ParsedAll(emit, events, n).Err?
    ensures ParsedAll(emit, events, m) == ParsedAll(emit, events, n)
    decreases m
  {
    if m > n {
      ParsedAllFails(emit, events, n, m - 1);
      var prev := ParsedAll(emit, events, m - 1);
      assert prev.Err?;
      assert ParsedAll(emit, events, m) == Err(prev.error);
    }
  }

  /** The history parses without error exactly when every account event in it does. */
  lemma {:induction false} ParsedAllOk(emit: AccountEvent -> Result<seq<Event>>, events: seq<AccountEvent>, n: nat)
    requires n <= |events|
    ensures ParsedAll(emit, events, n).Ok? <==>
      forall j :: 0 <= j < n ==> emit(events[j]).Ok?
  {
    if n > 0 {
      ParsedAllOk(emit, events, n - 1);
      var prev := ParsedAll(emit, events, n - 1);
      var last := emit(events[n - 1]);
      assert ParsedAll(emit, events, n).Ok? <==> prev.Ok? && last.Ok?;
    }
  }

  lemma AppendAssoc(a: seq<AccountEvent>, b: seq<AccountEvent>, c: seq<AccountEvent>)
    ensures (a + b) + c == a + (b + c)
  {
  }

  /** The page loop of `fetch`. */
  method FetchPages(address: string, bounds: (int, int), get: Request -> Option<Response>, fuel: nat)
    returns (events: seq<AccountEvent>)
    ensures events == Pages(get, address, bounds, None, fuel)
  {
    events := [];
    var nextFromLt: Option<int> := None;
    var left := fuel;
    while left > 0
      invariant events + Pages(get, address, bounds, nextFromLt, left) == Pages(get, address, bounds, None, fuel)
      decreases left
    {
      var beforeLt: Option<int> := None;
      if nextFromLt.Some? && nextFromLt.value != 0 {
        beforeLt := nextFromLt;
      }
      var request := Request(address, false, bounds.0, Page, bounds.1, beforeLt);
      assert request == RequestFor(address, bounds, nextFromLt);
      var result := get(request);
      ghost var rest := Pages(get, address, bounds, nextFromLt, left);
      if result.None? {
        assert rest == [];
        return;
      }
      ghost var before := events;
      events := events + result.value.events;
      if |result.value.events| == 0 || |result.value.events| < Page {
        assert rest == result.value.events;
        return;
      }
      ghost var later := Pages(get, address, bounds, Some(result.value.nextFrom), left - 1);
      assert rest == result.value.events + later;
      AppendAssoc(before, result.value.events, later);
      nextFromLt := Some(result.value.nextFrom);
      left := left - 1;
    }
  }

  /** `events.flatMap(parse)`, with the account's action switch passed in as `parse`. */
  method ParseEach(parse: Action -> Result<Option<Parsed>>, dating: Dating, events: seq<AccountEvent>)
    returns (r: Result<seq<Event>>)
    ensures r == ParsedAll(EventEmitter(parse, dating), events, |events|)
  {
    var parsed: seq<Event> := [];
    for i := 0 to |events|
      invariant ParsedAll(EventEmitter(parse, dating), events, i) == Ok(parsed)
    {
      var more := Parse(parse, dating, events[i]);
      assert more == EventEmitter(parse, dating)(events[i]);
      if more.Err? {
        ParsedAllFails(EventEmitter(parse, dating), events, i + 1, |events|);
        return Err(more.error);
      }
      parsed := parsed + more.value;
    }
    return Ok(parsed);
  }

  /**
   * `fetch`: request pages of 50 until a request fails or a page comes back short, then
   * parse every account event in order. `fuel` bounds the number of requests.
   */
  method Fetch(address: string, w: Window, nowMs: real, get: Request -> Option<Response>,
               friendly: string -> string, dating: Dating, fuel: nat) returns (r: Result<seq<Event>>)
    ensures var events := Pages(get, address, Bounds(w, nowMs), None, fuel);
      r == ParsedAll(EventEmitter(ActionParser(address, friendly), dating), events, |events|)
  {
    var startTimestamp: int;
    var endTimestamp: int;
    match w {
      case After(after) =>
        startTimestamp := Ceil(after);
        endTimestamp := Ceil(nowMs / 1000.0);
      case Before(before) =>
        startTimestamp := 0;
        endTimestamp := Ceil(before);
    }
    var events := FetchPages(address, (startTimestamp, endTimestamp), get, fuel);
    r := ParseEach(ActionParser(address, friendly), dating, events);
  }
}
