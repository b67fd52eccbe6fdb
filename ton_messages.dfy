/**
 * The TON plugin's messages provider. `bake` classifies the recipient, finds the
 * author's wallet contract, puts one internal message (a plain transfer, or a TEP-74
 * jetton `transfer` to the author's jetton wallet) into the wallet's signing body,
 * estimates the fee by emulation and checks the balance; `send` glues the user's
 * signature in front of the stored body and hands it to the wallet as an external
 * message.
 */
module TonMessages {
  import opened Wrappers
  import opened JsText
  import opened TonCell
  import opened TonWallet
  import Units
  import Base64

  /** The part of a bake request the provider reads. */
  datatype Transfer = Transfer(asset: string, author: Author, recipient: string, amount: string)

  /** An external message to a wallet, with its initial state when it is not deployed yet. */
  datatype External = External(to: Address, init: Option<StateInit>, body: Cell)

  /**
   * The services `bake` and `send` talk to. `isDNSAddress` and `resolve` are the TON
   * service's DNS helpers; `isRaw`/`parseRaw` and `parseFriendly` (`None` for a string
   * that is not in friendly form; otherwise the address and its bounceable flag) are the
   * address library's; `jettonWallet(master, owner)` is the `get_wallet_address` lookup;
   * `deployed`, `balance` and `seqno` are read from the chain; `storeRelaxed` and
   * `storeExternal` are `storeMessageRelaxed` and `storeMessage`; `hash`, `toBoc` and
   * `fromBoc` are the cell's hash and bag-of-cells codec (`None` where it throws);
   * `emulate(rawAddress, boc)` is the emulation service's `extra`, `None` when the call
   * fails; `now` is the clock in milliseconds.
   */
  datatype Ton = Ton(
    isDNSAddress: string -> bool,
    resolve: string -> Option<string>,
    isRaw: string -> bool,
    parseRaw: string -> Address,
    parseFriendly: string -> Option<(Address, bool)>,
    wallets: Wallets,
    jettonWallet: (Address, Address) -> Option<Address>,
    deployed: Address -> bool,
    balance: Address -> int,
    seqno: Address -> nat,
    storeRelaxed: MessageRelaxed -> Cell,
    storeExternal: External -> Cell,
    hash: Cell -> seq<byte>,
    toBoc: Cell -> seq<byte>,
    fromBoc: seq<byte> -> Option<Cell>,
    emulate: (string, string) -> Option<int>,
    now: nat)

  /** The 32-bit fields of the signing body hold what the chain and the clock give. */
  ghost predicate Fits32(ton: Ton) {
    && (forall v, k :: ton.wallets.create(v, 0, k).walletId < Pow(2, 32))
    && (forall a :: ton.seqno(a) < Pow(2, 32))
    && ton.now / 1000 + 60 < Pow(2, 32)
  }

  // ---------------------------------------------------------------------------
  // Recipient

  /**
   * The recipient and its bounce flag, tried in order: a DNS name (resolved, never
   * bounced), the raw form (never bounced), the friendly form (its own flag). The
   * message for an unresolved name reads the still-unassigned recipient variable.
   */
  function Recipient(ton: Ton, s: string): (r: Result<(Address, bool)>)
    ensures r == Err(PluginError(0, "Invalid address")) <==>
      !ton.isDNSAddress(s) && !ton.isRaw(s) && ton.parseFriendly(s).None?
  {
    if ton.isDNSAddress(s) then
      match ton.resolve(s)
      case None => Err(PluginError(0, "Can't resolve undefined doamin"))
      case Some(name) =>
        match ton.wallets.parse(name)
        case None => Err(Thrown("Error"))
        case Some(a) => Ok((a, false))
    else if ton.isRaw(s) then Ok((ton.parseRaw(s), false))
    else
      match ton.parseFriendly(s)
      case Some(parsed) => Ok(parsed)
      case None => Err(PluginError(0, "Invalid address"))
  }

  /** Only a friendly, bounceable address is bounced; names and raw addresses never are. */
  lemma RecipientBounce(ton: Ton, s: string)
    requires Recipient(ton, s).Ok?
    ensures Recipient(ton, s).value.1 <==>
      !ton.isDNSAddress(s) && !ton.isRaw(s) && ton.parseFriendly(s).value.1
    ensures ton.isDNSAddress(s) ==>
      (ton.resolve(s).Some? && Some(Recipient(ton, s).value.0) == ton.wallets.parse(ton.resolve(s).value))
  {
  }

  // ---------------------------------------------------------------------------
  // The jetton transfer body (TEP-74)

  const JettonTransferOp: nat := 0xf8a7ea5

  /** What a jetton `transfer` body says. */
  datatype JettonTransfer = JettonTransfer(queryId: nat, amount: nat, destination: Address,
                                           response: Address, forwardAmount: nat)

  /**
   * `jettonTransferBody`: op, query id 0, the amount, destination, response address,
   * no custom payload, the forward amount, no forward payload. Amounts outside the
   * coin range throw.
   */
  function JettonTransferBody(jettonAmount: int, toAddress: Address, responseAddress: Address,
                              forwardAmount: int): (r: Result<Cell>)
    ensures r.Ok? <==> 0 <= jettonAmount < CoinsLimit && 0 <= forwardAmount < CoinsLimit
    ensures r.Ok? ==> r.value.refs == [] && |r.value.bits| <= MaxBits
  {
    var amount :- CoinsBits(jettonAmount);
    var forward :- CoinsBits(forwardAmount);
    Ok(Cell(UintBits(JettonTransferOp, 32) + (UintBits(0, 64) + (amount + Addressed(toAddress, responseAddress, forward))), []))
  }

  /** The two addresses, the empty custom payload, the forward amount and the empty forward payload. */
  function Addressed(toAddress: Address, responseAddress: Address, forward: Bits): Bits {
    AddressBits(toAddress) + (AddressBits(responseAddress) + ([false] + (forward + [false])))
  }

  function LoadBit(s: Bits): Option<(bool, Bits)> {
    if s == [] then None else Some((s[0], s[1..]))
  }

  /** A reader for the transfer body: every field, and nothing after the last one. */
  function ParseJettonTransfer(s: Bits): Option<JettonTransfer> {
    var (op, s1) :- LoadUint(s, 32);
    var (query, s2) :- LoadUint(s1, 64);
    var (amount, s3) :- LoadCoins(s2);
    var tail :- ParseAddressed(s3);
    if op == JettonTransferOp then
      Some(JettonTransfer(query, amount, tail.0, tail.1, tail.2))
    else None
  }

  /** The reader's second half: destination, response, custom payload, forward amount, forward payload. */
  function ParseAddressed(s: Bits): Option<(Address, Address, nat)> {
    var (destination, s1) :- LoadAddress(s);
    var (response, s2) :- LoadAddress(s1);
    var (custom, s3) :- LoadBit(s2);
    var (forward, s4) :- LoadCoins(s3);
    var (payload, s5) :- LoadBit(s4);
    if !custom && !payload && s5 == [] then Some((destination, response, forward)) else None
  }

  lemma AddressedRoundTrip(toAddress: Address, responseAddress: Address, forwardAmount: int)
    requires CoinsBits(forwardAmount).Ok?
    ensures ParseAddressed(Addressed(toAddress, responseAddress, CoinsBits(forwardAmount).value))
      == Some((toAddress, responseAddress, forwardAmount))
  {
    var f := CoinsBits(forwardAmount).value;
    var s2 := [false] + (f + [false]);
    AddressRoundTrip(toAddress, AddressBits(responseAddress) + s2);
    AddressRoundTrip(responseAddress, s2);
    assert LoadBit(s2) == Some((false, f + [false]));
    CoinsRoundTrip(forwardAmount, [false]);
  }

  /** The body reads back as a transfer with query id 0 and exactly the given fields. */
  lemma JettonBodyRoundTrip(jettonAmount: int, toAddress: Address, responseAddress: Address,
                            forwardAmount: int)
    requires JettonTransferBody(jettonAmount, toAddress, responseAddress, forwardAmount).Ok?
    ensures ParseJettonTransfer(JettonTransferBody(jettonAmount, toAddress, responseAddress, forwardAmount).value.bits)
      == Some(JettonTransfer(0, jettonAmount, toAddress, responseAddress, forwardAmount))
  {
    var a := CoinsBits(jettonAmount).value;
    var tail := Addressed(toAddress, responseAddress, CoinsBits(forwardAmount).value);
    var s1 := UintBits(0, 64) + (a + tail);
    PowWidths();
    LoadUintAppend(JettonTransferOp, 32, s1);
    LoadUintAppend(0, 64, a + tail);
    CoinsRoundTrip(jettonAmount, tail);
    AddressedRoundTrip(toAddress, responseAddress, forwardAmount);
  }

  // ---------------------------------------------------------------------------
  // bake

  /** `PAY_GAS_SEPARATELY + IGNORE_ERRORS`. */
  const SendMode: nat := 3

  /** The TON attached to a jetton transfer for gas. */
  const JettonGas: nat := 640_000_000

  /** `Cell.EMPTY`, the body of a plain transfer. */
  const EmptyCell: Cell := Cell([], [])

  /**
   * The amount `bake` charges and the one internal message: for '_' the amount itself to
   * the recipient with its bounce flag; otherwise 640_000_000 to the author's jetton
   * wallet, bounced, carrying a transfer of the amount to the recipient with the author
   * as response address and a forward amount of 1.
   */
  function Outgoing(t: Transfer, ton: Ton, recipient: (Address, bool), author: Address)
    : (r: Result<(int, MessageRelaxed)>)
    ensures r.Ok? && t.asset == "_" ==>
      (BigIntOf(t.amount).Some? &&
       r.value == (BigIntOf(t.amount).value, Internal(recipient.0, BigIntOf(t.amount).value, recipient.1, None, EmptyCell)))
    ensures r.Ok? && t.asset != "_" ==> r.value.0 == JettonGas
  {
    if t.asset == "_" then
      match BigIntOf(t.amount)
      case None => Err(Thrown("SyntaxError"))
      case Some(amount) =>
        // storeMessageRelaxed throws on a value outside the coin range
        if CoinsBits(amount).Err? then Err(Thrown("RangeError"))
        else Ok((amount, Internal(recipient.0, amount, recipient.1, None, EmptyCell)))
    else
      match ton.wallets.parse(t.asset)
      case None => Err(Thrown("Error"))
      case Some(master) =>
        match ton.jettonWallet(master, author)
        case None => Err(PluginError(0, "Can't resolve author's jetton address"))
        case Some(jettonWallet) =>
          match BigIntOf(t.amount)
          case None => Err(Thrown("SyntaxError"))
          case Some(amount) =>
            var body :- JettonTransferBody(amount, recipient.0, author, 1);
            Ok((JettonGas, Internal(jettonWallet, JettonGas, true, None, body)))
  }

  /**
   * A jetton transfer sends the fixed gas amount, bounced, to the author's jetton wallet;
   * the amount travels only inside the body, as a TEP-74 transfer to the recipient.
   */
  lemma JettonMessage(t: Transfer, ton: Ton, recipient: (Address, bool), author: Address)
    requires t.asset != "_" && Outgoing(t, ton, recipient, author).Ok?
    ensures var m := Outgoing(t, ton, recipient, author).value.1;
      && ton.wallets.parse(t.asset).Some? && BigIntOf(t.amount).Some?
      && Some(m.to) == ton.jettonWallet(ton.wallets.parse(t.asset).value, author)
      && m.value == JettonGas && m.bounce && m.init.None?
      && ParseJettonTransfer(m.body.bits) == Some(JettonTransfer(0, BigIntOf(t.amount).value, recipient.0, author, 1))
  {
    var amount := BigIntOf(t.amount).value;
    JettonBodyRoundTrip(amount, recipient.0, author, 1);
  }

  /** The signing body of the found wallet's version around the messages. */
  function SigningCell(wallet: WalletContract, seqno: nat, now: nat, messages: seq<MessageRelaxed>,
                       store: MessageRelaxed -> Cell): Cell {
    match wallet.version
    case V3R2 => V3Cell(wallet.walletId, seqno, now, SendMode, messages, store)
    case V4 => V4Cell(wallet.walletId, seqno, now, SendMode, messages, store)
  }

  /** 64 zero bytes standing in for the signature while emulating. */
  function PlaceholderSignature(): (s: seq<byte>)
    ensures |s| == 64
  {
    seq(64, _ => 0)
  }

  /** The external message emulated for the fee: placeholder signature, body, and the
   *  wallet's initial state only when it is not deployed yet. */
  function Emulated(ton: Ton, wallet: WalletContract, emessage: Cell): (e: External)
    ensures e.to == wallet.address
    ensures e.init.Some? <==> !ton.deployed(wallet.address)
    ensures |e.body.bits| == 512 + |emessage.bits|
    ensures e.body.bits[512..] == emessage.bits && e.body.refs == emessage.refs
  {
    External(wallet.address, if ton.deployed(wallet.address) then None else Some(wallet.init),
             Cell(BytesBits(PlaceholderSignature()) + emessage.bits, emessage.refs))
  }

  function Abs(x: int): nat {
    if x < 0 then -x else x
  }

  /** The fee estimate: the magnitude of the emulated `extra`, or 0 when emulation fails. */
  function EstimatedFee(ton: Ton, wallet: WalletContract, emessage: Cell): (fee: nat)
    ensures var extra := ton.emulate(ToRawString(wallet.address),
                                     Base64.Encode(ton.toBoc(ton.storeExternal(Emulated(ton, wallet, emessage)))));
      fee == if extra.Some? then Abs(extra.value) else 0
  {
    var boc := Base64.Encode(ton.toBoc(ton.storeExternal(Emulated(ton, wallet, emessage))));
    match ton.emulate(ToRawString(wallet.address), boc)
    case Some(extra) => Abs(extra)
    case None => 0
  }

  datatype Baked = Baked(shouldSign: string, estimatedFees: string, extraData: string)

  /** The message bake hands out for a signing body: its hash and its BOC, both base64, and the fee in TON. */
  function BakedFor(ton: Ton, emessage: Cell, fee: nat): Baked {
    Baked(Base64.Encode(ton.hash(emessage)), Units.Bn(fee, 9), Base64.Encode(ton.toBoc(emessage)))
  }

  /**
   * What `bake` does once the recipient and the wallet are known: the outgoing message
   * (or its error), then the balance check: the amount and the fee together must not
   * exceed the wallet's balance. The hash to sign and the BOC kept for `send` are of one
   * and the same cell, the wallet's signing body around the single outgoing message.
   */
  method BakeWith(t: Transfer, ton: Ton, recipient: (Address, bool), wallet: WalletContract, author: Address)
    returns (r: Result<Baked>)
    requires wallet.walletId < Pow(2, 32) && ton.seqno(wallet.address) < Pow(2, 32)
    requires ton.now / 1000 + 60 < Pow(2, 32)
    ensures var out := Outgoing(t, ton, recipient, author);
      && (out.Err? ==> r == Err(out.error))
      && (out.Ok? ==>
            var cell := SigningCell(wallet, ton.seqno(wallet.address), ton.now, [out.value.1], ton.storeRelaxed);
            var fee := EstimatedFee(ton, wallet, cell);
            && (out.value.0 + fee > ton.balance(wallet.address) ==> r == Err(PluginError(0, "Not enough balance")))
            && (out.value.0 + fee <= ton.balance(wallet.address) ==> r == Ok(BakedFor(ton, cell, fee))))
  {
    PowWidths();
    var balance := ton.balance(wallet.address);
    var seqno := ton.seqno(wallet.address);

    var amount: int;
    var imessages: seq<MessageRelaxed> := [];
    var out := Outgoing(t, ton, recipient, author);
    if out.Err? {
      return Err(out.error);
    }
    amount := out.value.0;
    imessages := imessages + [out.value.1];
    assert imessages == [out.value.1];

    var emessage: Result<Cell>;
    if wallet.version == V3R2 {
      emessage := V3SigningMessage(wallet.walletId, seqno, Some(SendMode), ton.now, imessages, ton.storeRelaxed);
    } else {
      emessage := V4SigningMessage(wallet.walletId, seqno, Some(SendMode), ton.now, imessages, ton.storeRelaxed);
    }
    var cell := emessage.value;
    assert cell == SigningCell(wallet, seqno, ton.now, imessages, ton.storeRelaxed);

    var estimatedFees := EstimatedFee(ton, wallet, cell);
    if amount + estimatedFees > balance {
      return Err(PluginError(0, "Not enough balance"));
    }
    r := Ok(BakedFor(ton, cell, estimatedFees));
  }

  /**
   * `bake`. The recipient is classified first, then the author's wallet is looked up
   * (an address that does not parse throws; no matching version is an error); only
   * then does the rest of `BakeWith` run.
   */
  method Bake(t: Transfer, ton: Ton) returns (r: Result<Baked>)
    requires Fits32(ton)
    ensures var rc := Recipient(ton, t.recipient);
      rc.Err? ==> r == Err(rc.error)
    ensures var rc := Recipient(ton, t.recipient);
      var wc := GetWalletContract(t.author, ton.wallets);
      rc.Ok? ==>
        && (wc.Err? ==> r == Err(wc.error))
        && (wc == Ok(None) ==> r == Err(PluginError(0, "Can't suggest wallet contract version for action")))
    ensures var rc := Recipient(ton, t.recipient);
      var wc := GetWalletContract(t.author, ton.wallets);
      rc.Ok? && wc.Ok? && wc.value.Some? ==>
        var w := wc.value.value;
        var out := Outgoing(t, ton, rc.value, ton.wallets.parse(t.author.address).value);
        && (out.Err? ==> r == Err(out.error))
        && (out.Ok? ==>
              var cell := SigningCell(w, ton.seqno(w.address), ton.now, [out.value.1], ton.storeRelaxed);
              var fee := EstimatedFee(ton, w, cell);
              && (out.value.0 + fee > ton.balance(w.address) ==> r == Err(PluginError(0, "Not enough balance")))
              && (out.value.0 + fee <= ton.balance(w.address) ==> r == Ok(BakedFor(ton, cell, fee))))
  {
    var recipient :- Recipient(ton, t.recipient);
    var found :- GetWalletContract(t.author, ton.wallets);
    if found.None? {
      return Err(PluginError(0, "Can't suggest wallet contract version for action"));
    }
    var wallet := found.value;
    var author := ton.wallets.parse(t.author.address).value;
    r := BakeWith(t, ton, recipient, wallet, author);
  }

  /** The signing body of a single message: at most 104 + 8 bits, one ref. */
  lemma SigningCellSize(wallet: WalletContract, seqno: nat, now: nat, m: MessageRelaxed,
                        store: MessageRelaxed -> Cell)
    ensures var c := SigningCell(wallet, seqno, now, [m], store);
      |c.bits| <= 112 && c.refs == [store(m)]
  {
    V4InsertsSimpleOrder(wallet.walletId, seqno, now, SendMode, [m], store);
  }

  // ---------------------------------------------------------------------------
  // send

  datatype Sent = Sent(submitted: Option<(WalletContract, Cell)>, outcome: Result<()>)

  /**
   * `send`: no stored body is an error; otherwise the external body is the signature's
   * bits followed by the stored cell's bits and refs (overflowing 1023 bits throws),
   * submitted to the author's wallet, found again.
   */
  function Send(extraData: Option<string>, userSignature: string, author: Author, ton: Ton): (s: Sent)
    ensures extraData.None? || extraData == Some("") ==>
      s == Sent(None, Err(PluginError(0, "Can't parse internal transaction data")))
    ensures s.outcome.Ok? <==> s.submitted.Some?
    ensures s.submitted.Some? ==>
      var body := s.submitted.value.1;
      && |body.bits| >= 8 * |Base64.Decode(userSignature)|
      && ReadBytes(body.bits[..8 * |Base64.Decode(userSignature)|]) == Base64.Decode(userSignature)
      && GetWalletContract(author, ton.wallets) == Ok(Some(s.submitted.value.0))
  {
    if extraData.None? || extraData.value == "" then
      Sent(None, Err(PluginError(0, "Can't parse internal transaction data")))
    else
      match ton.fromBoc(Base64.Decode(extraData.value))
      case None => Sent(None, Err(Thrown("Error")))
      case Some(boc) =>
        var signature := Base64.Decode(userSignature);
        var bits := BytesBits(signature) + boc.bits;
        if |bits| > MaxBits then Sent(None, Err(Thrown("Error")))
        else
          match GetWalletContract(author, ton.wallets)
          case Err(e) => Sent(None, Err(e))
          case Ok(None) => Sent(None, Err(PluginError(0, "Can't suggest wallet contract version for action")))
          case Ok(Some(wallet)) =>
            assert bits[..8 * |signature|] == BytesBits(signature);
            BytesRoundTrip(signature);
            Sent(Some((wallet, Cell(bits, boc.refs))), Ok(()))
  }

  /** The bag-of-cells codec reads back what it wrote, and a serialised bag is never empty. */
  ghost predicate BocFaithful(ton: Ton) {
    forall c :: ton.fromBoc(ton.toBoc(c)) == Some(c) && |ton.toBoc(c)| > 0
  }

  /**
   * Sending what `bake` stored, with a 64-byte signature, submits to the author's wallet
   * the signature followed by exactly the baked signing body; nothing is recomputed.
   */
  lemma SendAfterBake(t: Transfer, ton: Ton, cell: Cell, fee: nat, userSignature: string)
    requires BocFaithful(ton)
    requires |Base64.Decode(userSignature)| == 64 && |cell.bits| <= 112
    requires GetWalletContract(t.author, ton.wallets).Ok? && GetWalletContract(t.author, ton.wallets).value.Some?
    ensures var s := Send(Some(BakedFor(ton, cell, fee).extraData), userSignature, t.author, ton);
      && s.outcome == Ok(())
      && s.submitted == Some((GetWalletContract(t.author, ton.wallets).value.value,
                              Cell(BytesBits(Base64.Decode(userSignature)) + cell.bits, cell.refs)))
  {
    var bytes := ton.toBoc(cell);
    var e := Base64.Encode(bytes);
    Base64.RoundTrip(bytes);
    assert e != "" && ton.fromBoc(Base64.Decode(e)) == Some(cell);
    var signature := Base64.Decode(userSignature);
    assert |BytesBits(signature) + cell.bits| <= MaxBits;
  }
}
