/**
 * The TON plugin's wallet helpers: finding which standard wallet contract (V4 or V3R2)
 * stands behind an author's address, and writing the body a wallet owner signs to send
 * internal messages.
 */
module TonWallet {
  import opened Wrappers
  import opened JsText
  import opened TonCell

  /** The message's author: a TON address in any form and an ed25519 public key in hex. */
  datatype Author = Author(address: string, publicKey: string)

  datatype StateInit = StateInit(code: Cell, data: Cell)

  /** An internal message as the wallet carries it; `body` is the message's payload cell. */
  datatype MessageRelaxed = Internal(to: Address, value: int, bounce: bool, init: Option<StateInit>, body: Cell)

  datatype WalletVersion = V3R2 | V4

  /** A standard wallet contract: its address, its sub-wallet id and its initial state. */
  datatype WalletContract = WalletContract(version: WalletVersion, address: Address, walletId: nat, init: StateInit)

  /**
   * The wallet library: `create(version, workchain, publicKey)` is
   * `WalletContractV4.create` or `WalletContractV3R2.create`; `parse` is `Address.parse`,
   * `None` where it throws.
   */
  datatype Wallets = Wallets(create: (WalletVersion, Workchain, seq<byte>) -> WalletContract,
                             parse: string -> Option<Address>)

  /** The two candidates, derived on workchain 0 from the author's key. */
  function Candidate(wallets: Wallets, version: WalletVersion, author: Author): WalletContract {
    wallets.create(version, 0, HexDecode(author.publicKey))
  }

  /**
   * `getWalletContract`: V4 when its address is the author's, else V3R2 when its address
   * is, else none; an address the library cannot parse throws.
   */
  function GetWalletContract(author: Author, wallets: Wallets): (r: Result<Option<WalletContract>>)
    ensures r.Err? <==> wallets.parse(author.address).None?
    ensures r.Ok? ==> var a := wallets.parse(author.address).value;
      var v4 := Candidate(wallets, V4, author);
      var v3 := Candidate(wallets, V3R2, author);
      && (v4.address == a ==> r.value == Some(v4))
      && (v4.address != a && v3.address == a ==> r.value == Some(v3))
      && (r.value.None? <==> v4.address != a && v3.address != a)
  {
    match wallets.parse(author.address)
    case None => Err(Thrown("Error"))
    case Some(address) =>
      var v4 := Candidate(wallets, V4, author);
      RawStringInjective(address, v4.address);
      if ToRawString(address) == ToRawString(v4.address) then Ok(Some(v4))
      else
        var v3 := Candidate(wallets, V3R2, author);
        RawStringInjective(address, v3.address);
        if ToRawString(address) == ToRawString(v3.address) then Ok(Some(v3))
        else Ok(None)
  }

  // ---------------------------------------------------------------------------
  // The signing body

  /** `SendMode.PAY_GAS_SEPARATELY`. */
  const PayGasSeparately: nat := 1

  /** The send mode: the given one (zero included), else `PAY_GAS_SEPARATELY`. */
  function SendModeOr(sendMode: Option<nat>): (m: nat)
    ensures sendMode.Some? ==> m == sendMode.value
    ensures sendMode.None? ==> m == PayGasSeparately
  {
    sendMode.GetOr(PayGasSeparately)
  }

  /** The expiry: "never" (all 32 bits set) for the first message, else a minute from now. */
  function ValidUntil(seqno: nat, now: nat): nat {
    if seqno == 0 then Pow(2, 32) - 1 else now / 1000 + 60
  }

  /** The expiry as written: 32 `storeBit(1)` calls for seqno 0, else `storeUint(now/1000 + 60, 32)`. */
  function ValidUntilBits(seqno: nat, now: nat): (b: Bits)
    ensures |b| == 32
  {
    if seqno == 0 then Ones(32) else UintBits(now / 1000 + 60, 32)
  }

  lemma ValidUntilValue(seqno: nat, now: nat)
    requires now / 1000 + 60 < Pow(2, 32)
    ensures ReadUint(ValidUntilBits(seqno, now)) == ValidUntil(seqno, now)
  {
    if seqno == 0 {
      OnesValue(32);
    } else {
      UintRoundTrip(now / 1000 + 60, 32);
    }
  }

  /** walletId ‖ validUntil ‖ seqno, 32 bits each. */
  function Header(walletId: nat, seqno: nat, now: nat): Bits {
    UintBits(walletId, 32) + ValidUntilBits(seqno, now) + UintBits(seqno, 32)
  }

  /** `n` copies of the 8-bit send mode, one per message. */
  function ModeBits(mode: nat, n: nat): (b: Bits)
    ensures |b| == 8 * n
  {
    if n == 0 then [] else ModeBits(mode, n - 1) + UintBits(mode, 8)
  }

  /** One reference per message: the cell `storeMessageRelaxed` writes for it. */
  function Refs(store: MessageRelaxed -> Cell, messages: seq<MessageRelaxed>): (refs: seq<Cell>)
    ensures |refs| == |messages| && forall k :: 0 <= k < |messages| ==> refs[k] == store(messages[k])
  {
    seq(|messages|, k requires 0 <= k < |messages| => store(messages[k]))
  }

  /** The V3 signing body: header, then a mode byte per message, one ref per message. */
  function V3Cell(walletId: nat, seqno: nat, now: nat, mode: nat,
                  messages: seq<MessageRelaxed>, store: MessageRelaxed -> Cell): Cell {
    Cell(Header(walletId, seqno, now) + ModeBits(mode, |messages|), Refs(store, messages))
  }

  /** The V4 signing body: as V3 with the 8-bit "simple order" op (0) after the header. */
  function V4Cell(walletId: nat, seqno: nat, now: nat, mode: nat,
                  messages: seq<MessageRelaxed>, store: MessageRelaxed -> Cell): Cell {
    Cell(Header(walletId, seqno, now) + UintBits(0, 8) + ModeBits(mode, |messages|), Refs(store, messages))
  }

  /** What the signing builders demand of their numbers: each fits its field. */
  predicate Fits(walletId: nat, seqno: nat, now: nat, sendMode: Option<nat>) {
    walletId < Pow(2, 32) && seqno < Pow(2, 32) && now / 1000 + 60 < Pow(2, 32)
    && SendModeOr(sendMode) < Pow(2, 8)
  }

  /** The header's three stores and the 32-bit validity field, into a fresh builder. */
  method StoreHeader(b: Builder, walletId: nat, seqno: nat, now: nat)
    requires b.bits == [] && b.refs == []
    requires walletId < Pow(2, 32) && seqno < Pow(2, 32) && now / 1000 + 60 < Pow(2, 32)
    modifies b
    ensures b.bits == Header(walletId, seqno, now) && b.refs == []
  {
    b.StoreUint(walletId, 32);
    if seqno == 0 {
      for i := 0 to 32
        invariant b.bits == UintBits(walletId, 32) + Ones(i) && b.refs == []
      {
        b.StoreBit(true);
      }
    } else {
      b.StoreUint(now / 1000 + 60, 32);
    }
    b.StoreUint(seqno, 32);
  }

  /** For each message: its mode byte, then its cell as a ref; the fifth ref throws. */
  method StoreMessages(b: Builder, mode: nat, messages: seq<MessageRelaxed>, store: MessageRelaxed -> Cell)
    returns (r: Result<()>)
    requires mode < Pow(2, 8) && |b.bits| <= 104 && b.refs == []
    modifies b
    ensures |messages| <= MaxRefs <==> r.Ok?
    ensures r.Ok? ==> b.bits == old(b.bits) + ModeBits(mode, |messages|) && b.refs == Refs(store, messages)
  {
    var head := b.bits;
    for i := 0 to |messages|
      invariant i <= MaxRefs
      invariant b.bits == head + ModeBits(mode, i) && b.refs == Refs(store, messages[..i])
    {
      b.StoreUint(mode, 8);
      if |b.refs| == MaxRefs {
        return Err(Thrown("Error"));
      }
      b.StoreRef(store(messages[i]));
      StoredOneMore(head, mode, store, messages, i);
    }
    assert messages[..|messages|] == messages;
    r := Ok(());
  }

  /** One more message stored: its mode byte after the others, its ref after theirs. */
  lemma StoredOneMore(head: Bits, mode: nat, store: MessageRelaxed -> Cell, messages: seq<MessageRelaxed>, i: nat)
    requires i < |messages|
    ensures head + ModeBits(mode, i) + UintBits(mode, 8) == head + ModeBits(mode, i + 1)
    ensures Refs(store, messages[..i]) + [store(messages[i])] == Refs(store, messages[..i + 1])
  {
    assert messages[..i + 1] == messages[..i] + [messages[i]];
  }

  /** `createWalletTransferV3SigningMessage`, with the clock `now` in milliseconds. */
  method V3SigningMessage(walletId: nat, seqno: nat, sendMode: Option<nat>, now: nat,
                          messages: seq<MessageRelaxed>, store: MessageRelaxed -> Cell)
    returns (r: Result<Cell>)
    requires Fits(walletId, seqno, now, sendMode)
    ensures |messages| <= MaxRefs ==> r == Ok(V3Cell(walletId, seqno, now, SendModeOr(sendMode), messages, store))
    ensures |messages| > MaxRefs ==> r.Err?
  {
    var mode := SendModeOr(sendMode);
    var b := new Builder();
    StoreHeader(b, walletId, seqno, now);
    var stored := StoreMessages(b, mode, messages, store);
    if stored.Err? {
      return Err(stored.error);
    }
    r := Ok(b.EndCell());
  }

  /** `createWalletTransferV4SigningMessage`, with the clock `now` in milliseconds. */
  method V4SigningMessage(walletId: nat, seqno: nat, sendMode: Option<nat>, now: nat,
                          messages: seq<MessageRelaxed>, store: MessageRelaxed -> Cell)
    returns (r: Result<Cell>)
    requires Fits(walletId, seqno, now, sendMode)
    ensures |messages| <= MaxRefs ==> r == Ok(V4Cell(walletId, seqno, now, SendModeOr(sendMode), messages, store))
    ensures |messages| > MaxRefs ==> r.Err?
  {
    var mode := SendModeOr(sendMode);
    var b := new Builder();
    StoreHeader(b, walletId, seqno, now);
    b.StoreUint(0, 8);
    var stored := StoreMessages(b, mode, messages, store);
    if stored.Err? {
      return Err(stored.error);
    }
    r := Ok(b.EndCell());
  }

  // ---------------------------------------------------------------------------
  // Layout

  lemma {:induction false} ModeBitsRead(mode: nat, n: nat, k: nat)
    requires mode < Pow(2, 8) && k < n
    ensures ModeBits(mode, n)[8 * k .. 8 * k + 8] == UintBits(mode, 8)
    decreases n
  {
    if k < n - 1 {
      ModeBitsRead(mode, n - 1, k);
      assert ModeBits(mode, n)[8 * k .. 8 * k + 8] == ModeBits(mode, n - 1)[8 * k .. 8 * k + 8];
    }
  }

  /**
   * The V3 body holds 96 + 8n bits and n refs: walletId, the expiry and seqno read back
   * from the first three 32-bit fields, and message k's mode byte and cell sit at
   * bit 96 + 8k and ref k.
   */
  lemma V3Layout(walletId: nat, seqno: nat, now: nat, sendMode: Option<nat>,
                 messages: seq<MessageRelaxed>, store: MessageRelaxed -> Cell)
    requires Fits(walletId, seqno, now, sendMode)
    ensures var c := V3Cell(walletId, seqno, now, SendModeOr(sendMode), messages, store);
      && |c.bits| == 96 + 8 * |messages| && |c.refs| == |messages|
      && ReadUint(c.bits[..32]) == walletId
      && ReadUint(c.bits[32..64]) == ValidUntil(seqno, now)
      && ReadUint(c.bits[64..96]) == seqno
      && (forall k :: 0 <= k < |messages| ==>
            ReadUint(c.bits[96 + 8 * k .. 104 + 8 * k]) == SendModeOr(sendMode) && c.refs[k] == store(messages[k]))
  {
    var mode := SendModeOr(sendMode);
    var c := V3Cell(walletId, seqno, now, mode, messages, store);
    var h := Header(walletId, seqno, now);
    HeaderRead(walletId, seqno, now, ModeBits(mode, |messages|));
    ModeBytesRead(h, mode, |messages|);
  }

  /** The header's three 32-bit fields read back as walletId, the expiry and seqno, whatever follows. */
  lemma HeaderRead(walletId: nat, seqno: nat, now: nat, rest: Bits)
    requires walletId < Pow(2, 32) && seqno < Pow(2, 32) && now / 1000 + 60 < Pow(2, 32)
    ensures var b := Header(walletId, seqno, now) + rest;
      && |b| == 96 + |rest|
      && ReadUint(b[..32]) == walletId
      && ReadUint(b[32..64]) == ValidUntil(seqno, now)
      && ReadUint(b[64..96]) == seqno
  {
    var b := Header(walletId, seqno, now) + rest;
    assert b[..32] == UintBits(walletId, 32);
    assert b[32..64] == ValidUntilBits(seqno, now);
    assert b[64..96] == UintBits(seqno, 32);
    UintRoundTrip(walletId, 32);
    ValidUntilValue(seqno, now);
    UintRoundTrip(seqno, 32);
  }

  /** After a 96-bit header, byte k of the mode bits reads back as the mode. */
  lemma ModeBytesRead(h: Bits, mode: nat, n: nat)
    requires |h| == 96 && mode < Pow(2, 8)
    ensures forall k :: 0 <= k < n ==> ReadUint((h + ModeBits(mode, n))[96 + 8 * k .. 104 + 8 * k]) == mode
  {
    UintRoundTrip(mode, 8);
    forall k | 0 <= k < n
      ensures ReadUint((h + ModeBits(mode, n))[96 + 8 * k .. 104 + 8 * k]) == mode
    {
      ModeBitsRead(mode, n, k);
      assert (h + ModeBits(mode, n))[96 + 8 * k .. 104 + 8 * k] == ModeBits(mode, n)[8 * k .. 8 * k + 8];
    }
  }

  /** V4 is V3 with an 8-bit zero ("simple order") inserted after bit 96; the refs agree. */
  lemma V4InsertsSimpleOrder(walletId: nat, seqno: nat, now: nat, mode: nat,
                             messages: seq<MessageRelaxed>, store: MessageRelaxed -> Cell)
    ensures var v3 := V3Cell(walletId, seqno, now, mode, messages, store);
      var v4 := V4Cell(walletId, seqno, now, mode, messages, store);
      && v4.bits == v3.bits[..96] + UintBits(0, 8) + v3.bits[96..]
      && v4.refs == v3.refs
      && |v4.bits| == 104 + 8 * |messages|
      && ReadUint(v4.bits[96..104]) == 0
  {
    var v3 := V3Cell(walletId, seqno, now, mode, messages, store);
    var h := Header(walletId, seqno, now);
    assert v3.bits[..96] == h;
    assert v3.bits[96..] == ModeBits(mode, |messages|);
    UintRoundTrip(0, 8);
    var v4 := V4Cell(walletId, seqno, now, mode, messages, store);
    assert v4.bits[96..104] == UintBits(0, 8);
  }
}
