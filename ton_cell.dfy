/**
 * TON cells as the `@ton/core` builder writes them: a cell is at most 1023 data bits
 * and at most four references. Integers are stored big-endian, coins as
 * `VarUInteger 16` (a 4-bit byte count, then that many bytes), internal addresses as
 * `addr_std` (tag '10', no anycast, an 8-bit workchain, a 256-bit account hash).
 * Every encoder here has a reader and a round-trip lemma.
 */
module TonCell {
  import opened Wrappers
  import opened JsText

  type Bits = seq<bool>

  const MaxBits: nat := 1023
  const MaxRefs: nat := 4

  datatype Cell = Cell(bits: Bits, refs: seq<Cell>)

  type Workchain = w: int | -128 <= w < 128
  type AccountHash = h: seq<byte> | |h| == 32 witness Repeat32Zero()

  function Repeat32Zero(): (h: seq<byte>)
    ensures |h| == 32
  {
    seq(32, _ => 0)
  }

  /** An internal (`addr_std`) address. */
  datatype Address = Address(workchain: Workchain, hash: AccountHash)

  /** `address.toRawString()`: the workchain in decimal, ':', the hash in lower-case hex. */
  function ToRawString(a: Address): (s: string)
    ensures ':' in s
  {
    var head := IntToString(a.workchain);
    var s := head + ":" + HexEncode(a.hash);
    assert s[|head|] == ':';
    s
  }

  /** `Address.parseRaw` on the parts: the workchain before the first ':', hex after it. */
  function ParseRaw(s: string): Option<(int, seq<byte>)> {
    if ':' !in s then None
    else
      var k := IndexOf(s, ':');
      var w :- BigIntOf(s[..k]);
      Some((w, HexDecode(s[k + 1..])))
  }

  lemma RawStringRoundTrip(a: Address)
    ensures ParseRaw(ToRawString(a)) == Some((a.workchain as int, a.hash))
  {
    var head := IntToString(a.workchain);
    var s := ToRawString(a);
    NotInInteger(':', a.workchain);
    assert s == head + [':'] + HexEncode(a.hash);
    IndexOfAfter(head, ':', HexEncode(a.hash));
    assert s[..|head|] == head && s[|head| + 1..] == HexEncode(a.hash);
    BigIntToString(a.workchain);
    HexRoundTrip(a.hash);
  }

  /** Comparing raw strings, as the wallet lookup does, is comparing addresses. */
  lemma RawStringInjective(a: Address, b: Address)
    ensures ToRawString(a) == ToRawString(b) <==> a == b
  {
    RawStringRoundTrip(a);
    RawStringRoundTrip(b);
  }

  // ---------------------------------------------------------------------------
  // Unsigned integers

  lemma {:induction false} PowAdd(b: nat, x: nat, y: nat)
    ensures Pow(b, x + y) == Pow(b, x) * Pow(b, y)
    decreases y
  {
    if y > 0 {
      PowAdd(b, x, y - 1);
      var p, q := Pow(b, x), Pow(b, y - 1);
      assert Pow(b, x + y) == b * (p * q);
      assert Pow(b, y) == b * q;
      MulRegroup(b, p, q);
    }
  }

  lemma MulRegroup(b: int, p: int, q: int)
    ensures b * (p * q) == p * (b * q)
  {
  }

  lemma MulAtLeast(b: nat, p: nat)
    requires b >= 1
    ensures p <= b * p
  {
  }

  /** The widths the wallet body uses: 8, 16 and 32 bits. */
  lemma PowWidths()
    ensures Pow(2, 8) == 256 && Pow(2, 16) == 0x1_0000 && Pow(2, 32) == 0x1_0000_0000
  {
    assert Pow(2, 8) == 256;
    PowAdd(2, 8, 8);
    PowAdd(2, 16, 16);
  }

  /** `storeUint(v, w)`: the low `w` bits of `v`, most significant first. */
  function UintBits(v: nat, w: nat): (b: Bits)
    ensures |b| == w
  {
    if w == 0 then [] else UintBits(v / 2, w - 1) + [v % 2 == 1]
  }

  /** The reader's `loadUint`: the value of a bit string, most significant bit first. */
  function ReadUint(b: Bits): (v: nat)
    ensures v < Pow(2, |b|)
  {
    if b == [] then 0 else 2 * ReadUint(b[..|b| - 1]) + (if b[|b| - 1] then 1 else 0)
  }

  lemma {:induction false} UintRoundTrip(v: nat, w: nat)
    requires v < Pow(2, w)
    ensures ReadUint(UintBits(v, w)) == v
    decreases w
  {
    if w > 0 {
      DivBound(v, 2, Pow(2, w - 1));
      UintRoundTrip(v / 2, w - 1);
      var b := UintBits(v, w);
      assert b[..|b| - 1] == UintBits(v / 2, w - 1);
      DivMod(v, 2);
    }
  }

  /** Values read back from bits are written back to the same bits. */
  lemma {:induction false} ReadUintRoundTrip(b: Bits)
    ensures UintBits(ReadUint(b), |b|) == b
    decreases |b|
  {
    if b != [] {
      var init := b[..|b| - 1];
      ReadUintRoundTrip(init);
      assert b == init + [b[|b| - 1]];
    }
  }

  /** 32 one-bits, the "no expiry" marker of a first (seqno 0) wallet message. */
  function Ones(n: nat): (b: Bits)
    ensures |b| == n && forall i :: 0 <= i < n ==> b[i]
  {
    if n == 0 then [] else Ones(n - 1) + [true]
  }

  lemma {:induction false} OnesValue(n: nat)
    ensures ReadUint(Ones(n)) == Pow(2, n) - 1
    decreases n
  {
    if n > 0 {
      OnesValue(n - 1);
      assert Ones(n)[..n - 1] == Ones(n - 1);
    }
  }

  /** A signed 8-bit workchain as two's complement. */
  function WorkchainBits(w: Workchain): (b: Bits)
    ensures |b| == 8
  {
    UintBits(if w < 0 then w + 256 else w, 8)
  }

  function ReadWorkchain(b: Bits): (w: Workchain)
    requires |b| == 8
  {
    var u := ReadUint(b);
    assert Pow(2, 8) == 256;
    if u >= 128 then u - 256 else u
  }

  lemma WorkchainRoundTrip(w: Workchain)
    ensures ReadWorkchain(WorkchainBits(w)) == w
  {
    assert Pow(2, 8) == 256;
    UintRoundTrip(if w < 0 then w + 256 else w, 8);
  }

  // ---------------------------------------------------------------------------
  // Byte strings

  /** `storeBuffer(b)`: eight bits per byte, in order. */
  function BytesBits(b: seq<byte>): (r: Bits)
    ensures |r| == 8 * |b|
  {
    if b == [] then [] else UintBits(b[0], 8) + BytesBits(b[1..])
  }

  function ReadBytes(r: Bits): (b: seq<byte>)
    ensures |b| == |r| / 8
  {
    if |r| < 8 then []
    else
      assert Pow(2, 8) == 256;
      [ReadUint(r[..8])] + ReadBytes(r[8..])
  }

  lemma {:induction false} BytesRoundTrip(b: seq<byte>)
    ensures ReadBytes(BytesBits(b)) == b
    decreases |b|
  {
    if b != [] {
      var r := BytesBits(b);
      assert Pow(2, 8) == 256;
      assert r[..8] == UintBits(b[0], 8);
      UintRoundTrip(b[0], 8);
      assert r[8..] == BytesBits(b[1..]);
      BytesRoundTrip(b[1..]);
    }
  }

  // ---------------------------------------------------------------------------
  // Coins: VarUInteger 16

  /** The number of bytes `storeCoins` uses: ceil(bit length / 8), 0 for 0. */
  function ByteLength(v: nat): (n: nat)
    ensures v < Pow(2, 8 * n)
    ensures n > 0 ==> Pow(2, 8 * (n - 1)) <= v
  {
    if v == 0 then 0
    else
      var m := ByteLength(v / 256);
      ByteStep(v, m);
      1 + m
  }

  /** One more byte: the bounds on `v / 256` in `m` bytes give the bounds on `v` in `m + 1`. */
  lemma ByteStep(v: nat, m: nat)
    requires v > 0 && v / 256 < Pow(2, 8 * m) && (m > 0 ==> Pow(2, 8 * (m - 1)) <= v / 256)
    ensures v < Pow(2, 8 * (m + 1)) && Pow(2, 8 * m) <= v
  {
    PowAdd(2, 8 * m, 8);
    PowByte();
    DivBelow(v, Pow(2, 8 * m));
    if m > 0 {
      PowAdd(2, 8 * (m - 1), 8);
      DivAbove(v, Pow(2, 8 * (m - 1)));
    }
  }

  lemma PowByte()
    ensures Pow(2, 8) == 256
  {
  }

  lemma DivBelow(v: nat, p: nat)
    requires v / 256 < p
    ensures v < p * 256
  {
  }

  lemma DivAbove(v: nat, p: nat)
    requires p <= v / 256
    ensures p * 256 <= v
  {
  }

  lemma {:induction false} ByteLengthBound(v: nat, k: nat)
    requires v < Pow(2, 8 * k)
    ensures ByteLength(v) <= k
  {
    var n := ByteLength(v);
    if n > k {
      PowMonotone(2, 8 * k, 8 * (n - 1));
    }
  }

  lemma {:induction false} PowMonotone(b: nat, x: nat, y: nat)
    requires b >= 1 && x <= y
    ensures Pow(b, x) <= Pow(b, y)
    decreases y
  {
    if x < y {
      PowMonotone(b, x, y - 1);
      var p := Pow(b, y - 1);
      assert Pow(b, y) == b * p;
      MulAtLeast(b, p);
    }
  }

  /** Coins above this bound need 16 or more bytes and do not fit the 4-bit length. */
  const CoinsLimit: nat := Pow(2, 120)

  /**
   * `storeCoins(v)`: an error for a negative value or one of 16 bytes or more; zero is
   * the 4-bit length 0 alone; otherwise the byte length, then the value in that many bytes.
   */
  function CoinsBits(v: int): (r: Result<Bits>)
    ensures r.Ok? <==> 0 <= v < CoinsLimit
  {
    if v < 0 then Err(Thrown("RangeError"))
    else if v == 0 then Ok(UintBits(0, 4))
    else
      var n := ByteLength(v);
      if n >= 16 then
        PowMonotone(2, 120, 8 * (n - 1));
        Err(Thrown("RangeError"))
      else
        PowMonotone(2, 8 * n, 120);
        Ok(UintBits(n, 4) + UintBits(v, 8 * n))
  }

  /** `loadUint(w)` on a bit string: the value and what follows it. */
  function LoadUint(s: Bits, w: nat): Option<(nat, Bits)> {
    if |s| < w then None else Some((ReadUint(s[..w]), s[w..]))
  }

  /** `loadCoins()`. */
  function LoadCoins(s: Bits): Option<(nat, Bits)> {
    var (n, rest) :- LoadUint(s, 4);
    LoadUint(rest, 8 * n)
  }

  lemma LoadUintAppend(v: nat, w: nat, rest: Bits)
    requires v < Pow(2, w)
    ensures LoadUint(UintBits(v, w) + rest, w) == Some((v, rest))
  {
    var s := UintBits(v, w) + rest;
    assert s[..w] == UintBits(v, w) && s[w..] == rest;
    UintRoundTrip(v, w);
  }

  lemma CoinsRoundTrip(v: int, rest: Bits)
    requires CoinsBits(v).Ok?
    ensures LoadCoins(CoinsBits(v).value + rest) == Some((v, rest))
  {
    assert Pow(2, 4) == 16;
    if v == 0 {
      LoadUintAppend(0, 4, rest);
      assert LoadUint(rest, 0) == Some((0, rest));
    } else {
      var n := ByteLength(v);
      ByteLengthBound(v, 15);
      var len, body := UintBits(n, 4), UintBits(v, 8 * n);
      assert CoinsBits(v) == Ok(len + body);
      LoadUintAppend(n, 4, body + rest);
      assert len + body + rest == len + (body + rest);
      LoadUintAppend(v, 8 * n, rest);
    }
  }

  // ---------------------------------------------------------------------------
  // Addresses

  /** `storeAddress(a)` for an internal address: 2 + 1 + 8 + 256 = 267 bits. */
  function AddressBits(a: Address): (r: Bits)
    ensures |r| == 267
  {
    [true, false, false] + WorkchainBits(a.workchain) + BytesBits(a.hash)
  }

  /** `loadAddress()` for `addr_std` without anycast. */
  function LoadAddress(s: Bits): Option<(Address, Bits)> {
    if |s| < 267 || s[..3] != [true, false, false] then None
    else
      var hash := ReadBytes(s[11..267]);
      Some((Address(ReadWorkchain(s[3..11]), hash), s[267..]))
  }

  lemma AddressRoundTrip(a: Address, rest: Bits)
    ensures LoadAddress(AddressBits(a) + rest) == Some((a, rest))
  {
    var s := AddressBits(a) + rest;
    assert s[..3] == [true, false, false];
    assert s[3..11] == WorkchainBits(a.workchain);
    assert s[11..267] == BytesBits(a.hash);
    assert s[267..] == rest;
    WorkchainRoundTrip(a.workchain);
    BytesRoundTrip(a.hash);
  }

  // ---------------------------------------------------------------------------
  // The builder

  /** `beginCell()`: a builder whose bits and refs the `store*` calls extend in place. */
  class Builder {
    var bits: Bits
    var refs: seq<Cell>

    constructor ()
      ensures bits == [] && refs == []
    {
      bits := [];
      refs := [];
    }

    /** `storeUint(v, w)`; the library throws for a value out of range or an overflow. */
    method StoreUint(v: nat, w: nat)
      requires v < Pow(2, w) && |bits| + w <= MaxBits
      modifies this
      ensures bits == old(bits) + UintBits(v, w) && refs == old(refs)
    {
      bits := bits + UintBits(v, w);
    }

    method StoreBit(b: bool)
      requires |bits| < MaxBits
      modifies this
      ensures bits == old(bits) + [b] && refs == old(refs)
    {
      bits := bits + [b];
    }

    /** `storeRef(c)`; the library throws past four references. */
    method StoreRef(c: Cell)
      requires |refs| < MaxRefs
      modifies this
      ensures bits == old(bits) && refs == old(refs) + [c]
    {
      refs := refs + [c];
    }

    function EndCell(): (c: Cell)
      reads this
      ensures c.bits == bits && c.refs == refs
    {
      Cell(bits, refs)
    }
  }
}
