/**
 * Base64 as the runtime's `Buffer` writes and reads it: the encoder is the padded
 * alphabet of section 4 of RFC 4648; the decoder (`Buffer.from(s, 'base64')`) is
 * lenient: it reads up to the first '=', skips characters outside the alphabet,
 * accepts the URL-safe '-' and '_' of section 5, and decodes a trailing partial group
 * of two or three characters into one or two bytes (a single leftover character is
 * dropped). It never fails.
 */
module Base64 {
  import opened JsText

  type sextet = x: int | 0 <= x < 64

  /** The letter of the standard alphabet: 'A'-'Z', 'a'-'z', '0'-'9', '+', '/'. */
  function LetterOf(v: sextet): char {
    if v < 26 then ('A' as int + v) as char
    else if v < 52 then ('a' as int + v - 26) as char
    else if v < 62 then ('0' as int + v - 52) as char
    else if v == 62 then '+'
    else '/'
  }

  /** The value of one character, standard or URL-safe; `-1` for characters outside both. */
  function SextetOf(c: char): (v: int)
    ensures -1 <= v < 64
    ensures v >= 0 ==> c != '='
  {
    if 'A' <= c <= 'Z' then c as int - 'A' as int
    else if 'a' <= c <= 'z' then c as int - 'a' as int + 26
    else if '0' <= c <= '9' then c as int - '0' as int + 52
    else if c == '+' || c == '-' then 62
    else if c == '/' || c == '_' then 63
    else -1
  }

  lemma AlphabetIndex(v: sextet)
    ensures SextetOf(LetterOf(v)) == v
  {
  }

  // ---------------------------------------------------------------------------
  // Encoding

  /** The sextets of `b`, three bytes to four sextets, a short tail to two or three. */
  function SextetsOf(b: seq<byte>): (q: seq<sextet>)
    ensures |q| == |b| / 3 * 4 + (if |b| % 3 == 0 then 0 else |b| % 3 + 1)
  {
    if |b| >= 3 then
      [b[0] / 4, (b[0] % 4) * 16 + b[1] / 16, (b[1] % 16) * 4 + b[2] / 64, b[2] % 64]
      + SextetsOf(b[3..])
    else if |b| == 2 then [b[0] / 4, (b[0] % 4) * 16 + b[1] / 16, (b[1] % 16) * 4]
    else if |b| == 1 then [b[0] / 4, (b[0] % 4) * 16]
    else []
  }

  function Letters(q: seq<sextet>): (s: string)
    ensures |s| == |q| && forall i :: 0 <= i < |q| ==> s[i] == LetterOf(q[i])
  {
    if q == [] then [] else [LetterOf(q[0])] + Letters(q[1..])
  }

  /** `buffer.toString('base64')`: letters, then '=' padding to a multiple of four. */
  function Encode(b: seq<byte>): (s: string)
    ensures |s| % 4 == 0 && |s| == (|b| + 2) / 3 * 4
  {
    Letters(SextetsOf(b)) + (if |b| % 3 == 1 then "==" else if |b| % 3 == 2 then "=" else "")
  }

  // ---------------------------------------------------------------------------
  // Decoding

  /** The sextets the decoder reads: alphabet characters before the first '='. */
  function Clean(s: string): seq<sextet> {
    if s == [] || s[0] == '=' then []
    else
      var v := SextetOf(s[0]);
      if v >= 0 then [v] + Clean(s[1..]) else Clean(s[1..])
  }

  /** Four sextets to three bytes; a tail of three or two sextets to two or one byte. */
  function BytesOf(q: seq<sextet>): (b: seq<byte>)
    ensures |b| == |q| / 4 * 3 + (if |q| % 4 == 0 then 0 else |q| % 4 - 1)
  {
    var w: int := if |q| > 0 then q[0] else 0;
    var x: int := if |q| > 1 then q[1] else 0;
    var y: int := if |q| > 2 then q[2] else 0;
    var z: int := if |q| > 3 then q[3] else 0;
    var group: seq<byte> := [w * 4 + x / 16, (x % 16) * 16 + y / 4, (y % 4) * 64 + z];
    if |q| >= 4 then group + BytesOf(q[4..])
    else if |q| == 3 then group[..2]
    else if |q| == 2 then group[..1]
    else []
  }

  /** `Buffer.from(s, 'base64')`. */
  function Decode(s: string): (b: seq<byte>)
    ensures |b| <= |s| * 3 / 4
  {
    CleanLength(s);
    BytesOf(Clean(s))
  }

  // ---------------------------------------------------------------------------
  // Properties

  lemma {:induction false} CleanLength(s: string)
    ensures |Clean(s)| <= |s|
    decreases |s|
  {
    if s != [] && s[0] != '=' {
      CleanLength(s[1..]);
    }
  }

  /** The decoder reads every letter of the alphabet back as its own sextet. */
  lemma {:induction false} CleanLetters(q: seq<sextet>, pad: string)
    requires pad == [] || pad[0] == '='
    ensures Clean(Letters(q) + pad) == q
    decreases |q|
  {
    var s := Letters(q) + pad;
    if q != [] {
      AlphabetIndex(q[0]);
      assert s[0] == LetterOf(q[0]);
      assert s[1..] == Letters(q[1..]) + pad;
      CleanLetters(q[1..], pad);
    }
  }

  lemma GroupRoundTrip(x: byte, y: byte, z: byte)
    ensures var q0, q1, q2 := x / 4, (x % 4) * 16 + y / 16, (y % 16) * 4 + z / 64;
      q0 * 4 + q1 / 16 == x && (q1 % 16) * 16 + q2 / 4 == y && (q2 % 4) * 64 + z % 64 == z
  {
  }

  /** Decoding the sextets of `b` gives back `b`, group by group. */
  lemma {:induction false} BytesOfSextets(b: seq<byte>)
    ensures BytesOf(SextetsOf(b)) == b
    decreases |b|
  {
    if |b| >= 3 {
      GroupRoundTrip(b[0], b[1], b[2]);
      var q := SextetsOf(b);
      assert q[4..] == SextetsOf(b[3..]);
      BytesOfSextets(b[3..]);
      assert b == b[..3] + b[3..];
    } else if |b| == 2 {
      GroupRoundTrip(b[0], b[1], 0);
    } else if |b| == 1 {
      GroupRoundTrip(b[0], 0, 0);
    }
  }

  /** Round trip: `Buffer.from(buffer.toString('base64'), 'base64')` is the original bytes. */
  lemma RoundTrip(b: seq<byte>)
    ensures Decode(Encode(b)) == b
  {
    var pad := if |b| % 3 == 1 then "==" else if |b| % 3 == 2 then "=" else "";
    CleanLetters(SextetsOf(b), pad);
    BytesOfSextets(b);
  }

  /** Characters outside the alphabet are skipped wherever they stand before the padding. */
  lemma SkipsForeign(s: string, c: char)
    requires SextetOf(c) < 0 && c != '='
    ensures Decode([c] + s) == Decode(s)
  {
    assert ([c] + s)[1..] == s;
  }
}
