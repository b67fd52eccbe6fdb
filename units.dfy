/**
 * `bn(value, decimals)` of the shared utilities package: an integer amount of base units
 * written as decimal text, with `decimals` digits after the point, trailing zeros dropped.
 *
 * The source computes `BigInt(Math.pow(10, decimals))`; the power of ten is exact as a
 * floating-point number only up to 10^22, so `decimals <= 22` is required here and the
 * power is computed on integers.
 */
module Units {
  import opened Wrappers
  import opened JsText

  const MaxExactDecimals: nat := 22

  /** A decimals count a token may declare, as far as `bn` computes its power of ten exactly. */
  type Decimals = d: nat | d <= MaxExactDecimals

  /** BigInt `/`: the quotient truncated toward zero. */
  function TruncDiv(a: int, b: nat): int
    requires b > 0
  {
    if a >= 0 then a / b else -((-a) / b)
  }

  /** BigInt `%`: the remainder takes the sign of the dividend. */
  function TruncRem(a: int, b: nat): int
    requires b > 0
  {
    if a >= 0 then a % b else -((-a) % b)
  }

  /** `s.replace(/0+$/, "")`. */
  function StripTrailingZeros(s: string): string
    decreases |s|
  {
    if s != [] && s[|s| - 1] == '0' then StripTrailingZeros(s[..|s| - 1]) else s
  }

  /** `s.slice(-n)`: the last `n` characters; `-0` is `0`, which keeps the whole string. */
  function SliceLast(s: string, n: nat): string {
    if n == 0 || n > |s| then s else s[|s| - n..]
  }

  /** The digits after the point for a positive remainder `r`. */
  function Fraction(r: nat, decimals: nat): string {
    StripTrailingZeros(SliceLast(Repeat('0', decimals) + NatToString(r), decimals))
  }

  function Bn(value: int, decimals: nat): string
    requires decimals <= MaxExactDecimals
  {
    var divider := Pow10(decimals);
    var l := TruncDiv(value, divider);
    var r := TruncRem(value, divider);
    var result := IntToString(l);
    if r > 0 then result + "." + Fraction(r, decimals) else result
  }

  /**
   * An independent reader of the text `Bn` writes, for non-negative amounts: digits,
   * optionally followed by a point and one to `decimals` digits, scaled to base units.
   */
  function ParseUnits(s: string, decimals: nat): Option<int> {
    if '.' in s then
      var k := IndexOf(s, '.');
      ParseParts(s[..k], s[k + 1..], decimals)
    else if |s| > 0 && AllDigits(s, 10) then Some(ValueIn(s, 10) * Pow10(decimals))
    else None
  }

  /** The reader on the digits before and after the point. */
  function ParseParts(whole: string, frac: string, decimals: nat): Option<int> {
    if |whole| > 0 && AllDigits(whole, 10) && 0 < |frac| <= decimals && AllDigits(frac, 10) then
      Some(ValueIn(whole, 10) * Pow10(decimals) + ValueIn(frac, 10) * Pow10(decimals - |frac|))
    else None
  }

  // ---------------------------------------------------------------------------
  // Helper facts

  lemma {:induction false} StripShape(s: string)
    ensures var f := StripTrailingZeros(s);
      |f| <= |s| && f == s[..|f|] && (f == [] || f[|f| - 1] != '0')
      && s[|f|..] == Repeat('0', |s| - |f|)
    decreases |s|
  {
    if s != [] && s[|s| - 1] == '0' {
      var s' := s[..|s| - 1];
      StripShape(s');
      var f := StripTrailingZeros(s');
      assert s[..|f|] == s'[..|f|];
      assert s[|f|..] == s'[|f|..] + ['0'];
      var z := Repeat('0', |s| - |f|);
      assert s[|f|..] == z;
    }
  }

  lemma PrefixDigits(s: string, n: nat)
    requires n <= |s| && AllDigits(s, 10)
    ensures AllDigits(s[..n], 10)
  {
    forall i | 0 <= i < n ensures DigitIn(s[..n][i], 10).Some? {
      assert s[..n][i] == s[i];
    }
  }

  /** The last `d` characters of `d` zeros followed by a numeral of at most `d` digits. */
  lemma PaddedTail(t: string, d: nat)
    requires |t| <= d && d >= 1
    ensures SliceLast(Repeat('0', d) + t, d) == Repeat('0', d - |t|) + t
  {
    var padded := Repeat('0', d) + t;
    var tail := padded[|t|..];
    var want := Repeat('0', d - |t|) + t;
    assert |tail| == |want|;
    forall i | 0 <= i < |tail| ensures tail[i] == want[i] {
      if i < d - |t| {
        assert tail[i] == padded[|t| + i] == '0';
      } else {
        assert tail[i] == padded[|t| + i] == t[i - (d - |t|)];
      }
    }
  }

  lemma ZeroMod(p: nat)
    requires p > 0
    ensures 0 % p == 0 && 0 / p == 0
  {
  }

  lemma SmallDiv(a: int, p: nat)
    requires 0 <= a < p
    ensures a / p == 0
  {
  }

  /** The remainder is positive exactly for a positive dividend that `p` does not divide. */
  lemma TruncRemSign(a: int, p: nat)
    requires p > 0
    ensures TruncRem(a, p) > 0 <==> a > 0 && a % p != 0
    ensures a >= 0 ==> TruncDiv(a, p) == a / p && TruncRem(a, p) == a % p && a / p >= 0
  {
    if a >= 0 {
      assert TruncRem(a, p) == a % p;
      if a == 0 {
        ZeroMod(p);
      }
    } else {
      var m := (-a) % p;
      assert 0 <= m;
      assert TruncRem(a, p) == -m;
    }
  }

  // ---------------------------------------------------------------------------
  // Properties of Bn

  /** Stripping trailing zeros keeps a digit string's value up to a power of ten. */
  lemma StripValue(s: string)
    requires AllDigits(s, 10)
    ensures var f := StripTrailingZeros(s);
      |f| <= |s| && AllDigits(f, 10) && (f == [] || f[|f| - 1] != '0')
      && ValueIn(s, 10) == ValueIn(f, 10) * Pow10(|s| - |f|)
  {
    var f := StripTrailingZeros(s);
    StripShape(s);
    PrefixDigits(s, |f|);
    var zeros := Repeat('0', |s| - |f|);
    ValueOfZeros(|s| - |f|, 10);
    assert s == f + zeros;
    ValueInAppend(f, zeros, 10);
  }

  /** The padded remainder before stripping: exactly `decimals` digits worth `r`. */
  lemma PaddedValue(r: nat, decimals: nat)
    requires 0 < r < Pow10(decimals)
    ensures var slice := SliceLast(Repeat('0', decimals) + NatToString(r), decimals);
      |slice| == decimals && AllDigits(slice, 10) && ValueIn(slice, 10) == r
  {
    assert decimals >= 1;
    var t := NatToString(r);
    NatToStringValue(r);
    ToBaseLength(r, 10, decimals);
    PaddedTail(t, decimals);
    var zeros := Repeat('0', decimals - |t|);
    ValueOfZeros(decimals - |t|, 10);
    ValueInAppend(zeros, t, 10);
    var w := Pow(10, |t|);
    assert ValueIn(zeros + t, 10) == 0 * w + r;
  }

  /**
   * The fraction for a remainder `0 < r < 10^decimals` has between one and `decimals`
   * digits, never ends in '0', and scaled back to `decimals` places it is exactly `r`.
   */
  lemma FractionShape(r: nat, decimals: nat)
    requires 0 < r < Pow10(decimals)
    ensures var f := Fraction(r, decimals);
      1 <= |f| <= decimals && AllDigits(f, 10) && f[|f| - 1] != '0'
      && ValueIn(f, 10) * Pow10(decimals - |f|) == r
  {
    var slice := SliceLast(Repeat('0', decimals) + NatToString(r), decimals);
    PaddedValue(r, decimals);
    StripValue(slice);
  }

  /** The text up to the first "." (or all of it) is the truncated quotient `value / 10^decimals`. */
  lemma BnIntegerPart(value: int, decimals: nat)
    requires decimals <= MaxExactDecimals
    ensures var head := IntToString(TruncDiv(value, Pow10(decimals)));
      var s := Bn(value, decimals);
      '.' !in head && StartsWith(s, head) && (|s| == |head| || s[|head|] == '.')
  {
    NotInInteger('.', TruncDiv(value, Pow10(decimals)));
  }

  /** A point appears exactly when the amount is positive and not a multiple of 10^decimals. */
  lemma BnPointIff(value: int, decimals: nat)
    requires decimals <= MaxExactDecimals
    ensures '.' in Bn(value, decimals) <==> value > 0 && value % Pow10(decimals) != 0
  {
    var p := Pow10(decimals);
    var head := IntToString(TruncDiv(value, p));
    NotInInteger('.', TruncDiv(value, p));
    var r := TruncRem(value, p);
    TruncRemSign(value, p);
    var s := Bn(value, decimals);
    if r > 0 {
      assert s == head + "." + Fraction(r, decimals);
      assert s[|head|] == '.';
    } else {
      assert s == head;
    }
  }

  /** With a positive remainder the text is the quotient, a point, and the fraction digits. */
  lemma BnFraction(value: int, decimals: nat)
    requires decimals <= MaxExactDecimals && value > 0 && value % Pow10(decimals) != 0
    ensures var f := Fraction(value % Pow10(decimals), decimals);
      Bn(value, decimals) == IntToString(value / Pow10(decimals)) + "." + f
      && 1 <= |f| <= decimals && AllDigits(f, 10) && f[|f| - 1] != '0'
      && ValueIn(f, 10) * Pow10(decimals - |f|) == value % Pow10(decimals)
  {
    var p := Pow10(decimals);
    var q, r := value / p, value % p;
    TruncRemSign(value, p);
    assert TruncDiv(value, p) == q && TruncRem(value, p) == r && r > 0;
    assert Bn(value, decimals) == IntToString(q) + "." + Fraction(r, decimals);
    FractionShape(r, decimals);
  }

  /** The reader on a point-free numeral. */
  lemma ParseWhole(w: string, decimals: nat)
    requires |w| > 0 && AllDigits(w, 10)
    ensures ParseUnits(w, decimals) == Some(ValueIn(w, 10) * Pow10(decimals))
  {
    forall k | 0 <= k < |w| ensures w[k] != '.' {
      assert DigitIn(w[k], 10).Some?;
    }
  }

  /** The reader splits a numeral joined to a fraction at the point. */
  lemma ParseJoined(w: string, f: string, decimals: nat)
    requires '.' !in w
    ensures ParseUnits(w + "." + f, decimals) == ParseParts(w, f, decimals)
  {
    var s := w + "." + f;
    var k := |w|;
    assert s == w + ['.'] + f;
    IndexOfAfter(w, '.', f);
    assert s[..k] == w && s[k + 1..] == f;
  }

  /** Round trip: for a non-negative amount, reading the text back and scaling gives the amount. */
  lemma BnRoundTrip(value: int, decimals: nat)
    requires decimals <= MaxExactDecimals && value >= 0
    ensures ParseUnits(Bn(value, decimals), decimals) == Some(value)
  {
    var p := Pow10(decimals);
    TruncRemSign(value, p);
    DivMod(value, p);
    var q: nat := value / p;
    var head := NatToString(q);
    NatToStringValue(q);
    if value % p > 0 {
      var f := Fraction(value % p, decimals);
      BnFraction(value, decimals);
      NotInInteger('.', q);
      assert IntToString(q) == head;
      PointedRoundTrip(head, f, q, value % p, decimals);
    } else {
      WholeRoundTrip(value, decimals);
    }
  }

  /** A numeral worth `q`, a point and a fraction worth `r` in base units read back as their sum. */
  lemma PointedRoundTrip(head: string, f: string, q: nat, r: nat, decimals: nat)
    requires |head| > 0 && AllDigits(head, 10) && ValueIn(head, 10) == q && '.' !in head
    requires 0 < |f| <= decimals && AllDigits(f, 10) && ValueIn(f, 10) * Pow10(decimals - |f|) == r
    ensures ParseUnits(head + "." + f, decimals) == Some(q * Pow10(decimals) + r)
  {
    ParseJoined(head, f, decimals);
    var a, b, e := ValueIn(head, 10), ValueIn(f, 10), Pow10(decimals - |f|);
    assert ParseParts(head, f, decimals) == Some(a * Pow10(decimals) + b * e);
    Regroup(a, q, Pow10(decimals), b, e, r);
  }

  lemma Regroup(a: int, q: int, p: int, b: int, e: int, r: int)
    requires a == q && b * e == r
    ensures a * p + b * e == q * p + r
  {
  }

  /** The round trip for a multiple of `10^decimals`. */
  lemma WholeRoundTrip(value: int, decimals: nat)
    requires decimals <= MaxExactDecimals && value >= 0 && value % Pow10(decimals) == 0
    ensures ParseUnits(Bn(value, decimals), decimals) == Some(value / Pow10(decimals) * Pow10(decimals))
  {
    var p := Pow10(decimals);
    TruncRemSign(value, p);
    var q: nat := value / p;
    var head := NatToString(q);
    NatToStringValue(q);
    assert Bn(value, decimals) == head;
    ParseWhole(head, decimals);
  }

  /** With no decimals the text is the integer itself. */
  lemma BnNoDecimals(value: int)
    ensures Bn(value, 0) == IntToString(value)
  {
  }

  /**
   * A negative amount loses its fraction: BigInt division truncates toward zero and the
   * remainder is negative, so only the integer part is printed, and `-0` prints as "0".
   */
  lemma BnNegative(value: int, decimals: nat)
    requires decimals <= MaxExactDecimals && value < 0
    ensures Bn(value, decimals) == IntToString(-((-value) / Pow10(decimals)))
    ensures -value < Pow10(decimals) ==> Bn(value, decimals) == "0"
  {
    var p := Pow10(decimals);
    var q := (-value) / p;
    TruncRemSign(value, p);
    assert Bn(value, decimals) == IntToString(-q);
    if -value < p {
      SmallDiv(-value, p);
      assert NatToString(0) == "0";
    }
  }

  /**
   * `bn` as called, on the amount's text: `BigInt(value)` throws a SyntaxError on text
   * that is not an integer literal.
   */
  function BnOfText(value: string, decimals: nat): (r: Result<string>)
    requires decimals <= MaxExactDecimals
    ensures r.Err? <==> BigIntOf(value).None?
    ensures r.Ok? ==> r.value == Bn(BigIntOf(value).value, decimals)
  {
    match BigIntOf(value)
    case None => Err(Thrown("SyntaxError"))
    case Some(v) => Ok(Bn(v, decimals))
  }

  /** On the decimal text of an integer, the text-level conversion never throws. */
  lemma BnOfIntegerText(value: int, decimals: nat)
    requires decimals <= MaxExactDecimals
    ensures BnOfText(IntToString(value), decimals) == Ok(Bn(value, decimals))
  {
    BigIntToString(value);
  }
}
