/**
 * The JavaScript string and number primitives the plugins lean on, written out over
 * `string = seq<char>`: digit strings in a base (`Number#toString(radix)`), `parseInt`,
 * `BigInt(string)`, `String#split` on one character, ASCII case mapping, and the
 * hexadecimal codec of Node's `Buffer`.
 */
module JsText {
  import opened Wrappers

  type byte = x: int | 0 <= x < 256

  function Pow(b: nat, e: nat): (r: nat)
    ensures b >= 1 ==> r >= 1
  {
    if e == 0 then 1 else b * Pow(b, e - 1)
  }

  function Pow10(e: nat): (r: nat)
    ensures r >= 1
  {
    Pow(10, e)
  }

  function Repeat(c: char, n: nat): (s: string)
    ensures |s| == n && forall i :: 0 <= i < n ==> s[i] == c
  {
    if n == 0 then [] else [c] + Repeat(c, n - 1)
  }

  // ---------------------------------------------------------------------------
  // Digits

  /** The digit character for `d`, lower-case past 9, as `Number#toString(radix)` prints it. */
  function DigitChar(d: nat): char
    requires d < 16
  {
    if d < 10 then ('0' as int + d) as char else ('a' as int + d - 10) as char
  }

  /** The value of a digit character in any base up to 36, either case. */
  function DigitOf(c: char): Option<nat> {
    if '0' <= c <= '9' then Some(c as int - '0' as int)
    else if 'a' <= c <= 'z' then Some(c as int - 'a' as int + 10)
    else if 'A' <= c <= 'Z' then Some(c as int - 'A' as int + 10)
    else None
  }

  function DigitIn(c: char, base: nat): Option<nat> {
    match DigitOf(c)
    case Some(d) => if d < base then Some(d) else None
    case None => None
  }

  predicate AllDigits(s: string, base: nat) {
    forall i :: 0 <= i < |s| ==> DigitIn(s[i], base).Some?
  }

  lemma DigitCharIn(d: nat, base: nat)
    requires d < base <= 16
    ensures DigitIn(DigitChar(d), base) == Some(d)
  {
  }

  /** `n.toString(base)`: the shortest digit string of `n`, most significant digit first. */
  function ToBase(n: nat, base: nat): (s: string)
    requires 2 <= base <= 16
    decreases n
  {
    if n < base then [DigitChar(n)] else ToBase(n / base, base) + [DigitChar(n % base)]
  }

  /** The number a digit string denotes in `base`, most significant digit first. */
  function ValueIn(s: string, base: nat): nat
    requires 2 <= base && AllDigits(s, base)
    decreases |s|
  {
    if s == [] then 0 else ValueIn(s[..|s| - 1], base) * base + DigitIn(s[|s| - 1], base).value
  }

  function NatToString(n: nat): string {
    ToBase(n, 10)
  }

  /** `${i}` for an integer (a `BigInt` or an integral `number`). */
  function IntToString(i: int): string {
    if i < 0 then "-" + NatToString(-i) else NatToString(i)
  }

  lemma {:induction false} ToBaseValue(n: nat, base: nat)
    requires 2 <= base <= 16
    ensures |ToBase(n, base)| >= 1
    ensures AllDigits(ToBase(n, base), base) && ValueIn(ToBase(n, base), base) == n
    decreases n
  {
    if n < base {
      ToBaseSingle(n, base);
    } else {
      ToBaseValue(n / base, base);
      ToBaseStep(n, base);
    }
  }

  /** A number below the base is written as one digit. */
  lemma ToBaseSingle(n: nat, base: nat)
    requires 2 <= base <= 16 && n < base
    ensures |ToBase(n, base)| >= 1
    ensures AllDigits(ToBase(n, base), base) && ValueIn(ToBase(n, base), base) == n
  {
    AppendDigit([], n, base);
    assert ToBase(n, base) == [] + [DigitChar(n)];
  }

  /** The step of `ToBaseValue`: the last digit of `n` follows the digits of `n / base`. */
  lemma ToBaseStep(n: nat, base: nat)
    requires 2 <= base <= 16 && n >= base
    requires AllDigits(ToBase(n / base, base), base) && ValueIn(ToBase(n / base, base), base) == n / base
    ensures AllDigits(ToBase(n, base), base) && ValueIn(ToBase(n, base), base) == n
  {
    var q, r := n / base, n % base;
    var p := ToBase(q, base);
    assert ToBase(n, base) == p + [DigitChar(r)];
    AppendDigit(p, r, base);
    DivMod(n, base);
  }

  /** Appending a digit shifts the value one place and adds the digit. */
  lemma AppendDigit(p: string, r: nat, base: nat)
    requires 2 <= base <= 16 && r < base && AllDigits(p, base)
    ensures var s := p + [DigitChar(r)];
      AllDigits(s, base) && ValueIn(s, base) == ValueIn(p, base) * base + r
  {
    DigitCharIn(r, base);
    var s := p + [DigitChar(r)];
    AllDigitsAppend(p, [DigitChar(r)], base);
    assert s[..|s| - 1] == p;
  }

  lemma AllDigitsAppend(s: string, t: string, base: nat)
    requires AllDigits(s, base) && AllDigits(t, base)
    ensures AllDigits(s + t, base)
  {
    var st := s + t;
    forall i | 0 <= i < |st| ensures DigitIn(st[i], base).Some? {
      if i < |s| { assert st[i] == s[i]; } else { assert st[i] == t[i - |s|]; }
    }
  }

  lemma DivMod(n: nat, b: nat)
    requires b > 0
    ensures (n / b) * b + n % b == n
  {
  }

  lemma DivBound(n: nat, b: nat, p: nat)
    requires b > 0 && n < b * p
    ensures n / b < p
  {
    assert b * (n / b) <= n;
  }

  lemma Regroup(a: int, p: int, v: int, b: int, d: int)
    ensures (a * p + v) * b + d == a * (p * b) + (v * b + d)
  {
  }

  /** Reading a printed natural number back gives the number. */
  lemma NatToStringValue(n: nat)
    ensures |NatToString(n)| >= 1 && AllDigits(NatToString(n), 10)
    ensures ValueIn(NatToString(n), 10) == n
  {
    ToBaseValue(n, 10);
  }

  lemma NatToStringInjective(m: nat, n: nat)
    requires NatToString(m) == NatToString(n)
    ensures m == n
  {
    NatToStringValue(m);
    NatToStringValue(n);
  }

  /** A natural number is below ten to the power of its digit count. */
  lemma {:induction false} NatToStringBound(n: nat)
    ensures n < Pow10(|NatToString(n)|)
    decreases n
  {
    if n >= 10 {
      NatToStringBound(n / 10);
      assert |NatToString(n)| == |NatToString(n / 10)| + 1;
    }
  }

  lemma {:induction false} ToBaseLength(n: nat, base: nat, k: nat)
    requires 2 <= base <= 16 && 1 <= k && n < Pow(base, k)
    ensures |ToBase(n, base)| <= k
    decreases k
  {
    assert Pow(base, 1) == base;
    if n >= base {
      assert k != 1;
      assert Pow(base, k) == base * Pow(base, k - 1);
      DivBound(n, base, Pow(base, k - 1));
      ToBaseLength(n / base, base, k - 1);
    }
  }

  lemma {:induction false} ValueInAppend(s: string, t: string, base: nat)
    requires 2 <= base && AllDigits(s, base) && AllDigits(t, base)
    ensures AllDigits(s + t, base)
    ensures ValueIn(s + t, base) == ValueIn(s, base) * Pow(base, |t|) + ValueIn(t, base)
    decreases |t|
  {
    AllDigitsAppend(s, t, base);
    if t == [] {
      assert s + t == s;
    } else {
      var st := s + t;
      var t' := t[..|t| - 1];
      var d := DigitIn(t[|t| - 1], base).value;
      assert st[..|st| - 1] == s + t';
      assert st[|st| - 1] == t[|t| - 1];
      ValueInAppend(s, t', base);
      var a, p, v := ValueIn(s, base), Pow(base, |t'|), ValueIn(t', base);
      assert ValueIn(st, base) == (a * p + v) * base + d;
      Regroup(a, p, v, base, d);
      assert Pow(base, |t|) == base * p;
      assert ValueIn(t, base) == v * base + d;
    }
  }

  lemma {:induction false} ValueOfZeros(n: nat, base: nat)
    requires 2 <= base
    ensures AllDigits(Repeat('0', n), base) && ValueIn(Repeat('0', n), base) == 0
    decreases n
  {
    if n > 0 {
      var z := Repeat('0', n);
      ValueOfZeros(n - 1, base);
      assert z[..n - 1] == Repeat('0', n - 1);
    }
  }

  // ---------------------------------------------------------------------------
  // Whitespace, parseInt and BigInt(string)

  /** ECMAScript's WhiteSpace and LineTerminator code points (the `Zs` category written out). */
  predicate IsJsSpace(c: char) {
    c == '\t' || c == '\n' || c == '\U{000B}' || c == '\U{000C}' || c == '\r' || c == ' '
    || c == '\U{00A0}' || c == '\U{1680}' || ('\U{2000}' <= c <= '\U{200A}')
    || c == '\U{2028}' || c == '\U{2029}' || c == '\U{202F}' || c == '\U{205F}'
    || c == '\U{3000}' || c == '\U{FEFF}'
  }

  function TrimStart(s: string): (t: string)
    ensures |t| <= |s| && (t == [] || !IsJsSpace(t[0]))
  {
    if s != [] && IsJsSpace(s[0]) then TrimStart(s[1..]) else s
  }

  function TrimEnd(s: string): (t: string)
    ensures |t| <= |s| && (t == [] || !IsJsSpace(t[|t| - 1]))
  {
    if s != [] && IsJsSpace(s[|s| - 1]) then TrimEnd(s[..|s| - 1]) else s
  }

  /** The longest prefix of `s` made of digits of `base`. */
  function DigitPrefix(s: string, base: nat): (p: string)
    ensures |p| <= |s| && p == s[..|p|] && AllDigits(p, base)
    ensures |p| < |s| ==> DigitIn(s[|p|], base).None?
  {
    if s != [] && DigitIn(s[0], base).Some? then [s[0]] + DigitPrefix(s[1..], base) else []
  }

  /**
   * `parseInt(s)` with no radix: skip leading white space, take one sign, take a `0x`/`0X`
   * prefix as base 16, then read the longest run of digits. `None` is NaN.
   */
  function ParseInt(s: string): Option<int> {
    ParseSigned(TrimStart(s))
  }

  /** `parseInt` after the white space: one optional sign, then the magnitude. */
  function ParseSigned(t: string): Option<int> {
    if |t| > 0 && t[0] == '-' then Negated(ParseMagnitude(t[1..]))
    else if |t| > 0 && t[0] == '+' then ParseMagnitude(t[1..])
    else ParseMagnitude(t)
  }

  /** `parseInt` after the sign: a `0x`/`0X` prefix selects base 16, then the longest digit run. */
  function ParseMagnitude(u: string): Option<int> {
    var hex := |u| >= 2 && u[0] == '0' && (u[1] == 'x' || u[1] == 'X');
    var base := if hex then 16 else 10;
    var digits := DigitPrefix(if hex then u[2..] else u, base);
    if digits == [] then None else Some(ValueIn(digits, base))
  }

  function Negated(v: Option<int>): Option<int> {
    match v
    case Some(n) => Some(-n)
    case None => None
  }

  /** `parseInt(s) || fallback`: NaN and zero are both falsy. */
  function ParseIntOr(s: string, fallback: int): (r: int)
    ensures r == fallback <==> (ParseInt(s).None? || ParseInt(s).value == 0 || ParseInt(s).value == fallback)
  {
    match ParseInt(s)
    case Some(v) => if v != 0 then v else fallback
    case None => fallback
  }

  /**
   * `BigInt(s)` for a string: white space trimmed at both ends, the empty string is 0,
   * a `0x`/`0o`/`0b` literal is read without a sign, otherwise an optionally signed
   * decimal literal; anything else is a SyntaxError (`None`).
   */
  function BigIntOf(s: string): Option<int> {
    BigIntTrimmed(TrimEnd(TrimStart(s)))
  }

  /** `BigInt` on trimmed text: empty, a radix literal, or a signed decimal literal. */
  function BigIntTrimmed(t: string): Option<int> {
    if t == [] then Some(0)
    else if |t| >= 2 && t[0] == '0' && t[1] in "xXoObB" then
      var base := if t[1] in "xX" then 16 else if t[1] in "oO" then 8 else 2;
      var ds := t[2..];
      if ds != [] && AllDigits(ds, base) then Some(ValueIn(ds, base)) else None
    else if t[0] == '-' then Negated(DecimalLiteral(t[1..]))
    else if t[0] == '+' then DecimalLiteral(t[1..])
    else DecimalLiteral(t)
  }

  /** An unsigned decimal literal: one or more digits and nothing else. */
  function DecimalLiteral(ds: string): Option<int> {
    if ds != [] && AllDigits(ds, 10) then Some(ValueIn(ds, 10)) else None
  }

  lemma {:induction false} DigitPrefixAll(s: string, base: nat)
    requires AllDigits(s, base)
    ensures DigitPrefix(s, base) == s
    decreases |s|
  {
    if s != [] {
      assert DigitIn(s[0], base).Some?;
      DigitPrefixAll(s[1..], base);
      assert s == [s[0]] + s[1..];
    }
  }

  lemma DecimalDigitChar(c: char)
    requires DigitIn(c, 10).Some?
    ensures '0' <= c <= '9'
  {
  }

  /** A decimal numeral has no white space to trim and no sign or radix prefix. */
  lemma NumeralShape(d: string)
    requires |d| >= 1 && AllDigits(d, 10)
    ensures TrimStart(d) == d && TrimEnd(d) == d && DigitPrefix(d, 10) == d
    ensures !IsJsSpace(d[0]) && d[0] != '-' && d[0] != '+'
    ensures |d| >= 2 ==> d[1] !in "xXoObB"
  {
    DigitIsNotSpace(d[0]);
    DigitIsNotSpace(d[|d| - 1]);
    TrimStartStops(d);
    TrimEndStops(d);
    if |d| >= 2 { DecimalDigitChar(d[1]); }
    DigitPrefixAll(d, 10);
  }

  lemma DigitIsNotSpace(c: char)
    requires DigitIn(c, 10).Some?
    ensures '0' <= c <= '9' && !IsJsSpace(c)
  {
    DecimalDigitChar(c);
  }

  lemma TrimStartStops(s: string)
    requires |s| > 0 && !IsJsSpace(s[0])
    ensures TrimStart(s) == s
  {
  }

  lemma TrimEndStops(s: string)
    requires |s| > 0 && !IsJsSpace(s[|s| - 1])
    ensures TrimEnd(s) == s
  {
  }

  /** `parseInt` reads an unsigned numeral as its value. */
  lemma ParseIntNumeral(d: string)
    requires |d| >= 1 && AllDigits(d, 10)
    ensures ParseInt(d) == Some(ValueIn(d, 10) as int)
  {
    assert TrimStart(d) == d && d[0] != '-' && d[0] != '+' && DigitPrefix(d, 10) == d
      && (|d| >= 2 ==> d[1] !in "xXoObB") by {
      NumeralShape(d);
    }
    MagnitudeOfNumeral(d);
  }

  /** Without a radix prefix, the magnitude of a numeral is its decimal value. */
  lemma MagnitudeOfNumeral(d: string)
    requires |d| >= 1 && AllDigits(d, 10) && DigitPrefix(d, 10) == d && (|d| >= 2 ==> d[1] !in "xXoObB")
    ensures ParseMagnitude(d) == Some(ValueIn(d, 10) as int)
  {
  }

  /** `parseInt` reads a minus sign and a numeral as the negated value. */
  lemma ParseIntNegated(s: string)
    requires |s| >= 2 && s[0] == '-' && AllDigits(s[1..], 10)
    ensures ParseInt(s) == Some(-(ValueIn(s[1..], 10) as int))
  {
    var d := s[1..];
    assert DigitPrefix(d, 10) == d && (|d| >= 2 ==> d[1] !in "xXoObB") by {
      NumeralShape(d);
    }
    TrimStartStops(s);
    MagnitudeOfNumeral(d);
  }

  /** `parseInt` reads back what `${i}` prints. */
  lemma ParseIntToString(i: int)
    ensures ParseInt(IntToString(i)) == Some(i)
  {
    var n: nat := if i < 0 then -i else i;
    NatToStringValue(n);
    if i < 0 {
      var s := IntToString(i);
      assert s[1..] == NatToString(n);
      ParseIntNegated(s);
    } else {
      ParseIntNumeral(NatToString(n));
    }
  }

  /** `BigInt` reads an unsigned numeral as its value. */
  lemma BigIntNumeral(d: string)
    requires |d| >= 1 && AllDigits(d, 10)
    ensures BigIntOf(d) == Some(ValueIn(d, 10) as int)
  {
    NumeralShape(d);
    assert TrimEnd(TrimStart(d)) == d;
  }

  /** `BigInt` reads a minus sign and a numeral as the negated value. */
  lemma BigIntNegated(s: string)
    requires |s| >= 2 && s[0] == '-' && AllDigits(s[1..], 10)
    ensures BigIntOf(s) == Some(-(ValueIn(s[1..], 10) as int))
  {
    var d := s[1..];
    NumeralShape(d);
    assert s[|s| - 1] == d[|d| - 1];
    assert TrimStart(s) == s;
    assert TrimEnd(s) == s;
  }

  /** `BigInt` reads back what `${i}` prints. */
  lemma BigIntToString(i: int)
    ensures BigIntOf(IntToString(i)) == Some(i)
  {
    var n: nat := if i < 0 then -i else i;
    NatToStringValue(n);
    if i < 0 {
      var s := IntToString(i);
      assert s[1..] == NatToString(n);
      BigIntNegated(s);
    } else {
      BigIntNumeral(NatToString(n));
    }
  }

  // ---------------------------------------------------------------------------
  // split, case mapping, search

  /** `s.split(sep)` for a one-character separator: always at least one part. */
  function Split(s: string, sep: char): (parts: seq<string>)
    ensures |parts| >= 1
    decreases |s|
  {
    if s == [] then [""]
    else if s[0] == sep then [""] + Split(s[1..], sep)
    else
      var rest := Split(s[1..], sep);
      [[s[0]] + rest[0]] + rest[1..]
  }

  function Join(parts: seq<string>, sep: char): string
    requires |parts| >= 1
    decreases |parts|
  {
    if |parts| == 1 then parts[0] else parts[0] + [sep] + Join(parts[1..], sep)
  }

  /** The parts of a split contain no separator and join back to the input. */
  lemma {:induction false} SplitJoin(s: string, sep: char)
    ensures Join(Split(s, sep), sep) == s
    ensures forall k :: 0 <= k < |Split(s, sep)| ==> sep !in Split(s, sep)[k]
    decreases |s|
  {
    if s != [] {
      SplitJoin(s[1..], sep);
      var rest := Split(s[1..], sep);
      if s[0] == sep {
        assert Split(s, sep) == [""] + rest;
        assert ([""] + rest)[1..] == rest;
      } else {
        var parts := Split(s, sep);
        assert parts == [[s[0]] + rest[0]] + rest[1..];
        if |rest| == 1 {
          assert s == [s[0]] + s[1..];
        } else {
          assert parts[1..] == rest[1..];
          assert Join(rest, sep) == rest[0] + [sep] + Join(rest[1..], sep);
          assert s == [s[0]] + s[1..];
        }
        forall k | 0 <= k < |parts| ensures sep !in parts[k] {
          if k > 0 { assert parts[k] == rest[k]; }
        }
      }
    }
  }

  /** A part without the separator, then the separator, starts a new part. */
  lemma {:induction false} SplitAfterPart(a: string, sep: char, b: string)
    requires sep !in a
    ensures Split(a + [sep] + b, sep) == [a] + Split(b, sep)
    decreases |a|
  {
    var s := a + [sep] + b;
    if a == [] {
      assert s[1..] == b;
    } else {
      assert s[0] == a[0] && a[0] != sep;
      assert s[1..] == a[1..] + [sep] + b;
      SplitAfterPart(a[1..], sep, b);
      assert [a[0]] + a[1..] == a;
    }
  }

  lemma {:induction false} SplitWithoutSeparator(a: string, sep: char)
    requires sep !in a
    ensures Split(a, sep) == [a]
    decreases |a|
  {
    if a != [] {
      SplitWithoutSeparator(a[1..], sep);
      assert [a[0]] + a[1..] == a;
    }
  }

  /** Joining separator-free parts and splitting again gives the parts back. */
  lemma {:induction false} JoinSplit(parts: seq<string>, sep: char)
    requires |parts| >= 1 && forall k :: 0 <= k < |parts| ==> sep !in parts[k]
    ensures Split(Join(parts, sep), sep) == parts
    decreases |parts|
  {
    if |parts| == 1 {
      SplitWithoutSeparator(parts[0], sep);
    } else {
      JoinSplit(parts[1..], sep);
      SplitAfterPart(parts[0], sep, Join(parts[1..], sep));
    }
  }

  function LowerChar(c: char): char {
    if 'A' <= c <= 'Z' then (c as int + 32) as char else c
  }

  function UpperChar(c: char): char {
    if 'a' <= c <= 'z' then (c as int - 32) as char else c
  }

  /** `toLowerCase()` on the ASCII letters. */
  function ToLower(s: string): (t: string)
    ensures |t| == |s| && forall i :: 0 <= i < |s| ==> t[i] == LowerChar(s[i])
  {
    if s == [] then [] else [LowerChar(s[0])] + ToLower(s[1..])
  }

  /** `toUpperCase()` on the ASCII letters. */
  function ToUpper(s: string): (t: string)
    ensures |t| == |s| && forall i :: 0 <= i < |s| ==> t[i] == UpperChar(s[i])
  {
    if s == [] then [] else [UpperChar(s[0])] + ToUpper(s[1..])
  }

  /** The index of the first `c` in `s`. */
  function IndexOf(s: string, c: char): (k: nat)
    requires c in s
    ensures k < |s| && s[k] == c && c !in s[..k]
  {
    if s[0] == c then 0 else 1 + IndexOf(s[1..], c)
  }

  /** The first `c` of `a + [c] + b` is the one after `a` when `a` has none. */
  lemma {:induction false} IndexOfAfter(a: string, c: char, b: string)
    requires c !in a
    ensures c in a + [c] + b && IndexOf(a + [c] + b, c) == |a|
    decreases |a|
  {
    var s := a + [c] + b;
    assert s[|a|] == c;
    if a != [] {
      assert s[0] == a[0] && a[0] != c;
      assert s[1..] == a[1..] + [c] + b;
      IndexOfAfter(a[1..], c, b);
    }
  }

  /** An integer's text holds only digits and a leading '-'. */
  lemma NotInInteger(c: char, i: int)
    requires DigitOf(c).None? && c != '-'
    ensures c !in IntToString(i)
  {
    var n: nat := if i < 0 then -i else i;
    NatToStringValue(n);
    var d := NatToString(n);
    forall k | 0 <= k < |d| ensures d[k] != c {
      assert DigitIn(d[k], 10).Some?;
    }
    if i < 0 {
      assert IntToString(i) == "-" + d;
    }
  }

  function StartsWith(s: string, prefix: string): bool {
    |prefix| <= |s| && s[..|prefix|] == prefix
  }

  /** A text starts with what it was built from, and the rest is what was appended. */
  lemma StartsWithAppend(prefix: string, rest: string)
    ensures StartsWith(prefix + rest, prefix) && (prefix + rest)[|prefix|..] == rest
  {
    assert (prefix + rest)[..|prefix|] == prefix;
  }

  /** A text cannot start with two prefixes that differ at a position both reach. */
  lemma PrefixClash(s: string, p: string, q: string, i: nat)
    requires StartsWith(s, p) && i < |p| && i < |q| && p[i] != q[i]
    ensures !StartsWith(s, q)
  {
    assert s[i] == s[..|p|][i];
  }

  // ---------------------------------------------------------------------------
  // Hexadecimal, as Node's Buffer reads and writes it

  /** `buffer.toString('hex')`: two lower-case digits per byte. */
  function HexEncode(b: seq<byte>): (s: string)
    ensures |s| == 2 * |b|
  {
    if b == [] then "" else [DigitChar(b[0] / 16), DigitChar(b[0] % 16)] + HexEncode(b[1..])
  }

  /**
   * `Buffer.from(s, 'hex')`: reads pairs of hexadecimal digits of either case and stops
   * at the first pair that is not one (so an odd trailing digit is dropped).
   */
  function HexDecode(s: string): (b: seq<byte>)
    ensures |b| <= |s| / 2
  {
    if |s| < 2 then []
    else match (DigitIn(s[0], 16), DigitIn(s[1], 16))
      case (Some(h), Some(l)) => [h * 16 + l] + HexDecode(s[2..])
      case _ => []
  }

  predicate IsLowerHexDigit(c: char) {
    '0' <= c <= '9' || 'a' <= c <= 'f'
  }

  lemma {:induction false} HexRoundTrip(b: seq<byte>)
    ensures HexDecode(HexEncode(b)) == b
  {
    if b != [] {
      DigitCharIn(b[0] / 16, 16);
      DigitCharIn(b[0] % 16, 16);
      var s := HexEncode(b);
      assert s[2..] == HexEncode(b[1..]);
      HexRoundTrip(b[1..]);
    }
  }

  /** A canonical (lower-case, even-length) hex string survives decoding and re-encoding. */
  lemma {:induction false} HexEncodeDecode(s: string)
    requires |s| % 2 == 0 && forall i :: 0 <= i < |s| ==> IsLowerHexDigit(s[i])
    ensures HexEncode(HexDecode(s)) == s
    decreases |s|
  {
    if s != [] {
      HexPairRoundTrip(s[0], s[1]);
      var v := DigitIn(s[0], 16).value * 16 + DigitIn(s[1], 16).value;
      var rest := HexDecode(s[2..]);
      assert HexDecode(s) == [v as byte] + rest;
      HexEncodeDecode(s[2..]);
      assert ([v as byte] + rest)[1..] == rest;
      assert s == [s[0], s[1]] + s[2..];
    }
  }

  /** One pair of lower-case hex digits decodes to a byte that encodes back to the pair. */
  lemma HexPairRoundTrip(c0: char, c1: char)
    requires IsLowerHexDigit(c0) && IsLowerHexDigit(c1)
    ensures DigitIn(c0, 16).Some? && DigitIn(c1, 16).Some?
    ensures var v := DigitIn(c0, 16).value * 16 + DigitIn(c1, 16).value;
      v < 256 && DigitChar(v / 16) == c0 && DigitChar(v % 16) == c1
  {
    var h, l := DigitIn(c0, 16).value, DigitIn(c1, 16).value;
    var v := h * 16 + l;
    assert v / 16 == h && v % 16 == l;
  }
}
