/**
 * The scalar leaf converters' pure part: integer parsing with `strtol(value, &end, 0)`
 * (section 7.22.1.4 of ISO C11) as done by parse_integer, and the `yes`/`no` boolean test.
 */
module Scalars {
  import opened Wrappers
  import opened Tokens

  /** The range of the platform's 64-bit signed `long`. */
  const LONG_MIN: int := -0x8000_0000_0000_0000
  const LONG_MAX: int := 0x7FFF_FFFF_FFFF_FFFF

  const PLUS: byte := 0x2B    // '+'
  const MINUS: byte := 0x2D   // '-'
  const ZERO: byte := 0x30    // '0'
  const LOWER_X: byte := 0x78 // 'x'
  const UPPER_X: byte := 0x58 // 'X'

  /** White space in the C locale: space, \t, \n, \v, \f, \r. */
  predicate IsSpace(b: byte)
  {
    b == 0x20 || 0x09 <= b <= 0x0D
  }

  /** The digit value of `b` (0-9, then a-z or A-Z as 10-35), or 36 when `b` is no digit. */
  function DigitValue(b: byte): (d: nat)
    ensures d <= 36
  {
    if 0x30 <= b <= 0x39 then b as int - 0x30
    else if 0x61 <= b <= 0x7A then b as int - 0x61 + 10
    else if 0x41 <= b <= 0x5A then b as int - 0x41 + 10
    else 36
  }

  predicate IsDigit(b: byte, base: nat)
  {
    DigitValue(b) < base
  }

  /** The first index at or after `i` that is not white space. */
  function SkipSpaces(s: seq<byte>, i: nat): (j: nat)
    requires i <= |s|
    ensures i <= j <= |s|
    ensures forall k :: i <= k < j ==> IsSpace(s[k])
    ensures j < |s| ==> !IsSpace(s[j])
    decreases |s| - i
  {
    if i < |s| && IsSpace(s[i]) then SkipSpaces(s, i + 1) else i
  }

  /** The end of the run of digits in `base` that starts at `i`. */
  function DigitsEnd(s: seq<byte>, i: nat, base: nat): (j: nat)
    requires i <= |s|
    ensures i <= j <= |s|
    ensures forall k :: i <= k < j ==> IsDigit(s[k], base)
    ensures j < |s| ==> !IsDigit(s[j], base)
    decreases |s| - i
  {
    if i < |s| && IsDigit(s[i], base) then DigitsEnd(s, i + 1, base) else i
  }

  /** The value of a digit string, most significant digit first. */
  function DigitsValue(ds: seq<byte>, base: nat): nat
  {
    if ds == [] then 0 else DigitsValue(ds[..|ds| - 1], base) * base + DigitValue(ds[|ds| - 1])
  }

  function Signed(negative: bool, magnitude: nat): int
  {
    if negative then -(magnitude as int) else magnitude
  }

  /**
   * The subject sequence strtol recognises in base 0, as (its mathematical value, the offset
   * just past it): white space, an optional sign, then a hexadecimal constant ("0x"/"0X" and at
   * least one hex digit), an octal constant (a leading 0) or a decimal constant. When there is
   * no subject sequence nothing is consumed: the end offset is 0.
   */
  function Subject(s: seq<byte>): (int, nat)
  {
    var i := SkipSpaces(s, 0);
    var negative := i < |s| && s[i] == MINUS;
    var j := if i < |s| && (s[i] == PLUS || s[i] == MINUS) then i + 1 else i;
    Constant(s, j, negative)
  }

  /** The integer constant starting at `j`, after the sign, as (value, end offset); (0, 0) when there is none. */
  function Constant(s: seq<byte>, j: nat, negative: bool): (int, nat)
    requires j <= |s|
  {
    if j + 2 < |s| && s[j] == ZERO && (s[j + 1] == LOWER_X || s[j + 1] == UPPER_X) && IsDigit(s[j + 2], 16) then
      var k := DigitsEnd(s, j + 2, 16);
      (Signed(negative, DigitsValue(s[j + 2..k], 16)), k)
    else if j < |s| && IsDigit(s[j], 10) then
      var base := if s[j] == ZERO then 8 else 10;
      var k := DigitsEnd(s, j, base);
      (Signed(negative, DigitsValue(s[j..k], base)), k)
    else
      (0, 0)
  }

  /** What strtol returns: the value saturated to the `long` range, the end offset, and whether it set ERANGE. */
  datatype Conversion = Conversion(value: int, end: nat, erange: bool)

  function Strtol(s: seq<byte>): (c: Conversion)
    ensures LONG_MIN <= c.value <= LONG_MAX
    ensures c.end == Subject(s).1
    ensures c.erange <==> !(LONG_MIN <= Subject(s).0 <= LONG_MAX)
    ensures !c.erange ==> c.value == Subject(s).0
    ensures c.erange ==> c.value == if Subject(s).0 > LONG_MAX then LONG_MAX else LONG_MIN
  {
    var (v, end) := Subject(s);
    if v > LONG_MAX then Conversion(LONG_MAX, end, true)
    else if v < LONG_MIN then Conversion(LONG_MIN, end, true)
    else Conversion(v, end, false)
  }

  /** The two diagnostics of parse_integer. */
  datatype IntegerError = Unparsable | OutOfRange

  /**
   * parse_integer: the whole span must be one number. Fails when the span is empty or strtol
   * stops short of its end, and when strtol saturated with ERANGE.
   */
  function ParseInteger(value: seq<byte>): (r: Result<int, IntegerError>)
    ensures r.Ok? ==> |value| > 0 && LONG_MIN <= r.value <= LONG_MAX
  {
    var c := Strtol(value);
    if |value| == 0 || c.end != |value| then Err(Unparsable)
    else if (c.value == LONG_MIN || c.value == LONG_MAX) && c.erange then Err(OutOfRange)
    else Ok(c.value)
  }

  // ---------------------------------------------------------------------------------------
  // Number texts: the inverse of ParseInteger.

  /** The lower-case digit for `d`. */
  function Digit(d: nat): (b: byte)
    requires d < 36
    ensures DigitValue(b) == d
  {
    if d < 10 then (0x30 + d) as byte else (0x61 + d - 10) as byte
  }

  /** The digits of `n` in `base`, most significant first, without leading zeros. */
  function Digits(n: nat, base: nat): (ds: seq<byte>)
    requires 2 <= base <= 36
    decreases n
  {
    if n < base then [Digit(n)]
    else
      DivLess(n, base);
      Digits(n / base, base) + [Digit(n % base)]
  }

  /** The sign text: a '-' for a negative number, nothing otherwise. */
  function Sign(negative: bool): seq<byte>
  {
    if negative then [MINUS] else []
  }

  function Abs(n: int): nat
  {
    if n < 0 then -n else n
  }

  /** The decimal text of `n`, with a '-' when it is negative. */
  function DecimalText(n: int): seq<byte>
  {
    Sign(n < 0) + Digits(Abs(n), 10)
  }

  /** The digit text of `n`: non-empty, made of digits of `base`, and without a leading zero unless `n` is 0. */
  lemma {:induction false} DigitsShape(n: nat, base: nat)
    requires 2 <= base <= 36
    ensures |Digits(n, base)| > 0
    ensures forall k :: 0 <= k < |Digits(n, base)| ==> IsDigit(Digits(n, base)[k], base)
    ensures n > 0 ==> Digits(n, base)[0] != ZERO
    decreases n
  {
    if n >= base {
      var q := n / base;
      assert q > 0 by { DivBound(n, base); }
      DivLess(n, base);
      DigitsShape(q, base);
      var pre := Digits(q, base);
      var ds := Digits(n, base);
      assert ds == pre + [Digit(n % base)];
      assert ds[0] == pre[0];
      forall k | 0 <= k < |ds|
        ensures IsDigit(ds[k], base)
      {
        if k < |pre| {
          assert ds[k] == pre[k];
        }
      }
    }
  }

  /** The digit text of `n` spells `n`. */
  lemma {:induction false} DigitsValueOf(n: nat, base: nat)
    requires 2 <= base <= 36
    ensures DigitsValue(Digits(n, base), base) == n
    decreases n
  {
    if n >= base {
      var q, r := n / base, n % base;
      DivMod(n, base);
      var pre := Digits(q, base);
      assert Digits(n, base) == pre + [Digit(r)];
      DivLess(n, base);
      DigitsValueOf(q, base);
      AppendValue(pre, Digit(r), base);
    } else {
      assert Digits(n, base)[..0] == [];
    }
  }

  lemma AppendValue(pre: seq<byte>, d: byte, base: nat)
    ensures DigitsValue(pre + [d], base) == DigitsValue(pre, base) * base + DigitValue(d)
  {
    assert (pre + [d])[..|pre|] == pre;
  }

  lemma DivBound(n: nat, base: nat)
    requires 0 < base <= n
    ensures n / base > 0
  {
  }

  lemma DivLess(n: nat, base: nat)
    requires 2 <= base && n > 0
    ensures n / base < n
  {
  }

  lemma DivMod(n: nat, base: nat)
    requires base > 0
    ensures (n / base) * base + n % base == n
  {
  }

  lemma DigitsFacts(n: nat, base: nat)
    requires 2 <= base <= 36
    ensures |Digits(n, base)| > 0
    ensures forall k :: 0 <= k < |Digits(n, base)| ==> IsDigit(Digits(n, base)[k], base)
    ensures DigitsValue(Digits(n, base), base) == n
    ensures n > 0 ==> Digits(n, base)[0] != ZERO
  {
    DigitsShape(n, base);
    DigitsValueOf(n, base);
  }

  /** A run of digits reaching the end of the span is consumed whole. */
  lemma DigitsToEnd(s: seq<byte>, i: nat, base: nat)
    requires i <= |s|
    requires forall k :: i <= k < |s| ==> IsDigit(s[k], base)
    ensures DigitsEnd(s, i, base) == |s|
  {
  }

  /** Decimal digits running to the end of the span form one constant of that value. */
  lemma DecimalConstant(s: seq<byte>, j: nat, negative: bool, m: nat)
    requires j <= |s| && s[j..] == Digits(m, 10)
    ensures Constant(s, j, negative) == (Signed(negative, m), |s|)
  {
    var ds := Digits(m, 10);
    DigitsFacts(m, 10);
    assert s[j] == ds[0];
    if m == 0 {
      assert ds == [ZERO];
      assert |s| == j + 1;
      DigitsToEnd(s, j, 8);
      assert s[j..|s|] == [ZERO];
      assert DigitsValue([ZERO], 8) == 0 by { assert [ZERO][..0] == []; }
    } else {
      DigitsToEnd(s, j, 10);
      assert s[j..|s|] == ds;
    }
  }

  lemma DropPrefix(a: seq<byte>, b: seq<byte>)
    ensures (a + b)[|a|..] == b
  {
  }

  /** Decimal digits start with neither white space nor a sign. */
  lemma DecimalStart(m: nat)
    ensures var ds := Digits(m, 10);
            |ds| > 0 && !IsSpace(ds[0]) && ds[0] != PLUS && ds[0] != MINUS
  {
    DigitsFacts(m, 10);
    assert IsDigit(Digits(m, 10)[0], 10);
  }

  /** After any leading white space, decimal text is one subject sequence spelling its number. */
  lemma DecimalSubject(spaces: seq<byte>, n: int)
    requires forall k :: 0 <= k < |spaces| ==> IsSpace(spaces[k])
    ensures Subject(spaces + DecimalText(n)) == (n, |spaces + DecimalText(n)|)
  {
    var body := Digits(Abs(n), 10);
    DecimalStart(Abs(n));
    var s := spaces + DecimalText(n);
    SignedSubject(spaces, n < 0, body, s);
    var j := |spaces| + |Sign(n < 0)|;
    DecimalConstant(s, j, n < 0, Abs(n));
  }

  /**
   * Round trip: decimal text, after any leading white space, parses back to the number it
   * spells when that number fits a `long`, and fails with OutOfRange when it does not.
   */
  lemma DecimalRoundTrip(spaces: seq<byte>, n: int)
    requires forall k :: 0 <= k < |spaces| ==> IsSpace(spaces[k])
    ensures ParseInteger(spaces + DecimalText(n)) == if LONG_MIN <= n <= LONG_MAX then Ok(n) else Err(OutOfRange)
  {
    DecimalSubject(spaces, n);
    var m: nat := if n < 0 then -n else n;
    DigitsFacts(m, 10);
    assert |spaces + DecimalText(n)| > 0;
  }

  /** The hexadecimal text of `n`: its sign, "0x", then its hex digits. */
  function HexText(n: int): seq<byte>
  {
    Sign(n < 0) + ([ZERO, LOWER_X] + Digits(Abs(n), 16))
  }

  /** The octal text of `n`: its sign, a leading "0", then its octal digits. */
  function OctalText(n: int): seq<byte>
  {
    Sign(n < 0) + ([ZERO] + Digits(Abs(n), 8))
  }

  /**
   * White space up to `w` and a constant at `w` that starts with a '-' (when `negative`) or with
   * neither sign: strtol's subject sequence is that constant, read with that sign.
   */
  lemma SubjectAt(s: seq<byte>, w: nat, negative: bool)
    requires w < |s| && !IsSpace(s[w])
    requires forall k :: 0 <= k < w ==> IsSpace(s[k])
    requires if negative then s[w] == MINUS else s[w] != PLUS && s[w] != MINUS
    ensures Subject(s) == Constant(s, if negative then w + 1 else w, negative)
  {
    assert SkipSpaces(s, 0) == w;
  }

  /** Text made of white space, a sign and a constant that starts with neither: where each part is. */
  lemma SignedText(spaces: seq<byte>, negative: bool, body: seq<byte>, s: seq<byte>)
    requires s == spaces + (Sign(negative) + body)
    requires forall k :: 0 <= k < |spaces| ==> IsSpace(spaces[k])
    requires |body| > 0 && !IsSpace(body[0]) && body[0] != PLUS && body[0] != MINUS
    ensures var w := |spaces|;
            && w < |s| && !IsSpace(s[w])
            && (forall k :: 0 <= k < w ==> IsSpace(s[k]))
            && (if negative then s[w] == MINUS else s[w] != PLUS && s[w] != MINUS)
            && s[w + |Sign(negative)|..] == body
  {
    var w := |spaces|;
    DropPrefix(spaces + Sign(negative), body);
    assert s == (spaces + Sign(negative)) + body;
    assert forall k :: 0 <= k < w ==> s[k] == spaces[k];
    assert s[w] == if negative then MINUS else body[0];
  }

  /**
   * Text made of white space, a sign and a constant that starts with neither: strtol's subject
   * sequence is that constant, read with that sign.
   */
  lemma SignedSubject(spaces: seq<byte>, negative: bool, body: seq<byte>, s: seq<byte>)
    requires s == spaces + (Sign(negative) + body)
    requires forall k :: 0 <= k < |spaces| ==> IsSpace(spaces[k])
    requires |body| > 0 && !IsSpace(body[0]) && body[0] != PLUS && body[0] != MINUS
    ensures var j := |spaces| + |Sign(negative)|;
            s[j..] == body && Subject(s) == Constant(s, j, negative)
  {
    SignedText(spaces, negative, body, s);
    SubjectAt(s, |spaces|, negative);
    assert |Sign(negative)| == if negative then 1 else 0;
  }

  /** A leading zero does not change the value of a digit string. */
  lemma {:induction false} LeadingZero(ds: seq<byte>, base: nat)
    ensures DigitsValue([ZERO] + ds, base) == DigitsValue(ds, base)
    decreases |ds|
  {
    if ds == [] {
      assert ([ZERO] + ds)[..0] == [];
    } else {
      var init := ds[..|ds| - 1];
      assert ([ZERO] + ds)[..|ds|] == [ZERO] + init;
      assert ([ZERO] + ds)[|ds|] == ds[|ds| - 1];
      LeadingZero(init, base);
    }
  }

  /** The digit string `ds`: not empty, made of digits of `base`, and spelling `m`. */
  predicate Spells(ds: seq<byte>, base: nat, m: nat)
  {
    |ds| > 0 && (forall k :: 0 <= k < |ds| ==> IsDigit(ds[k], base)) && DigitsValue(ds, base) == m
  }

  /** "0x" and hex digits running to the end of the span form one constant of that value. */
  lemma HexConstant(s: seq<byte>, j: nat, negative: bool, ds: seq<byte>, m: nat)
    requires j <= |s| && s[j..] == [ZERO, LOWER_X] + ds && Spells(ds, 16, m)
    ensures Constant(s, j, negative) == (Signed(negative, m), |s|)
  {
    assert s[j] == ZERO && s[j + 1] == LOWER_X && s[j + 2] == ds[0];
    assert s[j + 2..] == ds;
    DigitsToEnd(s, j + 2, 16);
    assert s[j + 2..|s|] == ds;
  }

  /** A "0" and octal digits running to the end of the span form one octal constant of that value. */
  lemma OctalConstant(s: seq<byte>, j: nat, negative: bool, ds: seq<byte>, m: nat)
    requires j <= |s| && s[j..] == [ZERO] + ds && Spells(ds, 8, m)
    ensures Constant(s, j, negative) == (Signed(negative, m), |s|)
  {
    assert s[j] == ZERO && s[j + 1] == ds[0];
    assert IsDigit(s[j + 1], 8);
    assert s[j + 1] != LOWER_X && s[j + 1] != UPPER_X;
    assert forall k :: j + 1 <= k < |s| ==> s[k] == ds[k - j - 1];
    DigitsToEnd(s, j, 8);
    assert s[j..|s|] == [ZERO] + ds;
    LeadingZero(ds, 8);
  }

  /** White space, a sign, "0x" and hex digits spelling `m`: one subject sequence of that value. */
  lemma HexPrefixed(spaces: seq<byte>, negative: bool, ds: seq<byte>, m: nat, s: seq<byte>)
    requires forall k :: 0 <= k < |spaces| ==> IsSpace(spaces[k])
    requires Spells(ds, 16, m) && s == spaces + (Sign(negative) + ([ZERO, LOWER_X] + ds))
    ensures Subject(s) == (Signed(negative, m), |s|)
  {
    SignedSubject(spaces, negative, [ZERO, LOWER_X] + ds, s);
    HexConstant(s, |spaces| + |Sign(negative)|, negative, ds, m);
  }

  /** White space, a sign, "0" and octal digits spelling `m`: one subject sequence of that value. */
  lemma OctalPrefixed(spaces: seq<byte>, negative: bool, ds: seq<byte>, m: nat, s: seq<byte>)
    requires forall k :: 0 <= k < |spaces| ==> IsSpace(spaces[k])
    requires Spells(ds, 8, m) && s == spaces + (Sign(negative) + ([ZERO] + ds))
    ensures Subject(s) == (Signed(negative, m), |s|)
  {
    SignedSubject(spaces, negative, [ZERO] + ds, s);
    OctalConstant(s, |spaces| + |Sign(negative)|, negative, ds, m);
  }

  /** After any leading white space, hexadecimal text is one subject sequence spelling its number. */
  lemma HexSubject(spaces: seq<byte>, n: int)
    requires forall k :: 0 <= k < |spaces| ==> IsSpace(spaces[k])
    ensures Subject(spaces + HexText(n)) == (n, |spaces + HexText(n)|)
  {
    DigitsFacts(Abs(n), 16);
    HexPrefixed(spaces, n < 0, Digits(Abs(n), 16), Abs(n), spaces + HexText(n));
  }

  /** After any leading white space, octal text is one subject sequence spelling its number. */
  lemma OctalSubject(spaces: seq<byte>, n: int)
    requires forall k :: 0 <= k < |spaces| ==> IsSpace(spaces[k])
    ensures Subject(spaces + OctalText(n)) == (n, |spaces + OctalText(n)|)
  {
    DigitsFacts(Abs(n), 8);
    OctalPrefixed(spaces, n < 0, Digits(Abs(n), 8), Abs(n), spaces + OctalText(n));
  }

  /**
   * Round trip: hexadecimal text of any sign, after any leading white space, parses back to its
   * number when that fits a `long`, and fails with OutOfRange when it does not.
   */
  lemma HexRoundTrip(spaces: seq<byte>, n: int)
    requires forall k :: 0 <= k < |spaces| ==> IsSpace(spaces[k])
    ensures ParseInteger(spaces + HexText(n)) == if LONG_MIN <= n <= LONG_MAX then Ok(n) else Err(OutOfRange)
  {
    HexSubject(spaces, n);
  }

  /**
   * Round trip: octal text (a leading "0") of any sign, after any leading white space, parses
   * back to its number when that fits a `long`, and fails with OutOfRange when it does not.
   */
  lemma OctalRoundTrip(spaces: seq<byte>, n: int)
    requires forall k :: 0 <= k < |spaces| ==> IsSpace(spaces[k])
    ensures ParseInteger(spaces + OctalText(n)) == if LONG_MIN <= n <= LONG_MAX then Ok(n) else Err(OutOfRange)
  {
    OctalSubject(spaces, n);
  }

  /** "010" is octal and parses to 8; "08" and "0x" stop after the "0" and are rejected as unparsable. */
  lemma OctalExamples()
    ensures ParseInteger([0x30, 0x31, 0x30]) == Ok(8)
    ensures ParseInteger([0x30, 0x38]) == Err(Unparsable)
    ensures ParseInteger([0x30, 0x78]) == Err(Unparsable)
  {
    OctalRoundTrip([], 8);
    assert Digits(1, 8) == [0x31];
    assert Digits(8, 8) == [0x31, 0x30];
    assert [] + OctalText(8) == [0x30, 0x31, 0x30];
    var a: seq<byte> := [0x30, 0x38];
    assert SkipSpaces(a, 0) == 0 && DigitsEnd(a, 0, 8) == 1;
    var b: seq<byte> := [0x30, 0x78];
    assert SkipSpaces(b, 0) == 0 && DigitsEnd(b, 0, 8) == 1;
  }

  /** A positive decimal number followed by anything that does not start with a decimal digit is rejected as unparsable. */
  lemma TrailingBytesRejected(n: nat, rest: seq<byte>)
    requires n > 0 && |rest| > 0 && !IsDigit(rest[0], 10)
    ensures ParseInteger(Digits(n, 10) + rest) == Err(Unparsable)
  {
    var ds := Digits(n, 10);
    DigitsFacts(n, 10);
    var s := ds + rest;
    assert s[0] == ds[0];
    assert SkipSpaces(s, 0) == 0;
    var k := DigitsEnd(s, 0, 10);
    assert s[|ds|] == rest[0];
    assert Subject(s).1 == |ds|;
  }

  /** "42" parses to 42. */
  lemma DecimalExample()
    ensures ParseInteger([0x34, 0x32]) == Ok(42)
  {
    DecimalRoundTrip([], 42);
    assert Digits(4, 10) == [0x34];
    assert Digits(42, 10) == [0x34, 0x32];
    assert [] + DecimalText(42) == [0x34, 0x32];
  }

  /** "0x2A" parses to 42: hex digits may be upper case. */
  lemma HexExample()
    ensures ParseInteger([0x30, 0x58, 0x32, 0x41]) == Ok(42)
  {
    var hex: seq<byte> := [0x30, 0x58, 0x32, 0x41];
    assert SkipSpaces(hex, 0) == 0;
    assert DigitsEnd(hex, 2, 16) == 4;
    assert hex[2..4] == [0x32, 0x41];
    assert hex[2..4][..1] == [0x32];
    assert DigitsValue([0x32], 16) == 2;
    assert Constant(hex, 0, false) == (42, 4);
    assert Subject(hex) == Constant(hex, 0, false);
  }

  /** "" and "12abc" are rejected as unparsable. */
  lemma UnparsableExamples()
    ensures ParseInteger([]) == Err(Unparsable)
    ensures ParseInteger([0x31, 0x32, 0x61, 0x62, 0x63]) == Err(Unparsable)
  {
    TrailingBytesRejected(12, [0x61, 0x62, 0x63]);
    assert Digits(1, 10) == [0x31];
    assert Digits(12, 10) == [0x31, 0x32];
  }

  /** The decimal text of LONG_MAX + 1 is rejected as out of range. */
  lemma OnePastLongMax(n: int)
    requires n == LONG_MAX + 1
    ensures ParseInteger(DecimalText(n)) == Err(OutOfRange)
  {
    DecimalRoundTrip([], n);
    assert [] + DecimalText(n) == DecimalText(n);
  }

  // ---------------------------------------------------------------------------------------
  // Booleans.

  const YES: seq<byte> := [0x79, 0x65, 0x73] // "yes"
  const NO: seq<byte> := [0x6E, 0x6F]        // "no"

  /** The bytes `strcmp` compares: those before the first NUL. */
  function CString(s: seq<byte>): (r: seq<byte>)
    ensures r <= s && 0 !in r
    ensures |r| < |s| ==> s[|r|] == 0
  {
    if s == [] || s[0] == 0 then [] else [s[0]] + CString(s[1..])
  }

  /** parse_yaml_boolean's test: "yes" is true, "no" is false, anything else is rejected. */
  function BooleanValue(value: seq<byte>): Option<bool>
  {
    if CString(value) == YES then Some(true)
    else if CString(value) == NO then Some(false)
    else None
  }

  /** A span without NUL bytes is accepted exactly when it is "yes" (true) or "no" (false). */
  lemma BooleanAcceptsExactly(value: seq<byte>)
    requires 0 !in value
    ensures BooleanValue(value) == Some(true) <==> value == YES
    ensures BooleanValue(value) == Some(false) <==> value == NO
    ensures BooleanValue(value) == None <==> value != YES && value != NO
  {
    assert CString(value) == value;
  }

  /** strcmp stops at the first NUL, so "yes" followed by a NUL and any bytes is still true. */
  lemma BooleanStopsAtNul(rest: seq<byte>)
    ensures BooleanValue(YES + [0] + rest) == Some(true)
  {
    var s := YES + [0] + rest;
    assert CString(s[3..]) == [];
    assert s[1..][1..][1..] == s[3..];
  }
}
