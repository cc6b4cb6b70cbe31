/** The pieces of JavaScript's string and number semantics that the alert filter
    relies on: `String(x)` of an identifier, the global `parseInt` called without
    a radix, and `s.split(sep)[0]`. */
module JsText {

  /** A JavaScript value used as an identifier: a number (an integer here) or a string. */
  datatype JsId = Num(n: int) | Str(s: string)

  /** A JavaScript number as `parseInt` produces it: an integer or NaN. */
  datatype Number = Int(value: int) | NaN {

    /** `x || 0`: NaN and 0 are falsy, so both give 0. */
    function OrZero(): int
    {
      if Int? then value else 0
    }
  }

  predicate IsDecimalDigit(c: char)
  {
    '0' <= c <= '9'
  }

  /** The value of `c` as a digit in any radix up to 36; 36 for a character that is no digit. */
  function DigitValue(c: char): nat
  {
    if '0' <= c <= '9' then c as int - '0' as int
    else if 'a' <= c <= 'z' then c as int - 'a' as int + 10
    else if 'A' <= c <= 'Z' then c as int - 'A' as int + 10
    else 36
  }

  predicate IsRadixDigit(c: char, radix: nat)
  {
    DigitValue(c) < radix
  }

  function DigitChar(d: nat): (c: char)
    requires d < 10
    ensures IsDecimalDigit(c) && DigitValue(c) == d
  {
    ('0' as int + d) as char
  }

  /** The decimal digits of `n`, most significant first, without leading zeros. */
  function NatDigits(n: nat): (s: string)
    ensures |s| > 0
    ensures forall i :: 0 <= i < |s| ==> IsDecimalDigit(s[i])
  {
    if n < 10 then [DigitChar(n)] else NatDigits(n / 10) + [DigitChar(n % 10)]
  }

  /** `Number.prototype.toString()` of an integer. */
  function DecimalString(n: int): string
  {
    if n < 0 then "-" + NatDigits(-n) else NatDigits(n)
  }

  /** `String(id)`. */
  function ToJsString(id: JsId): string
  {
    match id
    case Num(n) => DecimalString(n)
    case Str(s) => s
  }

  /** The characters `parseInt` skips before the number: ECMAScript's
      StrWhiteSpaceChar, i.e. WhiteSpace (which includes every space separator)
      and LineTerminator. */
  predicate IsStrWhiteSpace(c: char)
  {
    c == '\t' || c == '\U{000B}' || c == '\U{000C}' || c == ' ' || c == '\U{00A0}' || c == '\U{FEFF}'
    || c == '\U{1680}' || ('\U{2000}' <= c <= '\U{200A}') || c == '\U{202F}' || c == '\U{205F}' || c == '\U{3000}'
    || c == '\n' || c == '\r' || c == '\U{2028}' || c == '\U{2029}'
  }

  /** `s` without its leading white space. */
  function TrimStart(s: string): (r: string)
    ensures |r| <= |s| && r == s[|s| - |r|..]
    ensures r == [] || !IsStrWhiteSpace(r[0])
    ensures forall i :: 0 <= i < |s| - |r| ==> IsStrWhiteSpace(s[i])
  {
    if s != [] && IsStrWhiteSpace(s[0]) then TrimStart(s[1..]) else s
  }

  /** The length of the longest prefix of `s` made of digits of `radix`. */
  function DigitPrefixLength(s: string, radix: nat): (k: nat)
    ensures k <= |s|
    ensures forall i :: 0 <= i < k ==> IsRadixDigit(s[i], radix)
    ensures k == |s| || !IsRadixDigit(s[k], radix)
  {
    if s != [] && IsRadixDigit(s[0], radix) then 1 + DigitPrefixLength(s[1..], radix) else 0
  }

  /** The value of the digit string `s` in `radix`. */
  function DigitsValue(s: string, radix: nat): nat
  {
    if s == [] then 0 else DigitsValue(s[..|s| - 1], radix) * radix + DigitValue(s[|s| - 1])
  }

  /** The global `parseInt(s)` with no radix argument: leading white space is
      skipped, one `+` or `-` is read, a `0x`/`0X` prefix selects radix 16, and
      the longest run of digits that follows is the magnitude; no digit at all
      gives NaN. (`parseInt("-0")` is -0 in JavaScript, which every use here
      treats like 0.) */
  function ParseInt(s: string): Number
  {
    ParseSigned(TrimStart(s))
  }

  /** `parseInt` after the white space: an optional sign, then the magnitude. */
  function ParseSigned(t: string): Number
  {
    if |t| > 0 && t[0] == '-' then Negate(ParseMagnitude(t[1..]))
    else if |t| > 0 && t[0] == '+' then ParseMagnitude(t[1..])
    else ParseMagnitude(t)
  }

  /** `parseInt` after the sign: hexadecimal after `0x` or `0X`, decimal otherwise. */
  function ParseMagnitude(u: string): Number
  {
    if |u| >= 2 && u[0] == '0' && (u[1] == 'x' || u[1] == 'X') then ParseDigits(u[2..], 16)
    else ParseDigits(u, 10)
  }

  /** The longest run of `radix` digits at the start of `v`, or NaN if there is none. */
  function ParseDigits(v: string, radix: nat): Number
  {
    var k := DigitPrefixLength(v, radix);
    if k == 0 then NaN else Int(DigitsValue(v[..k], radix))
  }

  function Negate(x: Number): Number
  {
    match x
    case Int(v) => Int(0 - v)
    case NaN => NaN
  }

  /** `s.split(sep)[0]`: the text before the first `sep`, or all of `s`. */
  function BeforeFirst(s: string, sep: char): (r: string)
    ensures |r| <= |s| && r == s[..|r|]
    ensures sep !in r
    ensures |r| == |s| || s[|r|] == sep
  {
    if s == [] || s[0] == sep then [] else [s[0]] + BeforeFirst(s[1..], sep)
  }

  // ---------------------------------------------------------------------------
  // Properties
  // ---------------------------------------------------------------------------

  /** Reading back the digits of `n` gives `n`. */
  lemma {:induction false} NatDigitsValue(n: nat)
    ensures DigitsValue(NatDigits(n), 10) == n
  {
    if n >= 10 {
      var s := NatDigits(n);
      assert s[..|s| - 1] == NatDigits(n / 10);
      NatDigitsValue(n / 10);
    }
  }

  /** `parseInt(String(n)) === n` for every integer `n`. */
  lemma ParseIntDecimal(n: int)
    ensures ParseInt(DecimalString(n)) == Int(n)
  {
    var m := if n < 0 then -n else n;
    var d := NatDigits(m);
    NatDigitsValue(m);
    DigitsParse(d);
    if n < 0 {
      var s := "-" + d;
      TrimStartKeeps(s);
      assert s[1..] == d;
      assert ParseSigned(s) == Negate(ParseMagnitude(d));
    } else {
      assert IsDecimalDigit(d[0]);
      TrimStartKeeps(d);
      assert ParseSigned(d) == ParseMagnitude(d);
    }
  }

  /** Text that does not start with white space is left as it is. */
  lemma TrimStartKeeps(s: string)
    requires s != [] && (s[0] == '-' || IsDecimalDigit(s[0]))
    ensures TrimStart(s) == s
  {
    assert !IsStrWhiteSpace(s[0]);
  }

  /** A nonempty run of decimal digits is read whole. */
  lemma DigitsParse(d: string)
    requires |d| > 0 && forall i :: 0 <= i < |d| ==> IsDecimalDigit(d[i])
    ensures ParseMagnitude(d) == Int(DigitsValue(d, 10))
  {
    assert DigitPrefixLength(d, 10) == |d|;
    assert d[..|d|] == d;
    assert |d| >= 2 ==> d[1] != 'x' && d[1] != 'X';
  }

  /** Distinct integers have distinct decimal strings. */
  lemma DecimalStringInjective(a: int, b: int)
    requires DecimalString(a) == DecimalString(b)
    ensures a == b
  {
    ParseIntDecimal(a);
    ParseIntDecimal(b);
  }

  /** Leading white space does not change what `parseInt` reads. */
  lemma {:induction false} ParseIntSkipsWhiteSpace(w: string, s: string)
    requires forall i :: 0 <= i < |w| ==> IsStrWhiteSpace(w[i])
    ensures ParseInt(w + s) == ParseInt(s)
  {
    TrimStartSkips(w, s);
  }

  lemma {:induction false} TrimStartSkips(w: string, s: string)
    requires forall i :: 0 <= i < |w| ==> IsStrWhiteSpace(w[i])
    ensures TrimStart(w + s) == TrimStart(s)
  {
    if w == [] {
      assert w + s == s;
    } else {
      var ws := w + s;
      assert ws[0] == w[0] && IsStrWhiteSpace(w[0]);
      assert ws[1..] == w[1..] + s;
      assert TrimStart(ws) == TrimStart(ws[1..]);
      TrimStartSkips(w[1..], s);
    }
  }

  /** `parseInt` of text that starts with neither white space, a sign nor a
      decimal digit is NaN; so is a sign followed by a non-digit, as in `"--"`
      or `"- 5"`. */
  lemma ParseIntNonNumeric(s: string)
    requires s != [] && !IsStrWhiteSpace(s[0]) && !IsDecimalDigit(s[0])
    requires s[0] == '-' || s[0] == '+' ==> |s| == 1 || !IsDecimalDigit(s[1])
    requires s[0] != '-' && s[0] != '+' ==> DigitValue(s[0]) >= 10
    ensures ParseInt(s) == NaN
  {
    assert TrimStart(s) == s;
  }

  /** `parseInt(undefined)` reads the text "undefined", which has no digits. */
  lemma ParseIntUndefined()
    ensures ParseInt("undefined") == NaN
  {
    ParseIntNonNumeric("undefined");
  }

  /** Without a radix, `parseInt` reads a `0x` prefix as hexadecimal. */
  lemma ParseIntHexPrefix()
    ensures ParseInt("0x1A") == Int(26)
  {
    var v := "1A";
    assert TrimStart("0x1A") == "0x1A";
    assert ("0x1A")[2..] == v;
    assert DigitPrefixLength(v[2..], 16) == 0;
    assert DigitPrefixLength(v[1..], 16) == 1;
    assert DigitPrefixLength(v, 16) == 2;
    assert v[..2] == v;
    assert v[..1] == "1";
    assert DigitsValue("1", 16) == 1;
  }

  /** The text before the first `sep` of `p + [sep] + rest` is `p`, when `p` holds no `sep`. */
  lemma {:induction false} BeforeFirstStopsAtSeparator(p: string, sep: char, rest: string)
    requires sep !in p
    ensures BeforeFirst(p + [sep] + rest, sep) == p
  {
    if p != [] {
      assert (p + [sep] + rest)[1..] == p[1..] + [sep] + rest;
      BeforeFirstStopsAtSeparator(p[1..], sep, rest);
    }
  }

  /** The decimal string of a natural number holds no dash. */
  lemma NoDashInNatString(n: nat)
    ensures '-' !in DecimalString(n)
  {
  }

  /** `String(123) === "123"`: a numeric identifier and its string form agree. */
  lemma DecimalString123()
    ensures DecimalString(123) == "123"
  {
    assert NatDigits(1) == "1";
    assert NatDigits(12) == "12";
    assert NatDigits(123) == "123";
  }
}
