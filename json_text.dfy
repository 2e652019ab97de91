/**
 * The two scalar encodings that json.MarshalIndent writes into every body
 * the handlers return: a Go string as a JSON string literal (encoding/json
 * with HTML escaping on, which is what Marshal and MarshalIndent use) and a
 * Go int as a decimal number.
 *
 * Beside each encoder stands a reader that decodes standard JSON; the
 * round-trip lemmas are what make the encodings unambiguous.
 */
module JsonText {
  import opened Wrappers

  // ----- Hexadecimal and decimal digits -----

  /** A lower-case hexadecimal digit, as in encoding/json's table "0123456789abcdef". */
  function HexDigit(n: nat): (c: char)
    requires n < 16
  {
    if n < 10 then ('0' as int + n) as char else ('a' as int + n - 10) as char
  }

  predicate IsHexDigit(c: char) {
    ('0' <= c <= '9') || ('a' <= c <= 'f') || ('A' <= c <= 'F')
  }

  function HexValue(c: char): (n: nat)
    requires IsHexDigit(c)
    ensures n < 16
  {
    if '0' <= c <= '9' then c as int - '0' as int
    else if 'a' <= c <= 'f' then c as int - 'a' as int + 10
    else c as int - 'A' as int + 10
  }

  /** The value of the four hexadecimal digits of a `\uXXXX` escape. */
  function Hex4Value(h: string): (n: nat)
    requires |h| == 4 && forall i :: 0 <= i < 4 ==> IsHexDigit(h[i])
    ensures n < 0x1_0000
  {
    HexValue(h[0]) * 0x1000 + HexValue(h[1]) * 0x100 + HexValue(h[2]) * 0x10 + HexValue(h[3])
  }

  lemma HexDigitValue(n: nat)
    requires n < 16
    ensures IsHexDigit(HexDigit(n)) && HexValue(HexDigit(n)) == n
  {
  }

  predicate IsDigit(c: char) {
    '0' <= c <= '9'
  }

  function DigitChar(n: nat): (c: char)
    requires n < 10
    ensures IsDigit(c)
  {
    ('0' as int + n) as char
  }

  predicate AllDigits(s: string) {
    forall i :: 0 <= i < |s| ==> IsDigit(s[i])
  }

  // ----- Strings -----

  /**
   * The characters encoding/json copies unchanged into a string literal:
   * everything from the space upwards except the quote, the backslash, the
   * three HTML characters < > & and the two line separators U+2028, U+2029.
   */
  predicate IsPlain(c: char) {
    ' ' <= c && c != '"' && c != '\\' && c != '<' && c != '>' && c != '&'
    && c != '\U{2028}' && c != '\U{2029}'
  }

  /**
   * How encoding/json writes one character inside a string literal: quote
   * and backslash are backslash-escaped, newline, carriage return and tab
   * get their short escapes, the other control characters and < > & become
   * `\u00XX`, and U+2028 and U+2029 become the six-character
   * escapes backslash-u-2-0-2-8 and backslash-u-2-0-2-9.
   */
  function EscapeChar(c: char): (r: string)
    ensures 1 <= |r| <= 6
    ensures IsPlain(c) ==> r == [c]
    ensures !IsPlain(c) ==> 2 <= |r| && r[0] == '\\'
  {
    if c == '"' then "\\\""
    else if c == '\\' then "\\\\"
    else if c == '\n' then "\\n"
    else if c == '\r' then "\\r"
    else if c == '\t' then "\\t"
    else if c < ' ' || c == '<' || c == '>' || c == '&' then
      "\\u00" + [HexDigit(c as int / 16), HexDigit(c as int % 16)]
    else if c == '\U{2028}' || c == '\U{2029}' then
      "\\u202" + [HexDigit(c as int % 16)]
    else [c]
  }

  /** The body of a JSON string literal: every character escaped in turn. */
  function Escape(s: string): (r: string)
    ensures |r| >= |s|
  {
    if s == [] then [] else EscapeChar(s[0]) + Escape(s[1..])
  }

  /** A Go string as a JSON string literal. */
  function Quote(s: string): string {
    "\"" + Escape(s) + "\""
  }

  predicate AllPlain(s: string) {
    forall i :: 0 <= i < |s| ==> IsPlain(s[i])
  }

  lemma AllPlainAppend(a: string, b: string)
    requires AllPlain(a) && AllPlain(b)
    ensures AllPlain(a + b)
  {
  }

  /** Every character of a plain string is written as it is. */
  lemma {:induction false} EscapePlain(s: string)
    requires AllPlain(s)
    ensures Escape(s) == s
  {
    if s != [] {
      assert IsPlain(s[0]);
      EscapePlain(s[1..]);
      assert s == [s[0]] + s[1..];
    }
  }

  /** Escaping distributes over concatenation. */
  lemma {:induction false} EscapeAppend(a: string, b: string)
    ensures Escape(a + b) == Escape(a) + Escape(b)
  {
    if a != [] {
      assert (a + b)[0] == a[0];
      assert (a + b)[1..] == a[1..] + b;
      EscapeAppend(a[1..], b);
      var e, x, y := EscapeChar(a[0]), Escape(a[1..]), Escape(b);
      assert Escape(a + b) == e + (x + y);
      assert Escape(a) == e + x;
      assert e + (x + y) == (e + x) + y;
    } else {
      assert a + b == b;
    }
  }

  /** A code point that a Dafny `char` can hold (a Unicode scalar value). */
  predicate IsScalar(n: int) {
    (0 <= n < 0xD800) || (0xE000 <= n < 0x11_0000)
  }

  /**
   * Reads one character of a JSON string body: a backslash escape or a
   * character other than the quote and the control characters. Returns
   * the character and what follows it.
   */
  function ReadChar(t: string): (r: Option<(char, string)>)
    ensures r.Some? ==> |r.value.1| < |t| && r.value.1 == t[|t| - |r.value.1|..]
  {
    if t == [] then None
    else if t[0] == '\\' then
      if |t| < 2 then None
      else if t[1] == '"' then Some(('"', t[2..]))
      else if t[1] == '\\' then Some(('\\', t[2..]))
      else if t[1] == '/' then Some(('/', t[2..]))
      else if t[1] == 'b' then Some(('\U{8}', t[2..]))
      else if t[1] == 'f' then Some(('\U{c}', t[2..]))
      else if t[1] == 'n' then Some(('\n', t[2..]))
      else if t[1] == 'r' then Some(('\r', t[2..]))
      else if t[1] == 't' then Some(('\t', t[2..]))
      else if t[1] == 'u' && |t| >= 6 && (forall i :: 2 <= i < 6 ==> IsHexDigit(t[i])) then
        var n := Hex4Value(t[2..6]);
        if IsScalar(n) then Some((n as char, t[6..])) else None
      else None
    else if t[0] == '"' || t[0] < ' ' then None
    else Some((t[0], t[1..]))
  }

  /** Reads the body of a JSON string up to its closing quote; returns the text and what follows the quote. */
  function ReadStringBody(t: string): (r: Option<(string, string)>)
    decreases |t|
  {
    if t == [] then None
    else if t[0] == '"' then Some(([], t[1..]))
    else
      match ReadChar(t)
      case None => None
      case Some((c, u)) =>
        match ReadStringBody(u)
        case None => None
        case Some((s, rest)) => Some(([c] + s, rest))
  }

  /** Reads a JSON string literal; returns its text and what follows it. */
  function ReadString(t: string): Option<(string, string)> {
    if t != [] && t[0] == '"' then ReadStringBody(t[1..]) else None
  }

  /** Reading back the escape of a character gives that character. */
  lemma ReadEscapedChar(c: char, u: string)
    ensures ReadChar(EscapeChar(c) + u) == Some((c, u))
  {
    var t := EscapeChar(c) + u;
    if (c < ' ' && c != '\n' && c != '\r' && c != '\t') || c == '<' || c == '>' || c == '&' {
      var n := c as int;
      HexDigitValue(n / 16);
      HexDigitValue(n % 16);
      assert t[2..6] == ['0', '0', HexDigit(n / 16), HexDigit(n % 16)];
      assert Hex4Value(t[2..6]) == n;
      assert t[6..] == u;
    } else if c == '\U{2028}' || c == '\U{2029}' {
      var n := c as int;
      HexDigitValue(n % 16);
      assert t[2..6] == ['2', '0', '2', HexDigit(n % 16)];
      assert Hex4Value(t[2..6]) == n;
      assert t[6..] == u;
    } else if IsPlain(c) {
      assert t[1..] == u;
    } else {
      assert t[2..] == u;
    }
  }

  lemma {:induction false} ReadEscaped(s: string, rest: string)
    ensures ReadStringBody(Escape(s) + "\"" + rest) == Some((s, rest))
  {
    var t := Escape(s) + "\"" + rest;
    if s == [] {
      assert t == "\"" + rest;
    } else {
      var e0, u := EscapeChar(s[0]), Escape(s[1..]) + "\"" + rest;
      assert Escape(s) == e0 + Escape(s[1..]);
      assert t == e0 + u;
      assert t[0] == e0[0] != '"';
      ReadEscapedChar(s[0], u);
      ReadEscaped(s[1..], rest);
      assert ReadStringBody(t) == Some(([s[0]] + s[1..], rest));
      assert [s[0]] + s[1..] == s;
    }
  }

  /** A quoted string reads back as itself, whatever follows it. */
  lemma ReadQuoted(s: string, rest: string)
    ensures ReadString(Quote(s) + rest) == Some((s, rest))
  {
    var t := Quote(s) + rest;
    assert t[1..] == Escape(s) + "\"" + rest;
    ReadEscaped(s, rest);
  }

  /** Different strings are written as different literals. */
  lemma QuoteInjective(s: string, s': string)
    requires Quote(s) == Quote(s')
    ensures s == s'
  {
    ReadQuoted(s, []);
    ReadQuoted(s', []);
    assert Quote(s) + [] == Quote(s);
    assert Quote(s') + [] == Quote(s');
  }

  // ----- Integers -----

  /** A natural number in decimal, without leading zeros. */
  function NatToDecimal(n: nat): (r: string)
    ensures |r| >= 1 && AllDigits(r)
    ensures r[0] == '0' ==> n == 0
  {
    if n < 10 then [DigitChar(n)] else NatToDecimal(n / 10) + [DigitChar(n % 10)]
  }

  /** A Go int as strconv writes it: a minus sign for negatives, then the decimal digits. */
  function IntToDecimal(i: int): string {
    if i < 0 then "-" + NatToDecimal(-i) else NatToDecimal(i)
  }

  /** The value of a run of decimal digits. */
  function DigitsValue(s: string): nat
    requires AllDigits(s)
  {
    if s == [] then 0 else DigitsValue(s[..|s| - 1]) * 10 + (s[|s| - 1] as int - '0' as int)
  }

  /** The length of the run of decimal digits that starts `t`. */
  function SpanDigits(t: string): (k: nat)
    ensures k <= |t| && AllDigits(t[..k])
    ensures k < |t| ==> !IsDigit(t[k])
  {
    if t == [] || !IsDigit(t[0]) then 0
    else
      var k := 1 + SpanDigits(t[1..]);
      assert t[..k] == [t[0]] + t[1..][..k - 1];
      k
  }

  /** Reads a JSON integer: an optional minus sign and at least one digit. */
  function ReadInt(t: string): Option<(int, string)> {
    var neg := t != [] && t[0] == '-';
    var u := if neg then t[1..] else t;
    var k := SpanDigits(u);
    if k == 0 then None
    else
      var n: int := DigitsValue(u[..k]);
      Some((if neg then -n else n, u[k..]))
  }

  lemma {:induction false} DigitsValueOfDecimal(n: nat)
    ensures DigitsValue(NatToDecimal(n)) == n
  {
    if n >= 10 {
      var s := NatToDecimal(n);
      assert s[..|s| - 1] == NatToDecimal(n / 10);
      DigitsValueOfDecimal(n / 10);
    }
  }

  lemma {:induction false} SpanOfDigits(ds: string, rest: string)
    requires AllDigits(ds)
    requires rest == [] || !IsDigit(rest[0])
    ensures SpanDigits(ds + rest) == |ds|
  {
    if ds != [] {
      assert (ds + rest)[1..] == ds[1..] + rest;
      SpanOfDigits(ds[1..], rest);
    }
  }

  /** A written integer reads back as itself when no digit follows it. */
  lemma ReadDecimal(i: int, rest: string)
    requires rest == [] || !IsDigit(rest[0])
    ensures ReadInt(IntToDecimal(i) + rest) == Some((i, rest))
  {
    var ds := NatToDecimal(if i < 0 then -i else i);
    var u := ds + rest;
    if i < 0 {
      assert (IntToDecimal(i) + rest)[1..] == u;
    } else {
      assert IntToDecimal(i) + rest == u;
    }
    SpanOfDigits(ds, rest);
    assert u[..|ds|] == ds;
    assert u[|ds|..] == rest;
    DigitsValueOfDecimal(if i < 0 then -i else i);
  }

  // ----- Fixed text -----

  /** Strips the fixed text `lit` from the front of `t`. */
  function Lit(lit: string, t: string): (r: Option<string>)
    ensures r.Some? <==> lit <= t
    ensures r.Some? ==> t == lit + r.value
  {
    if lit <= t then Some(t[|lit|..]) else None
  }
}
