/**
 * The argument values a callback token carries, and the two directions of
 * Python's `json` module on them: `json.dumps` with its default settings
 * (`ensure_ascii=True`) and `json.loads` with its default C scanner.
 */
module JsonArgs {
  import opened Common
  import opened PyText

  /** A positional argument of a callback: None, a bool, an int or a str. */
  datatype JValue = JNull | JBool(b: bool) | JInt(i: int) | JStr(s: string)

  // ---------------------------------------------------------------------
  // json.dumps

  predicate IsPrintableAscii(c: char) { 0x20 <= c as int <= 0x7e }

  predicate AllPrintableAscii(s: string) {
    forall i :: 0 <= i < |s| ==> IsPrintableAscii(s[i])
  }

  function HexDigit(d: nat): (c: char)
    requires d < 16
    ensures IsPrintableAscii(c)
  {
    if d < 10 then ('0' as int + d) as char else ('a' as int + d - 10) as char
  }

  /** Four lower-case hex digits, zero-padded, as Python's JSON encoder writes them. */
  function Hex4(n: nat): (h: string)
    requires n < 0x10000
    ensures |h| == 4 && AllPrintableAscii(h)
  {
    [HexDigit(n / 4096), HexDigit(n / 256 % 16), HexDigit(n / 16 % 16), HexDigit(n % 16)]
  }

  /** How `json.dumps` writes one character of a str when `ensure_ascii` is on:
      printable ASCII as itself (but `"` and `\`), the usual short escapes,
      other BMP characters as `\uXXXX`, the rest as a surrogate pair. */
  function EscapeChar(c: char): (e: string)
    ensures |e| > 0 && AllPrintableAscii(e)
    ensures e[0] != '"'
  {
    var n := c as int;
    if c == '"' then "\\\""
    else if c == '\\' then "\\\\"
    else if c == '\n' then "\\n"
    else if c == '\r' then "\\r"
    else if c == '\t' then "\\t"
    else if n == 0x08 then "\\b"
    else if n == 0x0c then "\\f"
    else if IsPrintableAscii(c) then [c]
    else if n < 0x10000 then "\\u" + Hex4(n)
    else
      var m := n - 0x10000;
      "\\u" + Hex4(0xd800 + m / 0x400) + "\\u" + Hex4(0xdc00 + m % 0x400)
  }

  function EscapeString(s: string): (e: string)
    ensures AllPrintableAscii(e)
  {
    if s == [] then "" else EscapeChar(s[0]) + EscapeString(s[1..])
  }

  /** `json.dumps(v)`. */
  function Dumps(v: JValue): (text: string)
    ensures |text| > 0 && AllPrintableAscii(text)
  {
    match v
    case JNull => "null"
    case JBool(b) => if b then "true" else "false"
    case JInt(i) => IntToString(i)
    case JStr(s) => "\"" + EscapeString(s) + "\""
  }

  /** What `json.dumps` produces never holds a line boundary, so it stays one line. */
  lemma DumpsIsOneLine(v: JValue)
    ensures NoLineBreak(Dumps(v)) && Dumps(v) != []
  {
    var t := Dumps(v);
    forall i | 0 <= i < |t| ensures !IsLineBreak(t[i]) {
      assert IsPrintableAscii(t[i]);
    }
  }

  // ---------------------------------------------------------------------
  // json.loads

  predicate IsJsonSpace(c: char) { c == ' ' || c == '\t' || c == '\n' || c == '\r' }

  function SkipJsonSpace(s: string): (n: nat)
    ensures n <= |s|
    ensures forall i :: 0 <= i < n ==> IsJsonSpace(s[i])
    ensures n < |s| ==> !IsJsonSpace(s[n])
  {
    if s == [] || !IsJsonSpace(s[0]) then 0 else 1 + SkipJsonSpace(s[1..])
  }

  function HexValue(c: char): Option<nat> {
    if '0' <= c <= '9' then Some(c as int - '0' as int)
    else if 'a' <= c <= 'f' then Some(c as int - 'a' as int + 10)
    else if 'A' <= c <= 'F' then Some(c as int - 'A' as int + 10)
    else None
  }

  /** The value of four hex digits (either case); anything else is None. */
  function ParseHex4(h: string): (r: Option<nat>)
    requires |h| == 4
    ensures r.Some? ==> r.value < 0x10000
  {
    match (HexValue(h[0]), HexValue(h[1]), HexValue(h[2]), HexValue(h[3]))
    case (Some(a), Some(b), Some(c), Some(d)) =>
      if a < 16 && b < 16 && c < 16 && d < 16 then Some(a * 4096 + b * 256 + c * 16 + d) else None
    case _ => None
  }

  lemma HexDigitValue(d: nat)
    requires d < 16
    ensures HexValue(HexDigit(d)) == Some(d)
  {
  }

  lemma ParseHex4OfHex4(n: nat)
    requires n < 0x10000
    ensures ParseHex4(Hex4(n)) == Some(n)
  {
    var a, b, c, d := n / 4096, n / 256 % 16, n / 16 % 16, n % 16;
    HexDigitValue(a); HexDigitValue(b); HexDigitValue(c); HexDigitValue(d);
    HexPlaces(n);
    var h := Hex4(n);
    assert HexValue(h[0]) == Some(a) && HexValue(h[1]) == Some(b);
    assert HexValue(h[2]) == Some(c) && HexValue(h[3]) == Some(d);
  }

  /** The four hex places of a number below 0x10000 add up to it. */
  lemma HexPlaces(n: nat)
    requires n < 0x10000
    ensures n / 4096 < 16
    ensures n == (n / 4096) * 4096 + (n / 256 % 16) * 256 + (n / 16 % 16) * 16 + n % 16
  {
    var q := n / 16;
    var q2 := q / 16;
    assert n == q * 16 + n % 16;
    assert q == q2 * 16 + q % 16;
    assert q2 == (q2 / 16) * 16 + q2 % 16;
    assert q2 == n / 256 && q2 / 16 == n / 4096;
  }

  predicate IsSurrogate(n: int) { 0xd800 <= n <= 0xdfff }

  /** The character `\uXXXX` stands for at the start of `s`, with the number of
      characters consumed: a high surrogate followed by `\u` and a low one
      combine into one character. A lone surrogate is not a character value
      here, so it is refused. */
  function DecodeUnicodeEscape(s: string): (r: Option<(char, nat)>)
    requires |s| >= 6 && s[0] == '\\' && s[1] == 'u'
    ensures r.Some? ==> 6 <= r.value.1 <= |s|
  {
    match ParseHex4(s[2..6])
    case None => None
    case Some(hi) =>
      if !IsSurrogate(hi) then Some((hi as char, 6))
      else if hi <= 0xdbff && |s| >= 12 && s[6] == '\\' && s[7] == 'u' then
        match ParseHex4(s[8..12])
        case Some(lo) =>
          if 0xdc00 <= lo <= 0xdfff then
            Some(((0x10000 + (hi - 0xd800) * 0x400 + (lo - 0xdc00)) as char, 12))
          else None
        case None => None
      else None
  }

  /** One (possibly escaped) character of a JSON string body at the start of
      `s`, with the number of characters it takes; None for a malformed escape
      or a raw control character. */
  function DecodeChar(s: string): (r: Option<(char, nat)>)
    requires |s| > 0 && s[0] != '"'
    ensures r.Some? ==> 1 <= r.value.1 <= |s|
  {
    if s[0] == '\\' then
      if |s| < 2 then None
      else if s[1] == '"' then Some(('"', 2))
      else if s[1] == '\\' then Some(('\\', 2))
      else if s[1] == '/' then Some(('/', 2))
      else if s[1] == 'b' then Some((0x08 as char, 2))
      else if s[1] == 'f' then Some((0x0c as char, 2))
      else if s[1] == 'n' then Some(('\n', 2))
      else if s[1] == 'r' then Some(('\r', 2))
      else if s[1] == 't' then Some(('\t', 2))
      else if s[1] == 'u' && |s| >= 6 then DecodeUnicodeEscape(s)
      else None
    else if (s[0] as int) < 0x20 then None
    else Some((s[0], 1))
  }

  /** A JSON string body up to its closing quote: the decoded text and what follows the quote. */
  function ParseStringBody(s: string): (r: Option<(string, string)>)
    ensures r.Some? ==> |r.value.1| < |s|
    decreases |s|
  {
    if s == [] then None
    else if s[0] == '"' then Some(("", s[1..]))
    else
      match DecodeChar(s)
      case None => None
      case Some((c, n)) =>
        match ParseStringBody(s[n..])
        case None => None
        case Some((body, rest)) => Some(([c] + body, rest))
  }

  function DigitRun(s: string): (n: nat)
    ensures n <= |s|
    ensures forall i :: 0 <= i < n ==> IsDigit(s[i])
    ensures n < |s| ==> !IsDigit(s[n])
  {
    if s == [] || !IsDigit(s[0]) then 0 else 1 + DigitRun(s[1..])
  }

  /** True when `s`, which follows the integer part of a number, continues it
      as a fraction or an exponent, so that `json.loads` would read a float. */
  predicate FloatContinues(s: string) {
    || (|s| >= 2 && s[0] == '.' && IsDigit(s[1]))
    || (|s| >= 2 && (s[0] == 'e' || s[0] == 'E') && IsDigit(s[1]))
    || (|s| >= 3 && (s[0] == 'e' || s[0] == 'E') && (s[1] == '+' || s[1] == '-') && IsDigit(s[2]))
  }

  /** A JSON integer `-?(0|[1-9][0-9]*)` at the start of `s`, and what follows it. */
  function ParseNumber(s: string): (r: Option<(int, string)>)
    ensures r.Some? ==> |r.value.1| < |s|
  {
    var neg := |s| > 0 && s[0] == '-';
    var u := if neg then s[1..] else s;
    if u == [] || !IsDigit(u[0]) then None
    else
      var k := if u[0] == '0' then 1 else DigitRun(u);
      var v: int := DigitsValue(u[..k]);
      if FloatContinues(u[k..]) then None
      else Some((if neg then -v else v, u[k..]))
  }

  /** A JSON value at the start of `s`, and what follows it. */
  function ParseValue(s: string): (r: Option<(JValue, string)>)
    ensures r.Some? ==> |r.value.1| < |s|
  {
    if |s| >= 4 && s[..4] == "null" then Some((JNull, s[4..]))
    else if |s| >= 4 && s[..4] == "true" then Some((JBool(true), s[4..]))
    else if |s| >= 5 && s[..5] == "false" then Some((JBool(false), s[5..]))
    else if |s| > 0 && s[0] == '"' then
      match ParseStringBody(s[1..])
      case Some((body, rest)) => Some((JStr(body), rest))
      case None => None
    else
      match ParseNumber(s)
      case Some((i, rest)) => Some((JInt(i), rest))
      case None => None
  }

  /** `json.loads(text)`: one value with optional JSON whitespace around it;
      anything else raises JSONDecodeError. */
  function Loads(text: string): (r: Result<JValue>)
    ensures r.Err? ==> r.error == JsonDecodeError
  {
    var t := text[SkipJsonSpace(text)..];
    match ParseValue(t)
    case Some((v, rest)) => if SkipJsonSpace(rest) == |rest| then Ok(v) else Err(JsonDecodeError)
    case None => Err(JsonDecodeError)
  }

  // ---------------------------------------------------------------------
  // Round trip

  lemma DecodeEscapedChar(c: char, rest: string)
    ensures var e := EscapeChar(c) + rest;
            e[0] != '"' && DecodeChar(e) == Some((c, |EscapeChar(c)|))
  {
    var n := c as int;
    if c == '"' || c == '\\' || c == '\n' || c == '\r' || c == '\t' || n == 0x08 || n == 0x0c {
      DecodeShortEscape(c, rest);
    } else if IsPrintableAscii(c) {
    } else if n < 0x10000 {
      DecodeBmpEscape(c, rest);
    } else {
      DecodePairEscape(c, rest);
    }
  }

  lemma DecodeShortEscape(c: char, rest: string)
    requires c == '"' || c == '\\' || c == '\n' || c == '\r' || c == '\t' || c as int == 0x08 || c as int == 0x0c
    ensures var e := EscapeChar(c) + rest;
            e[0] != '"' && DecodeChar(e) == Some((c, |EscapeChar(c)|))
  {
  }

  lemma DecodeBmpEscape(c: char, rest: string)
    requires c != '"' && c != '\\' && c != '\n' && c != '\r' && c != '\t' && c as int != 0x08 && c as int != 0x0c
    requires !IsPrintableAscii(c) && c as int < 0x10000
    ensures var e := EscapeChar(c) + rest;
            e[0] != '"' && DecodeChar(e) == Some((c, |EscapeChar(c)|))
  {
    var n := c as int;
    var e := EscapeChar(c) + rest;
    assert EscapeChar(c) == "\\u" + Hex4(n);
    assert e[2..6] == Hex4(n);
    ParseHex4OfHex4(n);
    assert DecodeUnicodeEscape(e) == Some((c, 6));
  }

  lemma DecodePairEscape(c: char, rest: string)
    requires c as int >= 0x10000
    ensures var e := EscapeChar(c) + rest;
            e[0] != '"' && DecodeChar(e) == Some((c, |EscapeChar(c)|))
  {
    var n := c as int;
    var m := n - 0x10000;
    var hi, lo := 0xd800 + m / 0x400, 0xdc00 + m % 0x400;
    var e := EscapeChar(c) + rest;
    assert EscapeChar(c) == "\\u" + Hex4(hi) + "\\u" + Hex4(lo);
    assert e[2..6] == Hex4(hi);
    assert e[8..12] == Hex4(lo);
    ParseHex4OfHex4(hi);
    ParseHex4OfHex4(lo);
    assert 0x10000 + (hi - 0xd800) * 0x400 + (lo - 0xdc00) == n;
    assert DecodeUnicodeEscape(e) == Some((c, 12));
  }

  lemma {:induction false} ParseEscapedString(s: string, rest: string)
    ensures ParseStringBody(EscapeString(s) + "\"" + rest) == Some((s, rest))
  {
    if s == [] {
      assert EscapeString(s) + "\"" + rest == "\"" + rest;
    } else {
      var e := EscapeChar(s[0]);
      var tail := EscapeString(s[1..]) + "\"" + rest;
      assert EscapeString(s) + "\"" + rest == e + tail;
      DecodeEscapedChar(s[0], tail);
      assert (e + tail)[|e|..] == tail;
      ParseEscapedString(s[1..], rest);
      assert [s[0]] + s[1..] == s;
    }
  }

  lemma ParseNatString(n: nat)
    ensures DigitRun(NatToString(n)) == |NatToString(n)|
    ensures ParseNumber(NatToString(n)) == Some((n, ""))
  {
    var s := NatToString(n);
    assert DigitRun(s) == |s|;
    DigitsValueOfNat(n);
    assert s[..|s|] == s;
  }

  lemma ParseValueAtNumber(t: string)
    requires |t| > 0 && (t[0] == '-' || IsDigit(t[0]))
    ensures ParseValue(t) == match ParseNumber(t)
                             case Some((i, rest)) => Some((JInt(i), rest))
                             case None => None
  {
    assert |t| >= 4 ==> t[..4][0] == t[0];
    assert |t| >= 5 ==> t[..5][0] == t[0];
  }

  lemma ParseValueAtString(t: string)
    requires |t| > 0 && t[0] == '"'
    ensures ParseValue(t) == match ParseStringBody(t[1..])
                             case Some((body, rest)) => Some((JStr(body), rest))
                             case None => None
  {
    assert |t| >= 4 ==> t[..4][0] == t[0];
    assert |t| >= 5 ==> t[..5][0] == t[0];
  }

  lemma LoadsDumpsInt(i: int)
    ensures Loads(Dumps(JInt(i))) == Ok(JInt(i))
  {
    var t := IntToString(i);
    assert SkipJsonSpace(t) == 0;
    assert t[SkipJsonSpace(t)..] == t;
    if i < 0 {
      assert t[1..] == NatToString(-i);
      ParseNatString(-i);
    } else {
      ParseNatString(i);
    }
    ParseValueAtNumber(t);
    assert ParseNumber(t) == Some((i, ""));
  }

  lemma LoadsDumpsStr(s: string)
    ensures Loads(Dumps(JStr(s))) == Ok(JStr(s))
  {
    var t := Dumps(JStr(s));
    assert SkipJsonSpace(t) == 0;
    assert t[SkipJsonSpace(t)..] == t;
    assert t[1..] == EscapeString(s) + "\"" + "";
    ParseEscapedString(s, "");
    ParseValueAtString(t);
  }

  /** `json.loads(json.dumps(v)) == v` for every argument value. */
  lemma LoadsDumps(v: JValue)
    ensures Loads(Dumps(v)) == Ok(v)
  {
    match v
    case JNull =>
      assert SkipJsonSpace("null") == 0;
    case JBool(b) =>
      assert SkipJsonSpace(Dumps(v)) == 0;
    case JInt(i) => LoadsDumpsInt(i);
    case JStr(s) => LoadsDumpsStr(s);
  }
}
