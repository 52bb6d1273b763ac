/** JSON string literals (RFC 8259, section 7): the decoder, and the escaping of Go's encoding/json. */
module JsonText {
  import opened Text

  predicate IsHighSurrogate(n: int) {
    0xD800 <= n < 0xDC00
  }

  predicate IsLowSurrogate(n: int) {
    0xDC00 <= n < 0xE000
  }

  /** The code unit of a leading \uXXXX, or -1. */
  function CodeUnit(s: string): (n: int)
    ensures -1 <= n < 0x1_0000
  {
    if |s| >= 6 && s[0] == '\\' && s[1] == 'u'
       && HexValue(s[2]) >= 0 && HexValue(s[3]) >= 0 && HexValue(s[4]) >= 0 && HexValue(s[5]) >= 0
    then HexValue(s[2]) * 4096 + HexValue(s[3]) * 256 + HexValue(s[4]) * 16 + HexValue(s[5])
    else -1
  }

  function ShortEscape(c: char): (r: Option<char>) {
    if c == '\"' || c == '\\' || c == '/' then Some(c)
    else if c == 'b' then Some(8 as char)
    else if c == 'f' then Some(12 as char)
    else if c == 'n' then Some('\n')
    else if c == 'r' then Some('\r')
    else if c == 't' then Some('\t')
    else None
  }

  /** A \u escape, with surrogate pairs joined. Go's decoder reads an unpaired surrogate as U+FFFD;
      PostgreSQL's jsonb input (the strict decoder) refuses it, and refuses \u0000. */
  function UnitEscape(s: string, strict: bool): (r: Option<(char, nat)>)
    ensures r.Some? ==> 1 <= r.value.1 <= |s|
  {
    var u := CodeUnit(s);
    if u < 0 || (strict && u == 0) then None
    else if !IsHighSurrogate(u) && !IsLowSurrogate(u) then Some((u as char, 6))
    else
      var low := CodeUnit(s[6..]);
      if IsHighSurrogate(u) && IsLowSurrogate(low)
      then Some(((0x1_0000 + (u - 0xD800) * 1024 + (low - 0xDC00)) as char, 12))
      else if strict then None
      else Some(('\U{FFFD}', 6))
  }

  /** The next character of a literal's body and the length of its spelling. */
  function NextChar(s: string, strict: bool): (r: Option<(char, nat)>)
    ensures r.Some? ==> 1 <= r.value.1 <= |s|
  {
    if s == "" || s[0] < ' ' then None
    else if s[0] != '\\' then Some((s[0], 1))
    else if |s| < 2 then None
    else if s[1] == 'u' then UnitEscape(s, strict)
    else
      match ShortEscape(s[1])
      case None => None
      case Some(c) => Some((c, 2))
  }

  /** Decodes up to and including the closing quote: the text and what follows the literal. */
  function DecodeBody(s: string, strict: bool): (r: Option<(string, string)>)
    ensures r.Some? ==> |r.value.1| < |s|
    decreases |s|
  {
    if s == "" then None
    else if s[0] == '\"' then Some(("", s[1..]))
    else
      match NextChar(s, strict)
      case None => None
      case Some(p) =>
        match DecodeBody(s[p.1..], strict)
        case None => None
        case Some(q) => Some(([p.0] + q.0, q.1))
  }

  /** Go's escaping of one character: quotes, backslashes and control characters, and also <, >, &,
      U+2028 and U+2029. */
  function EscapeChar(c: char): (e: string)
    ensures e != "" && e[0] != '\"' && ' ' <= e[0]
  {
    var n := c as int;
    if c == '\"' || c == '\\' then ['\\', c]
    else if n == 8 then "\\b"
    else if n == 12 then "\\f"
    else if c == '\n' then "\\n"
    else if c == '\r' then "\\r"
    else if c == '\t' then "\\t"
    else if n < 0x20 || c == '<' || c == '>' || c == '&' || n == 0x2028 || n == 0x2029 then "\\u" + Hex4(n)
    else [c]
  }

  function EscapeAll(s: string): (e: string) {
    if s == "" then "" else EscapeChar(s[0]) + EscapeAll(s[1..])
  }

  function Quoted(s: string): (e: string)
    ensures |e| >= 2 && e[0] == '\"'
  {
    "\"" + EscapeAll(s) + "\""
  }

  /** The spellings of Go's encoder: two characters where JSON has them, but not for the slash; \u for the other
      controls and for what HTML and JavaScript would take amiss; every other character for itself. */
  lemma ShortSpellings()
    ensures EscapeChar('\"') == "\\\"" && EscapeChar('\\') == "\\\\" && EscapeChar('\n') == "\\n"
    ensures EscapeChar('\r') == "\\r" && EscapeChar('\t') == "\\t"
    ensures EscapeChar(8 as char) == "\\b" && EscapeChar(12 as char) == "\\f"
  {
  }

  lemma CodeSpellings()
    ensures EscapeChar(0 as char) == "\\u0000" && EscapeChar(0x1F as char) == "\\u001f"
    ensures EscapeChar('<') == "\\u003c" && EscapeChar('>') == "\\u003e"
  {
    assert Hex4(0) == "0000" && Hex4(0x1F) == "001f" && Hex4(0x3C) == "003c" && Hex4(0x3E) == "003e";
  }

  lemma MoreCodeSpellings()
    ensures EscapeChar('&') == "\\u0026" && EscapeChar('\U{2028}') == "\\u2028" && EscapeChar('\U{2029}') == "\\u2029"
  {
    assert Hex4(0x26) == "0026" && Hex4(0x2028) == "2028" && Hex4(0x2029) == "2029";
  }

  lemma OwnSpelling(c: char)
    ensures EscapeChar(c) == [c] <==>
            c >= ' ' && c !in {'\"', '\\', '<', '>', '&', '\U{2028}', '\U{2029}'}
  {
  }

  /** A text without such characters is quoted as it is. */
  lemma {:induction false} PlainText(s: string)
    requires forall i | 0 <= i < |s| :: s[i] >= ' ' && s[i] !in {'\"', '\\', '<', '>', '&', '\U{2028}', '\U{2029}'}
    ensures EscapeAll(s) == s && Quoted(s) == "\"" + s + "\""
  {
    if s != "" {
      OwnSpelling(s[0]);
      PlainText(s[1..]);
      assert s == [s[0]] + s[1..];
    }
  }

  /** Spellings that Go never writes and every decoder reads, and what the two decoders make of half a pair. */
  lemma OtherSpellings(rest: string)
    ensures NextChar("\\/" + rest, true) == Some(('/', 2))
    ensures NextChar("\\u00E9" + rest, true) == Some(('\U{E9}', 6)) == NextChar("\\u00e9" + rest, true)
    ensures NextChar("\\uD83D\\uDE00" + rest, true) == Some(('\U{1F600}', 12))
    ensures NextChar("\\uDE00" + rest, true) == None && NextChar("\\uDE00" + rest, false) == Some(('\U{FFFD}', 6))
    ensures NextChar("\\u0000" + rest, true) == None && NextChar("\\x" + rest, false) == None
    ensures NextChar("\n" + rest, false) == None
  {
    var slash, upper, lower, pair := "\\/" + rest, "\\u00E9" + rest, "\\u00e9" + rest, "\\uD83D\\uDE00" + rest;
    var half, zero, hex := "\\uDE00" + rest, "\\u0000" + rest, "\\x" + rest;
    assert slash[1] == '/' && hex[1] == 'x';
    assert CodeUnit(upper) == 0xE9 && CodeUnit(lower) == 0xE9 && CodeUnit(half) == 0xDE00 && CodeUnit(zero) == 0;
    assert pair[6..] == half && CodeUnit(pair) == 0xD83D;
  }

  lemma Hex4Value(n: int, rest: string)
    requires 0 <= n < 0x1_0000
    ensures CodeUnit("\\u" + Hex4(n) + rest) == n
  {
    var s := "\\u" + Hex4(n) + rest;
    HexDigitValue(n / 256 / 16);
    HexDigitValue(n / 256 % 16);
    HexDigitValue(n % 256 / 16);
    HexDigitValue(n % 256 % 16);
    assert s[2] == HexDigit(n / 256 / 16) && s[3] == HexDigit(n / 256 % 16);
    assert s[4] == HexDigit(n % 256 / 16) && s[5] == HexDigit(n % 256 % 16);
  }

  lemma NextEscaped(c: char, rest: string, strict: bool)
    requires strict ==> c as int != 0
    ensures NextChar(EscapeChar(c) + rest, strict) == Some((c, |EscapeChar(c)|))
  {
    var e := EscapeChar(c);
    var s := e + rest;
    assert s[0] == e[0];
    if |e| == 2 {
      assert s[1] == e[1];
    } else if |e| == 6 {
      assert s == "\\u" + Hex4(c as int) + rest;
      Hex4Value(c as int, rest);
    }
  }

  /** Decoding Go's literal gives back the text, for every text. */
  lemma {:induction false} DecodeEscaped(s: string, rest: string, strict: bool)
    requires strict ==> forall i | 0 <= i < |s| :: s[i] as int != 0
    ensures DecodeBody(EscapeAll(s) + "\"" + rest, strict) == Some((s, rest))
  {
    var t := EscapeAll(s) + "\"" + rest;
    if s == "" {
      assert t[1..] == rest;
    } else {
      var tail := EscapeAll(s[1..]) + "\"" + rest;
      assert t == EscapeChar(s[0]) + tail;
      NextEscaped(s[0], tail, strict);
      assert t[|EscapeChar(s[0])|..] == tail;
      DecodeEscaped(s[1..], rest, strict);
      assert s == [s[0]] + s[1..];
    }
  }
}
