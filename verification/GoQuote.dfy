/** Go's %q verb, which writes the details of lifecycle audit rows, read as a JSON string literal. */
module GoQuote {
  import opened Text
  import opened JsonText
  import opened Json

  /** strconv.Quote of one character; isPrint stands for unicode.IsPrint. */
  function QuoteChar(c: char, isPrint: char -> bool): (e: string) {
    var n := c as int;
    if c == '\"' || c == '\\' then ['\\', c]
    else if isPrint(c) then [c]
    else if n == 7 then "\\a"
    else if n == 8 then "\\b"
    else if n == 12 then "\\f"
    else if c == '\n' then "\\n"
    else if c == '\r' then "\\r"
    else if c == '\t' then "\\t"
    else if n == 11 then "\\v"
    else if n < 0x20 || n == 0x7F then "\\x" + Hex2(n)
    else if n < 0x1_0000 then "\\u" + Hex4(n)
    else "\\U" + Hex8(n)
  }

  function QuoteAll(s: string, isPrint: char -> bool): (e: string) {
    if s == "" then "" else QuoteChar(s[0], isPrint) + QuoteAll(s[1..], isPrint)
  }

  /** What unicode.IsPrint says of ASCII; nothing is assumed of other characters. */
  ghost predicate PrintsAscii(isPrint: char -> bool) {
    forall c: char | c as int < 0x80 :: isPrint(c) <==> 0x20 <= c as int < 0x7F
  }

  /** The spellings of strconv.Quote: a letter for the controls that have one, \x, \u and \U for the others that
      cannot be printed, and every other character but the quote and the backslash for itself. */
  lemma ControlSpellings(isPrint: char -> bool)
    requires PrintsAscii(isPrint)
    ensures QuoteChar(7 as char, isPrint) == "\\a" && QuoteChar(8 as char, isPrint) == "\\b"
    ensures QuoteChar('\t', isPrint) == "\\t" && QuoteChar('\n', isPrint) == "\\n"
    ensures QuoteChar(11 as char, isPrint) == "\\v" && QuoteChar(12 as char, isPrint) == "\\f"
    ensures QuoteChar('\r', isPrint) == "\\r"
  {
  }

  lemma CodeSpellings(isPrint: char -> bool)
    requires PrintsAscii(isPrint)
    ensures QuoteChar(0x1B as char, isPrint) == "\\x1b" && QuoteChar(0x7F as char, isPrint) == "\\x7f"
    ensures !isPrint('\U{A0}') ==> QuoteChar('\U{A0}', isPrint) == "\\u00a0"
  {
    assert Hex4(0xA0) == "00a0" && Hex2(0x1B) == "1b" && Hex2(0x7F) == "7f";
  }

  lemma LongSpelling(isPrint: char -> bool)
    requires !isPrint('\U{E0001}')
    ensures QuoteChar('\U{E0001}', isPrint) == "\\U000e0001"
  {
    LongHex();
  }

  lemma LongHex()
    ensures Hex8(0xE0001) == "000e0001"
  {
    assert Hex4(0xE) == "000e" && Hex4(1) == "0001";
  }

  lemma OwnSpelling(c: char, isPrint: char -> bool)
    requires isPrint(c) || c == '\"' || c == '\\'
    ensures QuoteChar(c, isPrint) == if c == '\"' || c == '\\' then ['\\', c] else [c]
  {
  }

  /** The characters whose %q spelling JSON shares. */
  predicate SharedSpelling(c: char, isPrint: char -> bool) {
    var n := c as int;
    if n < 0x20 then n == 8 || n == 9 || n == 10 || n == 12 || n == 13
    else n != 0x7F && (n < 0x1_0000 || isPrint(c))
  }

  predicate Shared(s: string, isPrint: char -> bool) {
    forall i | 0 <= i < |s| :: SharedSpelling(s[i], isPrint)
  }

  lemma NextQuoted(c: char, isPrint: char -> bool, rest: string)
    requires PrintsAscii(isPrint)
    ensures var e := QuoteChar(c, isPrint);
            e != "" && e[0] != '\"'
            && NextChar(e + rest, true) == (if SharedSpelling(c, isPrint) then Some((c, |e|)) else None)
  {
    var e := QuoteChar(c, isPrint);
    var s := e + rest;
    assert s[0] == e[0];
    if |e| > 1 {
      assert s[1] == e[1];
    }
    if |e| == 6 {
      assert s == "\\u" + Hex4(c as int) + rest;
      Hex4Value(c as int, rest);
    }
  }

  /** One character more in front of a body whose decoding is known. */
  lemma QuotedStep(c: char, isPrint: char -> bool, tail: string)
    requires PrintsAscii(isPrint)
    ensures DecodeBody(QuoteChar(c, isPrint) + tail, true)
            == if !SharedSpelling(c, isPrint) then None
               else match DecodeBody(tail, true) case None => None case Some(q) => Some(([c] + q.0, q.1))
  {
    var e := QuoteChar(c, isPrint);
    NextQuoted(c, isPrint, tail);
    assert (e + tail)[0] == e[0] && (e + tail)[|e|..] == tail;
  }

  lemma SharedStep(s: string, isPrint: char -> bool)
    requires s != ""
    ensures Shared(s, isPrint) <==> SharedSpelling(s[0], isPrint) && Shared(s[1..], isPrint)
  {
    if SharedSpelling(s[0], isPrint) && Shared(s[1..], isPrint) {
      forall i | 0 <= i < |s| ensures SharedSpelling(s[i], isPrint) {
        if i > 0 {
          assert s[i] == s[1..][i - 1];
        }
      }
    }
  }

  /** The %q literal decodes to its own text exactly when every character is spelled as JSON spells it;
      otherwise no JSON string starts there at all. */
  lemma {:induction false} QuotedDecodes(s: string, isPrint: char -> bool, rest: string)
    requires PrintsAscii(isPrint)
    ensures DecodeBody(QuoteAll(s, isPrint) + "\"" + rest, true)
            == if Shared(s, isPrint) then Some((s, rest)) else None
  {
    var t := QuoteAll(s, isPrint) + "\"" + rest;
    if s == "" {
      assert t[1..] == rest;
    } else {
      var tail := QuoteAll(s[1..], isPrint) + "\"" + rest;
      assert t == QuoteChar(s[0], isPrint) + tail;
      QuotedStep(s[0], isPrint, tail);
      SharedStep(s, isPrint);
      QuotedDecodes(s[1..], isPrint, rest);
      assert s == [s[0]] + s[1..];
    }
  }

  /** The details of a lifecycle row: {"key":%q}, for a key that needs no escaping. */
  function Details(key: string, text: string, isPrint: char -> bool): string {
    "{" + DetailsBody(key, text, isPrint)
  }

  function DetailsBody(key: string, text: string, isPrint: char -> bool): string {
    Quoted(key) + (":\"" + QuoteAll(text, isPrint) + "\"}")
  }

  lemma PlainKey(key: string, rest: string)
    requires forall i | 0 <= i < |key| :: key[i] as int != 0
    ensures ParseString(Quoted(key) + rest, true) == Some((key, rest))
  {
    assert (Quoted(key) + rest)[1..] == EscapeAll(key) + "\"" + rest;
    DecodeEscaped(key, rest, true);
  }

  lemma DetailsField(key: string, text: string, isPrint: char -> bool)
    requires PrintsAscii(isPrint) && forall i | 0 <= i < |key| :: key[i] as int != 0
    ensures ParseField(DetailsBody(key, text, isPrint), true)
            == if Shared(text, isPrint) then Some((Field(key, Str(text)), "}")) else None
  {
    var body := QuoteAll(text, isPrint);
    var tail := ":\"" + body + "\"}";
    PlainKey(key, tail);
    QuotedDecodes(text, isPrint, "}");
    DetailsTail(body);
    DetailsValue(key, text, tail, body, Shared(text, isPrint));
  }

  lemma DetailsTail(body: string)
    ensures var tail := ":\"" + body + "\"}";
            tail[0] == ':' && tail[1] == '\"' && tail[1..][1..] == body + "\"" + "}"
  {
  }

  lemma DetailsValue(key: string, text: string, tail: string, body: string, shared: bool)
    requires |tail| >= 2 && tail[0] == ':' && tail[1] == '\"'
    requires ParseString(Quoted(key) + tail, true) == Some((key, tail))
    requires DecodeBody(tail[1..][1..], true) == if shared then Some((text, "}")) else None
    ensures ParseField(Quoted(key) + tail, true) == if shared then Some((Field(key, Str(text)), "}")) else None
  {
    assert (Quoted(key) + tail)[0] == '\"';
  }

  /** PostgreSQL's ::jsonb cast accepts the details exactly when the text is shared, and then stores
      the text itself. */
  lemma DetailsAccepted(key: string, text: string, isPrint: char -> bool)
    requires PrintsAscii(isPrint) && forall i | 0 <= i < |key| :: key[i] as int != 0
    ensures Parse(Details(key, text, isPrint), true)
            == if Shared(text, isPrint) then Some(Obj([Field(key, Str(text))])) else None
  {
    DetailsField(key, text, isPrint);
    DetailsObject(DetailsBody(key, text, isPrint), key, text, Shared(text, isPrint));
  }

  lemma DetailsObject(t: string, key: string, text: string, shared: bool)
    requires t != "" && t[0] == '\"'
    requires ParseField(t, true) == if shared then Some((Field(key, Str(text)), "}")) else None
    ensures Parse("{" + t, true) == if shared then Some(Obj([Field(key, Str(text))])) else None
  {
    assert ("{" + t)[1..] == t && "}"[1..] == "";
    assert ParseFields(t, true) == if shared then Some(([Field(key, Str(text))], "")) else None;
    assert ParseObject(t, true) == if shared then Some((Obj([Field(key, Str(text))]), "")) else None;
    assert ParseValue("{" + t, true) == ParseObject(t, true);
  }
}
