/** JSON values (RFC 8259): the compact and the indented form of Go's encoding/json, and a decoder that reads
    both back. A number is its literal. */
module Json {
  import opened Text
  import opened JsonText
  import opened JsonNumber

  datatype Json =
    | Null
    | Bool(b: bool)
    | Num(text: NumText)
    | Str(s: string)
    | Arr(items: seq<Json>)
    | Obj(fields: seq<Field>)

  datatype Field = Field(key: string, val: Json)

  // ----- printing

  /** json.Marshal, or json.MarshalIndent with two blanks at some depth. */
  datatype Layout = Compact | Indented(depth: nat)

  function Deeper(l: Layout): Layout {
    if l.Compact? then Compact else Indented(l.depth + 1)
  }

  function Blanks(n: nat): (s: string) {
    if n == 0 then "" else "  " + Blanks(n - 1)
  }

  /** What precedes an item and a closing bracket. */
  function Break(l: Layout): (s: string) {
    if l.Compact? then "" else "\n" + Blanks(l.depth)
  }

  function Colon(l: Layout): (s: string) {
    if l.Compact? then ":" else ": "
  }

  function Print(v: Json, l: Layout): (s: string)
    decreases v, 0
  {
    match v
    case Null => "null"
    case Bool(b) => if b then "true" else "false"
    case Num(text) => text
    case Str(t) => Quoted(t)
    case Arr(items) => if items == [] then "[]" else "[" + (PrintItems(items, Deeper(l)) + (Break(l) + "]"))
    case Obj(fields) => if fields == [] then "{}" else "{" + (PrintFields(fields, Deeper(l)) + (Break(l) + "}"))
  }

  function PrintItems(items: seq<Json>, l: Layout): (s: string)
    requires items != []
    decreases items, 1
  {
    Break(l) + Print(items[0], l) + if |items| == 1 then "" else "," + PrintItems(items[1..], l)
  }

  function PrintField(f: Field, l: Layout): (s: string)
    decreases f, 1
  {
    Break(l) + Quoted(f.key) + Colon(l) + Print(f.val, l)
  }

  function PrintFields(fields: seq<Field>, l: Layout): (s: string)
    requires fields != []
    decreases fields, 2
  {
    PrintField(fields[0], l) + if |fields| == 1 then "" else "," + PrintFields(fields[1..], l)
  }

  /** The words and the empty brackets, which look the same in both layouts. */
  lemma PrintedWords(l: Layout)
    ensures Print(Null, l) == "null" && Print(Bool(true), l) == "true" && Print(Bool(false), l) == "false"
    ensures Print(Arr([]), l) == "[]" && Print(Obj([]), l) == "{}"
  {
  }

  /** Each level of depth is two blanks. */
  lemma {:induction false} BlanksAre(n: nat)
    ensures |Blanks(n)| == 2 * n && forall i | 0 <= i < 2 * n :: Blanks(n)[i] == ' '
  {
    if n > 0 {
      BlanksAre(n - 1);
    }
  }

  /** The two layouts: of a value, of what it contains, what comes before an item and before a closing bracket,
      and after a key. */
  predicate Laid(l: Layout, inner: Layout, item: string, close: string, colon: string) {
    || (l == Compact && inner == Compact && item == "" && close == "" && colon == ":")
    || (l.Indented? && inner == Indented(l.depth + 1) && item == "\n  " + Blanks(l.depth)
        && close == "\n" + Blanks(l.depth) && colon == ": ")
  }

  lemma LaidBreaks(l: Layout, inner: Layout, item: string, close: string, colon: string)
    requires Laid(l, inner, item, close, colon)
    ensures Deeper(l) == inner && Break(inner) == item && Break(l) == close && Colon(inner) == colon
  {
    if l.Indented? {
      assert "\n  " + Blanks(l.depth) == "\n" + ("  " + Blanks(l.depth));
    }
  }

  /** A list, here of two items. */
  lemma PrintedList(x: Json, y: Json, l: Layout, inner: Layout, item: string, close: string, colon: string)
    requires Laid(l, inner, item, close, colon)
    ensures Print(Arr([x, y]), l)
            == "[" + ((item + Print(x, inner) + ("," + (item + Print(y, inner)))) + (close + "]"))
  {
    LaidBreaks(l, inner, item, close, colon);
    assert [x, y][1..] == [y];
    assert PrintItems([y], inner) == item + Print(y, inner);
    assert PrintItems([x, y], inner) == item + Print(x, inner) + ("," + PrintItems([y], inner));
  }

  /** An object, here of two members. */
  lemma PrintedObject(f: Field, g: Field, l: Layout, inner: Layout, item: string, close: string, colon: string)
    requires Laid(l, inner, item, close, colon)
    ensures Print(Obj([f, g]), l)
            == "{" + ((item + Quoted(f.key) + colon + Print(f.val, inner)
                       + ("," + (item + Quoted(g.key) + colon + Print(g.val, inner)))) + (close + "}"))
  {
    LaidBreaks(l, inner, item, close, colon);
    assert [f, g][1..] == [g];
    assert PrintFields([g], inner) == PrintField(g, inner);
    assert PrintFields([f, g], inner) == PrintField(f, inner) + ("," + PrintFields([g], inner));
  }

  /** A key that needs no escaping, and how it stands in front of a value in the compact layout. */
  predicate PlainName(key: string, name: string) {
    (forall i | 0 <= i < |key| :: key[i] >= ' ' && key[i] !in {'\"', '\\', '<', '>', '&', '\U{2028}', '\U{2029}'})
    && name == "\"" + key + "\":"
  }

  lemma CompactMember(key: string, name: string, x: Json)
    requires PlainName(key, name)
    ensures PrintField(Field(key, x), Compact) == name + Print(x, Compact)
  {
    CompactName(key, name);
  }

  lemma CompactName(key: string, name: string)
    requires PlainName(key, name)
    ensures Break(Compact) + Quoted(key) + Colon(Compact) == name
  {
    PlainText(key);
    assert "" + Quoted(key) == Quoted(key);
    Assoc("\"" + key, "\"", ":");
    assert "\"" + ":" == "\":";
  }

  /** Members are separated by commas and enclosed in braces. */
  lemma {:induction false} CompactFields(fields: seq<Field>, members: seq<string>)
    requires fields != [] && |members| == |fields|
    requires forall i | 0 <= i < |fields| :: members[i] == PrintField(fields[i], Compact)
    ensures PrintFields(fields, Compact) == Join(members, ',')
  {
    if |fields| == 1 {
      assert members[0] + "" == members[0];
    } else {
      CompactFields(fields[1..], members[1..]);
      CommaSeparates(members[0], Join(members[1..], ','));
    }
  }

  lemma CommaSeparates(a: string, b: string)
    ensures a + ("," + b) == a + [','] + b
  {
  }

  lemma CompactObject(fields: seq<Field>, names: seq<string>, members: seq<string>)
    requires fields != [] && |names| == |members| == |fields|
    requires forall i | 0 <= i < |fields| :: PlainName(fields[i].key, names[i])
    requires forall i | 0 <= i < |fields| :: members[i] == names[i] + Print(fields[i].val, Compact)
    ensures Print(Obj(fields), Compact) == "{" + (Join(members, ',') + "}")
  {
    forall i | 0 <= i < |fields| ensures members[i] == PrintField(fields[i], Compact) {
      CompactMember(fields[i].key, names[i], fields[i].val);
    }
    CompactFields(fields, members);
    assert "" + "}" == "}";
  }

  // ----- parsing

  predicate IsSpace(c: char) {
    c == ' ' || c == '\t' || c == '\n' || c == '\r'
  }

  function SkipSpace(s: string): (t: string)
    ensures |t| <= |s|
    ensures t != "" ==> !IsSpace(t[0])
    ensures s != "" && !IsSpace(s[0]) ==> t == s
  {
    if s != "" && IsSpace(s[0]) then SkipSpace(s[1..]) else s
  }

  function ParseNum(s: string): (r: Option<(Json, string)>)
    ensures r.Some? ==> |r.value.1| < |s|
  {
    var k := NumberRun(s);
    if ValidNumber(s[..k]) then Some((Num(s[..k]), s[k..])) else None
  }

  function ParseString(s: string, strict: bool): (r: Option<(string, string)>)
    ensures r.Some? ==> |r.value.1| < |s|
  {
    if s != "" && s[0] == '\"' then DecodeBody(s[1..], strict) else None
  }

  function ParseValue(s: string, strict: bool): (r: Option<(Json, string)>)
    ensures r.Some? ==> |r.value.1| < |s|
    decreases |s|, 0
  {
    var t := SkipSpace(s);
    if t == "" then None
    else if t[0] == '\"' then
      match ParseString(t, strict)
      case None => None
      case Some(p) => Some((Str(p.0), p.1))
    else if t[0] == '[' then ParseArray(t[1..], strict)
    else if t[0] == '{' then ParseObject(t[1..], strict)
    else if "null" <= t then Some((Null, t[4..]))
    else if "true" <= t then Some((Bool(true), t[4..]))
    else if "false" <= t then Some((Bool(false), t[5..]))
    else ParseNum(t)
  }

  /** The rest of an array after its opening bracket. */
  function ParseArray(s: string, strict: bool): (r: Option<(Json, string)>)
    ensures r.Some? ==> |r.value.1| < |s|
    decreases |s|, 3
  {
    var u := SkipSpace(s);
    if u != "" && u[0] == ']' then Some((Arr([]), u[1..]))
    else
      match ParseItems(s, strict)
      case None => None
      case Some(p) => Some((Arr(p.0), p.1))
  }

  function ParseObject(s: string, strict: bool): (r: Option<(Json, string)>)
    ensures r.Some? ==> |r.value.1| < |s|
    decreases |s|, 3
  {
    var u := SkipSpace(s);
    if u != "" && u[0] == '}' then Some((Obj([]), u[1..]))
    else
      match ParseFields(s, strict)
      case None => None
      case Some(p) => Some((Obj(p.0), p.1))
  }

  function ParseItems(s: string, strict: bool): (r: Option<(seq<Json>, string)>)
    ensures r.Some? ==> |r.value.1| < |s|
    decreases |s|, 1
  {
    match ParseValue(s, strict)
    case None => None
    case Some(p) =>
      var u := SkipSpace(p.1);
      if u == "" then None
      else if u[0] == ']' then Some(([p.0], u[1..]))
      else if u[0] != ',' then None
      else
        match ParseItems(u[1..], strict)
        case None => None
        case Some(q) => Some(([p.0] + q.0, q.1))
  }

  function ParseField(s: string, strict: bool): (r: Option<(Field, string)>)
    ensures r.Some? ==> |r.value.1| < |s|
    decreases |s|, 1
  {
    match ParseString(SkipSpace(s), strict)
    case None => None
    case Some(k) =>
      var u := SkipSpace(k.1);
      if u == "" || u[0] != ':' then None
      else
        match ParseValue(u[1..], strict)
        case None => None
        case Some(p) => Some((Field(k.0, p.0), p.1))
  }

  function ParseFields(s: string, strict: bool): (r: Option<(seq<Field>, string)>)
    ensures r.Some? ==> |r.value.1| < |s|
    decreases |s|, 2
  {
    match ParseField(s, strict)
    case None => None
    case Some(p) =>
      var u := SkipSpace(p.1);
      if u == "" then None
      else if u[0] == '}' then Some(([p.0], u[1..]))
      else if u[0] != ',' then None
      else
        match ParseFields(u[1..], strict)
        case None => None
        case Some(q) => Some(([p.0] + q.0, q.1))
  }

  /** Blanks, tabs and line ends in front of a value are skipped. */
  lemma LeadingSpace(c: char, s: string, strict: bool)
    requires c in {' ', '\t', '\n', '\r'}
    ensures ParseValue([c] + s, strict) == ParseValue(s, strict)
  {
    assert ([c] + s)[1..] == s;
  }

  /** A whole document: one value with nothing but white space after it. */
  function Parse(s: string, strict: bool): (r: Option<Json>) {
    match ParseValue(s, strict)
    case None => None
    case Some(p) => if SkipSpace(p.1) == "" then Some(p.0) else None
  }

  // ----- printing then parsing

  /** What may follow a value inside a printed document. */
  predicate Ends(rest: string) {
    rest == "" || rest[0] == ',' || rest[0] == ']' || rest[0] == '}' || rest[0] == '\n'
  }

  lemma {:induction false} SkipBlanks(n: nat, s: string)
    ensures SkipSpace(Blanks(n) + s) == SkipSpace(s)
  {
    if n == 0 {
      assert Blanks(n) + s == s;
    } else {
      var t := Blanks(n - 1) + s;
      assert Blanks(n) + s == "  " + t;
      assert ("  " + t)[1..] == " " + t && (" " + t)[1..] == t;
      SkipBlanks(n - 1, s);
    }
  }

  /** A break before a value, a key or a bracket is skipped. */
  lemma SkipBreak(l: Layout, s: string)
    ensures SkipSpace(Break(l) + s) == SkipSpace(s)
  {
    if l.Indented? {
      assert (Break(l) + s)[1..] == Blanks(l.depth) + s;
      SkipBlanks(l.depth, s);
    } else {
      assert Break(l) + s == s;
    }
  }

  lemma ParseSkips(l: Layout, s: string)
    ensures ParseValue(Break(l) + s, false) == ParseValue(s, false)
  {
    SkipBreak(l, s);
  }

  lemma BreakEnds(l: Layout, c: string, rest: string)
    requires c == "]" || c == "}"
    ensures Ends(Break(l) + c + rest) && Break(l) + c + rest != "" && SkipSpace(Break(l) + c + rest) == c + rest
  {
    Assoc(Break(l), c, rest);
    SkipBreak(l, c + rest);
    if l.Indented? {
      assert (Break(l) + (c + rest))[0] == Break(l)[0];
    }
  }

  /** Regrouping a concatenation around its first character. */
  lemma Shift(c: string, a: string, rest: string)
    requires |c| == 1
    ensures c + a + rest == c + (a + rest) && (c + a + rest)[0] == c[0] && (c + a + rest)[1..] == a + rest
  {
  }

  lemma ParseQuoted(t: string, rest: string)
    ensures ParseString(Quoted(t) + rest, false) == Some((t, rest))
  {
    assert (Quoted(t) + rest)[1..] == EscapeAll(t) + "\"" + rest;
    DecodeEscaped(t, rest, false);
  }

  lemma ParsePrintedNum(text: NumText, rest: string)
    requires Ends(rest)
    ensures ParseNum(text + rest) == Some((Num(text), rest))
  {
    NumberRunOf(text, rest);
    assert (text + rest)[..|text|] == text && (text + rest)[|text|..] == rest;
  }

  /** A printed value starts with a character that is neither white space nor a closing bracket. */
  lemma PrintStarts(v: Json, l: Layout)
    ensures Print(v, l) != "" && !IsSpace(Print(v, l)[0]) && Print(v, l)[0] !in ",:]}"
    ensures v.Num? ==> Print(v, l)[0] !in "\"[{ntf"
  {
    if v.Num? {
      ValidChars(v.text);
    }
  }

  /** The first character decides which parser reads the value. */
  lemma Dispatch(s: string)
    requires s != "" && !IsSpace(s[0])
    ensures s[0] == '[' ==> ParseValue(s, false) == ParseArray(s[1..], false)
    ensures s[0] == '{' ==> ParseValue(s, false) == ParseObject(s[1..], false)
    ensures s[0] !in "\"[{ntf" ==> ParseValue(s, false) == ParseNum(s)
  {
    if s[0] !in "\"[{ntf" {
      NotWord(s);
    }
  }

  lemma NotWord(s: string)
    requires s != "" && s[0] !in "ntf"
    ensures !("null" <= s) && !("true" <= s) && !("false" <= s)
  {
  }

  lemma ParseWord(v: Json, l: Layout, rest: string)
    requires v.Null? || v.Bool?
    ensures ParseValue(Print(v, l) + rest, false) == Some((v, rest))
  {
    var w := Print(v, l);
    var s := w + rest;
    assert w <= s && s[|w|..] == rest && s[0] == w[0];
    assert |s| >= 5 || v != Bool(false);
  }

  lemma {:induction false} ParsePrinted(v: Json, l: Layout, rest: string)
    requires Ends(rest)
    ensures ParseValue(Print(v, l) + rest, false) == Some((v, rest))
    decreases v, 0
  {
    PrintStarts(v, l);
    assert (Print(v, l) + rest)[0] == Print(v, l)[0];
    match v
    case Null => ParseWord(v, l, rest);
    case Bool(b) => ParseWord(v, l, rest);
    case Num(text) => Dispatch(Print(v, l) + rest); ParsePrintedNum(text, rest);
    case Str(t) => ParseQuoted(t, rest);
    case Arr(items) =>
      Dispatch(Print(v, l) + rest);
      if items == [] {
        Shift("[", "]", rest);
      } else {
        Shift("[", PrintItems(items, Deeper(l)) + (Break(l) + "]"), rest);
        ParsePrintedArray(items, l, rest);
      }
    case Obj(fields) =>
      Dispatch(Print(v, l) + rest);
      if fields == [] {
        Shift("{", "}", rest);
      } else {
        Shift("{", PrintFields(fields, Deeper(l)) + (Break(l) + "}"), rest);
        ParsePrintedObject(fields, l, rest);
      }
  }

  lemma {:induction false} ParsePrintedArray(items: seq<Json>, l: Layout, rest: string)
    requires items != []
    ensures ParseArray(PrintItems(items, Deeper(l)) + (Break(l) + "]") + rest, false) == Some((Arr(items), rest))
    decreases items, 2
  {
    var tail := Break(l) + "]" + rest;
    Assoc(PrintItems(items, Deeper(l)), Break(l) + "]", rest);
    BreakEnds(l, "]", rest);
    ItemsStart(items, Deeper(l), tail);
    ParsePrintedItems(items, Deeper(l), tail, rest);
  }

  lemma {:induction false} ParsePrintedObject(fields: seq<Field>, l: Layout, rest: string)
    requires fields != []
    ensures ParseObject(PrintFields(fields, Deeper(l)) + (Break(l) + "}") + rest, false) == Some((Obj(fields), rest))
    decreases fields, 3
  {
    var tail := Break(l) + "}" + rest;
    Assoc(PrintFields(fields, Deeper(l)), Break(l) + "}", rest);
    BreakEnds(l, "}", rest);
    FieldsStart(fields, Deeper(l), tail);
    ParsePrintedFields(fields, Deeper(l), tail, rest);
  }

  lemma Last(b: string, p: string, tail: string)
    ensures b + p + "" + tail == b + (p + tail)
  {
  }

  lemma More(b: string, p: string, q: string, tail: string)
    ensures b + p + ("," + q) + tail == b + (p + ("," + (q + tail)))
  {
    Assoc(b + p, "," + q, tail);
    Assoc(",", q, tail);
    Assoc(b, p, "," + (q + tail));
  }

  lemma PrintItemsTail(items: seq<Json>, l: Layout, tail: string)
    requires items != []
    ensures PrintItems(items, l) + tail
            == Break(l) + (Print(items[0], l) + if |items| == 1 then tail else "," + (PrintItems(items[1..], l) + tail))
  {
    if |items| == 1 {
      Last(Break(l), Print(items[0], l), tail);
    } else {
      More(Break(l), Print(items[0], l), PrintItems(items[1..], l), tail);
    }
  }

  lemma ItemsStart(items: seq<Json>, l: Layout, tail: string)
    requires items != []
    ensures var u := SkipSpace(PrintItems(items, l) + tail); u != "" && u[0] != ']'
  {
    var more := if |items| == 1 then tail else "," + (PrintItems(items[1..], l) + tail);
    PrintItemsTail(items, l, tail);
    PrintStarts(items[0], l);
    var s := Print(items[0], l) + more;
    assert s[0] == Print(items[0], l)[0];
    SkipBreak(l, s);
  }

  lemma {:induction false} ParsePrintedItems(items: seq<Json>, l: Layout, tail: string, rest: string)
    requires items != [] && Ends(tail) && tail != "" && SkipSpace(tail) == "]" + rest
    ensures ParseItems(PrintItems(items, l) + tail, false) == Some((items, rest))
    decreases items, 1
  {
    PrintItemsTail(items, l, tail);
    if |items| == 1 {
      ParseSkips(l, Print(items[0], l) + tail);
      ParsePrinted(items[0], l, tail);
      assert ("]" + rest)[1..] == rest && items == [items[0]];
    } else {
      var more := PrintItems(items[1..], l) + tail;
      ParseSkips(l, Print(items[0], l) + ("," + more));
      ParsePrinted(items[0], l, "," + more);
      ParsePrintedItems(items[1..], l, tail, rest);
      NextItem(PrintItems(items, l) + tail, items, more, rest);
    }
  }

  lemma NextItem(s: string, items: seq<Json>, more: string, rest: string)
    requires |items| > 1 && ParseValue(s, false) == Some((items[0], "," + more))
    requires ParseItems(more, false) == Some((items[1..], rest))
    ensures ParseItems(s, false) == Some((items, rest))
  {
    assert ("," + more)[1..] == more && items == [items[0]] + items[1..];
  }

  lemma PrintFieldTail(f: Field, l: Layout, tail: string)
    ensures PrintField(f, l) + tail == Break(l) + (Quoted(f.key) + (Colon(l) + (Print(f.val, l) + tail)))
  {
    Assoc(Break(l) + Quoted(f.key) + Colon(l), Print(f.val, l), tail);
    Assoc(Break(l) + Quoted(f.key), Colon(l), Print(f.val, l) + tail);
    Assoc(Break(l), Quoted(f.key), Colon(l) + (Print(f.val, l) + tail));
  }

  lemma {:induction false} ParsePrintedField(f: Field, l: Layout, rest: string)
    requires Ends(rest)
    ensures ParseField(PrintField(f, l) + rest, false) == Some((f, rest))
    decreases f, 1
  {
    var val := Print(f.val, l) + rest;
    var tail := Colon(l) + val;
    PrintFieldTail(f, l, rest);
    SkipBreak(l, Quoted(f.key) + tail);
    assert (Quoted(f.key) + tail)[0] == '\"';
    ParseQuoted(f.key, tail);
    ParsePrinted(f.val, l, rest);
    AfterColon(l, val);
  }

  lemma AfterColon(l: Layout, val: string)
    ensures var u := Colon(l) + val;
            u[0] == ':' && SkipSpace(u) == u && ParseValue(u[1..], false) == ParseValue(val, false)
  {
    var u := Colon(l) + val;
    if l.Indented? {
      assert u[1..] == " " + val && (" " + val)[1..] == val;
      assert SkipSpace(" " + val) == SkipSpace(val);
    } else {
      assert u[1..] == val;
    }
  }

  lemma PrintFieldsTail(fields: seq<Field>, l: Layout, tail: string)
    requires fields != []
    ensures PrintFields(fields, l) + tail
            == PrintField(fields[0], l) + if |fields| == 1 then tail else "," + (PrintFields(fields[1..], l) + tail)
  {
    var p := PrintField(fields[0], l);
    if |fields| == 1 {
      assert PrintFields(fields, l) == p + "";
      Assoc(p, "", tail);
      assert "" + tail == tail;
    } else {
      assert PrintFields(fields, l) == p + ("," + PrintFields(fields[1..], l));
      Assoc(p, "," + PrintFields(fields[1..], l), tail);
      Assoc(",", PrintFields(fields[1..], l), tail);
    }
  }

  lemma FieldsStart(fields: seq<Field>, l: Layout, tail: string)
    requires fields != []
    ensures var u := SkipSpace(PrintFields(fields, l) + tail); u != "" && u[0] != '}'
  {
    var more := if |fields| == 1 then tail else "," + (PrintFields(fields[1..], l) + tail);
    PrintFieldsTail(fields, l, tail);
    PrintFieldTail(fields[0], l, more);
    var s := Quoted(fields[0].key) + (Colon(l) + (Print(fields[0].val, l) + more));
    assert s[0] == '\"';
    SkipBreak(l, s);
  }

  lemma {:induction false} ParsePrintedFields(fields: seq<Field>, l: Layout, tail: string, rest: string)
    requires fields != [] && Ends(tail) && tail != "" && SkipSpace(tail) == "}" + rest
    ensures ParseFields(PrintFields(fields, l) + tail, false) == Some((fields, rest))
    decreases fields, 2
  {
    PrintFieldsTail(fields, l, tail);
    if |fields| == 1 {
      ParsePrintedField(fields[0], l, tail);
      assert ("}" + rest)[1..] == rest && fields == [fields[0]];
    } else {
      var more := PrintFields(fields[1..], l) + tail;
      ParsePrintedField(fields[0], l, "," + more);
      ParsePrintedFields(fields[1..], l, tail, rest);
      NextField(PrintFields(fields, l) + tail, fields, more, rest);
    }
  }

  lemma NextField(s: string, fields: seq<Field>, more: string, rest: string)
    requires |fields| > 1 && ParseField(s, false) == Some((fields[0], "," + more))
    requires ParseFields(more, false) == Some((fields[1..], rest))
    ensures ParseFields(s, false) == Some((fields, rest))
  {
    assert ("," + more)[1..] == more && fields == [fields[0]] + fields[1..];
  }

  /** Every value is recovered from its compact and from its indented text, whatever its strings hold and
      however it nests. */
  lemma RoundTrip(v: Json, l: Layout)
    ensures Parse(Print(v, l), false) == Some(v)
  {
    ParsePrinted(v, l, "");
    assert Print(v, l) + "" == Print(v, l);
  }

  /** So no two values share a text. */
  lemma PrintInjective(v: Json, w: Json, l: Layout)
    requires Print(v, l) == Print(w, l)
    ensures v == w
  {
    RoundTrip(v, l);
    RoundTrip(w, l);
  }

  // ----- objects as maps

  /** Decoding an object into a Go map: a repeated key keeps its last value. */
  function ToMap(fields: seq<Field>): (m: map<string, Json>) {
    if fields == [] then map[]
    else ToMap(fields[..|fields| - 1])[fields[|fields| - 1].key := fields[|fields| - 1].val]
  }
}
