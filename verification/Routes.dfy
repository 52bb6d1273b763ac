/** SDK request paths (client.go) against the server's route patterns (server/server.go). */
module Routes {
  import opened Text
  import Utf8

  // ----- client: url.PathEscape and the path builders

  /** The bytes url.PathEscape leaves alone: RFC 3986 unreserved characters and $ & + = : @. */
  predicate Kept(b: byte) {
    'a' as int <= b <= 'z' as int || 'A' as int <= b <= 'Z' as int || '0' as int <= b <= '9' as int
    || b == '-' as int || b == '_' as int || b == '.' as int || b == '~' as int
    || b == '$' as int || b == '&' as int || b == '+' as int || b == '=' as int
    || b == ':' as int || b == '@' as int
  }

  function EscapeByte(b: byte): (s: string)
    ensures s != "" && '/' !in s && '?' !in s
  {
    if Kept(b) then [b as char] else ['%', UpperHexDigit(b / 16), UpperHexDigit(b % 16)]
  }

  function EscapeBytes(b: seq<byte>): (s: string)
    ensures '/' !in s && '?' !in s
    ensures b != [] ==> s != ""
  {
    if b == [] then "" else EscapeByte(b[0]) + EscapeBytes(b[1..])
  }

  function PathEscape(s: string): string {
    EscapeBytes(Utf8.Encode(s))
  }

  datatype Call =
    | VerifyAgent(id: string)
    | CheckCapability(id: string, capability: string)
    | LogAgentAction(id: string)
    | ListAgentActions(id: string, limit: int)
    | RevokeAgent(id: string)

  datatype Method = Get | Post | Delete

  function MethodOf(c: Call): Method {
    match c
    case VerifyAgent(_) => Get
    case CheckCapability(_, _) => Get
    case LogAgentAction(_) => Post
    case ListAgentActions(_, _) => Get
    case RevokeAgent(_) => Delete
  }

  const AGENTS := "/v1/agents/"

  /** /v1/agents/{id}/{tail} */
  function AgentPath(id: string, tail: string): string {
    AGENTS + id + "/" + tail
  }

  /** /v1/agents/{id}/capabilities/{capability} */
  function CapabilityPath(id: string, capability: string): string {
    AGENTS + id + "/capabilities/" + capability
  }

  /** The request target each SDK method builds. */
  function Target(c: Call): string {
    match c
    case VerifyAgent(id) => AgentPath(PathEscape(id), "verify")
    case CheckCapability(id, cap) => CapabilityPath(PathEscape(id), PathEscape(cap))
    case LogAgentAction(id) => AgentPath(PathEscape(id), "actions")
    case ListAgentActions(id, limit) =>
      var path := AgentPath(PathEscape(id), "actions");
      if limit > 0 then path + "?" + ("limit=" + Decimal(limit)) else path
    case RevokeAgent(id) => AgentPath(PathEscape(id), "revoke")
  }

  /** ListAgentActions builds its path in two steps. */
  method ListPath(id: string, limit: int) returns (path: string)
    ensures path == Target(ListAgentActions(id, limit))
  {
    path := AGENTS + PathEscape(id) + "/actions";
    assert "/actions" == "/" + "actions";
    assert path == AgentPath(PathEscape(id), "actions");
    if limit > 0 {
      path := path + "?" + ("limit=" + Decimal(limit));
    }
  }

  /** The bytes that url.PathEscape leaves alone, and how it writes the others. */
  lemma EscapedForm(b: byte)
    ensures EscapeByte(b) == [b as char] <==>
            b < 128 && b as char in "abcdefghijklmnopqrstuvwxyz" + "ABCDEFGHIJKLMNOPQRSTUVWXYZ" + "0123456789-_.~$&+=:@"
    ensures EscapeByte(b) != [b as char] ==>
              EscapeByte(b) == ['%', "0123456789ABCDEF"[b / 16], "0123456789ABCDEF"[b % 16]]
  {
    HexDigits(b / 16);
    HexDigits(b % 16);
    if Kept(b) {
      KeptIsListed(b);
    } else if b < 128 {
      ListedIsKept(b);
    }
  }

  lemma KeptIsListed(b: byte)
    requires Kept(b)
    ensures b < 128
    ensures b as char in "abcdefghijklmnopqrstuvwxyz" + "ABCDEFGHIJKLMNOPQRSTUVWXYZ" + "0123456789-_.~$&+=:@"
  {
    var c := b as char;
    if 'a' <= c <= 'z' {
      assert "abcdefghijklmnopqrstuvwxyz"[b as int - 97] == c;
    } else if 'A' <= c <= 'Z' {
      assert "ABCDEFGHIJKLMNOPQRSTUVWXYZ"[b as int - 65] == c;
    } else if '0' <= c <= '9' {
      assert "0123456789-_.~$&+=:@"[b as int - 48] == c;
    } else {
      var t := "0123456789-_.~$&+=:@";
      assert t[10] == '-' && t[11] == '_' && t[12] == '.' && t[13] == '~' && t[14] == '$';
      assert t[15] == '&' && t[16] == '+' && t[17] == '=' && t[18] == ':' && t[19] == '@';
    }
  }

  lemma ListedIsKept(b: byte)
    requires !Kept(b) && b < 128
    ensures b as char !in "abcdefghijklmnopqrstuvwxyz" + "ABCDEFGHIJKLMNOPQRSTUVWXYZ" + "0123456789-_.~$&+=:@"
  {
    LettersAreKept(b);
    OthersAreKept(b);
  }

  lemma LettersAreKept(b: byte)
    requires !Kept(b) && b < 128
    ensures b as char !in "abcdefghijklmnopqrstuvwxyz" && b as char !in "ABCDEFGHIJKLMNOPQRSTUVWXYZ"
  {
  }

  lemma OthersAreKept(b: byte)
    requires !Kept(b) && b < 128
    ensures b as char !in "0123456789-_.~$&+=:@"
  {
  }

  /** The five requests of the SDK, method and target. */
  lemma Requests(id: string, name: string)
    ensures MethodOf(VerifyAgent(id)) == Get && Target(VerifyAgent(id)) == "/v1/agents/" + PathEscape(id) + "/verify"
    ensures MethodOf(CheckCapability(id, name)) == Get
    ensures Target(CheckCapability(id, name)) == "/v1/agents/" + PathEscape(id) + "/capabilities/" + PathEscape(name)
    ensures MethodOf(LogAgentAction(id)) == Post
    ensures Target(LogAgentAction(id)) == "/v1/agents/" + PathEscape(id) + "/actions"
    ensures MethodOf(RevokeAgent(id)) == Delete
    ensures Target(RevokeAgent(id)) == "/v1/agents/" + PathEscape(id) + "/revoke"
  {
    var start := "/v1/agents/" + PathEscape(id);
    assert "/verify" == "/" + "verify" && "/actions" == "/" + "actions" && "/revoke" == "/" + "revoke";
    Assoc(start, "/", "verify");
    Assoc(start, "/", "actions");
    Assoc(start, "/", "revoke");
  }

  lemma ListRequest(id: string, limit: int)
    ensures MethodOf(ListAgentActions(id, limit)) == Get
    ensures Target(ListAgentActions(id, limit))
            == "/v1/agents/" + PathEscape(id) + "/actions" + if limit > 0 then "?limit=" + Decimal(limit) else ""
  {
    var start := "/v1/agents/" + PathEscape(id);
    assert "/actions" == "/" + "actions";
    Assoc(start, "/", "actions");
    if limit > 0 {
      assert "?limit=" == "?" + "limit=";
      Assoc("?", "limit=", Decimal(limit));
      Assoc(start + "/actions", "?", "limit=" + Decimal(limit));
    } else {
      assert start + "/actions" + "" == start + "/actions";
    }
  }

  // ----- server: request target, mux, patterns

  datatype Served =
    | Redirected
    | BadRequest
    | NoRoute
    | Verify(id: string)
    | Capability(id: string, capability: string)
    | LogAction(id: string)
    | ListActions(id: string, query: string)
    | Revoke(id: string)

  /** Percent-decoding of a path to bytes. */
  function Unescape(s: string): (r: Option<seq<byte>>) {
    if s == "" then Some([])
    else if s[0] == '%' then
      if |s| < 3 || HexValue(s[1]) < 0 || HexValue(s[2]) < 0 then None
      else
        match Unescape(s[3..])
        case None => None
        case Some(rest) => Some([HexValue(s[1]) * 16 + HexValue(s[2])] + rest)
    else
      match Unescape(s[1..])
      case None => None
      case Some(rest) => Some(Utf8.EncodeChar(s[0]) + rest)
  }

  /** http.ServeMux answers with a redirect unless the escaped path is already clean: no empty segment but
      a last one, and no dot segments. */
  predicate IsClean(path: string) {
    var segs := Split(path, '/');
    |segs| >= 2 && segs[0] == ""
    && forall i | 1 <= i < |segs| :: segs[i] != "." && segs[i] != ".." && (segs[i] == "" ==> i == |segs| - 1)
  }

  /** The pattern ^/v1/agents/([^/]+)/tail$ and its submatch. */
  function MatchTail(path: string, tail: string): Option<string> {
    var segs := Split(path, '/');
    if |segs| == 5 && segs[0] == "" && segs[1] == "v1" && segs[2] == "agents" && segs[3] != "" && segs[4] == tail
    then Some(segs[3]) else None
  }

  /** The pattern ^/v1/agents/([^/]+)/capabilities/([^/]+)$ and its submatches. */
  function MatchCapability(path: string): Option<(string, string)> {
    var segs := Split(path, '/');
    if |segs| == 6 && segs[0] == "" && segs[1] == "v1" && segs[2] == "agents" && segs[3] != ""
       && segs[4] == "capabilities" && segs[5] != ""
    then Some((segs[3], segs[5])) else None
  }

  /** routeAgentSub: the cases in source order. */
  function RouteAgentSub(m: Method, path: string, query: string): Served {
    if m.Get? && MatchTail(path, "verify").Some? then Verify(MatchTail(path, "verify").value)
    else if m.Get? && MatchCapability(path).Some? then
      Capability(MatchCapability(path).value.0, MatchCapability(path).value.1)
    else if m.Post? && MatchTail(path, "actions").Some? then LogAction(MatchTail(path, "actions").value)
    else if m.Get? && MatchTail(path, "actions").Some? then ListActions(MatchTail(path, "actions").value, query)
    else if m.Delete? && MatchTail(path, "revoke").Some? then Revoke(MatchTail(path, "revoke").value)
    else NoRoute
  }

  /** A request under the mux pattern /v1/agents/. The path is cut at the question mark, checked by the mux
      in its escaped form, decoded, and matched. */
  function Serve(m: Method, target: string): Served {
    var k := IndexOf(target, '?');
    var escaped, query := target[..k], if k < |target| then target[k + 1..] else "";
    if !IsClean(escaped) then Redirected
    else
      match Unescape(escaped)
      case None => BadRequest
      case Some(bytes) =>
        match Utf8.Decode(bytes)
        case None => BadRequest
        case Some(path) => if AGENTS <= path then RouteAgentSub(m, path, query) else NoRoute
  }

  /** The limit clause of the audit query: strconv.Atoi, kept only between 1 and 500. */
  function EffectiveLimit(query: string): nat {
    if "limit=" <= query && |query| > 6 && forall i | 6 <= i < |query| :: IsDigit(query[i]) then
      var n := DecimalValue(query[6..]);
      if 0 < n <= 500 then n else 50
    else 50
  }

  // ----- patterns as relations

  lemma SplitParts(parts: seq<string>, s: string)
    requires |parts| >= 1 && s == Join(parts, '/')
    requires forall i | 0 <= i < |parts| :: '/' !in parts[i]
    ensures Split(s, '/') == parts
  {
    SplitJoin(parts, '/');
  }

  lemma JoinFive(id: string, tail: string)
    ensures Join(["", "v1", "agents", id, tail], '/') == AgentPath(id, tail)
  {
    var p := ["", "v1", "agents", id, tail];
    assert p[1..] == ["v1", "agents", id, tail] && p[1..][1..] == ["agents", id, tail];
    assert p[1..][1..][1..] == [id, tail] && [id, tail][1..] == [tail];
    assert Join([tail], '/') == tail;
    assert Join([id, tail], '/') == id + "/" + tail;
    assert Join(["agents", id, tail], '/') == "agents/" + (id + "/" + tail);
    assert Join(["v1", "agents", id, tail], '/') == "v1/" + ("agents/" + (id + "/" + tail));
    assert "/" + ("v1/" + ("agents/" + (id + "/" + tail))) == AGENTS + id + "/" + tail;
  }

  lemma JoinThree(a: string, b: string, c: string)
    ensures Join([a, b, c], '/') == a + "/" + (b + "/" + c)
  {
    assert [a, b, c][1..] == [b, c] && [b, c][1..] == [c];
    assert Join([c], '/') == c && Join([b, c], '/') == b + "/" + c;
    assert a + "/" + (b + "/" + c) == a + ['/'] + Join([b, c], '/');
  }

  lemma JoinOneMore(a: string, rest: seq<string>)
    requires |rest| >= 1
    ensures Join([a] + rest, '/') == a + "/" + Join(rest, '/')
  {
    assert ([a] + rest)[1..] == rest;
  }

  lemma JoinSixParts(a: string, b: string, c: string, d: string, e: string, f: string)
    ensures Join([a, b, c, d, e, f], '/') == a + "/" + (b + "/" + (c + "/" + (d + "/" + (e + "/" + f))))
  {
    JoinThree(d, e, f);
    JoinOneMore(c, [d, e, f]);
    JoinOneMore(b, [c, d, e, f]);
    JoinOneMore(a, [b, c, d, e, f]);
    assert [c] + [d, e, f] == [c, d, e, f] && [b] + [c, d, e, f] == [b, c, d, e, f];
    assert [a] + [b, c, d, e, f] == [a, b, c, d, e, f];
  }

  lemma AgentsPrefix(x: string)
    ensures "" + "/" + ("v1" + "/" + ("agents" + "/" + x)) == AGENTS + x
  {
    assert AGENTS == "/" + ("v1" + "/" + ("agents" + "/"));
  }

  lemma CapabilitySuffix(id: string, cap: string)
    ensures AGENTS + (id + "/" + ("capabilities" + "/" + cap)) == CapabilityPath(id, cap)
  {
    assert "/capabilities/" == "/" + ("capabilities" + "/");
    assert id + "/" + ("capabilities" + "/" + cap) == id + "/capabilities/" + cap;
  }

  lemma JoinSix(id: string, cap: string)
    ensures Join(["", "v1", "agents", id, "capabilities", cap], '/') == CapabilityPath(id, cap)
  {
    JoinSixParts("", "v1", "agents", id, "capabilities", cap);
    AgentsPrefix(id + "/" + ("capabilities" + "/" + cap));
    CapabilitySuffix(id, cap);
  }

  /** MatchTail is the regular expression: it matches exactly the strings of that shape. */
  lemma MatchTailIff(path: string, tail: string, id: string)
    requires '/' !in tail
    ensures MatchTail(path, tail) == Some(id) <==> path == AgentPath(id, tail) && id != "" && '/' !in id
  {
    JoinFive(id, tail);
    var segs := Split(path, '/');
    if MatchTail(path, tail) == Some(id) {
      JoinSplit(path, '/');
      assert segs == ["", "v1", "agents", id, tail];
    }
    if path == AgentPath(id, tail) && id != "" && '/' !in id {
      SplitParts(["", "v1", "agents", id, tail], path);
    }
  }

  lemma MatchCapabilityIff(path: string, id: string, cap: string)
    ensures MatchCapability(path) == Some((id, cap)) <==>
            path == CapabilityPath(id, cap) && id != "" && '/' !in id && cap != "" && '/' !in cap
  {
    JoinSix(id, cap);
    var segs := Split(path, '/');
    if MatchCapability(path) == Some((id, cap)) {
      JoinSplit(path, '/');
      assert segs == ["", "v1", "agents", id, "capabilities", cap];
    }
    if path == CapabilityPath(id, cap) && id != "" && '/' !in id && cap != "" && '/' !in cap {
      SplitParts(["", "v1", "agents", id, "capabilities", cap], path);
    }
  }

  /** No path matches two patterns, so the order of the cases in the switch cannot matter. */
  lemma PatternsDisjoint(path: string)
    ensures MatchCapability(path).Some? ==>
            MatchTail(path, "verify").None? && MatchTail(path, "actions").None? && MatchTail(path, "revoke").None?
    ensures MatchTail(path, "verify").Some? ==>
            MatchTail(path, "actions").None? && MatchTail(path, "revoke").None?
    ensures MatchTail(path, "actions").Some? ==> MatchTail(path, "revoke").None?
  {
    assert "verify"[0] != "actions"[0] && "verify"[0] != "revoke"[0] && "actions"[0] != "revoke"[0];
  }

  /** The routes of the server, each with the method and the shape of the paths it takes. */
  lemma Routed(m: Method, path: string, query: string, id: string, name: string)
    ensures RouteAgentSub(m, path, query) == Verify(id) <==>
            m == Get && path == "/v1/agents/" + id + "/verify" && id != "" && '/' !in id
    ensures RouteAgentSub(m, path, query) == Capability(id, name) <==>
            m == Get && path == "/v1/agents/" + id + "/capabilities/" + name
            && id != "" && '/' !in id && name != "" && '/' !in name
    ensures RouteAgentSub(m, path, query) == LogAction(id) <==>
            m == Post && path == "/v1/agents/" + id + "/actions" && id != "" && '/' !in id
    ensures RouteAgentSub(m, path, query) == ListActions(id, query) <==>
            m == Get && path == "/v1/agents/" + id + "/actions" && id != "" && '/' !in id
    ensures RouteAgentSub(m, path, query) == Revoke(id) <==>
            m == Delete && path == "/v1/agents/" + id + "/revoke" && id != "" && '/' !in id
  {
    PatternsDisjoint(path);
    MatchCapabilityIff(path, id, name);
    TailRoute(path, "verify", "/verify", id);
    TailRoute(path, "actions", "/actions", id);
    TailRoute(path, "revoke", "/revoke", id);
  }

  lemma TailRoute(path: string, tail: string, suffix: string, id: string)
    requires '/' !in tail && suffix == "/" + tail
    ensures MatchTail(path, tail) == Some(id) <==> path == "/v1/agents/" + id + suffix && id != "" && '/' !in id
  {
    MatchTailIff(path, tail, id);
    Assoc("/v1/agents/" + id, "/", tail);
  }

  // ----- decoding what was escaped

  lemma {:induction false} UnescapeEscaped(b: seq<byte>, rest: string, tail: seq<byte>)
    requires Unescape(rest) == Some(tail)
    ensures Unescape(EscapeBytes(b) + rest) == Some(b + tail)
  {
    if b == [] {
      assert EscapeBytes(b) + rest == rest && b + tail == tail;
    } else {
      var t := EscapeBytes(b[1..]) + rest;
      UnescapeEscaped(b[1..], rest, tail);
      Assoc(EscapeByte(b[0]), EscapeBytes(b[1..]), rest);
      UnescapeByte(b[0], t);
      Assoc([b[0]], b[1..], tail);
      assert b == [b[0]] + b[1..];
    }
  }

  lemma UnescapeByte(b: byte, t: string)
    requires Unescape(t).Some?
    ensures Unescape(EscapeByte(b) + t) == Some([b] + Unescape(t).value)
  {
    var s := EscapeByte(b) + t;
    if Kept(b) {
      assert s[0] == b as char && s[1..] == t;
    } else {
      HexDigitValue(b / 16);
      HexDigitValue(b % 16);
      assert s[0] == '%' && s[1] == UpperHexDigit(b / 16) && s[2] == UpperHexDigit(b % 16) && s[3..] == t;
    }
  }

  lemma UnescapeChar(c: char, t: string)
    requires c != '%' && Unescape(t).Some?
    ensures Unescape([c] + t) == Some(Utf8.EncodeChar(c) + Unescape(t).value)
  {
    assert ([c] + t)[1..] == t;
  }

  lemma {:induction false} UnescapePlain(p: string, rest: string, tail: seq<byte>)
    requires '%' !in p && Unescape(rest) == Some(tail)
    ensures Unescape(p + rest) == Some(Utf8.Encode(p) + tail)
  {
    if p == "" {
      assert p + rest == rest && Utf8.Encode(p) + tail == tail;
    } else {
      UnescapePlain(p[1..], rest, tail);
      UnescapeChar(p[0], p[1..] + rest);
      assert p + rest == [p[0]] + (p[1..] + rest);
      Assoc(Utf8.EncodeChar(p[0]), Utf8.Encode(p[1..]), tail);
    }
  }

  /** A path built from a plain prefix, an escaped name and a suffix decodes to the three joined. */
  lemma UnescapeName(prefix: string, name: string, suffix: string, text: string)
    requires '%' !in prefix && Unescape(suffix) == Some(Utf8.Encode(text))
    ensures Unescape(prefix + PathEscape(name) + suffix) == Some(Utf8.Encode(prefix + name + text))
  {
    var tail := Utf8.Encode(text);
    var rest := PathEscape(name) + suffix;
    UnescapeEscaped(Utf8.Encode(name), suffix, tail);
    UnescapePlain(prefix, rest, Utf8.Encode(name) + tail);
    Assoc(prefix, PathEscape(name), suffix);
    EncodeThree(prefix, name, text);
  }

  lemma EncodeThree(p: string, q: string, r: string)
    ensures Utf8.Encode(p + q + r) == Utf8.Encode(p) + (Utf8.Encode(q) + Utf8.Encode(r))
  {
    Utf8.EncodeAppend(p + q, r);
    Utf8.EncodeAppend(p, q);
    Assoc(Utf8.Encode(p), Utf8.Encode(q), Utf8.Encode(r));
  }

  lemma UnescapeLiteral(p: string)
    requires '%' !in p
    ensures Unescape(p) == Some(Utf8.Encode(p))
  {
    UnescapePlain(p, "", []);
    assert p + "" == p && Utf8.Encode(p) + [] == Utf8.Encode(p);
  }

  lemma UnescapePathEscape(s: string)
    ensures Unescape(PathEscape(s)) == Some(Utf8.Encode(s))
  {
    UnescapeEscaped(Utf8.Encode(s), "", []);
    assert PathEscape(s) + "" == PathEscape(s) && Utf8.Encode(s) + [] == Utf8.Encode(s);
  }

  /** Escaping is injective, so an escaped name is a dot segment only if the name is. */
  lemma EscapeInjective(s: string, t: string)
    ensures PathEscape(s) == PathEscape(t) <==> s == t
  {
    UnescapePathEscape(s);
    UnescapePathEscape(t);
    if PathEscape(s) == PathEscape(t) {
      Utf8.EncodeInjective(s, t);
    }
  }

  lemma DotsEscape(s: string)
    ensures PathEscape(s) == "" <==> s == ""
    ensures PathEscape(s) == "." <==> s == "."
    ensures PathEscape(s) == ".." <==> s == ".."
  {
    EscapeInjective(s, "");
    EscapeInjective(s, ".");
    EscapeInjective(s, "..");
    assert EscapeByte('.' as int) == ".";
    var dot: seq<byte>, dots: seq<byte> := [46], [46, 46];
    assert "."[1..] == "" && ".."[1..] == "." && dot[1..] == [] && dots[1..] == dot;
    assert Utf8.Encode(".") == dot;
    assert Utf8.Encode("..") == dots;
    assert EscapeBytes(dot) == ".";
    assert EscapeBytes(dots) == "..";
  }

  // ----- what the server makes of each call

  /** A name the server can hand back unchanged. */
  predicate Routable(name: string) {
    name != "" && '/' !in name && name != "." && name != ".."
  }

  function Intended(c: Call): Served {
    match c
    case VerifyAgent(id) => Verify(id)
    case CheckCapability(id, cap) => Capability(id, cap)
    case LogAgentAction(id) => LogAction(id)
    case ListAgentActions(id, limit) => ListActions(id, if limit > 0 then "limit=" + Decimal(limit) else "")
    case RevokeAgent(id) => Revoke(id)
  }

  predicate RoutableCall(c: Call) {
    Routable(c.id) && (c.CheckCapability? ==> Routable(c.capability))
  }

  lemma CleanWords()
    ensures "v1" !in {"", ".", ".."} && "agents" !in {"", ".", ".."} && "capabilities" !in {"", ".", ".."}
    ensures "verify" !in {"", ".", ".."} && "actions" !in {"", ".", ".."} && "revoke" !in {"", ".", ".."}
  {
    assert "v1"[0] != '.';
  }

  lemma CleanTail(id: string, tail: string)
    requires tail in {"verify", "actions", "revoke"}
    ensures IsClean(AgentPath(PathEscape(id), tail)) <==> id != "" && id != "." && id != ".."
  {
    JoinFive(PathEscape(id), tail);
    var segs := ["", "v1", "agents", PathEscape(id), tail];
    SplitParts(segs, AgentPath(PathEscape(id), tail));
    DotsEscape(id);
    CleanWords();
    assert segs[0] == "" && segs[1] == "v1" && segs[2] == "agents" && segs[3] == PathEscape(id) && segs[4] == tail;
  }

  lemma CleanCapability(id: string, cap: string)
    ensures IsClean(CapabilityPath(PathEscape(id), PathEscape(cap))) <==>
            id != "" && id != "." && id != ".." && cap != "." && cap != ".."
  {
    JoinSix(PathEscape(id), PathEscape(cap));
    var segs := ["", "v1", "agents", PathEscape(id), "capabilities", PathEscape(cap)];
    SplitParts(segs, CapabilityPath(PathEscape(id), PathEscape(cap)));
    DotsEscape(id);
    DotsEscape(cap);
    CleanWords();
    assert segs[0] == "" && segs[1] == "v1" && segs[2] == "agents" && segs[4] == "capabilities";
    assert segs[3] == PathEscape(id) && segs[5] == PathEscape(cap);
  }

  /** What the server sees of an escaped path without a query: clean or not, and the decoded text. */
  lemma ServeDecoded(m: Method, escaped: string, path: string, query: string, target: string)
    requires target == (if query == "" then escaped else escaped + "?" + query)
    requires '?' !in escaped && Unescape(escaped) == Some(Utf8.Encode(path)) && AGENTS <= path
    ensures Serve(m, target) == if IsClean(escaped) then RouteAgentSub(m, path, query) else Redirected
  {
    IndexOfFirst(escaped, '?', query);
    if query == "" {
      assert target[..|escaped|] == escaped;
    } else {
      assert target[..|escaped|] == escaped && target[|escaped| + 1..] == query;
    }
    Utf8.DecodeEncode(path);
  }

  lemma UnescapeTail(id: string, tail: string)
    requires '%' !in tail
    ensures Unescape(AgentPath(PathEscape(id), tail)) == Some(Utf8.Encode(AgentPath(id, tail)))
  {
    var suffix := "/" + tail;
    UnescapeLiteral(suffix);
    UnescapeName(AGENTS, id, suffix, suffix);
    Assoc(AGENTS + PathEscape(id), "/", tail);
    Assoc(AGENTS + id, "/", tail);
  }

  lemma UnescapeCapability(id: string, cap: string)
    ensures Unescape(CapabilityPath(PathEscape(id), PathEscape(cap))) == Some(Utf8.Encode(CapabilityPath(id, cap)))
  {
    var middle := "/capabilities/";
    UnescapeMiddle(middle, cap);
    UnescapeName(AGENTS, id, middle + PathEscape(cap), middle + cap);
    Assoc(AGENTS + PathEscape(id), middle, PathEscape(cap));
    Assoc(AGENTS + id, middle, cap);
  }

  lemma UnescapeMiddle(middle: string, cap: string)
    requires '%' !in middle
    ensures Unescape(middle + PathEscape(cap)) == Some(Utf8.Encode(middle + cap))
  {
    UnescapePathEscape(cap);
    UnescapePlain(middle, PathEscape(cap), Utf8.Encode(cap));
    Utf8.EncodeAppend(middle, cap);
  }

  /** Serving a call on a single name: a dot segment or an empty name is redirected, and otherwise the
      decoded path is routed. */
  lemma ServeTail(m: Method, id: string, tail: string, query: string, target: string)
    requires tail in {"verify", "actions", "revoke"} && '%' !in tail && '?' !in tail
    requires var escaped := AgentPath(PathEscape(id), tail);
             target == if query == "" then escaped else escaped + "?" + query
    ensures Serve(m, target) == if id == "" || id == "." || id == ".." then Redirected
                                else RouteAgentSub(m, AgentPath(id, tail), query)
  {
    UnescapeTail(id, tail);
    CleanTail(id, tail);
    ServeDecoded(m, AgentPath(PathEscape(id), tail), AgentPath(id, tail), query, target);
  }

  function Tail(c: Call): string
    requires !c.CheckCapability?
  {
    if c.VerifyAgent? then "verify" else if c.RevokeAgent? then "revoke" else "actions"
  }

  function Query(c: Call): string {
    if c.ListAgentActions? && c.limit > 0 then "limit=" + Decimal(c.limit) else ""
  }

  lemma ServedTailIff(c: Call)
    requires !c.CheckCapability?
    ensures Serve(MethodOf(c), Target(c)) == Intended(c) <==> RoutableCall(c)
  {
    ServeTail(MethodOf(c), c.id, Tail(c), Query(c), Target(c));
    RoutedTailIff(c);
  }

  lemma RoutedTailIff(c: Call)
    requires !c.CheckCapability?
    ensures RouteAgentSub(MethodOf(c), AgentPath(c.id, Tail(c)), Query(c)) == Intended(c) <==>
            c.id != "" && '/' !in c.id
  {
    MatchTailIff(AgentPath(c.id, Tail(c)), Tail(c), c.id);
    PatternsDisjoint(AgentPath(c.id, Tail(c)));
  }

  lemma RoutedCapabilityIff(id: string, cap: string)
    ensures RouteAgentSub(Get, CapabilityPath(id, cap), "") == Capability(id, cap) <==>
            id != "" && '/' !in id && cap != "" && '/' !in cap
  {
    MatchCapabilityIff(CapabilityPath(id, cap), id, cap);
    PatternsDisjoint(CapabilityPath(id, cap));
  }

  lemma ServeCapability(id: string, cap: string, target: string)
    requires target == CapabilityPath(PathEscape(id), PathEscape(cap))
    ensures Serve(Get, target) == if id == "" || id == "." || id == ".." || cap == "." || cap == ".." then Redirected
                                  else RouteAgentSub(Get, CapabilityPath(id, cap), "")
  {
    UnescapeCapability(id, cap);
    CleanCapability(id, cap);
    ServeDecoded(Get, target, CapabilityPath(id, cap), "", target);
  }

  lemma ServedCapabilityIff(id: string, cap: string)
    ensures Serve(Get, Target(CheckCapability(id, cap))) == Capability(id, cap) <==> Routable(id) && Routable(cap)
  {
    ServeCapability(id, cap, Target(CheckCapability(id, cap)));
    RoutedCapabilityIff(id, cap);
  }

  /** Paths and routes undo each other: the server gives every SDK call back its own operation, id,
      capability and query, exactly when its names are non-empty, slash-free and not dot segments. */
  lemma ServedIff(c: Call)
    ensures Serve(MethodOf(c), Target(c)) == Intended(c) <==> RoutableCall(c)
  {
    if c.CheckCapability? {
      ServedCapabilityIff(c.id, c.capability);
    } else {
      ServedTailIff(c);
    }
  }

  /** An escaped slash is decoded before matching, so an id with a slash can reach another operation: here
      verifying the agent "a/capabilities" is answered as a capability check on the agent "a". */
  lemma SlashReachesCapability()
    ensures Serve(Get, Target(VerifyAgent("a" + "/capabilities"))) == Capability("a", "verify")
  {
    var id := "a" + "/capabilities";
    assert id != "" && id != "." && id != "..";
    ServeTail(Get, id, "verify", "", Target(VerifyAgent(id)));
    RouteSlash("a", "verify");
  }

  lemma RouteSlash(id: string, cap: string)
    requires id != "" && '/' !in id && cap != "" && '/' !in cap
    ensures RouteAgentSub(Get, AgentPath(id + "/capabilities", cap), "") == Capability(id, cap)
  {
    var path := AgentPath(id + "/capabilities", cap);
    assert path == CapabilityPath(id, cap) by { SlashPath(id, cap); }
    MatchCapabilityIff(path, id, cap);
    PatternsDisjoint(path);
  }

  lemma SlashPath(id: string, cap: string)
    ensures AgentPath(id + "/capabilities", cap) == CapabilityPath(id, cap)
  {
    var word := "/capabilities";
    assert word + "/" == "/capabilities/";
    assert AGENTS + (id + word) + "/" + cap == AGENTS + id + (word + "/") + cap;
  }

  /** The limit the server applies is the caller's exactly from 1 to 500; every other limit means 50. */
  lemma LimitIff(id: string, limit: int)
    ensures var q := Intended(ListAgentActions(id, limit)).query;
            EffectiveLimit(q) == if 1 <= limit <= 500 then limit else 50
  {
    if limit > 0 {
      var q := "limit=" + Decimal(limit);
      assert "limit=" <= q && q[6..] == Decimal(limit);
      assert forall i | 6 <= i < |q| :: q[i] == Decimal(limit)[i - 6];
      DecimalRoundTrip(limit);
    }
  }
}
