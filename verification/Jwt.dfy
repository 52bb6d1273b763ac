/** The compact HS256 token of device authentication (server/handlers_devices.go; RFC 7515, section 7.1). */
module Jwt {
  import opened Text
  import opened Json
  import opened JsonNumber
  import opened JsonText
  import opened GoValues
  import Base64Url
  import Utf8

  /** HMAC-SHA256 is any function of the secret and the signing input. */
  type Mac = (string, string) -> seq<byte>

  /** A Go map[string]any of claims. */
  type Claims = map<string, Value>

  datatype Verdict = Accepted(claims: Claims) | Malformed | BadSignature | BadEncoding | BadClaims

  function ClaimsText(f: Floats, m: Claims): string {
    Print(ToJson(f, Dict(m)), Compact)
  }

  function HeaderText(): string {
    Print(Obj([Field("alg", Str("HS256")), Field("typ", Str("JWT"))]), Compact)
  }

  function Part(text: string): string {
    Base64Url.Encode(Utf8.Encode(text))
  }

  function Signature(mac: Mac, secret: string, input: string): string {
    Base64Url.Encode(mac(secret, input))
  }

  function SignJwt(f: Floats, mac: Mac, secret: string, m: Claims): string {
    var input := Part(HeaderText()) + "." + Part(ClaimsText(f, m));
    input + "." + Signature(mac, secret, input)
  }

  /** json.Unmarshal into a map: null gives an empty map, anything but an object is an error. */
  function DecodeClaims(f: Floats, raw: seq<byte>): Option<Claims> {
    match Utf8.Decode(raw)
    case None => None
    case Some(text) =>
      match Parse(text, false)
      case None => None
      case Some(j) =>
        match FromJson(f, j)
        case None => None
        case Some(v) => if v.Dict? then Some(v.entries) else if v.Nil? then Some(map[]) else None
  }

  function VerifyJwt(f: Floats, mac: Mac, secret: string, token: string): Verdict {
    var parts := Split(token, '.');
    if |parts| != 3 then Malformed
    else if Signature(mac, secret, parts[0] + "." + parts[1]) != parts[2] then BadSignature
    else
      match Base64Url.Decode(parts[1])
      case None => BadEncoding
      case Some(raw) =>
        match DecodeClaims(f, raw)
        case None => BadClaims
        case Some(m) => Accepted(m)
  }

  // ----- the token itself

  lemma HeaderNames()
    ensures PlainName("alg", "\"alg\":") && PlainName("typ", "\"typ\":")
  {
  }

  lemma HeaderValues()
    ensures Quoted("HS256") == "\"HS256\"" && Quoted("JWT") == "\"JWT\""
  {
    PlainText("HS256");
    PlainText("JWT");
  }

  lemma TwoMembers(a: Field, b: Field, first: string, second: string)
    requires PlainName(a.key, first) && PlainName(b.key, second)
    ensures Print(Obj([a, b]), Compact)
            == "{" + (Join([first + Print(a.val, Compact), second + Print(b.val, Compact)], ',') + "}")
  {
    CompactObject([a, b], [first, second], [first + Print(a.val, Compact), second + Print(b.val, Compact)]);
  }

  lemma Header()
    ensures HeaderText() == "{" + (Join(["\"alg\":" + "\"HS256\"", "\"typ\":" + "\"JWT\""], ',') + "}")
  {
    HeaderNames();
    HeaderValues();
    TwoMembers(Field("alg", Str("HS256")), Field("typ", Str("JWT")), "\"alg\":", "\"typ\":");
  }

  /** A token is its header, its claims and the MAC of the two under the secret, each in base64url. */
  lemma TokenText(f: Floats, mac: Mac, secret: string, m: Claims)
    ensures var header := "{" + (Join(["\"alg\":" + "\"HS256\"", "\"typ\":" + "\"JWT\""], ',') + "}");
            var h := Base64Url.Encode(Utf8.Encode(header));
            var c := Base64Url.Encode(Utf8.Encode(Print(ToJson(f, Dict(m)), Compact)));
            SignJwt(f, mac, secret, m) == h + "." + c + "." + Base64Url.Encode(mac(secret, h + "." + c))
  {
    Header();
  }

  /** A token signed under one secret is accepted under another exactly when the MACs agree on its first two
      parts; if they do not, the signature is bad. */
  lemma VerifyUnder(f: Floats, mac: Mac, signer: string, verifier: string, m: Claims)
    requires Sound(f) && Float64s(f, Dict(m)) && Returned(f, m).Some?
    ensures var input := Part(HeaderText()) + "." + Part(ClaimsText(f, m));
            VerifyJwt(f, mac, verifier, SignJwt(f, mac, signer, m))
            == if mac(verifier, input) == mac(signer, input) then Accepted(Returned(f, m).value) else BadSignature
  {
    var h, c := Part(HeaderText()), Part(ClaimsText(f, m));
    var theirs, ours := mac(signer, h + "." + c), mac(verifier, h + "." + c);
    SplitToken(f, m, theirs);
    Base64Url.DecodeEncode(theirs);
    Base64Url.DecodeEncode(ours);
    Base64Url.DecodeEncode(Utf8.Encode(ClaimsText(f, m)));
    DecodeClaimsText(f, m);
  }

  lemma SplitToken(f: Floats, m: Claims, sig: seq<byte>)
    ensures var h, c := Part(HeaderText()), Part(ClaimsText(f, m));
            Split(h + "." + c + "." + Base64Url.Encode(sig), '.') == [h, c, Base64Url.Encode(sig)]
  {
    Base64Url.EncodeAlphabet(Utf8.Encode(HeaderText()));
    Base64Url.EncodeAlphabet(Utf8.Encode(ClaimsText(f, m)));
    Base64Url.EncodeAlphabet(sig);
    SplitCompact(Part(HeaderText()), Part(ClaimsText(f, m)), Base64Url.Encode(sig));
  }

  // ----- round trip

  /** The claims with their integers rounded to float64s, if all are in range. */
  function Returned(f: Floats, m: Claims): Option<Claims> {
    var v := Rounded(f, Dict(m));
    if v.Some? && v.value.Dict? then Some(v.value.entries) else None
  }

  /** The claims with their integers as the numbers they are. */
  function Exactly(m: Claims): Claims {
    Amounts(Dict(m)).entries
  }

  lemma DecodeClaimsText(f: Floats, m: Claims)
    requires Sound(f) && Float64s(f, Dict(m))
    ensures DecodeClaims(f, Utf8.Encode(ClaimsText(f, m))) == Returned(f, m)
  {
    Utf8.DecodeEncode(ClaimsText(f, m));
    RoundTrip(ToJson(f, Dict(m)), Compact);
    FromToJson(f, Dict(m));
  }

  /** A compact token splits into the three parts it was joined from. */
  lemma SplitCompact(a: string, b: string, c: string)
    requires '.' !in a && '.' !in b && '.' !in c
    ensures Split(a + "." + b + "." + c, '.') == [a, b, c]
  {
    var parts := [a, b, c];
    assert parts[1..] == [b, c] && parts[1..][1..] == [c];
    assert Join(parts, '.') == a + "." + b + "." + c by {
      assert Join([c], '.') == c;
      assert Join([b, c], '.') == b + "." + c;
      assert a + "." + (b + "." + c) == a + "." + b + "." + c;
    }
    SplitJoin(parts, '.');
  }

  /** A token verifies under the secret that signed it, for every MAC function and every claims map, and
      yields the claims it was made from with their integers as float64s. */
  lemma VerifySigned(f: Floats, mac: Mac, secret: string, m: Claims)
    requires Sound(f) && Float64s(f, Dict(m))
    ensures VerifyJwt(f, mac, secret, SignJwt(f, mac, secret, m))
            == if Returned(f, m).Some? then Accepted(Returned(f, m).value) else BadClaims
  {
    SplitToken(f, m, mac(secret, Part(HeaderText()) + "." + Part(ClaimsText(f, m))));
    Base64Url.DecodeEncode(Utf8.Encode(ClaimsText(f, m)));
    DecodeClaimsText(f, m);
  }

  /** The token made from these claims verifies with these claims. */
  predicate Returns(f: Floats, mac: Mac, secret: string, m: Claims) {
    VerifyJwt(f, mac, secret, SignJwt(f, mac, secret, m)) == Accepted(Exactly(m))
  }

  /** Claims come back as they were exactly when every integer in them, at any depth, is a float64. */
  lemma ClaimsReturnIff(f: Floats, mac: Mac, secret: string, m: Claims)
    requires Sound(f) && Float64s(f, Dict(m))
    ensures Returns(f, mac, secret, m) <==> forall k | k in m :: Fixed(f, m[k])
  {
    VerifySigned(f, mac, secret, m);
    ReturnedIff(f, m);
  }

  lemma ReturnedIff(f: Floats, m: Claims)
    ensures Returned(f, m) == Some(Exactly(m)) <==> forall k | k in m :: Fixed(f, m[k])
  {
    RoundedIff(f, Dict(m));
    assert Fixed(f, Dict(m)) <==> forall k | k in m :: Fixed(f, m[k]);
  }

  /** So claims whose integers are at most 2^53 in magnitude come back, and the claim 2^53 + 1 never does. */
  lemma SmallClaimsReturn(f: Floats, mac: Mac, secret: string, m: Claims, key: string)
    requires Sound(f) && Binary64(f) && Float64s(f, Dict(m))
    ensures (forall k | k in m :: Small(m[k])) ==> Returns(f, mac, secret, m)
    ensures !Returns(f, mac, secret, map[key := Int(TWO_TO_THE_53 + 1)])
  {
    if forall k | k in m :: Small(m[k]) {
      SmallIsFixed(f, Dict(m));
      ClaimsReturnIff(f, mac, secret, m);
    }
    FirstLost();
    LostClaim(f, mac, secret, key, TWO_TO_THE_53 + 1);
  }

  lemma LostClaim(f: Floats, mac: Mac, secret: string, key: string, n: int)
    requires Sound(f) && !IsFloat64(f, n)
    ensures !Returns(f, mac, secret, map[key := Int(n)])
  {
    var m: Claims := map[key := Int(n)];
    assert m[key] == Int(n) && forall k | k in m :: k == key && Float64s(f, m[k]);
    ClaimsReturnIff(f, mac, secret, m);
  }

  /** An integer that is not a float64, such as 2^53 + 1, comes back as the float64 nearest to it. */
  lemma ChangedClaim(f: Floats, mac: Mac, secret: string, key: string, n: int)
    requires Sound(f) && !IsFloat64(f, n) && f.round(n as real).Some?
    ensures f.round(n as real).value != n as real
    ensures VerifyJwt(f, mac, secret, SignJwt(f, mac, secret, map[key := Int(n)]))
            == Accepted(map[key := Float(f.round(n as real).value)])
  {
    OneClaim(f, key, n);
    VerifySigned(f, mac, secret, map[key := Int(n)]);
  }

  lemma OneClaim(f: Floats, key: string, n: int)
    requires f.round(n as real).Some?
    ensures Float64s(f, Dict(map[key := Int(n)]))
    ensures Returned(f, map[key := Int(n)]) == Some(map[key := Float(f.round(n as real).value)])
  {
    var m: Claims := map[key := Int(n)];
    assert m[key] == Int(n) && forall k | k in m :: k == key && Rounded(f, m[k]).Some?;
    assert Rounded(f, Dict(m)).value.entries == map[key := Float(f.round(n as real).value)];
  }

  /** Exactly which tokens are accepted: three dot-free parts whose last is the MAC text of the first two,
      the middle one holding the claims. The header is not read, and neither is any exp claim. */
  lemma AcceptedIff(f: Floats, mac: Mac, secret: string, token: string, m: Claims)
    ensures VerifyJwt(f, mac, secret, token) == Accepted(m) <==>
            exists h, c ::
              '.' !in h && '.' !in c && token == h + "." + c + "." + Base64Url.Encode(mac(secret, h + "." + c))
              && Base64Url.Decode(c).Some? && DecodeClaims(f, Base64Url.Decode(c).value) == Some(m)
  {
    var parts := Split(token, '.');
    if VerifyJwt(f, mac, secret, token) == Accepted(m) {
      JoinSplit(token, '.');
      assert parts == [parts[0], parts[1], parts[2]];
      JoinThree(parts[0], parts[1], parts[2]);
      var h, c := parts[0], parts[1];
      assert token == h + "." + c + "." + Base64Url.Encode(mac(secret, h + "." + c));
    }
    if exists h, c ::
         '.' !in h && '.' !in c && token == h + "." + c + "." + Base64Url.Encode(mac(secret, h + "." + c))
         && Base64Url.Decode(c).Some? && DecodeClaims(f, Base64Url.Decode(c).value) == Some(m)
    {
      var h, c :|
        '.' !in h && '.' !in c && token == h + "." + c + "." + Base64Url.Encode(mac(secret, h + "." + c))
        && Base64Url.Decode(c).Some? && DecodeClaims(f, Base64Url.Decode(c).value) == Some(m);
      Base64Url.EncodeAlphabet(mac(secret, h + "." + c));
      SplitCompact(h, c, Base64Url.Encode(mac(secret, h + "." + c)));
    }
  }

  lemma JoinThree(a: string, b: string, c: string)
    ensures Join([a, b, c], '.') == a + "." + b + "." + c
  {
    var parts := [a, b, c];
    assert parts[1..] == [b, c] && parts[1..][1..] == [c];
    assert Join([c], '.') == c;
    assert Join([b, c], '.') == b + "." + c;
    assert a + "." + (b + "." + c) == a + "." + b + "." + c;
  }
}
