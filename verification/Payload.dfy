/** The canonical passport payload that is signed and stored (server/signer.go). */
module Payload {
  import opened Text
  import opened Json
  import opened JsonText
  import Utf8

  datatype CanonicalPayload = CanonicalPayload(
    passportId: string,
    name: string,
    organization: string,
    capabilities: seq<string>,
    issuedAt: string)

  function Strings(items: seq<string>): (v: seq<Json>)
    ensures |v| == |items|
  {
    seq(|items|, i requires 0 <= i < |items| => Str(items[i]))
  }

  /** The fixed key order of the struct tags. */
  function ToJson(p: CanonicalPayload): Json {
    Obj([Field("passport_id", Str(p.passportId)),
         Field("name", Str(p.name)),
         Field("organization", Str(p.organization)),
         Field("capabilities", Arr(Strings(p.capabilities))),
         Field("issued_at", Str(p.issuedAt))])
  }

  function CanonicalBytes(p: CanonicalPayload): seq<byte> {
    Utf8.Encode(Print(ToJson(p), Compact))
  }

  lemma PayloadNames()
    ensures PlainName("passport_id", "\"passport_id\":") && PlainName("name", "\"name\":")
    ensures PlainName("organization", "\"organization\":")
  {
  }

  lemma OtherNames()
    ensures PlainName("capabilities", "\"capabilities\":") && PlainName("issued_at", "\"issued_at\":")
  {
  }

  lemma FiveMembers(fields: seq<Field>, names: seq<string>)
    requires |fields| == |names| == 5 && forall i | 0 <= i < 5 :: PlainName(fields[i].key, names[i])
    ensures Print(Obj(fields), Compact)
            == "{" + (Join([names[0] + Print(fields[0].val, Compact), names[1] + Print(fields[1].val, Compact),
                            names[2] + Print(fields[2].val, Compact), names[3] + Print(fields[3].val, Compact),
                            names[4] + Print(fields[4].val, Compact)], ',') + "}")
  {
    CompactObject(fields, names,
                  [names[0] + Print(fields[0].val, Compact), names[1] + Print(fields[1].val, Compact),
                   names[2] + Print(fields[2].val, Compact), names[3] + Print(fields[3].val, Compact),
                   names[4] + Print(fields[4].val, Compact)]);
  }

  /** The text that is signed, member by member. */
  lemma CanonicalText(p: CanonicalPayload)
    ensures CanonicalBytes(p) == Utf8.Encode(
              "{" + (Join(["\"passport_id\":" + Quoted(p.passportId), "\"name\":" + Quoted(p.name),
                           "\"organization\":" + Quoted(p.organization),
                           "\"capabilities\":" + Print(Arr(Strings(p.capabilities)), Compact),
                           "\"issued_at\":" + Quoted(p.issuedAt)], ',') + "}"))
  {
    PayloadNames();
    OtherNames();
    var names := ["\"passport_id\":", "\"name\":", "\"organization\":", "\"capabilities\":", "\"issued_at\":"];
    FiveMembers(ToJson(p).fields, names);
  }

  /** The capabilities are a list of quoted texts. */
  lemma CapabilityList(a: string, b: string)
    ensures Print(Arr(Strings([])), Compact) == "[]"
    ensures Print(Arr(Strings([a, b])), Compact) == "[" + ((Quoted(a) + ("," + Quoted(b))) + "]")
  {
    PrintedList(Str(a), Str(b), Compact, Compact, "", "", ":");
    assert Strings([a, b]) == [Str(a), Str(b)];
    assert "" + Quoted(a) == Quoted(a) && "" + Quoted(b) == Quoted(b) && "" + "]" == "]";
  }

  /** What a reader of the stored bytes extracts: any JSON object with the five members, in any order and
      with any spacing. */
  function Member(m: map<string, Json>, key: string): Option<string> {
    if key in m && m[key].Str? then Some(m[key].s) else None
  }

  predicate AllStrings(items: seq<Json>) {
    forall i | 0 <= i < |items| :: items[i].Str?
  }

  function FromJson(v: Json): Option<CanonicalPayload> {
    if !v.Obj? then None
    else
      var m := ToMap(v.fields);
      var id, name := Member(m, "passport_id"), Member(m, "name");
      var org, at := Member(m, "organization"), Member(m, "issued_at");
      if id.None? || name.None? || org.None? || at.None? then None
      else if "capabilities" !in m || !m["capabilities"].Arr? || !AllStrings(m["capabilities"].items) then None
      else
        var caps := m["capabilities"].items;
        Some(CanonicalPayload(id.value, name.value, org.value,
                              seq(|caps|, i requires 0 <= i < |caps| => caps[i].s), at.value))
  }

  function DecodePayload(b: seq<byte>): Option<CanonicalPayload> {
    match Utf8.Decode(b)
    case None => None
    case Some(text) =>
      match Parse(text, false)
      case None => None
      case Some(v) => FromJson(v)
  }

  lemma ToMapOfFive(a: Field, b: Field, c: Field, d: Field, e: Field)
    ensures ToMap([a, b, c, d, e])
            == map[a.key := a.val][b.key := b.val][c.key := c.val][d.key := d.val][e.key := e.val]
  {
    var f := [a, b, c, d, e];
    assert f[..4] == [a, b, c, d] && f[..4][..3] == [a, b, c] && f[..3][..2] == [a, b] && f[..2][..1] == [a];
    assert ToMap([a]) == map[a.key := a.val] by { assert [a][..0] == []; }
    assert [a, b][..1] == [a] && [a, b, c][..2] == [a, b] && [a, b, c, d][..3] == [a, b, c];
    assert ToMap([a, b]) == map[a.key := a.val][b.key := b.val];
    assert ToMap([a, b, c]) == map[a.key := a.val][b.key := b.val][c.key := c.val];
  }

  lemma FromToJson(p: CanonicalPayload)
    ensures FromJson(ToJson(p)) == Some(p)
  {
    var f := ToJson(p).fields;
    ToMapOfFive(f[0], f[1], f[2], f[3], f[4]);
    var caps := Strings(p.capabilities);
    assert seq(|caps|, i requires 0 <= i < |caps| => caps[i].s) == p.capabilities;
  }

  /** The stored bytes decode to the payload that was signed, for every Unicode text and capability list. */
  lemma DecodeCanonical(p: CanonicalPayload)
    ensures DecodePayload(CanonicalBytes(p)) == Some(p)
  {
    Utf8.DecodeEncode(Print(ToJson(p), Compact));
    RoundTrip(ToJson(p), Compact);
    FromToJson(p);
  }

  /** So a signature covers exactly one payload. */
  lemma CanonicalInjective(p: CanonicalPayload, q: CanonicalPayload)
    requires CanonicalBytes(p) == CanonicalBytes(q)
    ensures p == q
  {
    DecodeCanonical(p);
    DecodeCanonical(q);
  }
}
