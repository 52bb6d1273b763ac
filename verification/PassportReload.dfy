/** Loading what was exported, byte for byte (agent.go): when the reloaded passport answers as the original. */
module PassportReload {
  import opened Text
  import opened Json
  import opened GoValues
  import opened Members
  import opened Passports
  import opened PassportText
  import opened PassportCodec
  import Utf8

  // ----- details up to the Go type of their numbers

  /** Details with integers read as the numbers they are: a loaded passport holds float64s. */
  function ReadDetails(d: Details): Details {
    Amounts(Dict(d)).entries
  }

  function ReadEntry(e: AuditEntry): AuditEntry {
    e.(details := ReadDetails(e.details))
  }

  function ReadLog(log: seq<AuditEntry>): (r: seq<AuditEntry>)
    ensures |r| == |log|
  {
    seq(|log|, i requires 0 <= i < |log| => ReadEntry(log[i]))
  }

  function ReadCapabilities(k: Capabilities): Capabilities {
    k.(customPermissions := ReadDetails(k.customPermissions))
  }

  function ReadDocument(x: Exported): Exported {
    x.(capabilities := ReadCapabilities(x.capabilities), log := ReadLog(x.log))
  }

  function ReadPassport(p: Passport): Passport {
    p.(capabilities := ReadCapabilities(p.capabilities), log := ReadLog(p.log))
  }

  function ReadAnswer(a: Answer): Answer {
    match a
    case AEntry(e) => AEntry(ReadEntry(e))
    case ALog(log) => ALog(ReadLog(log))
    case AExport(x) => AExport(ReadDocument(x))
    case _ => a
  }

  function ReadAnswers(a: seq<Answer>): (r: seq<Answer>)
    ensures |r| == |a|
  {
    seq(|a|, i requires 0 <= i < |a| => ReadAnswer(a[i]))
  }

  // ----- passports that answer alike

  /** The same but for the type, email and version that are not exported, and the Go types of numbers. */
  predicate Similar(p: Passport, q: Passport) {
    ReadPassport(p) == ReadPassport(q).(agentType := p.agentType, ownerEmail := p.ownerEmail, version := p.version)
  }

  lemma ReadLogAppend(log: seq<AuditEntry>, e: AuditEntry)
    ensures ReadLog(log + [e]) == ReadLog(log) + [ReadEntry(e)]
  {
  }

  lemma SimilarLog(p: Passport, q: Passport, e: AuditEntry)
    requires Similar(p, q)
    ensures Similar(AfterLog(p, e), AfterLog(q, e))
  {
    ReadLogAppend(p.log, e);
    ReadLogAppend(q.log, e);
  }

  lemma SimilarTrust(p: Passport, q: Passport, now: int)
    requires Similar(p, q)
    ensures Similar(AfterTrust(p, now), AfterTrust(q, now)) && TrustedAt(p, now) == TrustedAt(q, now)
  {
    SimilarFields(p, q);
  }

  lemma SimilarFields(p: Passport, q: Passport)
    requires Similar(p, q)
    ensures p.status == q.status && p.expiresAt == q.expiresAt && p.agentId == q.agentId && |p.log| == |q.log|
    ensures forall action :: Allows(p.capabilities, action) == Allows(q.capabilities, action)
    ensures ReadLog(p.log) == ReadLog(q.log) && ReadCapabilities(p.capabilities) == ReadCapabilities(q.capabilities)
  {
    assert ReadPassport(p).log == ReadPassport(q).log;
    assert ReadCapabilities(p.capabilities) == ReadCapabilities(q.capabilities);
  }

  lemma SimilarVerify(p: Passport, q: Passport, action: string, now: int, stamp: Stamp)
    requires Similar(p, q)
    ensures Verify(p, action, now, stamp).1 == Verify(q, action, now, stamp).1
    ensures Similar(Verify(p, action, now, stamp).0, Verify(q, action, now, stamp).0)
  {
    SimilarTrust(p, q, now);
    var a, b := AfterTrust(p, now), AfterTrust(q, now);
    SimilarFields(a, b);
    SimilarLog(a, b, Entry(a, action, Reason("passport_invalid"), Blocked, stamp));
    SimilarLog(a, b, Entry(a, action, Reason("capability_not_granted"), Blocked, stamp));
  }

  lemma SimilarRevoke(p: Passport, q: Passport, reason: string, now: int, stamp: Stamp)
    requires Similar(p, q)
    ensures Similar(RevokeLogged(p, reason, now, stamp), RevokeLogged(q, reason, now, stamp))
  {
    var a, b := AfterRevoke(p, reason, now), AfterRevoke(q, reason, now);
    assert Similar(a, b);
    SimilarFields(a, b);
    SimilarLog(a, b, Entry(a, "passport_revoked", Reason(RevokeText(reason)), Success, stamp));
  }

  lemma SimilarExport(p: Passport, q: Passport)
    requires Similar(p, q)
    ensures ReadDocument(Export(p)) == ReadDocument(Export(q)) && Summarize(p) == Summarize(q)
  {
    SimilarFields(p, q);
  }

  lemma SimilarStep(p: Passport, q: Passport, op: Op)
    requires Similar(p, q)
    ensures ReadAnswer(Apply(p, op).1) == ReadAnswer(Apply(q, op).1) && Similar(Apply(p, op).0, Apply(q, op).0)
  {
    SimilarFields(p, q);
    match op
    case OpTrust(now) => SimilarTrust(p, q, now);
    case OpVerify(action, now, stamp) => SimilarVerify(p, q, action, now, stamp);
    case OpRevoke(reason, now, stamp) => SimilarRevoke(p, q, reason, now, stamp);
    case OpLog(action, details, outcome, stamp) => SimilarLog(p, q, Entry(p, action, details, outcome, stamp));
    case _ => SimilarExport(p, q);
  }

  lemma {:induction false} SimilarAnswers(p: Passport, q: Passport, ops: seq<Op>)
    requires Similar(p, q)
    ensures ReadAnswers(Answers(p, ops)) == ReadAnswers(Answers(q, ops))
    decreases |ops|
  {
    if ops != [] {
      SimilarStep(p, q, ops[0]);
      SimilarAnswers(Apply(p, ops[0]).0, Apply(q, ops[0]).0, ops[1..]);
      AnswersFirst(p, ops);
      AnswersFirst(q, ops);
    }
  }

  lemma AnswersFirst(p: Passport, ops: seq<Op>)
    requires ops != []
    ensures ReadAnswers(Answers(p, ops))
            == [ReadAnswer(Apply(p, ops[0]).1)] + ReadAnswers(Answers(Apply(p, ops[0]).0, ops[1..]))
  {
  }

  // ----- rounding a document

  predicate FixedDetails(f: Floats, d: Details) {
    Fixed(f, Dict(d))
  }

  /** Every integer in the details and custom permissions of the document is a float64. */
  predicate AllFixed(f: Floats, x: Exported) {
    && FixedDetails(f, x.capabilities.customPermissions)
    && forall i | 0 <= i < |x.log| :: FixedDetails(f, x.log[i].details)
  }

  lemma RoundDetailsIff(f: Floats, d: Details)
    ensures RoundDetails(f, d) == Some(ReadDetails(d)) <==> FixedDetails(f, d)
  {
    RoundedIff(f, Dict(d));
  }

  lemma RoundLogIff(f: Floats, log: seq<AuditEntry>)
    ensures RoundLog(f, log) == Some(ReadLog(log)) <==> forall i | 0 <= i < |log| :: FixedDetails(f, log[i].details)
  {
    forall i | 0 <= i < |log|
      ensures RoundEntry(f, log[i]) == Some(ReadEntry(log[i])) <==> FixedDetails(f, log[i].details)
    {
      RoundDetailsIff(f, log[i].details);
    }
    if RoundLog(f, log) == Some(ReadLog(log)) {
      forall i | 0 <= i < |log| ensures FixedDetails(f, log[i].details) {
        assert RoundLog(f, log).value[i] == ReadLog(log)[i];
      }
    }
    if forall i | 0 <= i < |log| :: FixedDetails(f, log[i].details) {
      assert RoundLog(f, log).value == ReadLog(log);
    }
  }

  lemma RoundDocumentIff(f: Floats, x: Exported)
    ensures RoundDocument(f, x) == Some(ReadDocument(x)) <==> AllFixed(f, x)
  {
    RoundDetailsIff(f, x.capabilities.customPermissions);
    RoundLogIff(f, x.log);
  }

  /** Rounded details hold no integers. */
  lemma RoundedReads(f: Floats, d: Details)
    requires RoundDetails(f, d).Some?
    ensures ReadDetails(RoundDetails(f, d).value) == RoundDetails(f, d).value
  {
    NoIntegers(f, Dict(d));
  }

  lemma {:induction false} NoIntegers(f: Floats, v: Value)
    requires Rounded(f, v).Some?
    ensures Amounts(Rounded(f, v).value) == Rounded(f, v).value
    decreases v
  {
    var r := Rounded(f, v).value;
    match v
    case List(items) =>
      forall i | 0 <= i < |items| ensures Amounts(r.items[i]) == r.items[i] {
        NoIntegers(f, items[i]);
      }
      assert Amounts(r).items == r.items;
    case Dict(m) =>
      forall k | k in m ensures Amounts(r.entries[k]) == r.entries[k] {
        NoIntegers(f, m[k]);
      }
      assert Amounts(r).entries == r.entries;
    case _ =>
  }

  lemma RoundedDocumentReads(f: Floats, x: Exported)
    requires RoundDocument(f, x).Some?
    ensures ReadDocument(RoundDocument(f, x).value) == RoundDocument(f, x).value
  {
    var r := RoundDocument(f, x).value;
    RoundedReads(f, x.capabilities.customPermissions);
    forall i | 0 <= i < |x.log| ensures ReadEntry(r.log[i]) == r.log[i] {
      assert r.log[i] == RoundEntry(f, x.log[i]).value;
      RoundedReads(f, x.log[i].details);
    }
    assert ReadLog(r.log) == r.log;
  }

  lemma {:induction false} AmountsTwice(v: Value)
    ensures Amounts(Amounts(v)) == Amounts(v)
    decreases v
  {
    match v
    case List(items) =>
      forall i | 0 <= i < |items| ensures Amounts(Amounts(items[i])) == Amounts(items[i]) {
        AmountsTwice(items[i]);
      }
      assert Amounts(Amounts(v)).items == Amounts(v).items;
    case Dict(m) =>
      forall k | k in m ensures Amounts(Amounts(m[k])) == Amounts(m[k]) {
        AmountsTwice(m[k]);
      }
      assert Amounts(Amounts(v)).entries == Amounts(v).entries;
    case _ =>
  }

  lemma ReadTwice(x: Exported)
    ensures ReadDocument(ReadDocument(x)) == ReadDocument(x)
  {
    AmountsTwice(Dict(x.capabilities.customPermissions));
    forall i | 0 <= i < |x.log| ensures ReadEntry(ReadEntry(x.log[i])) == ReadEntry(x.log[i]) {
      AmountsTwice(Dict(x.log[i].details));
    }
    assert ReadLog(ReadLog(x.log)) == ReadLog(x.log);
  }

  // ----- export and load

  /** Export, then LoadAgentPassport of its bytes; None if either is an error. */
  function Reload(c: Codec, p: Passport): Option<Passport> {
    var bytes :- Encode(c, Export(p));
    var x :- Decode(c, bytes);
    Some(Load(x))
  }

  /** What an export needs: times that have texts, and floats that are float64s. */
  predicate Exportable(c: Codec, p: Passport) {
    AllTimed(c, Export(p)) && AllFloat64s(c.floats, Export(p))
  }

  lemma ReloadIsRounded(c: Codec, p: Passport)
    requires Faithful(c) && Exportable(c, p)
    ensures Reload(c, p) == match RoundDocument(c.floats, Export(p)) case None => None case Some(x) => Some(Load(x))
  {
    DecodeEncode(c, Export(p));
  }

  lemma LoadReadsSimilar(p: Passport)
    ensures Similar(Load(ReadDocument(Export(p))), p)
  {
    ReadTwice(Export(p));
  }

  /** A passport reloaded from its exported bytes answers every later sequence of calls as the original, up to
      the Go type of the numbers in details, as long as every integer there is a float64. */
  lemma ReloadIsEquivalent(c: Codec, p: Passport, ops: seq<Op>)
    requires Faithful(c) && Exportable(c, p) && AllFixed(c.floats, Export(p))
    ensures Reload(c, p).Some? && ReadAnswers(Answers(Reload(c, p).value, ops)) == ReadAnswers(Answers(p, ops))
  {
    ReloadIsRounded(c, p);
    RoundDocumentIff(c.floats, Export(p));
    LoadReadsSimilar(p);
    SimilarAnswers(Load(ReadDocument(Export(p))), p, ops);
  }

  /** When those numbers are float64s to begin with, the answers are the very same. */
  lemma ReloadIsExact(c: Codec, p: Passport, ops: seq<Op>)
    requires Faithful(c) && Exportable(c, p) && RoundDocument(c.floats, Export(p)) == Some(Export(p))
    ensures Reload(c, p).Some? && Answers(Reload(c, p).value, ops) == Answers(p, ops)
  {
    ReloadIsRounded(c, p);
    LoadIsEquivalent(p, ops);
  }

  /** It does so exactly when every integer there is a float64: any other shows in the reloaded passport's own
      export. */
  lemma ReloadIff(c: Codec, p: Passport)
    requires Faithful(c) && Exportable(c, p)
    ensures AllFixed(c.floats, Export(p)) <==> Reload(c, p).Some? && ExportAlike(Reload(c, p).value, p)
  {
    ReloadIsRounded(c, p);
    RoundedIffAlike(c.floats, p, Reload(c, p));
  }

  /** Both answer an export alike. */
  predicate ExportAlike(p: Passport, q: Passport) {
    ReadAnswer(Apply(p, OpExport).1) == ReadAnswer(Apply(q, OpExport).1)
  }

  lemma RoundedIffAlike(f: Floats, p: Passport, r: Option<Passport>)
    requires r == match RoundDocument(f, Export(p)) case None => None case Some(x) => Some(Load(x))
    ensures AllFixed(f, Export(p)) <==> r.Some? && ExportAlike(r.value, p)
  {
    RoundDocumentIff(f, Export(p));
    if r.Some? {
      var x := RoundDocument(f, Export(p)).value;
      RoundedDocumentReads(f, Export(p));
      RoundedIsCoherent(f, p, x);
    }
  }

  lemma RoundedIsCoherent(f: Floats, p: Passport, x: Exported)
    requires RoundDocument(f, Export(p)) == Some(x)
    ensures Export(Load(x)) == x
  {
  }

  // ----- byte for byte

  predicate PlainDetails(f: Floats, d: Details) {
    Plain(f, Dict(d))
  }

  /** Every integer in the details and custom permissions keeps its text as a float64. */
  predicate AllPlain(f: Floats, x: Exported) {
    && PlainDetails(f, x.capabilities.customPermissions)
    && forall i | 0 <= i < |x.log| :: PlainDetails(f, x.log[i].details)
  }

  lemma RoundedKeys(f: Floats, d: Details)
    requires RoundDetails(f, d).Some?
    ensures RoundDetails(f, d).value.Keys == d.Keys && Rounded(f, Dict(d)) == Some(Dict(RoundDetails(f, d).value))
  {
  }

  lemma OmitDictPlain(c: Codec, d: Details)
    requires RoundDetails(c.floats, d).Some?
    ensures OmitDict(c, RoundDetails(c.floats, d).value) == OmitDict(c, d) <==> PlainDetails(c.floats, d)
  {
    var r := RoundDetails(c.floats, d).value;
    RoundedKeys(c.floats, d);
    PlainIff(c.floats, Dict(d));
    if d.Keys == {} {
      assert d == map[] && r == map[];
    }
  }

  lemma EntryInjective(c: Codec, d: AuditEntry, e: AuditEntry)
    requires Timed(c, d.timestamp) && Timed(c, e.timestamp)
    ensures EntryJson(c, d) == EntryJson(c, e) <==> EntryValues(c, d) == EntryValues(c, e)
  {
    EntryNames();
    StructInjective(ENTRY, EntryValues(c, d), EntryValues(c, e));
  }

  lemma EntryFacts(c: Codec, e: AuditEntry, v: seq<Option<Json>>)
    requires Timed(c, e.timestamp) && v == EntryValues(c, e)
    ensures |v| == 6 && v[0] == Some(Str(e.logId)) && v[1] == Some(Str(e.agentId)) && v[2] == Some(Str(e.action))
    ensures v[3] == OmitDict(c, e.details) && v[4] == Some(Str(OutcomeText(e.outcome)))
    ensures v[5] == TimeJson(c, e.timestamp)
  {
  }

  /** Two sequences that can differ at one place only. */
  lemma AllButOne<T>(v: seq<T>, w: seq<T>, n: nat)
    requires n < |v| == |w| && forall i | 0 <= i < |v| && i != n :: v[i] == w[i]
    ensures v == w <==> v[n] == w[n]
  {
  }

  lemma EntryPlain(c: Codec, e: AuditEntry)
    requires Timed(c, e.timestamp) && RoundEntry(c.floats, e).Some?
    ensures EntryJson(c, RoundEntry(c.floats, e).value) == EntryJson(c, e) <==> PlainDetails(c.floats, e.details)
  {
    var r := RoundEntry(c.floats, e).value;
    OmitDictPlain(c, e.details);
    EntryInjective(c, r, e);
    var v, w := EntryValues(c, r), EntryValues(c, e);
    EntryFacts(c, r, v);
    EntryFacts(c, e, w);
    AllButOne(v, w, 3);
  }

  lemma LogPlain(c: Codec, log: seq<AuditEntry>)
    requires (forall i | 0 <= i < |log| :: Timed(c, log[i].timestamp)) && RoundLog(c.floats, log).Some?
    ensures var r := RoundLog(c.floats, log).value;
            |r| == |log| && (forall i | 0 <= i < |r| :: Timed(c, r[i].timestamp))
            && (LogJson(c, r) == LogJson(c, log)
                <==> forall i | 0 <= i < |log| :: PlainDetails(c.floats, log[i].details))
  {
    var r := RoundLog(c.floats, log).value;
    forall i | 0 <= i < |log|
      ensures Timed(c, r[i].timestamp)
      ensures EntryJson(c, r[i]) == EntryJson(c, log[i]) <==> PlainDetails(c.floats, log[i].details)
    {
      assert r[i] == RoundEntry(c.floats, log[i]).value;
      EntryPlain(c, log[i]);
    }
    var a, b := LogJson(c, r).items, LogJson(c, log).items;
    assert forall i | 0 <= i < |log| :: a[i] == EntryJson(c, r[i]) && b[i] == EntryJson(c, log[i]);
    if a == b {
      forall i | 0 <= i < |log| ensures PlainDetails(c.floats, log[i].details) {
        assert a[i] == b[i];
      }
    }
  }

  lemma CapabilitiesInjective(c: Codec, k: Capabilities, l: Capabilities)
    ensures CapabilitiesJson(c, k) == CapabilitiesJson(c, l)
            <==> CapabilitiesValues(c, k) == CapabilitiesValues(c, l)
  {
    CapabilitiesNames();
    StructInjective(CAPABILITIES, CapabilitiesValues(c, k), CapabilitiesValues(c, l));
  }

  lemma CapabilitiesPlain(c: Codec, k: Capabilities)
    requires RoundCapabilities(c.floats, k).Some?
    ensures CapabilitiesJson(c, RoundCapabilities(c.floats, k).value) == CapabilitiesJson(c, k)
            <==> PlainDetails(c.floats, k.customPermissions)
  {
    var r := RoundCapabilities(c.floats, k).value;
    OmitDictPlain(c, k.customPermissions);
    CapabilitiesInjective(c, r, k);
    var v, w := CapabilitiesValues(c, r), CapabilitiesValues(c, k);
    CapabilitiesFacts(c, r, v);
    CapabilitiesFacts(c, k, w);
    AllButOne(v, w, 13);
  }

  lemma DocumentInjective(c: Codec, x: Exported, y: Exported)
    requires AllTimed(c, x) && AllTimed(c, y)
    ensures DocumentJson(c, x) == DocumentJson(c, y) <==> DocumentValues(c, x) == DocumentValues(c, y)
  {
    DocumentNames();
    StructInjective(DOCUMENT, DocumentValues(c, x), DocumentValues(c, y));
  }

  /** Documents that differ in capabilities and log only have the same text when those have. */
  lemma DocumentDiffers(c: Codec, x: Exported, y: Exported)
    requires AllTimed(c, x) && AllTimed(c, y) && y == x.(capabilities := y.capabilities, log := y.log)
    ensures DocumentJson(c, y) == DocumentJson(c, x)
            <==> CapabilitiesJson(c, y.capabilities) == CapabilitiesJson(c, x.capabilities)
                 && LogJson(c, y.log) == LogJson(c, x.log)
  {
    DocumentInjective(c, y, x);
    var v, w := DocumentValues(c, y), DocumentValues(c, x);
    DocumentFacts(c, y, v);
    DocumentFacts(c, x, w);
    AllButTwo(v, w);
  }

  lemma DocumentPlain(c: Codec, x: Exported)
    requires AllTimed(c, x) && RoundDocument(c.floats, x).Some?
    ensures AllTimed(c, RoundDocument(c.floats, x).value)
    ensures DocumentJson(c, RoundDocument(c.floats, x).value) == DocumentJson(c, x) <==> AllPlain(c.floats, x)
  {
    LogPlain(c, x.log);
    CapabilitiesPlain(c, x.capabilities);
    DocumentDiffers(c, x, RoundDocument(c.floats, x).value);
  }

  lemma AllButTwo<T>(v: seq<T>, w: seq<T>)
    requires |v| == |w| == 15 && v[..10] == w[..10] && v[12] == w[12] && v[13] == w[13] && v[14] == w[14]
    ensures v == w <==> v[10] == w[10] && v[11] == w[11]
  {
    if v[10] == w[10] && v[11] == w[11] {
      forall i | 0 <= i < 15 ensures v[i] == w[i] {
        if i < 10 {
          assert v[..10][i] == w[..10][i];
        }
      }
    }
  }

  lemma EncodeInjective(c: Codec, x: Exported, y: Exported)
    requires AllTimed(c, x) && AllTimed(c, y)
    ensures Encode(c, x) == Encode(c, y) <==> DocumentJson(c, x) == DocumentJson(c, y)
  {
    if Encode(c, x) == Encode(c, y) {
      Utf8.EncodeInjective(Print(DocumentJson(c, x), Indented(0)), Print(DocumentJson(c, y), Indented(0)));
      PrintInjective(DocumentJson(c, x), DocumentJson(c, y), Indented(0));
    }
  }

  /** Export, load and export again gives the same bytes exactly when every integer in details and custom
      permissions keeps its text as a float64; type, email and version come back as their defaults. */
  lemma ExportLoadExport(c: Codec, p: Passport)
    requires Faithful(c) && Exportable(c, p) && Reload(c, p).Some?
    ensures Encode(c, Export(Reload(c, p).value)) == Encode(c, Export(p)) <==> AllPlain(c.floats, Export(p))
  {
    ReloadIsRounded(c, p);
    var x := RoundDocument(c.floats, Export(p)).value;
    RoundedIsCoherent(c.floats, p, x);
    DocumentPlain(c, Export(p));
    EncodeInjective(c, x, Export(p));
  }

  // ----- any document

  lemma DictOfSettles(c: Codec, o: Option<Json>)
    requires Faithful(c) && DictOf(c, o).Some?
    ensures var d := DictOf(c, o).value; DetailsOk(c.floats, d) && RoundDetails(c.floats, d) == Some(d)
  {
    if o.None? || o.value.Null? {
      assert Rounded(c.floats, Dict(map[])).value.entries == map[];
    } else {
      DecodedSettles(c.floats, o.value);
    }
  }

  lemma TimeOfTimed(c: Codec, o: Option<Json>)
    requires Faithful(c) && TimeOf(c, o).Some?
    ensures Timed(c, TimeOf(c, o).value)
  {
  }

  lemma EntryParts(c: Codec, v: seq<Option<Json>>)
    requires |v| == 6 && EntryRead(c, v).Some?
    ensures DictOf(c, v[3]) == Some(EntryRead(c, v).value.details)
    ensures TimeOf(c, v[5]) == Some(EntryRead(c, v).value.timestamp)
  {
  }

  lemma EntrySettles(c: Codec, v: seq<Option<Json>>)
    requires Faithful(c) && |v| == 6 && EntryRead(c, v).Some?
    ensures var e := EntryRead(c, v).value;
            Timed(c, e.timestamp) && DetailsOk(c.floats, e.details) && RoundEntry(c.floats, e) == Some(e)
  {
    EntryParts(c, v);
    DictOfSettles(c, v[3]);
    TimeOfTimed(c, v[5]);
  }

  lemma LogSettles(c: Codec, o: Option<Json>)
    requires Faithful(c) && LogOf(c, o).Some?
    ensures var log := LogOf(c, o).value;
            (forall i | 0 <= i < |log| :: Timed(c, log[i].timestamp) && DetailsOk(c.floats, log[i].details))
            && RoundLog(c.floats, log) == Some(log)
  {
    var log := LogOf(c, o).value;
    forall i | 0 <= i < |log|
      ensures Timed(c, log[i].timestamp) && DetailsOk(c.floats, log[i].details)
              && RoundEntry(c.floats, log[i]) == Some(log[i])
    {
      EntrySettles(c, Looked(c.fold, ENTRY, MembersOf(o.value.items[i]).value));
    }
    assert RoundLog(c.floats, log).value == log;
  }

  lemma SummaryParts(c: Codec, v: seq<Option<Json>>)
    requires |v| == 15 && SummaryRead(c, v).Some?
    ensures TimeOf(c, v[6]) == Some(SummaryRead(c, v).value.issuedAt)
    ensures TimeOf(c, v[7]) == Some(SummaryRead(c, v).value.expiresAt)
  {
  }

  lemma SummaryTimed(c: Codec, v: seq<Option<Json>>)
    requires Faithful(c) && |v| == 15 && SummaryRead(c, v).Some?
    ensures Timed(c, SummaryRead(c, v).value.issuedAt) && Timed(c, SummaryRead(c, v).value.expiresAt)
  {
    SummaryParts(c, v);
    TimeOfTimed(c, v[6]);
    TimeOfTimed(c, v[7]);
  }

  lemma CapabilitiesParts(c: Codec, v: seq<Option<Json>>)
    requires |v| == 14 && CapabilitiesRead(c, v).Some?
    ensures DictOf(c, v[13]) == Some(CapabilitiesRead(c, v).value.customPermissions)
  {
  }

  lemma CapabilitiesSettle(c: Codec, v: seq<Option<Json>>)
    requires Faithful(c) && |v| == 14 && CapabilitiesRead(c, v).Some?
    ensures var d := CapabilitiesRead(c, v).value.customPermissions;
            DetailsOk(c.floats, d) && RoundDetails(c.floats, d) == Some(d)
  {
    CapabilitiesParts(c, v);
    DictOfSettles(c, v[13]);
  }

  lemma DocumentSettles(c: Codec, v: seq<Option<Json>>)
    requires Faithful(c) && |v| == 15 && DocumentRead(c, v).Some?
    ensures var x := DocumentRead(c, v).value;
            AllTimed(c, x) && AllFloat64s(c.floats, x) && RoundDocument(c.floats, x) == Some(x)
  {
    SummaryTimed(c, v);
    CapabilitiesSettle(c, Looked(c.fold, CAPABILITIES, MembersOf(OrNull(v[10])).value));
    LogSettles(c, v[11]);
    if TimeRefOf(c, v[13]).value.Some? {
      TimeOfTimed(c, v[13]);
    }
  }

  /** Whatever bytes are loaded: the passport's own export describes the same document exactly when that one
      counted as many actions as it listed. */
  lemma ReexportIff(c: Codec, bytes: seq<byte>)
    requires Faithful(c) && Decode(c, bytes).Some?
    ensures var x := Decode(c, bytes).value;
            Encode(c, Export(Load(x))).Some?
            && (Decode(c, Encode(c, Export(Load(x))).value) == Some(x) <==> Coherent(x))
  {
    var x := Decode(c, bytes).value;
    var j := Parse(Utf8.Decode(bytes).value, false).value;
    DocumentSettles(c, Looked(c.fold, DOCUMENT, MembersOf(j).value));
    var y := Export(Load(x));
    assert y == x.(summary := x.summary.(actionsLogged := |x.log|));
    assert RoundDocument(c.floats, y) == Some(y);
    DecodeEncode(c, y);
  }
}
