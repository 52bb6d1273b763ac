/** Exporting a passport to JSON text and loading it back (agent.go). */
module PassportCodec {
  import opened Text
  import opened Json
  import opened JsonNumber
  import opened GoValues
  import opened Members
  import opened Passports
  import opened PassportText
  import Utf8

  // ----- structs round-trip

  lemma DictRoundTrip(c: Codec, d: Details)
    requires Faithful(c) && DetailsOk(c.floats, d)
    ensures DictOf(c, OmitDict(c, d)) == RoundDetails(c.floats, d)
  {
    if d == map[] {
      assert Rounded(c.floats, Dict(d)).value.entries == map[];
    } else {
      FromToJson(c.floats, Dict(d));
    }
  }

  lemma EntryRoundTrip(c: Codec, e: AuditEntry)
    requires Faithful(c) && Timed(c, e.timestamp) && DetailsOk(c.floats, e.details)
    ensures EntryFrom(c, EntryJson(c, e)) == RoundEntry(c.floats, e)
  {
    EntryNames();
    LookedPresent(c.fold, ENTRY, EntryValues(c, e));
    DictRoundTrip(c, e.details);
    OutcomeReturns(e.outcome);
    var v := EntryValues(c, e);
    EntryReads(c, e, v, OutcomeText(e.outcome));
  }

  lemma OutcomeReturns(o: Outcome)
    ensures OutcomeFrom(OutcomeText(o)) == o
  {
  }

  lemma EntryReads(c: Codec, e: AuditEntry, v: seq<Option<Json>>, outcome: string)
    requires Faithful(c) && |v| == 6 && OutcomeFrom(outcome) == e.outcome && Timed(c, e.timestamp)
    requires v[0] == Some(Str(e.logId)) && v[1] == Some(Str(e.agentId)) && v[2] == Some(Str(e.action))
    requires DictOf(c, v[3]) == RoundDetails(c.floats, e.details) && v[4] == Some(Str(outcome))
    requires v[5] == TimeJson(c, e.timestamp)
    ensures EntryRead(c, v) == RoundEntry(c.floats, e)
  {
  }

  /** Capabilities as they come back. */
  function RoundCapabilities(f: Floats, k: Capabilities): Option<Capabilities> {
    var d :- RoundDetails(f, k.customPermissions);
    Some(k.(customPermissions := d))
  }

  lemma CapabilitiesFacts(c: Codec, k: Capabilities, v: seq<Option<Json>>)
    requires v == CapabilitiesValues(c, k)
    ensures |v| == 14 && v[0] == Some(Bool(k.browseWeb)) && v[1] == Some(Bool(k.executeCode))
    ensures v[2] == Some(Bool(k.accessFiles)) && v[3] == Some(Bool(k.callApis)) && v[4] == Some(Bool(k.spawnAgents))
    ensures v[5] == Some(Bool(k.accessDatabase)) && v[6] == Some(Bool(k.sendEmail))
    ensures v[7] == Some(Num(IntText(k.maxActionsPerHour))) && v[8] == Some(Str(k.trustLevel))
    ensures v[9] == Some(Bool(k.humanInLoop)) && v[10] == OmitStrings(k.allowedDomains)
    ensures v[11] == OmitStrings(k.allowedTools)
    ensures v[12] == if k.maxTokenBudget.Some? then Some(Num(IntText(k.maxTokenBudget.value))) else None
    ensures v[13] == OmitDict(c, k.customPermissions)
  {
  }

  lemma CapabilitiesLooked(c: Codec, k: Capabilities) returns (v: seq<Option<Json>>)
    ensures v == CapabilitiesValues(c, k) && |v| == 14
    ensures CapabilitiesFrom(c, CapabilitiesJson(c, k)) == CapabilitiesRead(c, v)
  {
    CapabilitiesNames();
    LookedPresent(c.fold, CAPABILITIES, CapabilitiesValues(c, k));
    v := CapabilitiesValues(c, k);
  }

  lemma CapabilitiesRoundTrip(c: Codec, k: Capabilities)
    requires Faithful(c) && DetailsOk(c.floats, k.customPermissions)
    ensures CapabilitiesFrom(c, CapabilitiesJson(c, k)) == RoundCapabilities(c.floats, k)
  {
    var v := CapabilitiesLooked(c, k);
    CapabilitiesFacts(c, k, v);
    DictRoundTrip(c, k.customPermissions);
    OmittedStrings(k.allowedDomains);
    OmittedStrings(k.allowedTools);
    IntRoundTrip(k.maxActionsPerHour);
    if k.maxTokenBudget.Some? {
      IntRoundTrip(k.maxTokenBudget.value);
    }
    CapabilitiesReads(c, k, v);
  }

  lemma IntRoundTrip(n: int)
    ensures IntOf(Some(Num(IntText(n)))) == Some(n)
  {
    IntTextValue(n);
  }

  lemma CapabilitiesReads(c: Codec, k: Capabilities, v: seq<Option<Json>>)
    requires |v| == 14 && v[0] == Some(Bool(k.browseWeb)) && v[1] == Some(Bool(k.executeCode))
    requires v[2] == Some(Bool(k.accessFiles)) && v[3] == Some(Bool(k.callApis)) && v[4] == Some(Bool(k.spawnAgents))
    requires v[5] == Some(Bool(k.accessDatabase)) && v[6] == Some(Bool(k.sendEmail))
    requires IntOf(v[7]) == Some(k.maxActionsPerHour) && v[8] == Some(Str(k.trustLevel))
    requires v[9] == Some(Bool(k.humanInLoop)) && StringsOf(v[10]) == Some(k.allowedDomains)
    requires StringsOf(v[11]) == Some(k.allowedTools) && IntRefOf(v[12]) == Some(k.maxTokenBudget)
    requires DictOf(c, v[13]) == RoundDetails(c.floats, k.customPermissions)
    ensures CapabilitiesRead(c, v) == RoundCapabilities(c.floats, k)
  {
  }

  lemma LogRoundTrip(c: Codec, log: seq<AuditEntry>)
    requires Faithful(c)
    requires forall i | 0 <= i < |log| :: Timed(c, log[i].timestamp) && DetailsOk(c.floats, log[i].details)
    ensures LogOf(c, Some(LogJson(c, log))) == RoundLog(c.floats, log)
  {
    var items := LogJson(c, log).items;
    forall i | 0 <= i < |log| ensures EntryFrom(c, items[i]) == RoundEntry(c.floats, log[i]) {
      EntryRoundTrip(c, log[i]);
    }
    LogFound(c, log, items);
  }

  lemma LogFound(c: Codec, log: seq<AuditEntry>, items: seq<Json>)
    requires |items| == |log| && forall i | 0 <= i < |log| :: EntryFrom(c, items[i]) == RoundEntry(c.floats, log[i])
    ensures LogOf(c, Some(Arr(items))) == RoundLog(c.floats, log)
  {
    if exists i | 0 <= i < |log| :: RoundEntry(c.floats, log[i]).None? {
      var i :| 0 <= i < |log| && RoundEntry(c.floats, log[i]).None?;
      assert EntryFrom(c, items[i]).None?;
    } else {
      assert forall i | 0 <= i < |items| :: EntryFrom(c, items[i]).Some?;
      assert LogOf(c, Some(Arr(items))).value == RoundLog(c.floats, log).value;
    }
  }

  lemma StatusReturns(s: Status)
    ensures StatusFrom(StatusText(s)) == s
  {
  }

  lemma SummaryReads(c: Codec, s: PassportSummary, v: seq<Option<Json>>, status: string)
    requires Faithful(c) && |v| == 15 && StatusFrom(status) == s.status && Timed(c, s.issuedAt) && Timed(c, s.expiresAt)
    requires v[0] == Some(Str(s.agentId)) && v[1] == Some(Str(s.agentName)) && v[2] == Some(Str(s.ownerOrg))
    requires v[3] == Some(Str(s.model)) && v[4] == Some(Str(status)) && v[5] == Some(Str(s.trustLevel))
    requires v[6] == TimeJson(c, s.issuedAt) && v[7] == TimeJson(c, s.expiresAt)
    requires IntOf(v[8]) == Some(s.actionsLogged) && v[9] == Some(Str(s.fingerprint))
    ensures SummaryRead(c, v) == Some(s)
  {
  }

  lemma SummaryRoundTrip(c: Codec, s: PassportSummary, v: seq<Option<Json>>)
    requires Faithful(c) && Timed(c, s.issuedAt) && Timed(c, s.expiresAt) && |v| == 15 && v[..10] == SummaryValues(c, s)
    ensures SummaryRead(c, v) == Some(s)
  {
    SummaryFacts(c, s, v[..10]);
    IntRoundTrip(s.actionsLogged);
    StatusReturns(s.status);
    SummaryReads(c, s, v, StatusText(s.status));
  }

  lemma DocumentReads(c: Codec, x: Exported, v: seq<Option<Json>>)
    requires |v| == 15 && SummaryRead(c, v) == Some(x.summary)
    requires CapabilitiesFrom(c, OrNull(v[10])) == RoundCapabilities(c.floats, x.capabilities)
    requires LogOf(c, v[11]) == RoundLog(c.floats, x.log)
    requires TextOf(v[12]) == Some(x.parentId) && TimeRefOf(c, v[13]) == Some(x.revokedAt)
    requires TextOf(v[14]) == Some(x.revokeReason)
    ensures DocumentRead(c, v) == RoundDocument(c.floats, x)
  {
  }

  lemma SummaryFacts(c: Codec, s: PassportSummary, v: seq<Option<Json>>)
    requires Timed(c, s.issuedAt) && Timed(c, s.expiresAt) && v == SummaryValues(c, s)
    ensures |v| == 10 && v[0] == Some(Str(s.agentId)) && v[1] == Some(Str(s.agentName)) && v[2] == Some(Str(s.ownerOrg))
    ensures v[3] == Some(Str(s.model)) && v[4] == Some(Str(StatusText(s.status))) && v[5] == Some(Str(s.trustLevel))
    ensures v[6] == TimeJson(c, s.issuedAt) && v[7] == TimeJson(c, s.expiresAt)
    ensures v[8] == Some(Num(IntText(s.actionsLogged))) && v[9] == Some(Str(s.fingerprint))
  {
  }

  lemma DocumentFacts(c: Codec, x: Exported, v: seq<Option<Json>>)
    requires AllTimed(c, x) && v == DocumentValues(c, x)
    ensures |v| == 15 && v[..10] == SummaryValues(c, x.summary)
    ensures v[10] == Some(CapabilitiesJson(c, x.capabilities)) && v[11] == Some(LogJson(c, x.log))
    ensures v[12] == OmitText(x.parentId) && v[14] == OmitText(x.revokeReason)
    ensures v[13] == if x.revokedAt.Some? then TimeJson(c, x.revokedAt.value) else None
  {
  }

  lemma DocumentLooked(c: Codec, x: Exported) returns (v: seq<Option<Json>>)
    requires AllTimed(c, x)
    ensures v == DocumentValues(c, x) && |v| == 15
    ensures DocumentFrom(c, DocumentJson(c, x)) == DocumentRead(c, v)
  {
    DocumentNames();
    LookedPresent(c.fold, DOCUMENT, DocumentValues(c, x));
    v := DocumentValues(c, x);
  }

  lemma DocumentRoundTrip(c: Codec, x: Exported)
    requires Faithful(c) && AllTimed(c, x) && AllFloat64s(c.floats, x)
    ensures DocumentFrom(c, DocumentJson(c, x)) == RoundDocument(c.floats, x)
  {
    var v := DocumentLooked(c, x);
    DocumentFacts(c, x, v);
    SummaryRoundTrip(c, x.summary, v);
    CapabilitiesRoundTrip(c, x.capabilities);
    LogRoundTrip(c, x.log);
    OmittedText(x.parentId);
    OmittedText(x.revokeReason);
    DocumentReads(c, x, v);
  }

  /** The exported bytes decode to the document they were made from, its details' integers as float64s. */
  lemma DecodeEncode(c: Codec, x: Exported)
    requires Faithful(c) && AllTimed(c, x) && AllFloat64s(c.floats, x)
    ensures Decode(c, Encode(c, x).value) == RoundDocument(c.floats, x)
  {
    var text := Print(DocumentJson(c, x), Indented(0));
    Utf8.DecodeEncode(text);
    RoundTrip(DocumentJson(c, x), Indented(0));
    DocumentRoundTrip(c, x);
  }
}
