/** The members of an exported document by their names (struct tags of agent.go and capabilities.go): which field
    each of them holds when it is written, and which field it fills when it is read. */
module PassportNames {
  import opened Text
  import opened Json
  import opened JsonNumber
  import opened GoValues
  import opened Members
  import opened Passports
  import opened PassportText
  import opened PassportCodec
  import Utf8

  // ----- words

  lemma StatusWords(s: Status, text: string)
    ensures StatusText(Active) == "active" && StatusText(Revoked) == "revoked" && StatusText(Expired) == "expired"
    ensures StatusFrom(text) == s <==> StatusText(s) == text
  {
    assert "active"[0] != "revoked"[0] && "active"[0] != "expired"[0] && "revoked"[0] != "expired"[0];
  }

  lemma OutcomeWords(o: Outcome, text: string)
    ensures OutcomeText(Unset) == "" && OutcomeText(Success) == "success" && OutcomeText(Blocked) == "blocked"
    ensures OutcomeText(Failure) == "failure" && (OutcomeFrom(text) == o <==> OutcomeText(o) == text)
  {
    assert "success"[0] != "blocked"[0] && "success"[0] != "failure"[0] && "blocked"[0] != "failure"[0];
  }

  // ----- writing

  /** Members that are all there stand in the order of their names. */
  lemma {:induction false} PresentAll(names: seq<string>, vals: seq<Option<Json>>, n: nat)
    requires n <= |names| == |vals| && forall i | 0 <= i < n :: vals[i].Some?
    ensures |Present(names, vals, n)| == n
    ensures forall i | 0 <= i < n :: Present(names, vals, n)[i] == Field(names[i], vals[i].value)
  {
    if n > 0 {
      PresentAll(names, vals, n - 1);
    }
  }

  function Omitted(name: string, o: Option<Json>): seq<Field> {
    match o
    case None => []
    case Some(v) => [Field(name, v)]
  }

  lemma EntryMembers(c: Codec, e: AuditEntry)
    requires Timed(c, e.timestamp)
    ensures EntryJson(c, e)
            == Obj([Field("log_id", Str(e.logId)), Field("agent_id", Str(e.agentId)), Field("action", Str(e.action))]
                   + Omitted("details", if e.details == map[] then None else Some(ToJson(c.floats, Dict(e.details))))
                   + [Field("outcome", Str(OutcomeText(e.outcome)))]
                   + [Field("timestamp", Str(c.stamp(e.timestamp).value))])
  {
    var v := EntryValues(c, e);
    PresentAll(ENTRY, v, 3);
    assert Present(ENTRY, v, 3)
           == [Field("log_id", Str(e.logId)), Field("agent_id", Str(e.agentId)), Field("action", Str(e.action))];
    assert Present(ENTRY, v, 4) == Present(ENTRY, v, 3) + Omitted("details", v[3]);
    assert Present(ENTRY, v, 5) == Present(ENTRY, v, 4) + [Field("outcome", Str(OutcomeText(e.outcome)))];
  }

  /** The members of the capabilities, ten in this order and then the optional ones that are not empty. */
  lemma CapabilitiesMembers(c: Codec, k: Capabilities)
    ensures CapabilitiesJson(c, k).Obj?
    ensures var p := CapabilitiesJson(c, k).fields;
            |p| >= 10
            && p[0] == Field("can_browse_web", Bool(k.browseWeb))
            && p[1] == Field("can_execute_code", Bool(k.executeCode))
            && p[2] == Field("can_access_files", Bool(k.accessFiles))
            && p[3] == Field("can_call_apis", Bool(k.callApis))
            && p[4] == Field("can_spawn_agents", Bool(k.spawnAgents))
    ensures var p := CapabilitiesJson(c, k).fields;
            p[5] == Field("can_access_database", Bool(k.accessDatabase))
            && p[6] == Field("can_send_email", Bool(k.sendEmail))
            && p[7] == Field("max_actions_per_hour", Num(IntText(k.maxActionsPerHour)))
            && p[8] == Field("trust_level", Str(k.trustLevel)) && p[9] == Field("human_in_loop", Bool(k.humanInLoop))
    ensures CapabilitiesJson(c, k).fields[10..]
            == Omitted("allowed_domains", OmitStrings(k.allowedDomains))
               + Omitted("allowed_tools", OmitStrings(k.allowedTools))
               + Omitted("max_token_budget",
                         if k.maxTokenBudget.Some? then Some(Num(IntText(k.maxTokenBudget.value))) else None)
               + Omitted("custom_permissions",
                         if k.customPermissions == map[] then None
                         else Some(ToJson(c.floats, Dict(k.customPermissions))))
  {
    var v := CapabilitiesValues(c, k);
    CapabilitiesFacts(c, k, v);
    var p := CapabilitiesShape(v);
    FirstFive(v, p);
    NextFive(v, p);
  }

  lemma CapabilitiesShape(v: seq<Option<Json>>) returns (p: seq<Field>)
    requires |v| == 14 && v[0].Some? && v[1].Some? && v[2].Some? && v[3].Some? && v[4].Some?
    requires v[5].Some? && v[6].Some? && v[7].Some? && v[8].Some? && v[9].Some?
    ensures forall i | 0 <= i < 10 :: v[i].Some?
    ensures |p| == 10 && forall i | 0 <= i < 10 :: p[i] == Field(CAPABILITIES[i], v[i].value)
    ensures Present(CAPABILITIES, v, 14)
            == p + (Omitted("allowed_domains", v[10]) + Omitted("allowed_tools", v[11])
                    + Omitted("max_token_budget", v[12]) + Omitted("custom_permissions", v[13]))
  {
    p := Shape(CAPABILITIES, v, 10);
    OptionalCapabilities(v, p);
  }

  /** The first members are all there, and the others follow. */
  lemma Shape(names: seq<string>, vals: seq<Option<Json>>, n: nat) returns (p: seq<Field>)
    requires n <= |names| == |vals| && forall i | 0 <= i < n :: vals[i].Some?
    ensures p == Present(names, vals, n) && |p| == n
    ensures forall i | 0 <= i < n :: p[i] == Field(names[i], vals[i].value)
  {
    PresentAll(names, vals, n);
    p := Present(names, vals, n);
  }

  lemma OptionalCapabilities(v: seq<Option<Json>>, p: seq<Field>)
    requires |v| == 14 && p == Present(CAPABILITIES, v, 10) && |p| == 10
    ensures Present(CAPABILITIES, v, 14)
            == p + (Omitted("allowed_domains", v[10]) + Omitted("allowed_tools", v[11])
                    + Omitted("max_token_budget", v[12]) + Omitted("custom_permissions", v[13]))
  {
    OptionalNames();
    PresentMore(CAPABILITIES, v, 10);
    PresentMore(CAPABILITIES, v, 11);
    PresentMore(CAPABILITIES, v, 12);
    PresentMore(CAPABILITIES, v, 13);
    Appended(p, Omitted("allowed_domains", v[10]), Omitted("allowed_tools", v[11]), Omitted("max_token_budget", v[12]),
             Omitted("custom_permissions", v[13]));
  }

  lemma OptionalNames()
    ensures CAPABILITIES[10] == "allowed_domains" && CAPABILITIES[11] == "allowed_tools"
    ensures CAPABILITIES[12] == "max_token_budget" && CAPABILITIES[13] == "custom_permissions"
  {
  }

  lemma PresentMore(names: seq<string>, vals: seq<Option<Json>>, n: nat)
    requires n < |names| == |vals|
    ensures Present(names, vals, n + 1) == Present(names, vals, n) + Omitted(names[n], vals[n])
  {
  }

  lemma Appended<T>(p: seq<T>, a: seq<T>, b: seq<T>, c: seq<T>, d: seq<T>)
    ensures p + a + b + c + d == p + (a + b + c + d)
  {
  }

  lemma FirstFive(v: seq<Option<Json>>, p: seq<Field>)
    requires |v| == 14 && |p| == 10
    requires forall i | 0 <= i < 10 :: v[i].Some? && p[i] == Field(CAPABILITIES[i], v[i].value)
    ensures p[0] == Field("can_browse_web", v[0].value) && p[1] == Field("can_execute_code", v[1].value)
    ensures p[2] == Field("can_access_files", v[2].value) && p[3] == Field("can_call_apis", v[3].value)
    ensures p[4] == Field("can_spawn_agents", v[4].value)
  {
  }

  lemma NextFive(v: seq<Option<Json>>, p: seq<Field>)
    requires |v| == 14 && |p| == 10
    requires forall i | 0 <= i < 10 :: v[i].Some? && p[i] == Field(CAPABILITIES[i], v[i].value)
    ensures p[5] == Field("can_access_database", v[5].value) && p[6] == Field("can_send_email", v[6].value)
    ensures p[7] == Field("max_actions_per_hour", v[7].value) && p[8] == Field("trust_level", v[8].value)
    ensures p[9] == Field("human_in_loop", v[9].value)
  {
  }

  lemma FirstSix(v: seq<Option<Json>>, p: seq<Field>)
    requires |v| == 15 && |p| == 12
    requires forall i | 0 <= i < 12 :: v[i].Some? && p[i] == Field(DOCUMENT[i], v[i].value)
    ensures p[0] == Field("agent_id", v[0].value) && p[1] == Field("agent_name", v[1].value)
    ensures p[2] == Field("owner_org", v[2].value) && p[3] == Field("model", v[3].value)
    ensures p[4] == Field("status", v[4].value) && p[5] == Field("trust_level", v[5].value)
  {
  }

  lemma NextSix(v: seq<Option<Json>>, p: seq<Field>)
    requires |v| == 15 && |p| == 12
    requires forall i | 0 <= i < 12 :: v[i].Some? && p[i] == Field(DOCUMENT[i], v[i].value)
    ensures p[6] == Field("issued_at", v[6].value) && p[7] == Field("expires_at", v[7].value)
    ensures p[8] == Field("actions_logged", v[8].value) && p[9] == Field("fingerprint", v[9].value)
    ensures p[10] == Field("capabilities", v[10].value) && p[11] == Field("audit_log", v[11].value)
  {
  }

  /** The members of the exported document, twelve in this order and then the optional ones that are not empty. */
  lemma DocumentMembers(c: Codec, x: Exported)
    requires AllTimed(c, x)
    ensures DocumentJson(c, x).Obj?
    ensures var p, s := DocumentJson(c, x).fields, x.summary;
            |p| >= 12
            && p[0] == Field("agent_id", Str(s.agentId)) && p[1] == Field("agent_name", Str(s.agentName))
            && p[2] == Field("owner_org", Str(s.ownerOrg)) && p[3] == Field("model", Str(s.model))
            && p[4] == Field("status", Str(StatusText(s.status))) && p[5] == Field("trust_level", Str(s.trustLevel))
    ensures var p, s := DocumentJson(c, x).fields, x.summary;
            p[6] == Field("issued_at", Str(c.stamp(s.issuedAt).value))
            && p[7] == Field("expires_at", Str(c.stamp(s.expiresAt).value))
            && p[8] == Field("actions_logged", Num(IntText(s.actionsLogged)))
            && p[9] == Field("fingerprint", Str(s.fingerprint))
            && p[10] == Field("capabilities", CapabilitiesJson(c, x.capabilities))
            && p[11] == Field("audit_log", LogJson(c, x.log))
    ensures DocumentJson(c, x).fields[12..]
            == Omitted("parent_agent_id", OmitText(x.parentId))
               + Omitted("revoked_at", if x.revokedAt.Some? then Some(Str(c.stamp(x.revokedAt.value).value)) else None)
               + Omitted("revoke_reason", OmitText(x.revokeReason))
  {
    var v := DocumentValues(c, x);
    DocumentFacts(c, x, v);
    SummaryPresent(c, x.summary, v);
    var p := DocumentShape(v);
    FirstSix(v, p);
    NextSix(v, p);
  }

  lemma SummaryPresent(c: Codec, s: PassportSummary, v: seq<Option<Json>>)
    requires Timed(c, s.issuedAt) && Timed(c, s.expiresAt) && |v| == 15 && v[..10] == SummaryValues(c, s)
    ensures v[0] == Some(Str(s.agentId)) && v[1] == Some(Str(s.agentName)) && v[2] == Some(Str(s.ownerOrg))
    ensures v[3] == Some(Str(s.model)) && v[4] == Some(Str(StatusText(s.status)))
    ensures v[5] == Some(Str(s.trustLevel))
    ensures v[6] == TimeJson(c, s.issuedAt) && v[7] == TimeJson(c, s.expiresAt)
    ensures v[8] == Some(Num(IntText(s.actionsLogged))) && v[9] == Some(Str(s.fingerprint))
  {
    SummaryFacts(c, s, v[..10]);
    FirstTen(v);
  }

  lemma FirstTen<T>(v: seq<T>)
    requires |v| >= 10
    ensures v[..10] == [v[0], v[1], v[2], v[3], v[4], v[5], v[6], v[7], v[8], v[9]]
  {
  }

  lemma DocumentShape(v: seq<Option<Json>>) returns (p: seq<Field>)
    requires |v| == 15 && v[0].Some? && v[1].Some? && v[2].Some? && v[3].Some? && v[4].Some? && v[5].Some?
    requires v[6].Some? && v[7].Some? && v[8].Some? && v[9].Some? && v[10].Some? && v[11].Some?
    ensures forall i | 0 <= i < 12 :: v[i].Some?
    ensures |p| == 12 && forall i | 0 <= i < 12 :: p[i] == Field(DOCUMENT[i], v[i].value)
    ensures Present(DOCUMENT, v, 15)
            == p + (Omitted("parent_agent_id", v[12]) + Omitted("revoked_at", v[13]) + Omitted("revoke_reason", v[14]))
  {
    p := Shape(DOCUMENT, v, 12);
    OptionalMembers(v, p);
  }

  lemma OptionalMembers(v: seq<Option<Json>>, p: seq<Field>)
    requires |v| == 15 && p == Present(DOCUMENT, v, 12) && |p| == 12
    ensures Present(DOCUMENT, v, 15)
            == p + (Omitted("parent_agent_id", v[12]) + Omitted("revoked_at", v[13]) + Omitted("revoke_reason", v[14]))
  {
    OptionalDocumentNames();
    PresentMore(DOCUMENT, v, 12);
    PresentMore(DOCUMENT, v, 13);
    PresentMore(DOCUMENT, v, 14);
    Appended(p, Omitted("parent_agent_id", v[12]), Omitted("revoked_at", v[13]), Omitted("revoke_reason", v[14]), []);
  }

  lemma OptionalDocumentNames()
    ensures DOCUMENT[12] == "parent_agent_id" && DOCUMENT[13] == "revoked_at" && DOCUMENT[14] == "revoke_reason"
  {
  }

  // ----- reading

  /** The value found under a name of a log entry. */
  function InEntry(c: Codec, fields: seq<Field>, name: string): Option<Json> {
    Find(c.fold, ENTRY, fields, name)
  }

  /** An object is read as this entry exactly when each field is the reading of the member of its name. */
  lemma EntryReadIff(c: Codec, fields: seq<Field>, e: AuditEntry)
    ensures EntryFrom(c, Obj(fields)) == Some(e) <==>
            && TextOf(InEntry(c, fields, "log_id")) == Some(e.logId)
            && TextOf(InEntry(c, fields, "agent_id")) == Some(e.agentId)
            && TextOf(InEntry(c, fields, "action")) == Some(e.action)
            && DictOf(c, InEntry(c, fields, "details")) == Some(e.details)
            && TextOf(InEntry(c, fields, "outcome")) == Some(OutcomeText(e.outcome))
            && TimeOf(c, InEntry(c, fields, "timestamp")) == Some(e.timestamp)
  {
    var v := Looked(c.fold, ENTRY, fields);
    assert v[0] == InEntry(c, fields, "log_id") && v[1] == InEntry(c, fields, "agent_id");
    assert v[2] == InEntry(c, fields, "action") && v[3] == InEntry(c, fields, "details");
    assert v[4] == InEntry(c, fields, "outcome") && v[5] == InEntry(c, fields, "timestamp");
    if TextOf(v[4]).Some? {
      OutcomeWords(e.outcome, TextOf(v[4]).value);
    }
  }

  function InCapabilities(c: Codec, fields: seq<Field>, name: string): Option<Json> {
    Find(c.fold, CAPABILITIES, fields, name)
  }

  lemma CapabilitiesFoundFirst(c: Codec, fields: seq<Field>, v: seq<Option<Json>>)
    requires v == Looked(c.fold, CAPABILITIES, fields) && |v| == 14
    ensures v[0] == InCapabilities(c, fields, "can_browse_web")
    ensures v[1] == InCapabilities(c, fields, "can_execute_code")
    ensures v[2] == InCapabilities(c, fields, "can_access_files")
    ensures v[3] == InCapabilities(c, fields, "can_call_apis")
  {
  }

  lemma CapabilitiesFoundSecond(c: Codec, fields: seq<Field>, v: seq<Option<Json>>)
    requires v == Looked(c.fold, CAPABILITIES, fields) && |v| == 14
    ensures v[4] == InCapabilities(c, fields, "can_spawn_agents")
    ensures v[5] == InCapabilities(c, fields, "can_access_database")
    ensures v[6] == InCapabilities(c, fields, "can_send_email")
    ensures v[7] == InCapabilities(c, fields, "max_actions_per_hour")
  {
  }

  lemma CapabilitiesFoundThird(c: Codec, fields: seq<Field>, v: seq<Option<Json>>)
    requires v == Looked(c.fold, CAPABILITIES, fields) && |v| == 14
    ensures v[8] == InCapabilities(c, fields, "trust_level")
    ensures v[9] == InCapabilities(c, fields, "human_in_loop")
    ensures v[10] == InCapabilities(c, fields, "allowed_domains")
  {
  }

  lemma CapabilitiesFoundLast(c: Codec, fields: seq<Field>, v: seq<Option<Json>>)
    requires v == Looked(c.fold, CAPABILITIES, fields) && |v| == 14
    ensures v[11] == InCapabilities(c, fields, "allowed_tools")
    ensures v[12] == InCapabilities(c, fields, "max_token_budget")
    ensures v[13] == InCapabilities(c, fields, "custom_permissions")
  {
  }

  lemma CapabilitiesFound(c: Codec, fields: seq<Field>, v: seq<Option<Json>>)
    requires v == Looked(c.fold, CAPABILITIES, fields)
    ensures |v| == 14
    ensures v[0] == InCapabilities(c, fields, "can_browse_web") && v[1] == InCapabilities(c, fields, "can_execute_code")
    ensures v[2] == InCapabilities(c, fields, "can_access_files") && v[3] == InCapabilities(c, fields, "can_call_apis")
    ensures v[4] == InCapabilities(c, fields, "can_spawn_agents")
    ensures v[5] == InCapabilities(c, fields, "can_access_database")
    ensures v[6] == InCapabilities(c, fields, "can_send_email")
    ensures v[7] == InCapabilities(c, fields, "max_actions_per_hour")
    ensures v[8] == InCapabilities(c, fields, "trust_level") && v[9] == InCapabilities(c, fields, "human_in_loop")
    ensures v[10] == InCapabilities(c, fields, "allowed_domains") && v[11] == InCapabilities(c, fields, "allowed_tools")
    ensures v[12] == InCapabilities(c, fields, "max_token_budget")
    ensures v[13] == InCapabilities(c, fields, "custom_permissions")
  {
    CapabilitiesFoundFirst(c, fields, v);
    CapabilitiesFoundSecond(c, fields, v);
    CapabilitiesFoundThird(c, fields, v);
    CapabilitiesFoundLast(c, fields, v);
  }

  /** Each field is the reading of its value. */
  predicate FillsCapabilities(c: Codec, v: seq<Option<Json>>, k: Capabilities)
    requires |v| == 14
  {
    && BoolOf(v[0]) == Some(k.browseWeb) && BoolOf(v[1]) == Some(k.executeCode)
    && BoolOf(v[2]) == Some(k.accessFiles) && BoolOf(v[3]) == Some(k.callApis)
    && BoolOf(v[4]) == Some(k.spawnAgents) && BoolOf(v[5]) == Some(k.accessDatabase)
    && BoolOf(v[6]) == Some(k.sendEmail) && IntOf(v[7]) == Some(k.maxActionsPerHour)
    && TextOf(v[8]) == Some(k.trustLevel) && BoolOf(v[9]) == Some(k.humanInLoop)
    && StringsOf(v[10]) == Some(k.allowedDomains) && StringsOf(v[11]) == Some(k.allowedTools)
    && IntRefOf(v[12]) == Some(k.maxTokenBudget) && DictOf(c, v[13]) == Some(k.customPermissions)
  }

  lemma CapabilitiesValuesIff(c: Codec, v: seq<Option<Json>>, k: Capabilities)
    requires |v| == 14
    ensures CapabilitiesRead(c, v) == Some(k) <==> FillsCapabilities(c, v, k)
  {
  }

  lemma CapabilitiesReadIff(c: Codec, fields: seq<Field>, k: Capabilities)
    ensures CapabilitiesFrom(c, Obj(fields)) == Some(k) <==>
            && BoolOf(InCapabilities(c, fields, "can_browse_web")) == Some(k.browseWeb)
            && BoolOf(InCapabilities(c, fields, "can_execute_code")) == Some(k.executeCode)
            && BoolOf(InCapabilities(c, fields, "can_access_files")) == Some(k.accessFiles)
            && BoolOf(InCapabilities(c, fields, "can_call_apis")) == Some(k.callApis)
            && BoolOf(InCapabilities(c, fields, "can_spawn_agents")) == Some(k.spawnAgents)
            && BoolOf(InCapabilities(c, fields, "can_access_database")) == Some(k.accessDatabase)
            && BoolOf(InCapabilities(c, fields, "can_send_email")) == Some(k.sendEmail)
            && IntOf(InCapabilities(c, fields, "max_actions_per_hour")) == Some(k.maxActionsPerHour)
            && TextOf(InCapabilities(c, fields, "trust_level")) == Some(k.trustLevel)
            && BoolOf(InCapabilities(c, fields, "human_in_loop")) == Some(k.humanInLoop)
            && StringsOf(InCapabilities(c, fields, "allowed_domains")) == Some(k.allowedDomains)
            && StringsOf(InCapabilities(c, fields, "allowed_tools")) == Some(k.allowedTools)
            && IntRefOf(InCapabilities(c, fields, "max_token_budget")) == Some(k.maxTokenBudget)
            && DictOf(c, InCapabilities(c, fields, "custom_permissions")) == Some(k.customPermissions)
  {
    var v := Looked(c.fold, CAPABILITIES, fields);
    CapabilitiesFound(c, fields, v);
    CapabilitiesValuesIff(c, v, k);
  }

  /** Bytes are read as the document their text is read as; bytes that are no text, or no JSON, as none. */
  lemma DecodeIff(c: Codec, b: seq<byte>, x: Exported)
    ensures Decode(c, b) == Some(x) <==>
            exists text, j :: b == Utf8.Encode(text) && Parse(text, false) == Some(j) && DocumentFrom(c, j) == Some(x)
  {
    if Decode(c, b) == Some(x) {
      var text := Utf8.Decode(b).value;
      Utf8.EncodeDecode(b);
      assert b == Utf8.Encode(text) && Parse(text, false).Some?;
    }
    if text, j :| b == Utf8.Encode(text) && Parse(text, false) == Some(j) && DocumentFrom(c, j) == Some(x) {
      Utf8.DecodeEncode(text);
    }
  }

  function InDocument(c: Codec, fields: seq<Field>, name: string): Option<Json> {
    Find(c.fold, DOCUMENT, fields, name)
  }

  lemma DocumentFoundFirst(c: Codec, fields: seq<Field>, v: seq<Option<Json>>)
    requires v == Looked(c.fold, DOCUMENT, fields) && |v| == 15
    ensures v[0] == InDocument(c, fields, "agent_id")
    ensures v[1] == InDocument(c, fields, "agent_name")
    ensures v[2] == InDocument(c, fields, "owner_org")
    ensures v[3] == InDocument(c, fields, "model")
  {
  }

  lemma DocumentFoundSecond(c: Codec, fields: seq<Field>, v: seq<Option<Json>>)
    requires v == Looked(c.fold, DOCUMENT, fields) && |v| == 15
    ensures v[4] == InDocument(c, fields, "status")
    ensures v[5] == InDocument(c, fields, "trust_level")
    ensures v[6] == InDocument(c, fields, "issued_at")
    ensures v[7] == InDocument(c, fields, "expires_at")
  {
  }

  lemma DocumentFoundThird(c: Codec, fields: seq<Field>, v: seq<Option<Json>>)
    requires v == Looked(c.fold, DOCUMENT, fields) && |v| == 15
    ensures v[8] == InDocument(c, fields, "actions_logged")
    ensures v[9] == InDocument(c, fields, "fingerprint")
    ensures v[10] == InDocument(c, fields, "capabilities")
    ensures v[11] == InDocument(c, fields, "audit_log")
  {
  }

  lemma DocumentFoundLast(c: Codec, fields: seq<Field>, v: seq<Option<Json>>)
    requires v == Looked(c.fold, DOCUMENT, fields) && |v| == 15
    ensures v[12] == InDocument(c, fields, "parent_agent_id")
    ensures v[13] == InDocument(c, fields, "revoked_at")
    ensures v[14] == InDocument(c, fields, "revoke_reason")
  {
  }

  lemma DocumentFound(c: Codec, fields: seq<Field>, v: seq<Option<Json>>)
    requires v == Looked(c.fold, DOCUMENT, fields)
    ensures |v| == 15
    ensures v[0] == InDocument(c, fields, "agent_id") && v[1] == InDocument(c, fields, "agent_name")
    ensures v[2] == InDocument(c, fields, "owner_org") && v[3] == InDocument(c, fields, "model")
    ensures v[4] == InDocument(c, fields, "status") && v[5] == InDocument(c, fields, "trust_level")
    ensures v[6] == InDocument(c, fields, "issued_at") && v[7] == InDocument(c, fields, "expires_at")
    ensures v[8] == InDocument(c, fields, "actions_logged") && v[9] == InDocument(c, fields, "fingerprint")
    ensures v[10] == InDocument(c, fields, "capabilities") && v[11] == InDocument(c, fields, "audit_log")
    ensures v[12] == InDocument(c, fields, "parent_agent_id") && v[13] == InDocument(c, fields, "revoked_at")
    ensures v[14] == InDocument(c, fields, "revoke_reason")
  {
    DocumentFoundFirst(c, fields, v);
    DocumentFoundSecond(c, fields, v);
    DocumentFoundThird(c, fields, v);
    DocumentFoundLast(c, fields, v);
  }

  lemma SummaryValuesIff(c: Codec, v: seq<Option<Json>>, s: PassportSummary)
    requires |v| == 15
    ensures SummaryRead(c, v) == Some(s) <==>
            && TextOf(v[0]) == Some(s.agentId) && TextOf(v[1]) == Some(s.agentName)
            && TextOf(v[2]) == Some(s.ownerOrg) && TextOf(v[3]) == Some(s.model)
            && TextOf(v[4]) == Some(StatusText(s.status)) && TextOf(v[5]) == Some(s.trustLevel)
            && TimeOf(c, v[6]) == Some(s.issuedAt) && TimeOf(c, v[7]) == Some(s.expiresAt)
            && IntOf(v[8]) == Some(s.actionsLogged) && TextOf(v[9]) == Some(s.fingerprint)
  {
    if TextOf(v[4]).Some? {
      StatusWords(s.status, TextOf(v[4]).value);
    }
  }

  lemma DocumentValuesIff(c: Codec, v: seq<Option<Json>>, x: Exported)
    requires |v| == 15
    ensures DocumentRead(c, v) == Some(x) <==>
            && SummaryRead(c, v) == Some(x.summary)
            && CapabilitiesFrom(c, OrNull(v[10])) == Some(x.capabilities) && LogOf(c, v[11]) == Some(x.log)
            && TextOf(v[12]) == Some(x.parentId) && TimeRefOf(c, v[13]) == Some(x.revokedAt)
            && TextOf(v[14]) == Some(x.revokeReason)
  {
  }

  /** An object is read as this document exactly when each field is the reading of the member of its name. */
  lemma DocumentReadIff(c: Codec, fields: seq<Field>, x: Exported)
    ensures DocumentFrom(c, Obj(fields)) == Some(x) <==>
            && TextOf(InDocument(c, fields, "agent_id")) == Some(x.summary.agentId)
            && TextOf(InDocument(c, fields, "agent_name")) == Some(x.summary.agentName)
            && TextOf(InDocument(c, fields, "owner_org")) == Some(x.summary.ownerOrg)
            && TextOf(InDocument(c, fields, "model")) == Some(x.summary.model)
            && TextOf(InDocument(c, fields, "status")) == Some(StatusText(x.summary.status))
            && TextOf(InDocument(c, fields, "trust_level")) == Some(x.summary.trustLevel)
            && TimeOf(c, InDocument(c, fields, "issued_at")) == Some(x.summary.issuedAt)
            && TimeOf(c, InDocument(c, fields, "expires_at")) == Some(x.summary.expiresAt)
            && IntOf(InDocument(c, fields, "actions_logged")) == Some(x.summary.actionsLogged)
            && TextOf(InDocument(c, fields, "fingerprint")) == Some(x.summary.fingerprint)
            && CapabilitiesFrom(c, OrNull(InDocument(c, fields, "capabilities"))) == Some(x.capabilities)
            && LogOf(c, InDocument(c, fields, "audit_log")) == Some(x.log)
            && TextOf(InDocument(c, fields, "parent_agent_id")) == Some(x.parentId)
            && TimeRefOf(c, InDocument(c, fields, "revoked_at")) == Some(x.revokedAt)
            && TextOf(InDocument(c, fields, "revoke_reason")) == Some(x.revokeReason)
  {
    var v := Looked(c.fold, DOCUMENT, fields);
    DocumentFound(c, fields, v);
    SummaryValuesIff(c, v, x.summary);
    DocumentValuesIff(c, v, x);
  }

  /** How a time and an audit log are read from their members. */
  lemma TimesAndLogs(c: Codec, s: string, items: seq<Json>, log: seq<AuditEntry>)
    ensures TimeOf(c, Some(Str(s))) == c.read(s) && TimeOf(c, None) == Some(-62_135_596_800_000_000_000)
    ensures TimeRefOf(c, None) == Some(None)
    ensures TimeRefOf(c, Some(Str(s))) == match c.read(s) case None => None case Some(t) => Some(Some(t))
    ensures LogOf(c, None) == Some([])
    ensures LogOf(c, Some(Arr(items))) == Some(log) <==>
            |log| == |items| && forall i | 0 <= i < |items| :: EntryFrom(c, items[i]) == Some(log[i])
  {
    if LogOf(c, Some(Arr(items))) == Some(log) {
      forall i | 0 <= i < |items| ensures EntryFrom(c, items[i]) == Some(log[i]) {
      }
    }
    if |log| == |items| && forall i | 0 <= i < |items| :: EntryFrom(c, items[i]) == Some(log[i]) {
      assert LogOf(c, Some(Arr(items))).value == log;
    }
  }
}
