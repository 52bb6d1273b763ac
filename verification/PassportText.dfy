/** The JSON document of an exported passport (agent.go, capabilities.go): what Export writes and what
    LoadAgentPassport reads. */
module PassportText {
  import opened Text
  import opened Json
  import opened JsonNumber
  import opened GoValues
  import opened Members
  import opened Passports
  import Utf8

  /** What is abstract: float64s, the text of a time, its reading, and the folding of member names. Years
      outside 0 to 9999 have no text. */
  datatype Codec = Codec(
    floats: Floats, stamp: int -> Option<string>, read: string -> Option<int>, fold: string -> string)

  /** All that is assumed: a time's text is read back, and the zero time and a time that was read
      have texts. */
  ghost predicate Faithful(c: Codec) {
    && Sound(c.floats)
    && (forall t | c.stamp(t).Some? :: c.read(c.stamp(t).value) == Some(t))
    && (forall s | c.read(s).Some? :: c.stamp(c.read(s).value).Some?)
    && c.stamp(ZERO_TIME).Some?
  }

  predicate Timed(c: Codec, t: int) {
    c.stamp(t).Some?
  }

  // ----- audit entries

  const ENTRY: seq<string> := ["log_id", "agent_id", "action", "details", "outcome", "timestamp"]

  function OutcomeText(o: Outcome): string {
    match o
    case Unset => ""
    case Success => "success"
    case Blocked => "blocked"
    case Failure => "failure"
    case Other(text) => text
  }

  function OutcomeFrom(s: string): Outcome {
    if s == "" then Unset
    else if s == "success" then Success
    else if s == "blocked" then Blocked
    else if s == "failure" then Failure
    else Other(s)
  }

  function OmitDict(c: Codec, d: Details): Option<Json> {
    if d == map[] then None else Some(ToJson(c.floats, Dict(d)))
  }

  function DictOf(c: Codec, o: Option<Json>): Option<Details> {
    if o.None? || o.value.Null? then Some(map[])
    else
      var v :- FromJson(c.floats, o.value);
      if v.Dict? then Some(v.entries) else None
  }

  function TimeJson(c: Codec, t: int): Option<Json>
    requires Timed(c, t)
  {
    Some(Str(c.stamp(t).value))
  }

  function TimeOf(c: Codec, o: Option<Json>): Option<int> {
    if o.None? || o.value.Null? then Some(ZERO_TIME) else if o.value.Str? then c.read(o.value.s) else None
  }

  function TimeRefOf(c: Codec, o: Option<Json>): Option<Option<int>> {
    if o.None? || o.value.Null? then Some(None)
    else
      var t :- TimeOf(c, o);
      Some(Some(t))
  }

  /** The values under the names, in their order. */
  function EntryValues(c: Codec, e: AuditEntry): (v: seq<Option<Json>>)
    requires Timed(c, e.timestamp)
    ensures |v| == 6
  {
    [Some(Str(e.logId)), Some(Str(e.agentId)),
     Some(Str(e.action)), OmitDict(c, e.details),
     Some(Str(OutcomeText(e.outcome))), TimeJson(c, e.timestamp)]
  }

  function EntryJson(c: Codec, e: AuditEntry): Json
    requires Timed(c, e.timestamp)
  {
    Struct(ENTRY, EntryValues(c, e))
  }

  /** From the members in the order of their names. */
  function EntryRead(c: Codec, v: seq<Option<Json>>): Option<AuditEntry>
    requires |v| == 6
  {
    var logId :- TextOf(v[0]);
    var agentId :- TextOf(v[1]);
    var action :- TextOf(v[2]);
    var details :- DictOf(c, v[3]);
    var outcome :- TextOf(v[4]);
    var timestamp :- TimeOf(c, v[5]);
    Some(AuditEntry(logId, agentId, action, details, OutcomeFrom(outcome), timestamp))
  }

  function EntryFrom(c: Codec, j: Json): Option<AuditEntry> {
    var f :- MembersOf(j);
    EntryRead(c, Looked(c.fold, ENTRY, f))
  }

  // ----- capabilities

  const CAPABILITIES: seq<string> :=
    ["can_browse_web", "can_execute_code", "can_access_files", "can_call_apis", "can_spawn_agents",
     "can_access_database", "can_send_email", "max_actions_per_hour", "trust_level", "human_in_loop",
     "allowed_domains", "allowed_tools", "max_token_budget", "custom_permissions"]

  function CapabilitiesValues(c: Codec, k: Capabilities): (v: seq<Option<Json>>)
    ensures |v| == 14
  {
    [Some(Bool(k.browseWeb)), Some(Bool(k.executeCode)),
     Some(Bool(k.accessFiles)), Some(Bool(k.callApis)),
     Some(Bool(k.spawnAgents)), Some(Bool(k.accessDatabase)),
     Some(Bool(k.sendEmail)),
     Some(Num(IntText(k.maxActionsPerHour))),
     Some(Str(k.trustLevel)), Some(Bool(k.humanInLoop)),
     OmitStrings(k.allowedDomains), OmitStrings(k.allowedTools),
     if k.maxTokenBudget.Some? then Some(Num(IntText(k.maxTokenBudget.value))) else None,
     OmitDict(c, k.customPermissions)]
  }

  function CapabilitiesJson(c: Codec, k: Capabilities): Json {
    Struct(CAPABILITIES, CapabilitiesValues(c, k))
  }

  function CapabilitiesRead(c: Codec, v: seq<Option<Json>>): Option<Capabilities>
    requires |v| == 14
  {
    var browseWeb :- BoolOf(v[0]);
    var executeCode :- BoolOf(v[1]);
    var accessFiles :- BoolOf(v[2]);
    var callApis :- BoolOf(v[3]);
    var spawnAgents :- BoolOf(v[4]);
    var accessDatabase :- BoolOf(v[5]);
    var sendEmail :- BoolOf(v[6]);
    var maxActions :- IntOf(v[7]);
    var trustLevel :- TextOf(v[8]);
    var humanInLoop :- BoolOf(v[9]);
    var domains :- StringsOf(v[10]);
    var tools :- StringsOf(v[11]);
    var budget :- IntRefOf(v[12]);
    var custom :- DictOf(c, v[13]);
    Some(Capabilities(browseWeb, executeCode, accessFiles, callApis, spawnAgents, accessDatabase, sendEmail, maxActions,
                      trustLevel, humanInLoop, domains, tools, budget, custom))
  }

  function CapabilitiesFrom(c: Codec, j: Json): Option<Capabilities> {
    var f :- MembersOf(j);
    CapabilitiesRead(c, Looked(c.fold, CAPABILITIES, f))
  }

  // ----- the document

  const DOCUMENT: seq<string> :=
    ["agent_id", "agent_name", "owner_org", "model", "status", "trust_level", "issued_at", "expires_at",
     "actions_logged", "fingerprint", "capabilities", "audit_log", "parent_agent_id", "revoked_at", "revoke_reason"]

  function StatusText(s: Status): string {
    match s
    case Active => "active"
    case Revoked => "revoked"
    case Expired => "expired"
    case Unknown(text) => text
  }

  function StatusFrom(s: string): Status {
    if s == "active" then Active else if s == "revoked" then Revoked else if s == "expired" then Expired else Unknown(s)
  }

  /** Every time in the document has a text; otherwise encoding it is an error. */
  predicate AllTimed(c: Codec, x: Exported) {
    && Timed(c, x.summary.issuedAt) && Timed(c, x.summary.expiresAt)
    && (x.revokedAt.Some? ==> Timed(c, x.revokedAt.value))
    && forall i | 0 <= i < |x.log| :: Timed(c, x.log[i].timestamp)
  }

  function LogJson(c: Codec, log: seq<AuditEntry>): Json
    requires forall i | 0 <= i < |log| :: Timed(c, log[i].timestamp)
  {
    Arr(seq(|log|, i requires 0 <= i < |log| => EntryJson(c, log[i])))
  }

  function LogOf(c: Codec, o: Option<Json>): Option<seq<AuditEntry>> {
    if o.None? || o.value.Null? then Some([])
    else if !o.value.Arr? then None
    else
      var items := o.value.items;
      if forall i | 0 <= i < |items| :: EntryFrom(c, items[i]).Some?
      then
        Some(seq(|items|, i requires 0 <= i < |items| && EntryFrom(c, items[i]).Some? =>
          EntryFrom(c, items[i]).value))
      else None
  }

  function SummaryValues(c: Codec, s: PassportSummary): (v: seq<Option<Json>>)
    requires Timed(c, s.issuedAt) && Timed(c, s.expiresAt)
    ensures |v| == 10
  {
    [Some(Str(s.agentId)), Some(Str(s.agentName)),
     Some(Str(s.ownerOrg)), Some(Str(s.model)),
     Some(Str(StatusText(s.status))), Some(Str(s.trustLevel)),
     TimeJson(c, s.issuedAt), TimeJson(c, s.expiresAt),
     Some(Num(IntText(s.actionsLogged))), Some(Str(s.fingerprint))]
  }

  /** The embedded summary first, then the other members. */
  function DocumentValues(c: Codec, x: Exported): (v: seq<Option<Json>>)
    requires AllTimed(c, x)
    ensures |v| == 15
  {
    SummaryValues(c, x.summary) +
    [Some(CapabilitiesJson(c, x.capabilities)), Some(LogJson(c, x.log)),
     OmitText(x.parentId),
     if x.revokedAt.Some? then TimeJson(c, x.revokedAt.value) else None,
     OmitText(x.revokeReason)]
  }

  function DocumentJson(c: Codec, x: Exported): Json
    requires AllTimed(c, x)
  {
    Struct(DOCUMENT, DocumentValues(c, x))
  }

  function SummaryRead(c: Codec, v: seq<Option<Json>>): Option<PassportSummary>
    requires |v| == 15
  {
    var agentId :- TextOf(v[0]);
    var agentName :- TextOf(v[1]);
    var ownerOrg :- TextOf(v[2]);
    var model :- TextOf(v[3]);
    var status :- TextOf(v[4]);
    var trustLevel :- TextOf(v[5]);
    var issuedAt :- TimeOf(c, v[6]);
    var expiresAt :- TimeOf(c, v[7]);
    var actionsLogged :- IntOf(v[8]);
    var fingerprint :- TextOf(v[9]);
    Some(PassportSummary(agentId, agentName, ownerOrg, model, StatusFrom(status), trustLevel, issuedAt, expiresAt,
                         actionsLogged, fingerprint))
  }

  function DocumentRead(c: Codec, v: seq<Option<Json>>): Option<Exported>
    requires |v| == 15
  {
    var summary :- SummaryRead(c, v);
    var capabilities :- CapabilitiesFrom(c, OrNull(v[10]));
    var log :- LogOf(c, v[11]);
    var parentId :- TextOf(v[12]);
    var revokedAt :- TimeRefOf(c, v[13]);
    var revokeReason :- TextOf(v[14]);
    Some(Exported(summary, capabilities, log, parentId, revokedAt, revokeReason))
  }

  function DocumentFrom(c: Codec, j: Json): Option<Exported> {
    var f :- MembersOf(j);
    DocumentRead(c, Looked(c.fold, DOCUMENT, f))
  }

  function OrNull(o: Option<Json>): Json {
    if o.Some? then o.value else Null
  }

  /** MarshalIndent with two blanks. */
  function Encode(c: Codec, x: Exported): Option<seq<byte>> {
    if AllTimed(c, x) then Some(Utf8.Encode(Print(DocumentJson(c, x), Indented(0)))) else None
  }

  function Decode(c: Codec, b: seq<byte>): Option<Exported> {
    var text :- Utf8.Decode(b);
    var j :- Parse(text, false);
    DocumentFrom(c, j)
  }

  // ----- what comes back

  function RoundDetails(f: Floats, d: Details): Option<Details> {
    var v := Rounded(f, Dict(d));
    if v.Some? && v.value.Dict? then Some(v.value.entries) else None
  }

  function RoundEntry(f: Floats, e: AuditEntry): Option<AuditEntry> {
    var d :- RoundDetails(f, e.details);
    Some(e.(details := d))
  }

  function RoundLog(f: Floats, log: seq<AuditEntry>): Option<seq<AuditEntry>> {
    if forall i | 0 <= i < |log| :: RoundEntry(f, log[i]).Some?
    then Some(seq(|log|, i requires 0 <= i < |log| && RoundEntry(f, log[i]).Some? => RoundEntry(f, log[i]).value))
    else None
  }

  /** The document with every integer in its details and custom permissions rounded to a float64. */
  function RoundDocument(f: Floats, x: Exported): Option<Exported> {
    var custom :- RoundDetails(f, x.capabilities.customPermissions);
    var log :- RoundLog(f, x.log);
    Some(x.(capabilities := x.capabilities.(customPermissions := custom), log := log))
  }

  predicate DetailsOk(f: Floats, d: Details) {
    Float64s(f, Dict(d))
  }

  /** Every float in the document is a float64. */
  predicate AllFloat64s(f: Floats, x: Exported) {
    && DetailsOk(f, x.capabilities.customPermissions)
    && forall i | 0 <= i < |x.log| :: DetailsOk(f, x.log[i].details)
  }

  lemma EntryNames()
    ensures Distinct(ENTRY) && |ENTRY| == 6
  {
  }

  lemma CapabilitiesNames()
    ensures Distinct(CAPABILITIES) && |CAPABILITIES| == 14
  {
  }

  lemma DocumentNames()
    ensures Distinct(DOCUMENT) && |DOCUMENT| == 15
  {
  }
}
