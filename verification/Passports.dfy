/** The local agent passport (agent.go, capabilities.go): its value, the critical sections its methods run
    under the mutex, and the export record. */
module Passports {
  import opened Text
  import opened GoValues

  type OtherStatus = s: string | s != "active" && s != "revoked" && s != "expired" witness ""

  type OtherOutcome = s: string | s != "" && s != "success" && s != "blocked" && s != "failure" witness "other"

  /** Loading accepts any status text and logging any outcome text. */
  datatype Status = Active | Revoked | Expired | Unknown(text: OtherStatus)

  datatype Outcome = Unset | Success | Blocked | Failure | Other(text: OtherOutcome)

  /** A nil and an empty map are the same value here. */
  type Details = map<string, Value>

  datatype AuditEntry = AuditEntry(
    logId: string, agentId: string, action: string, details: Details, outcome: Outcome, timestamp: int)

  datatype Capabilities = Capabilities(
    browseWeb: bool, executeCode: bool, accessFiles: bool, callApis: bool, spawnAgents: bool,
    accessDatabase: bool, sendEmail: bool, maxActionsPerHour: int, trustLevel: string, humanInLoop: bool,
    allowedDomains: seq<string>, allowedTools: seq<string>, maxTokenBudget: Option<int>, customPermissions: Details)

  function Allows(c: Capabilities, action: string): bool {
    if action == "browse_web" then c.browseWeb
    else if action == "execute_code" then c.executeCode
    else if action == "access_files" then c.accessFiles
    else if action == "call_api" then c.callApis
    else if action == "spawn_agent" then c.spawnAgents
    else if action == "access_database" then c.accessDatabase
    else if action == "send_email" then c.sendEmail
    else false
  }

  /** The names of the actions a capability set grants. */
  ghost function GrantedActions(c: Capabilities): set<string> {
    (if c.browseWeb then {"browse_web"} else {}) + (if c.executeCode then {"execute_code"} else {})
    + (if c.accessFiles then {"access_files"} else {}) + (if c.callApis then {"call_api"} else {})
    + (if c.spawnAgents then {"spawn_agent"} else {}) + (if c.accessDatabase then {"access_database"} else {})
    + (if c.sendEmail then {"send_email"} else {})
  }

  lemma AllowsIff(c: Capabilities, action: string)
    ensures Allows(c, action) <==> action in GrantedActions(c)
  {
    assert "browse_web"[0] != "send_email"[0] && "execute_code"[0] != "access_files"[0];
  }

  /** Go's zero time in Unix nanoseconds: a passport with this time of expiry never expires. */
  const ZERO_TIME: int := -62_135_596_800_000_000_000

  datatype Passport = Passport(
    agentId: string, agentName: string, agentType: string, ownerOrg: string, ownerEmail: string,
    model: string, version: string, status: Status, trustLevel: string, parentId: string,
    issuedAt: int, expiresAt: int, revokedAt: Option<int>, revokeReason: string,
    capabilities: Capabilities, fingerprint: string, log: seq<AuditEntry>)

  /** The fresh values a log call draws before it takes the lock. */
  datatype Stamp = Stamp(logId: string, at: int)

  // ----- critical sections

  predicate Lapsed(p: Passport, now: int) {
    p.expiresAt != ZERO_TIME && now > p.expiresAt
  }

  predicate TrustedAt(p: Passport, now: int) {
    p.status == Active && !Lapsed(p, now)
  }

  /** IsTrusted: an observed expiry is written into the status. */
  function AfterTrust(p: Passport, now: int): Passport {
    if p.status == Active && Lapsed(p, now) then p.(status := Expired) else p
  }

  function AfterRevoke(p: Passport, reason: string, now: int): Passport {
    p.(status := Revoked, revokedAt := Some(now), revokeReason := if reason == "" then "Manual revocation" else reason)
  }

  function Entry(p: Passport, action: string, details: Details, outcome: Outcome, stamp: Stamp): AuditEntry {
    AuditEntry(stamp.logId, p.agentId, action, details, if outcome == Unset then Success else outcome, stamp.at)
  }

  function AfterLog(p: Passport, e: AuditEntry): Passport {
    p.(log := p.log + [e])
  }

  function Reason(text: string): Details {
    map["reason" := String(text)]
  }

  datatype PassportSummary = PassportSummary(
    agentId: string, agentName: string, ownerOrg: string, model: string, status: Status, trustLevel: string,
    issuedAt: int, expiresAt: int, actionsLogged: int, fingerprint: string)

  function Summarize(p: Passport): PassportSummary {
    PassportSummary(p.agentId, p.agentName, p.ownerOrg, p.model, p.status, p.trustLevel, p.issuedAt, p.expiresAt,
            |p.log|, p.fingerprint)
  }

  /** One passport's line in an audit report. */
  datatype AuditLine = AuditLine(summary: PassportSummary, log: seq<AuditEntry>)

  function CountActive(lines: seq<AuditLine>): (n: nat)
    ensures n <= |lines|
  {
    if lines == [] then 0
    else CountActive(lines[..|lines| - 1]) + if lines[|lines| - 1].summary.status == Active then 1 else 0
  }

  // ----- export and load

  /** The exported document, before it is written as JSON. */
  datatype Exported = Exported(
    summary: PassportSummary, capabilities: Capabilities, log: seq<AuditEntry>, parentId: string,
    revokedAt: Option<int>, revokeReason: string)

  function Export(p: Passport): Exported {
    Exported(Summarize(p), p.capabilities, p.log, p.parentId, p.revokedAt, p.revokeReason)
  }

  /** AgentType and Version come back as their defaults and OwnerEmail as the empty text. */
  function Load(x: Exported): Passport {
    Passport(x.summary.agentId, x.summary.agentName, "general", x.summary.ownerOrg, "", x.summary.model, "1.0.0",
             x.summary.status, x.summary.trustLevel, x.parentId, x.summary.issuedAt, x.summary.expiresAt,
             x.revokedAt, x.revokeReason, x.capabilities, x.summary.fingerprint, x.log)
  }

  // ----- observations

  datatype Op =
    | OpTrust(now: int)
    | OpVerify(action: string, now: int, stamp: Stamp)
    | OpRevoke(reason: string, now: int, stamp: Stamp)
    | OpLog(action: string, details: Details, outcome: Outcome, stamp: Stamp)
    | OpSummary
    | OpAuditLog
    | OpExport

  datatype Answer =
    | ABool(b: bool)
    | ADone
    | AEntry(entry: AuditEntry)
    | ASummary(summary: PassportSummary)
    | ALog(log: seq<AuditEntry>)
    | AExport(doc: Exported)

  function RevokeText(reason: string): string {
    if reason == "" then "Manual revocation" else reason
  }

  /** VerifyAction: a refusal leaves a blocked entry that says why. */
  function Verify(p: Passport, action: string, now: int, stamp: Stamp): (Passport, bool) {
    var q := AfterTrust(p, now);
    if !TrustedAt(p, now) then (AfterLog(q, Entry(q, action, Reason("passport_invalid"), Blocked, stamp)), false)
    else if !Allows(q.capabilities, action) then
      (AfterLog(q, Entry(q, action, Reason("capability_not_granted"), Blocked, stamp)), false)
    else (q, true)
  }

  function RevokeLogged(p: Passport, reason: string, now: int, stamp: Stamp): Passport {
    var q := AfterRevoke(p, reason, now);
    AfterLog(q, Entry(q, "passport_revoked", Reason(RevokeText(reason)), Success, stamp))
  }

  /** One method call on a passport nobody else is using. */
  function Apply(p: Passport, op: Op): (Passport, Answer) {
    match op
    case OpTrust(now) => (AfterTrust(p, now), ABool(TrustedAt(p, now)))
    case OpVerify(action, now, stamp) =>
      var r := Verify(p, action, now, stamp);
      (r.0, ABool(r.1))
    case OpRevoke(reason, now, stamp) => (RevokeLogged(p, reason, now, stamp), ADone)
    case OpLog(action, details, outcome, stamp) =>
      var e := Entry(p, action, details, outcome, stamp);
      (AfterLog(p, e), AEntry(e))
    case OpSummary => (p, ASummary(Summarize(p)))
    case OpAuditLog => (p, ALog(p.log))
    case OpExport => (p, AExport(Export(p)))
  }

  function ApplyAll(p: Passport, ops: seq<Op>): Passport
    decreases |ops|
  {
    if ops == [] then p else ApplyAll(Apply(p, ops[0]).0, ops[1..])
  }

  function Answers(p: Passport, ops: seq<Op>): (a: seq<Answer>)
    ensures |a| == |ops|
    decreases |ops|
  {
    if ops == [] then [] else [Apply(p, ops[0]).1] + Answers(Apply(p, ops[0]).0, ops[1..])
  }

  /** Same passport but for the three fields Export drops. */
  predicate Alike(p: Passport, q: Passport) {
    p.(agentType := "", ownerEmail := "", version := "") == q.(agentType := "", ownerEmail := "", version := "")
  }

  lemma {:induction false} AlikeAnswers(p: Passport, q: Passport, ops: seq<Op>)
    requires Alike(p, q)
    ensures Answers(p, ops) == Answers(q, ops)
    ensures Alike(ApplyAll(p, ops), ApplyAll(q, ops))
    decreases |ops|
  {
    if ops != [] {
      AlikeStep(p, q, ops[0]);
      AlikeAnswers(Apply(p, ops[0]).0, Apply(q, ops[0]).0, ops[1..]);
    }
  }

  lemma AlikeStep(p: Passport, q: Passport, op: Op)
    requires Alike(p, q)
    ensures Apply(p, op).1 == Apply(q, op).1 && Alike(Apply(p, op).0, Apply(q, op).0)
  {
  }

  /** A passport reloaded from its export answers every later sequence of calls as the original would. */
  lemma LoadIsEquivalent(p: Passport, ops: seq<Op>)
    ensures Answers(Load(Export(p)), ops) == Answers(p, ops)
  {
    AlikeAnswers(Load(Export(p)), p, ops);
  }

  /** A document that describes one state: its count is its log's length. */
  predicate Coherent(x: Exported) {
    x.summary.actionsLogged == |x.log|
  }

  /** The object itself comes back exactly when the three fields that are not exported had their defaults. */
  lemma LoadExportIff(p: Passport)
    ensures Coherent(Export(p)) && Export(Load(Export(p))) == Export(p)
    ensures Load(Export(p)) == p <==> p.agentType == "general" && p.ownerEmail == "" && p.version == "1.0.0"
  {
  }

  /** Nothing but a revocation touches the reason, and a later revocation replaces an earlier one. */
  lemma {:induction false} LastReasonWins(
    p: Passport, ops: seq<Op>, reason: string, now: int, stamp: Stamp, later: seq<Op>
  )
    requires forall i | 0 <= i < |later| :: !later[i].OpRevoke?
    ensures ApplyAll(p, ops + [OpRevoke(reason, now, stamp)] + later).revokeReason
            == if reason == "" then "Manual revocation" else reason
  {
    ApplyAppend(p, ops + [OpRevoke(reason, now, stamp)], later);
    ApplyAppend(p, ops, [OpRevoke(reason, now, stamp)]);
    var q := ApplyAll(p, ops);
    assert ApplyAll(q, [OpRevoke(reason, now, stamp)]) == RevokeLogged(q, reason, now, stamp);
    KeepsReason(RevokeLogged(q, reason, now, stamp), later);
  }

  lemma {:induction false} ApplyAppend(p: Passport, a: seq<Op>, b: seq<Op>)
    ensures ApplyAll(p, a + b) == ApplyAll(ApplyAll(p, a), b)
    decreases |a|
  {
    if a == [] {
      assert a + b == b;
    } else {
      assert (a + b)[1..] == a[1..] + b;
      ApplyAppend(Apply(p, a[0]).0, a[1..], b);
    }
  }

  lemma {:induction false} KeepsReason(p: Passport, ops: seq<Op>)
    requires forall i | 0 <= i < |ops| :: !ops[i].OpRevoke?
    ensures ApplyAll(p, ops).revokeReason == p.revokeReason
    decreases |ops|
  {
    if ops != [] {
      KeepsReason(Apply(p, ops[0]).0, ops[1..]);
    }
  }
}
