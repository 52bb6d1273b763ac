/** The mutable passport object and the guard around a function (agent.go, helpers.go). Each method is the
    composition of the critical sections of module Passports, run by one caller at a time. */
module Agent {
  import opened Text
  import opened Passports
  import opened PassportText
  import opened GoValues
  import J = Json
  import Utf8

  datatype Error = ErrRegistration | ErrTrust | ErrAuthentication | ErrEncoding

  datatype Result<+T> = Ok(value: T) | Err(error: Error)

  datatype IssueOptions = IssueOptions(
    agentName: string, agentType: string, ownerOrg: string, ownerEmail: string,
    capabilities: Capabilities, model: string, version: string, expiresIn: int)

  const DAY: int := 86_400_000_000_000

  function OrDefault(s: string, default: string): string {
    if s == "" then default else s
  }

  /** The passport IssueAgentPassport builds, before its first log entry. */
  function Fresh(o: IssueOptions, parentId: string, id: string, now: int, fingerprint: string): Passport {
    Passport(id, o.agentName, OrDefault(o.agentType, "general"), o.ownerOrg, o.ownerEmail,
             OrDefault(o.model, "unknown"), OrDefault(o.version, "1.0.0"), Active, o.capabilities.trustLevel, parentId,
             now, now + if o.expiresIn <= 0 then DAY else o.expiresIn, None, "", o.capabilities, fingerprint, [])
  }

  function Issued(o: IssueOptions, parentId: string, id: string, now: int, fingerprint: string, stamp: Stamp)
    : Passport
  {
    var p := Fresh(o, parentId, id, now, fingerprint);
    AfterLog(p, Entry(p, "passport_issued", map["agent_name" := String(o.agentName)], Success, stamp))
  }

  class AgentPassport {
    const agentId: string
    const agentName: string
    const agentType: string
    const ownerOrg: string
    const ownerEmail: string
    const model: string
    const version: string
    const trustLevel: string
    const parentId: string
    const issuedAt: int
    const expiresAt: int
    const capabilities: Capabilities
    const fingerprint: string
    var status: Status
    var revokedAt: Option<int>
    var revokeReason: string
    var auditLog: seq<AuditEntry>

    function Model(): (p: Passport)
      reads this
    {
      Passport(agentId, agentName, agentType, ownerOrg, ownerEmail, model, version, status, trustLevel, parentId,
               issuedAt, expiresAt, revokedAt, revokeReason, capabilities, fingerprint, auditLog)
    }

    constructor (p: Passport)
      ensures Model() == p
    {
      agentId, agentName, agentType := p.agentId, p.agentName, p.agentType;
      ownerOrg, ownerEmail, model, version := p.ownerOrg, p.ownerEmail, p.model, p.version;
      trustLevel, parentId, issuedAt, expiresAt := p.trustLevel, p.parentId, p.issuedAt, p.expiresAt;
      capabilities, fingerprint := p.capabilities, p.fingerprint;
      status, revokedAt, revokeReason, auditLog := p.status, p.revokedAt, p.revokeReason, p.log;
    }

    /** Active, and either without an expiry (Go's zero time) or not past it. */
    ghost predicate Trusts(now: int)
      reads this
    {
      status == Active && (expiresAt == -62_135_596_800_000_000_000 || now <= expiresAt)
    }

    /** IssueAgentPassport: required fields, then the parent's right to spawn, then the parent's trust, which
        may write the parent's expiry. */
    static method Issue(o: IssueOptions, parent: AgentPassport?, checkedAt: int, id: string, now: int,
                        fingerprint: string, stamp: Stamp)
      returns (r: Result<AgentPassport>)
      modifies if parent == null then {} else {parent}
      ensures o.agentName == "" || o.ownerOrg == "" || o.ownerEmail == "" ==> r == Err(ErrRegistration)
      ensures r == Err(ErrRegistration) ==> o.agentName == "" || o.ownerOrg == "" || o.ownerEmail == ""
      ensures r.Ok? ==> fresh(r.value)
                        && r.value.Model() == Issued(o, if parent == null then "" else parent.agentId, id, now,
                                                     fingerprint, stamp)
      ensures parent != null && r != Err(ErrRegistration) ==>
                (r.Ok? <==> parent.capabilities.spawnAgents && old(TrustedAt(parent.Model(), checkedAt)))
      ensures parent == null ==> r != Err(ErrTrust)
      ensures parent != null ==>
                parent.Model() == if r != Err(ErrRegistration) && parent.capabilities.spawnAgents
                                  then AfterTrust(old(parent.Model()), checkedAt) else old(parent.Model())
      ensures parent != null && r != Err(ErrRegistration) ==>
                (r.Ok? <==> parent.capabilities.spawnAgents && old(parent.Trusts(checkedAt)))
      ensures r.Ok? ==>
                var p := r.value;
                p.agentId == id && p.agentName == o.agentName
                && p.ownerOrg == o.ownerOrg && p.ownerEmail == o.ownerEmail
                && p.agentType == (if o.agentType == "" then "general" else o.agentType)
                && p.model == (if o.model == "" then "unknown" else o.model)
                && p.version == (if o.version == "" then "1.0.0" else o.version)
                && p.status == Active && p.trustLevel == o.capabilities.trustLevel
                && p.capabilities == o.capabilities && p.fingerprint == fingerprint
                && p.revokedAt == None && p.revokeReason == ""
                && p.parentId == (if parent == null then "" else parent.agentId)
                && p.issuedAt == now
                && p.expiresAt == now + (if o.expiresIn <= 0 then 24 * 3600 * 1_000_000_000 else o.expiresIn)
                && p.auditLog == [AuditEntry(stamp.logId, id, "passport_issued",
                                             map["agent_name" := String(o.agentName)], Success, stamp.at)]
    {
      if o.agentName == "" || o.ownerOrg == "" || o.ownerEmail == "" {
        return Err(ErrRegistration);
      }
      if parent != null {
        if !parent.capabilities.spawnAgents {
          return Err(ErrTrust);
        }
        var trusted := parent.IsTrusted(checkedAt);
        if !trusted {
          return Err(ErrTrust);
        }
      }
      var p := new AgentPassport(Fresh(o, if parent == null then "" else parent.agentId, id, now, fingerprint));
      var _ := p.LogAction("passport_issued", map["agent_name" := String(o.agentName)], Success, stamp);
      r := Ok(p);
    }

    method LogAction(action: string, details: Details, outcome: Outcome, stamp: Stamp) returns (e: AuditEntry)
      modifies this`auditLog
      ensures e == Entry(old(Model()), action, details, outcome, stamp)
      ensures Model() == AfterLog(old(Model()), e)
      ensures e == AuditEntry(stamp.logId, agentId, action, details, if outcome == Unset then Success else outcome,
                              stamp.at)
      ensures auditLog == old(auditLog) + [e]
    {
      var effective := outcome;
      if effective == Unset {
        effective := Success;
      }
      e := AuditEntry(stamp.logId, agentId, action, details, effective, stamp.at);
      auditLog := auditLog + [e];
    }

    method IsTrusted(now: int) returns (b: bool)
      modifies this`status
      ensures b == TrustedAt(old(Model()), now)
      ensures Model() == AfterTrust(old(Model()), now)
      ensures b <==> status == Active
      ensures b <==> old(Trusts(now))
      ensures status == if old(status) == Active && !b then Expired else old(status)
    {
      if status != Active {
        return false;
      }
      if expiresAt != ZERO_TIME && now > expiresAt {
        status := Expired;
        return false;
      }
      return true;
    }

    method VerifyAction(action: string, now: int, stamp: Stamp) returns (b: bool)
      modifies this`status, this`auditLog
      ensures (Model(), b) == Verify(old(Model()), action, now, stamp)
      ensures b <==> old(Trusts(now)) && action in GrantedActions(capabilities)
      ensures status == if old(status) == Active && !old(Trusts(now)) then Expired else old(status)
      ensures b ==> auditLog == old(auditLog)
      ensures !b ==>
                var reason := if old(Trusts(now)) then "capability_not_granted" else "passport_invalid";
                auditLog == old(auditLog) + [AuditEntry(stamp.logId, agentId, action, map["reason" := String(reason)],
                                                        Blocked, stamp.at)]
    {
      AllowsIff(capabilities, action);
      var trusted := IsTrusted(now);
      if !trusted {
        var _ := LogAction(action, Reason("passport_invalid"), Blocked, stamp);
        return false;
      }
      if !Allows(capabilities, action) {
        var _ := LogAction(action, Reason("capability_not_granted"), Blocked, stamp);
        return false;
      }
      return true;
    }

    method Revoke(reason: string, now: int, stamp: Stamp)
      modifies this
      ensures Model() == RevokeLogged(old(Model()), reason, now, stamp)
      ensures status == Revoked && revokedAt == Some(now)
      ensures revokeReason == if reason == "" then "Manual revocation" else reason
      ensures auditLog == old(auditLog) + [AuditEntry(stamp.logId, agentId, "passport_revoked",
                                                      map["reason" := String(revokeReason)], Success, stamp.at)]
    {
      var text := reason;
      if text == "" {
        text := "Manual revocation";
      }
      status := Revoked;
      revokedAt := Some(now);
      revokeReason := text;
      var _ := LogAction("passport_revoked", Reason(text), Success, stamp);
    }

    method AuditLog() returns (log: seq<AuditEntry>)
      ensures log == Model().log && log == auditLog
    {
      log := auditLog;
    }

    method Summary() returns (s: PassportSummary)
      ensures s == Summarize(Model())
      ensures s == PassportSummary(agentId, agentName, ownerOrg, model, status, trustLevel, issuedAt, expiresAt,
                                   |auditLog|, fingerprint)
    {
      s := PassportSummary(agentId, agentName, ownerOrg, model, status, trustLevel, issuedAt, expiresAt,
                           |auditLog|, fingerprint);
    }

    /** The document Export writes: the log is copied before the summary is taken. */
    method Document() returns (x: Exported)
      ensures x == Passports.Export(Model())
      ensures x.summary == PassportSummary(agentId, agentName, ownerOrg, model, status, trustLevel, issuedAt, expiresAt,
                                           |auditLog|, fingerprint)
      ensures x.capabilities == capabilities && x.log == auditLog && x.parentId == parentId
      ensures x.revokedAt == revokedAt && x.revokeReason == revokeReason
    {
      var log := auditLog;
      var s := Summary();
      x := Exported(s, capabilities, log, parentId, revokedAt, revokeReason);
    }

    /** Export: the JSON bytes, or the encoder's error for a time without a text. */
    method Export(c: Codec) returns (r: Result<seq<byte>>)
      ensures r == match Encode(c, Passports.Export(Model())) case None => Err(ErrEncoding) case Some(b) => Ok(b)
      ensures r.Ok? <==> c.stamp(issuedAt).Some? && c.stamp(expiresAt).Some?
                         && (revokedAt.Some? ==> c.stamp(revokedAt.value).Some?)
                         && forall i | 0 <= i < |auditLog| :: c.stamp(auditLog[i].timestamp).Some?
      ensures r.Ok? ==> r.value == Utf8.Encode(J.Print(DocumentJson(c, Passports.Export(Model())), J.Indented(0)))
    {
      var x := Document();
      if !AllTimed(c, x) {
        return Err(ErrEncoding);
      }
      r := Ok(Encode(c, x).value);
    }

    /** LoadAgentPassport. */
    static method Load(c: Codec, bytes: seq<byte>) returns (r: Result<AgentPassport>)
      ensures Decode(c, bytes).None? <==> r == Err(ErrRegistration)
      ensures Decode(c, bytes).Some? <==> r.Ok?
      ensures r.Ok? ==> fresh(r.value) && r.value.Model() == Passports.Load(Decode(c, bytes).value)
      ensures r.Ok? ==>
                var p, x := r.value, Decode(c, bytes).value;
                p.agentId == x.summary.agentId && p.agentName == x.summary.agentName && p.agentType == "general"
                && p.ownerOrg == x.summary.ownerOrg && p.ownerEmail == "" && p.model == x.summary.model
                && p.version == "1.0.0" && p.status == x.summary.status && p.trustLevel == x.summary.trustLevel
                && p.parentId == x.parentId && p.issuedAt == x.summary.issuedAt && p.expiresAt == x.summary.expiresAt
                && p.revokedAt == x.revokedAt && p.revokeReason == x.revokeReason
                && p.capabilities == x.capabilities && p.fingerprint == x.summary.fingerprint && p.auditLog == x.log
    {
      var x := Decode(c, bytes);
      if x.None? {
        return Err(ErrRegistration);
      }
      var p := new AgentPassport(Passports.Load(x.value));
      r := Ok(p);
    }

    /** What a wrapped function does to its passport: any sequence of method calls. */
    method Use(ops: seq<Op>) returns (answers: seq<Answer>)
      modifies this
      ensures Model() == ApplyAll(old(Model()), ops)
      ensures answers == Answers(old(Model()), ops)
      ensures |ops| == 1 && ops[0].OpTrust? ==> answers == [ABool(old(Trusts(ops[0].now)))]
      ensures |ops| == 1 && ops[0].OpVerify? ==>
                answers == [ABool(old(Trusts(ops[0].now)) && ops[0].action in GrantedActions(capabilities))]
      ensures |ops| == 1 && ops[0].OpRevoke? ==>
                status == Revoked && revokedAt == Some(ops[0].now) && |auditLog| == old(|auditLog|) + 1
      ensures |ops| == 1 && ops[0].OpLog? ==>
                answers == [AEntry(AuditEntry(ops[0].stamp.logId, agentId, ops[0].action, ops[0].details,
                                              if ops[0].outcome == Unset then Success else ops[0].outcome,
                                              ops[0].stamp.at))]
                && auditLog == old(auditLog) + [answers[0].entry]
      ensures |ops| == 1 && ops[0].OpAuditLog? ==> answers == [ALog(auditLog)] && auditLog == old(auditLog)
      decreases |ops|
    {
      if ops == [] {
        return [];
      }
      var first: Answer;
      match ops[0] {
        case OpTrust(now) => var b := IsTrusted(now); first := ABool(b);
        case OpVerify(action, now, stamp) => var b := VerifyAction(action, now, stamp); first := ABool(b);
        case OpRevoke(reason, now, stamp) => Revoke(reason, now, stamp); first := ADone;
        case OpLog(action, details, outcome, stamp) =>
          var e := LogAction(action, details, outcome, stamp); first := AEntry(e);
        case OpSummary => var s := Summary(); first := ASummary(s);
        case OpAuditLog => var log := AuditLog(); first := ALog(log);
        case OpExport => var x := Document(); first := AExport(x);
      }
      var rest := Use(ops[1..]);
      answers := [first] + rest;
    }
  }

  /** What the wrapper returns: the function's own result and error flag, or the wrapper's refusal. */
  datatype Guarded<+R> = Returned(result: R, erred: bool) | Refused(error: Error)

  function CallEntry(p: Passport, capability: string, erred: bool, stamp: Stamp): AuditEntry {
    Entry(p, capability + "_call", map[], if erred then Failure else Success, stamp)
  }

  /** The wrapper as a function: the checks, then the body's own calls, then one entry for the call. */
  function Guard<R>(p: Passport, capability: string, now: int, again: int, denied: Stamp, body: seq<Op>, result: R,
                    erred: bool, called: Stamp): (Passport, Guarded<R>) {
    if !TrustedAt(p, now) then (AfterTrust(p, now), Refused(ErrAuthentication))
    else
      var v := if capability == "" then (AfterTrust(p, now), true)
               else Verify(AfterTrust(p, now), capability, again, denied);
      if !v.1 then (v.0, Refused(ErrTrust))
      else
        var q := ApplyAll(v.0, body);
        (AfterLog(q, CallEntry(q, capability, erred, called)), Returned(result, erred))
  }

  /** RequirePassport: two trust readings when a capability is asked for, the function, and the log entry. */
  method RequirePassport<R>(p: AgentPassport?, capability: string, now: int, again: int, denied: Stamp,
                            body: seq<Op>, result: R, erred: bool, called: Stamp)
    returns (r: Guarded<R>)
    modifies if p == null then {} else {p}
    ensures p == null ==> r == Refused(ErrAuthentication)
    ensures p != null ==>
              (p.Model(), r) == Guard(old(p.Model()), capability, now, again, denied, body, result, erred, called)
    ensures p != null && !old(p.Trusts(now)) ==>
              r == Refused(ErrAuthentication) && p.auditLog == old(p.auditLog)
              && p.status == if old(p.status) == Active then Expired else old(p.status)
    ensures p != null && old(p.Trusts(now)) && capability != ""
            && !(old(p.Trusts(again)) && capability in GrantedActions(p.capabilities)) ==>
              var reason := if old(p.Trusts(again)) then "capability_not_granted" else "passport_invalid";
              r == Refused(ErrTrust)
              && p.auditLog == old(p.auditLog) + [AuditEntry(denied.logId, p.agentId, capability,
                                                             map["reason" := String(reason)], Blocked, denied.at)]
    ensures p != null && old(p.Trusts(now))
            && (capability == "" || (old(p.Trusts(again)) && capability in GrantedActions(p.capabilities))) ==>
              r == Returned(result, erred)
              && p.auditLog == ApplyAll(old(p.Model()), body).log
                               + [AuditEntry(called.logId, p.agentId, capability + "_call", map[],
                                             if erred then Failure else Success, called.at)]
  {
    if p == null {
      return Refused(ErrAuthentication);
    }
    var trusted := p.IsTrusted(now);
    if !trusted {
      return Refused(ErrAuthentication);
    }
    if capability != "" {
      var granted := p.VerifyAction(capability, again, denied);
      if !granted {
        return Refused(ErrTrust);
      }
    }
    var _ := p.Use(body);
    var outcome := Success;
    if erred {
      outcome := Failure;
    }
    var _ := p.LogAction(capability + "_call", map[], outcome, called);
    r := Returned(result, erred);
  }
}
