/** Concurrent use of local passports (agent.go, office.go, helpers.go). Every method is split at the points
    where it takes the mutex; a step runs one critical section of one call, and steps of any number of calls
    interleave freely. Clock readings are arbitrary. */
module LocalRuns {
  import opened Text
  import opened GoValues
  import opened Passports
  import Agent

  datatype Call =
    | TrustCall(id: string)
    | VerifyCall(id: string, action: string)
    | RevokeCall(id: string, reason: string)
    | LogCall(id: string, action: string, details: Details, outcome: Outcome)
    | AuditLogCall(id: string)
    | SummaryCall(id: string)
    | ExportCall(id: string)
    | GuardCall(id: string, capability: string)
    | ReportCall(order: seq<string>)
    | IssueCall(options: Agent.IssueOptions, parent: Option<string>)

  datatype Result =
    | RTrust(b: bool)
    | RVerified
    | RBlocked(id: string, action: string)
    | RRevoked(id: string)
    | RLogged(id: string, action: string, outcome: Outcome)
    | RLog(id: string, log: seq<AuditEntry>)
    | RSummary(summary: PassportSummary)
    | RExport(id: string, doc: Exported)
    | RReport(order: seq<string>, active: nat, lines: seq<AuditLine>, torn: nat)
    | RReturned(id: string, capability: string, erred: bool)
    | RIssued(id: string)
    | RIssueRefused

  /** What a call does next. In a report, torn counts the passports that were trusted at their check and no
      longer active at their summary. */
  datatype Pc =
    | TrustPc(id: string)
    | VerifyPc(id: string, action: string)
    | BlockPc(id: string, action: string, reason: string)
    | RevokePc(id: string, reason: string)
    | RevokeLogPc(id: string, reason: string)
    | LogPc(id: string, action: string, details: Details, outcome: Outcome)
    | AuditLogPc(id: string)
    | SummaryPc(id: string)
    | ExportPc(id: string)
    | ExportSummaryPc(id: string, log: seq<AuditEntry>)
    | ExportRestPc(id: string, log: seq<AuditEntry>, summary: PassportSummary)
    | GuardPc(id: string, capability: string)
    | GuardVerifyPc(id: string, capability: string)
    | InsidePc(id: string, capability: string)
    | CalledPc(id: string, capability: string, erred: bool)
    | ReportPc(order: seq<string>, active: nat, lines: seq<AuditLine>, torn: nat)
    | LineSummaryPc(order: seq<string>, active: nat, lines: seq<AuditLine>, torn: nat, trusted: bool)
    | LineLogPc(order: seq<string>, active: nat, lines: seq<AuditLine>, torn: nat, summary: PassportSummary)
    | IssuePc(options: Agent.IssueOptions, parent: Option<string>)
    | BuildPc(options: Agent.IssueOptions, parent: Option<string>)
    | IssueLogPc(id: string, name: string)
    | Done(result: Result)

  datatype Written = Written(tid: nat, id: string, entry: AuditEntry)

  /** Passports and calls in progress; the journal and the order of birth are history only. */
  datatype State = State(
    passports: map<string, Passport>, threads: map<nat, Pc>, journal: seq<Written>, born: seq<string>, clock: int)

  /** now, uuid and erred stand for the clock, the random source and the wrapped function's error. */
  datatype Label =
    | Begin(tid: nat, call: Call)
    | Advance(tid: nat, now: int, uuid: string, erred: bool)

  function Start(c: Call): (pc: Pc)
    ensures !pc.Done?
  {
    match c
    case TrustCall(id) => TrustPc(id)
    case VerifyCall(id, action) => VerifyPc(id, action)
    case RevokeCall(id, reason) => RevokePc(id, RevokeText(reason))
    case LogCall(id, action, details, outcome) =>
      LogPc(id, action, details, if outcome == Unset then Success else outcome)
    case AuditLogCall(id) => AuditLogPc(id)
    case SummaryCall(id) => SummaryPc(id)
    case ExportCall(id) => ExportPc(id)
    case GuardCall(id, capability) => GuardPc(id, capability)
    case ReportCall(order) => ReportPc(order, 0, [], 0)
    case IssueCall(options, parent) => IssuePc(options, parent)
  }

  function Subjects(c: Call): set<string> {
    match c
    case ReportCall(order) => set id | id in order
    case IssueCall(_, parent) => if parent.Some? then {parent.value} else {}
    case _ => {c.id}
  }

  // ----- the step function

  /** The result of one critical section: the passport it changed, the entry it appended, the next pc. */
  datatype Effect = Effect(id: Option<string>, passport: Option<Passport>, entry: Option<AuditEntry>, pc: Pc)

  function Change(id: string, p: Passport, pc: Pc): Effect {
    Effect(Some(id), Some(p), None, pc)
  }

  function Append(id: string, p: Passport, e: AuditEntry, pc: Pc): Effect {
    Effect(Some(id), Some(AfterLog(p, e)), Some(e), pc)
  }

  function Look(pc: Pc): Effect {
    Effect(None, None, None, pc)
  }

  /** The passport a pc is about to touch. */
  function Target(pc: Pc): Option<string> {
    match pc
    case ReportPc(order, _, lines, _) => if |lines| < |order| then Some(order[|lines|]) else None
    case LineSummaryPc(order, _, lines, _, _) => if |lines| < |order| then Some(order[|lines|]) else None
    case LineLogPc(order, _, lines, _, _) => if |lines| < |order| then Some(order[|lines|]) else None
    case IssuePc(_, parent) => parent
    case BuildPc(_, _) => None
    case Done(_) => None
    case _ => Some(pc.id)
  }

  /** The critical section of a pc on its target p. */
  function Section(pc: Pc, id: string, p: Passport, now: int, uuid: string, erred: bool): Effect {
    var stamp := Stamp(uuid, now);
    var ok := TrustedAt(p, now);
    match pc
    case TrustPc(_) => Change(id, AfterTrust(p, now), Done(RTrust(ok)))
    case VerifyPc(_, action) =>
      Change(id, AfterTrust(p, now),
             if !ok then BlockPc(id, action, "passport_invalid")
             else if !Allows(p.capabilities, action) then BlockPc(id, action, "capability_not_granted")
             else Done(RVerified))
    case BlockPc(_, action, reason) =>
      Append(id, p, Entry(p, action, Reason(reason), Blocked, stamp), Done(RBlocked(id, action)))
    case RevokePc(_, reason) => Change(id, AfterRevoke(p, reason, now), RevokeLogPc(id, reason))
    case RevokeLogPc(_, reason) =>
      Append(id, p, Entry(p, "passport_revoked", Reason(reason), Success, stamp), Done(RRevoked(id)))
    case LogPc(_, action, details, outcome) =>
      Append(id, p, Entry(p, action, details, outcome, stamp), Done(RLogged(id, action, outcome)))
    case AuditLogPc(_) => Look(Done(RLog(id, p.log)))
    case SummaryPc(_) => Look(Done(RSummary(Summarize(p))))
    case ExportPc(_) => Look(ExportSummaryPc(id, p.log))
    case ExportSummaryPc(_, log) => Look(ExportRestPc(id, log, Summarize(p)))
    case ExportRestPc(_, log, summary) =>
      Look(Done(RExport(id, Exported(summary, p.capabilities, log, p.parentId, p.revokedAt, p.revokeReason))))
    case GuardPc(_, capability) =>
      Change(id, AfterTrust(p, now),
             if !ok then Done(RTrust(false))
             else if capability == "" then InsidePc(id, capability) else GuardVerifyPc(id, capability))
    case GuardVerifyPc(_, capability) =>
      Change(id, AfterTrust(p, now),
             if !ok then BlockPc(id, capability, "passport_invalid")
             else if !Allows(p.capabilities, capability) then BlockPc(id, capability, "capability_not_granted")
             else InsidePc(id, capability))
    case InsidePc(_, capability) => Look(CalledPc(id, capability, erred))
    case CalledPc(_, capability, failed) =>
      Append(id, p, Entry(p, capability + "_call", map[], if failed then Failure else Success, stamp),
             Done(RReturned(id, capability, failed)))
    case ReportPc(order, active, lines, torn) =>
      Change(id, AfterTrust(p, now), LineSummaryPc(order, if ok then active + 1 else active, lines, torn, ok))
    case LineSummaryPc(order, active, lines, torn, trusted) =>
      Look(LineLogPc(order, active, lines, if trusted && p.status != Active then torn + 1 else torn, Summarize(p)))
    case LineLogPc(order, active, lines, torn, summary) =>
      Look(ReportPc(order, active, lines + [AuditLine(summary, p.log)], torn))
    case IssuePc(options, parent) =>
      if !p.capabilities.spawnAgents then Look(Done(RIssueRefused))
      else Change(id, AfterTrust(p, now), if ok then BuildPc(options, parent) else Done(RIssueRefused))
    case IssueLogPc(_, name) =>
      Append(id, p, Entry(p, "passport_issued", map["agent_name" := String(name)], Success, stamp), Done(RIssued(id)))
    case BuildPc(_, _) => Look(pc)
    case Done(_) => Look(pc)
  }

  function Advanced(s: State, tid: nat, e: Effect, now: int): State {
    State(if e.id.Some? && e.passport.Some? then s.passports[e.id.value := e.passport.value] else s.passports,
          s.threads[tid := e.pc],
          if e.id.Some? && e.entry.Some? then s.journal + [Written(tid, e.id.value, e.entry.value)] else s.journal,
          s.born, now)
  }

  /** The passport an issuing call builds; the fingerprint is not part of this model. */
  function Built(options: Agent.IssueOptions, parent: Option<string>, uuid: string, now: int): Passport {
    Agent.Fresh(options, if parent.Some? then parent.value else "", uuid, now, "")
  }

  predicate Missing(o: Agent.IssueOptions) {
    o.agentName == "" || o.ownerOrg == "" || o.ownerEmail == ""
  }

  /** Steps that enter no passport's critical section: refusing incomplete options, passing on to the build
      without a parent, building, and closing a report. */
  predicate Outside(pc: Pc) {
    pc.BuildPc? || (pc.IssuePc? && (Missing(pc.options) || pc.parent.None?))
    || (pc.ReportPc? && |pc.lines| >= |pc.order|)
  }

  function Next(s: State, l: Label): Option<State> {
    match l
    case Begin(tid, call) =>
      if tid !in s.threads && Subjects(call) <= s.passports.Keys
      then Some(s.(threads := s.threads[tid := Start(call)])) else None
    case Advance(tid, now, uuid, erred) =>
      if tid !in s.threads then None
      else
        var pc := s.threads[tid];
        if pc.Done? then None
        else if pc.BuildPc? then
          if uuid == "" || uuid in s.passports then None
          else Some(State(s.passports[uuid := Built(pc.options, pc.parent, uuid, now)],
                          s.threads[tid := IssueLogPc(uuid, pc.options.agentName)], s.journal, s.born + [uuid], now))
        else if pc.IssuePc? && Missing(pc.options) then
          Some(s.(threads := s.threads[tid := Done(RIssueRefused)], clock := now))
        else if pc.IssuePc? && pc.parent.None? then
          Some(s.(threads := s.threads[tid := BuildPc(pc.options, None)], clock := now))
        else if pc.ReportPc? && |pc.lines| >= |pc.order| then
          Some(s.(threads := s.threads[tid := Done(RReport(pc.order, pc.active, pc.lines, pc.torn))], clock := now))
        else
          var id := Target(pc);
          if id.None? || id.value !in s.passports then None
          else Some(Advanced(s, tid, Section(pc, id.value, s.passports[id.value], now, uuid, erred), now))
  }

  ghost predicate Stepped(states: seq<State>, labels: seq<Label>, i: nat)
    requires i < |labels| && |states| == |labels| + 1
  {
    Next(states[i], labels[i]) == Some(states[i + 1])
  }

  /** A run lists its states and the labels between them. */
  ghost predicate IsRun(states: seq<State>, labels: seq<Label>) {
    |states| == |labels| + 1 && forall i | 0 <= i < |labels| :: Stepped(states, labels, i)
  }

  // ----- what every step keeps

  /** No step removes a passport, restores an inactive one, shortens a log or touches the other fields. */
  predicate Grows(p: Passport, q: Passport) {
    && p.log <= q.log
    && (q.status == Active ==> p.status == Active)
    && q == p.(status := q.status, revokedAt := q.revokedAt, revokeReason := q.revokeReason, log := q.log)
  }

  ghost predicate AllGrow(s: State, t: State) {
    forall id | id in s.passports :: id in t.passports && Grows(s.passports[id], t.passports[id])
  }

  lemma SectionGrows(pc: Pc, id: string, p: Passport, now: int, uuid: string, erred: bool)
    ensures var e := Section(pc, id, p, now, uuid, erred);
            (e.passport.Some? ==> e.id == Some(id) && Grows(p, e.passport.value))
            && (e.entry.Some? ==> e.passport == Some(AfterLog(p, e.entry.value)))
            && (e.passport.Some? && e.entry.None? ==> e.passport.value.log == p.log)
  {
  }

  lemma StepGrows(s: State, l: Label, t: State)
    requires Next(s, l) == Some(t)
    ensures AllGrow(s, t)
  {
    if l.Advance? && Target(s.threads[l.tid]).Some? {
      var id := Target(s.threads[l.tid]).value;
      if id in s.passports {
        SectionGrows(s.threads[l.tid], id, s.passports[id], l.now, l.uuid, l.erred);
      }
    }
  }

  lemma GrowsTransitive(p: Passport, q: Passport, r: Passport)
    requires Grows(p, q) && Grows(q, r)
    ensures Grows(p, r)
  {
  }

  lemma {:induction false} RunGrows(states: seq<State>, labels: seq<Label>, i: nat, j: nat)
    requires IsRun(states, labels) && i <= j < |states|
    ensures AllGrow(states[i], states[j])
    decreases j - i
  {
    if i < j {
      RunGrows(states, labels, i, j - 1);
      assert Stepped(states, labels, j - 1);
      StepGrows(states[j - 1], labels[j - 1], states[j]);
      forall id | id in states[i].passports
        ensures id in states[j].passports && Grows(states[i].passports[id], states[j].passports[id])
      {
        GrowsTransitive(states[i].passports[id], states[j - 1].passports[id], states[j].passports[id]);
      }
    }
  }

  // ----- trust latches

  predicate ChecksTrust(pc: Pc) {
    pc.TrustPc? || pc.VerifyPc? || pc.GuardPc? || pc.GuardVerifyPc? || pc.ReportPc?
    || (pc.IssuePc? && pc.parent.Some? && !Missing(pc.options))
  }

  /** The step is a trust check of this passport that fails, or a revocation of it. An issuing call checks
      trust only after the right to spawn. */
  ghost predicate Distrusts(s: State, l: Label, id: string) {
    && l.Advance? && l.tid in s.threads && Target(s.threads[l.tid]) == Some(id) && id in s.passports
    && (s.threads[l.tid].RevokePc?
        || (ChecksTrust(s.threads[l.tid]) && !TrustedAt(s.passports[id], l.now)
            && (s.threads[l.tid].IssuePc? ==> s.passports[id].capabilities.spawnAgents)))
  }

  /** Once a check has failed or a revocation has run, every later check fails, at any clock reading. */
  lemma TrustLatches(states: seq<State>, labels: seq<Label>, i: nat, j: nat, id: string, now: int)
    requires IsRun(states, labels) && i < j < |states| && Distrusts(states[i], labels[i], id)
    ensures id in states[j].passports && !TrustedAt(states[j].passports[id], now)
  {
    assert Stepped(states, labels, i);
    assert id in states[i + 1].passports && states[i + 1].passports[id].status != Active;
    RunGrows(states, labels, i + 1, j);
  }

  /** Every returned or copied log is a prefix of every later log of that passport. */
  lemma LogsArePrefixes(states: seq<State>, labels: seq<Label>, i: nat, j: nat, id: string)
    requires IsRun(states, labels) && i <= j < |states| && id in states[i].passports
    ensures id in states[j].passports && states[i].passports[id].log <= states[j].passports[id].log
  {
    RunGrows(states, labels, i, j);
  }

  // ----- the guard

  /** At step i, call tid saw the passport active, unexpired and granted the capability (if one is named). */
  ghost predicate Admits(states: seq<State>, labels: seq<Label>, i: nat, tid: nat, id: string, capability: string)
    requires |states| == |labels| + 1
  {
    && i < |labels| && labels[i].Advance? && labels[i].tid == tid
    && tid in states[i].threads && !states[i].threads[tid].Done?
    && id in states[i].passports && TrustedAt(states[i].passports[id], labels[i].now)
    && (capability != "" ==> Allows(states[i].passports[id].capabilities, capability))
  }

  lemma StepKeepsOthers(s: State, l: Label, t: State, tid: nat)
    requires Next(s, l) == Some(t) && tid in t.threads && l.tid != tid
    ensures tid in s.threads && t.threads[tid] == s.threads[tid]
  {
  }

  /** A guarded function runs only after an instant inside its own call at which the passport was active,
      unexpired and granted the action, whatever else was going on. */
  lemma {:induction false} GuardAdmits(states: seq<State>, labels: seq<Label>, k: nat, tid: nat)
    requires IsRun(states, labels) && k < |states| && tid !in states[0].threads
    requires tid in states[k].threads && states[k].threads[tid].InsidePc?
    ensures var pc := states[k].threads[tid];
            exists i | 0 <= i < k :: Admits(states, labels, i, tid, pc.id, pc.capability)
  {
    var pc := states[k].threads[tid];
    var s, l := states[k - 1], labels[k - 1];
    assert Stepped(states, labels, k - 1);
    if l.tid != tid {
      StepKeepsOthers(s, l, states[k], tid);
      GuardAdmits(states, labels, k - 1, tid);
    } else {
      assert l.Advance?;
      assert Admits(states, labels, k - 1, tid, pc.id, pc.capability);
    }
  }
}
