/** The server's agent tables under concurrent requests (server/handlers_agents.go, server/signer.go). Each
    request is a thread that runs one SQL statement per step; statements of any number of requests and server
    processes interleave, may fail with or without taking effect, and processes may crash at any point. */
module Registry {
  import opened Text
  import opened Statements
  import opened Json
  import P = Payload
  import opened GoQuote

  /** What is abstract: the signature scheme, unicode.IsPrint, and "is blank after trimming". */
  datatype Env = Env(
    sign: (string, seq<byte>) -> string,
    verify: (string, seq<byte>, string) -> bool,
    isPrint: char -> bool,
    blank: string -> bool)

  /** All that is assumed: a signature verifies under the key that made it, and IsPrint on ASCII. */
  ghost predicate Sound(env: Env) {
    && (forall k, m :: env.verify(k, m, env.sign(k, m)))
    && PrintsAscii(env.isPrint)
  }

  datatype Status = Active | Revoked

  datatype AgentRow = AgentRow(
    name: string, description: string, organization: string, capabilities: seq<string>, status: Status,
    key: string, signature: string, payload: seq<byte>, issuedAt: string, revokedAt: Option<int>,
    revokeReason: string)

  type Table = map<string, AgentRow>

  /** A row of agent_actions; writer names the request that inserted it and is history only. */
  datatype ActionRow = ActionRow(passportId: string, action: string, details: Json, outcome: string, writer: nat)

  datatype Op =
    | Register(id: string, name: string, description: string, organization: string, capabilities: seq<string>,
               issuedAt: string)
    | Verify(id: string)
    | Capability(id: string, capability: string)
    | LogAction(id: string, action: string, details: Json, outcome: string)
    | Revoke(id: string, reason: string)

  datatype Response =
    | Created(id: string)
    | Verified(id: string, status: Status, signatureValid: bool, capabilities: seq<string>, issuedAt: string,
               revokedAt: Option<int>)
    | Granted(capability: string, issuedAt: string)
    | Denied(reason: string)
    | Logged
    | RevokedOk(reason: string)
    | NotFound
    | BadRequest
    | ServerError

  predicate ValidOutcome(o: string) {
    o == "success" || o == "blocked" || o == "failure"
  }

  function OutcomeOf(o: string): string {
    if o == "" then "success" else o
  }

  function ReasonOf(r: string): string {
    if r == "" then "manual revocation" else r
  }

  predicate Acceptable(env: Env, op: Op) {
    match op
    case Register(_, name, _, organization, _, _) => !env.blank(name) && !env.blank(organization)
    case LogAction(_, action, _, outcome) => !env.blank(action) && ValidOutcome(OutcomeOf(outcome))
    case _ => true
  }

  // ----- rows

  function PayloadOf(id: string, row: AgentRow): P.CanonicalPayload {
    P.CanonicalPayload(id, row.name, row.organization, row.capabilities, row.issuedAt)
  }

  function NewRow(env: Env, key: string, op: Op): AgentRow
    requires op.Register?
  {
    var bytes := P.CanonicalBytes(P.CanonicalPayload(op.id, op.name, op.organization, op.capabilities, op.issuedAt));
    AgentRow(op.name, op.description, op.organization, op.capabilities, Active, key, env.sign(key, bytes), bytes,
             op.issuedAt, None, "")
  }

  function RevokedRow(row: AgentRow, reason: string, now: int): AgentRow {
    row.(status := Revoked, revokedAt := Some(now), revokeReason := ReasonOf(reason))
  }

  /** The details column of a lifecycle row: a %q literal cast to jsonb, or a failed cast. */
  function LifecycleDetails(env: Env, op: Op): Option<Json> {
    if op.Register? || op.Revoke? then Parse(Details(LifecycleKey(op), LifecycleText(op), env.isPrint), true)
    else None
  }

  function LifecycleKey(op: Op): string {
    if op.Register? then "name" else "reason"
  }

  function LifecycleText(op: Op): string {
    if op.Register? then op.name else if op.Revoke? then ReasonOf(op.reason) else ""
  }

  function LifecycleAction(op: Op): string {
    if op.Register? then "passport_issued" else "passport_revoked"
  }

  // ----- the atomic registry a caller would wish for

  /** The table and answer of an operation performed at one instant, with nothing going wrong. It shares nothing
      with the statements below but the payload's bytes. */
  function Atomic(env: Env, reg: Table, op: Op, key: string, now: int): (Table, Response) {
    match op
    case Register(id, name, description, organization, capabilities, issuedAt) =>
      if env.blank(name) || env.blank(organization) then (reg, BadRequest)
      else if id in reg then (reg, ServerError)
      else
        var payload := P.CanonicalBytes(P.CanonicalPayload(id, name, organization, capabilities, issuedAt));
        (reg[id := AgentRow(name, description, organization, capabilities, Active, key, env.sign(key, payload), payload,
                            issuedAt, None, "")],
         Created(id))
    case Verify(id) =>
      if id !in reg then (reg, NotFound)
      else
        (reg, Verified(id, reg[id].status, env.verify(key, reg[id].payload, reg[id].signature), reg[id].capabilities,
                       reg[id].issuedAt, reg[id].revokedAt))
    case Capability(id, capability) =>
      if id !in reg then (reg, NotFound)
      else if reg[id].status == Revoked then (reg, Denied("passport_revoked"))
      else if capability in reg[id].capabilities then (reg, Granted(capability, reg[id].issuedAt))
      else (reg, Denied("capability_not_found"))
    case LogAction(id, action, _, outcome) =>
      if env.blank(action) || outcome !in {"", "success", "blocked", "failure"} then (reg, BadRequest)
      else if id !in reg then (reg, NotFound)
      else (reg, Logged)
    case Revoke(id, reason) =>
      var text := if reason == "" then "manual revocation" else reason;
      if id !in reg then (reg, NotFound)
      else if reg[id].status == Revoked then (reg, RevokedOk(text))
      else (reg[id := reg[id].(status := Revoked, revokedAt := Some(now), revokeReason := text)], RevokedOk(text))
  }

  // ----- threads

  /** Revoke's EXISTS query is Check; the audit insert of register and revoke is Lifecycle. */
  datatype Pc = First | Check | Lifecycle | Finish(response: Response) | Closed(response: Response)

  /** What became of the one audit row a request may write. */
  datatype Audit = NotYet | Written | Dropped(fault: Fault)

  /** point is the request's place in the linearisation, once it has one; invoked is its place in history. */
  datatype Thread = Thread(pid: nat, op: Op, pc: Pc, point: Option<nat>, audit: Audit, invoked: nat)

  /** One entry of the linearisation. */
  datatype Entry = Entry(rid: nat, op: Op, key: string, now: int, fault: Fault, response: Response)

  datatype Event = Invoked(rid: nat, op: Op) | Responded(rid: nat, response: Response)

  /** A server process: between SELECT and INSERT of the signing key it holds the key it generated. */
  datatype Proc = Booting | Generated(key: string) | Up(key: string) | Down

  /** lin, history and marks are history variables: marks[i] is the length of lin at event i. */
  datatype State = State(
    agents: Table, actions: seq<ActionRow>, keyRow: Option<string>, procs: map<nat, Proc>,
    requests: map<nat, Thread>, lin: seq<Entry>, history: seq<Event>, marks: seq<nat>)

  datatype Label =
    | Boot(pid: nat)
    | BootSelect(pid: nat, generated: string, fault: Fault)
    | BootInsert(pid: nat, fault: Fault)
    | Crash(pid: nat)
    | Invoke(rid: nat, pid: nat, op: Op)
    | Statement(rid: nat, now: int, fault: Fault)
    | Respond(rid: nat)

  // ----- one statement

  /** The table after the statement, the audit row it inserted, the next pc, the fate of the audit row, and
      the answer if this is the statement at which the request takes effect. */
  datatype Effect = Effect(agents: Table, row: Option<ActionRow>, pc: Pc, audit: Audit, answer: Option<Response>)

  function InsertAgent(env: Env, agents: Table, op: Op, key: string, fault: Fault): Effect
    requires op.Register?
  {
    var stored := if op.id in agents || fault == Lost then agents else agents[op.id := NewRow(env, key, op)];
    if fault != NoFault || op.id in agents then Effect(stored, None, Finish(ServerError), NotYet, Some(ServerError))
    else Effect(stored, None, Lifecycle, NotYet, Some(Created(op.id)))
  }

  function SelectAgent(env: Env, agents: Table, op: Op, key: string, fault: Fault): Effect
    requires op.Verify? || op.Capability?
  {
    var response :=
      if fault != NoFault then ServerError
      else if op.id !in agents then NotFound
      else
        var row := agents[op.id];
        if op.Verify? then
          Verified(op.id, row.status, env.verify(key, row.payload, row.signature), row.capabilities, row.issuedAt,
                   row.revokedAt)
        else if row.status == Revoked then Denied("passport_revoked")
        else if op.capability in row.capabilities then Granted(op.capability, row.issuedAt)
        else Denied("capability_not_found");
    Effect(agents, None, Finish(response), NotYet, Some(response))
  }

  /** INSERT ... SELECT ... WHERE EXISTS. */
  function InsertAction(agents: Table, op: Op, rid: nat, fault: Fault): Effect
    requires op.LogAction?
  {
    var response := if fault != NoFault then ServerError else if op.id in agents then Logged else NotFound;
    if op.id in agents && fault != Lost then
      Effect(agents, Some(ActionRow(op.id, op.action, op.details, OutcomeOf(op.outcome), rid)), Finish(response),
             Written, Some(response))
    else Effect(agents, None, Finish(response), NotYet, Some(response))
  }

  /** UPDATE ... WHERE status = 'active'; with no row affected the handler looks whether the row exists. */
  function UpdateAgent(agents: Table, op: Op, now: int, fault: Fault): Effect
    requires op.Revoke?
  {
    var hit := op.id in agents && agents[op.id].status == Active;
    var stored := if hit && fault != Lost then agents[op.id := RevokedRow(agents[op.id], op.reason, now)] else agents;
    if fault != NoFault then Effect(stored, None, Finish(ServerError), NotYet, Some(ServerError))
    else if hit then Effect(stored, None, Lifecycle, NotYet, Some(RevokedOk(ReasonOf(op.reason))))
    else Effect(stored, None, Check, NotYet, None)
  }

  /** SELECT EXISTS; its error is ignored and reads as "does not exist". */
  function CheckAgent(agents: Table, op: Op, fault: Fault): Effect
    requires op.Revoke?
  {
    if fault == NoFault && op.id in agents then
      Effect(agents, None, Lifecycle, NotYet, Some(RevokedOk(ReasonOf(op.reason))))
    else Effect(agents, None, Finish(NotFound), NotYet, Some(NotFound))
  }

  /** The lifecycle insert: foreign key, jsonb cast, and an ignored error. */
  function InsertLifecycle(env: Env, agents: Table, op: Op, rid: nat, fault: Fault): Effect {
    var details := LifecycleDetails(env, op);
    var answer :=
      if op.Register? then Created(op.id) else if op.Revoke? then RevokedOk(ReasonOf(op.reason)) else ServerError;
    if op.id in agents && details.Some? && fault != Lost then
      Effect(agents, Some(ActionRow(op.id, LifecycleAction(op), details.value, "success", rid)), Finish(answer),
             Written, None)
    else Effect(agents, None, Finish(answer), Dropped(fault), None)
  }

  /** The statement a thread runs next. */
  function Execute(env: Env, agents: Table, rid: nat, t: Thread, key: string, now: int, fault: Fault): Effect {
    if t.pc.Lifecycle? then InsertLifecycle(env, agents, t.op, rid, fault)
    else if t.pc.Check? && t.op.Revoke? then CheckAgent(agents, t.op, fault)
    else if t.pc.First? then
      match t.op
      case Register(_, _, _, _, _, _) => InsertAgent(env, agents, t.op, key, fault)
      case Verify(_) => SelectAgent(env, agents, t.op, key, fault)
      case Capability(_, _) => SelectAgent(env, agents, t.op, key, fault)
      case LogAction(_, _, _, _) => InsertAction(agents, t.op, rid, fault)
      case Revoke(_, _) => UpdateAgent(agents, t.op, now, fault)
    else Effect(agents, None, t.pc, t.audit, None)
  }

  /** The fault an entry records: a failed EXISTS has no effect either way. */
  function FaultAt(t: Thread, fault: Fault): Fault {
    if t.pc.Check? && fault != NoFault then Lost else fault
  }

  function AfterStatement(env: Env, s: State, rid: nat, now: int, fault: Fault, key: string): State
    requires rid in s.requests
  {
    var t := s.requests[rid];
    var e := Execute(env, s.agents, rid, t, key, now, fault);
    s.(agents := e.agents,
       actions := if e.row.Some? then s.actions + [e.row.value] else s.actions,
       requests := s.requests[rid := t.(pc := e.pc, audit := e.audit,
                                        point := if e.answer.Some? then Some(|s.lin|) else t.point)],
       lin := if e.answer.Some? then s.lin + [Entry(rid, t.op, key, now, FaultAt(t, fault), e.answer.value)] else s.lin)
  }

  function AfterInvoke(env: Env, s: State, rid: nat, pid: nat, op: Op): State {
    var ok := Acceptable(env, op);
    var entry := Entry(rid, op, "", 0, NoFault, BadRequest);
    s.(requests := s.requests[rid := Thread(pid, op, if ok then First else Finish(BadRequest),
                                            if ok then None else Some(|s.lin|), NotYet, |s.history|)],
       lin := if ok then s.lin else s.lin + [entry],
       history := s.history + [Invoked(rid, op)], marks := s.marks + [|s.lin|])
  }

  function AfterRespond(s: State, rid: nat, response: Response): State
    requires rid in s.requests
  {
    s.(requests := s.requests[rid := s.requests[rid].(pc := Closed(response))],
       history := s.history + [Responded(rid, response)], marks := s.marks + [|s.lin|])
  }

  predicate Running(t: Thread) {
    t.pc.First? || t.pc.Check? || t.pc.Lifecycle?
  }

  function Next(env: Env, s: State, l: Label): Option<State> {
    match l
    case Boot(pid) => if pid in s.procs then None else Some(s.(procs := s.procs[pid := Booting]))
    case BootSelect(pid, generated, fault) =>
      if pid !in s.procs || !s.procs[pid].Booting? then None
      else Some(s.(procs := s.procs[pid := if fault != NoFault then Down
                                           else if s.keyRow.Some? then Up(s.keyRow.value) else Generated(generated)]))
    case BootInsert(pid, fault) =>
      if pid !in s.procs || !s.procs[pid].Generated? then None
      else
        var key := s.procs[pid].key;
        Some(s.(keyRow := if s.keyRow.Some? || fault == Lost then s.keyRow else Some(key),
                procs := s.procs[pid := if fault != NoFault then Down else Up(key)]))
    case Crash(pid) => if pid in s.procs then Some(s.(procs := s.procs[pid := Down])) else None
    case Invoke(rid, pid, op) =>
      if rid in s.requests || pid !in s.procs || !s.procs[pid].Up? then None
      else Some(AfterInvoke(env, s, rid, pid, op))
    case Statement(rid, now, fault) =>
      if rid !in s.requests || !Running(s.requests[rid]) then None
      else if s.requests[rid].pid !in s.procs || !s.procs[s.requests[rid].pid].Up? then None
      else Some(AfterStatement(env, s, rid, now, fault, s.procs[s.requests[rid].pid].key))
    case Respond(rid) =>
      if rid !in s.requests || !s.requests[rid].pc.Finish? then None
      else if s.requests[rid].pid !in s.procs || !s.procs[s.requests[rid].pid].Up? then None
      else Some(AfterRespond(s, rid, s.requests[rid].pc.response))
  }

  ghost predicate Stepped(env: Env, states: seq<State>, labels: seq<Label>, i: nat)
    requires i < |labels| && |states| == |labels| + 1
  {
    Next(env, states[i], labels[i]) == Some(states[i + 1])
  }

  ghost predicate IsRun(env: Env, states: seq<State>, labels: seq<Label>) {
    |states| == |labels| + 1 && forall i | 0 <= i < |labels| :: Stepped(env, states, labels, i)
  }

  /** A freshly migrated database and no server. */
  const INITIAL := State(map[], [], None, map[], map[], [], [], [])

  // ----- what every step keeps

  /** Rows are never deleted, only the first revocation writes to one, and nothing rewrites what was signed. */
  predicate RowGrows(p: AgentRow, q: AgentRow) {
    && (p.status == Revoked ==> q == p)
    && q == p.(status := q.status, revokedAt := q.revokedAt, revokeReason := q.revokeReason)
  }

  ghost predicate TableGrows(p: Table, q: Table) {
    forall id | id in p :: id in q && RowGrows(p[id], q[id])
  }

  lemma ExecuteGrows(env: Env, agents: Table, rid: nat, t: Thread, key: string, now: int, fault: Fault)
    ensures TableGrows(agents, Execute(env, agents, rid, t, key, now, fault).agents)
  {
  }

  lemma StepGrows(env: Env, s: State, l: Label, t: State)
    requires Next(env, s, l) == Some(t)
    ensures TableGrows(s.agents, t.agents) && s.actions <= t.actions && s.lin <= t.lin
  {
    if l.Statement? {
      ExecuteGrows(env, s.agents, l.rid, s.requests[l.rid], s.procs[s.requests[l.rid].pid].key, l.now, l.fault);
    }
  }

  /** Over any stretch of a run: of all revokes of one passport only the first to update writes the time and
      the reason, payloads and signatures stay as stored, and audit rows are never changed or removed. */
  lemma {:induction false} RunGrows(env: Env, states: seq<State>, labels: seq<Label>, i: nat, j: nat)
    requires IsRun(env, states, labels) && i <= j < |states|
    ensures TableGrows(states[i].agents, states[j].agents) && states[i].actions <= states[j].actions
    decreases j - i
  {
    if i < j {
      RunGrows(env, states, labels, i, j - 1);
      assert Stepped(env, states, labels, j - 1);
      StepGrows(env, states[j - 1], labels[j - 1], states[j]);
      forall id | id in states[i].agents
        ensures id in states[j].agents && RowGrows(states[i].agents[id], states[j].agents[id])
      {
        assert RowGrows(states[i].agents[id], states[j - 1].agents[id]);
      }
    }
  }

  /** A run goes on where another ends. */
  lemma JoinRuns(env: Env, states: seq<State>, labels: seq<Label>, more: seq<State>, next: seq<Label>)
    requires IsRun(env, states, labels) && IsRun(env, more, next) && states[|labels|] == more[0]
    ensures IsRun(env, states + more[1..], labels + next)
  {
    var all := states + more[1..];
    forall i | 0 <= i < |labels + next| ensures Stepped(env, all, labels + next, i) {
      if i < |labels| {
        assert Stepped(env, states, labels, i);
      } else {
        assert Stepped(env, more, next, i - |labels|);
        assert all[i] == more[i - |labels|] && all[i + 1] == more[i - |labels| + 1];
      }
    }
  }
}
