/** The agent handlers as they run, statement after statement, on the tables (server/handlers_agents.go,
    server/signer.go), each proved to do what its thread of the concurrent model does when it runs alone. */
module AgentHandlers {
  import opened Text
  import opened Statements
  import opened Registry
  import opened GoQuote
  import opened Json
  import P = Payload

  /** What happens to the statements of one request, in the order they are sent. */
  datatype Faults = Faults(first: Fault, second: Fault, third: Fault)

  // ----- the thread run alone

  function Start(env: Env, op: Op): Thread {
    Thread(0, op, if Acceptable(env, op) then First else Finish(BadRequest), None, NotYet, 0)
  }

  datatype Alone = Alone(agents: Table, actions: seq<ActionRow>, thread: Thread)

  function Advanced(env: Env, a: Alone, rid: nat, key: string, now: int, fault: Fault): Alone {
    var e := Execute(env, a.agents, rid, a.thread, key, now, fault);
    Alone(e.agents, if e.row.Some? then a.actions + [e.row.value] else a.actions,
          a.thread.(pc := e.pc, audit := e.audit))
  }

  /** No request sends more than three statements. */
  function RunAlone(env: Env, agents: Table, actions: seq<ActionRow>, rid: nat, op: Op, key: string, now: int,
                    f: Faults): Alone
  {
    var a := Advanced(env, Alone(agents, actions, Start(env, op)), rid, key, now, f.first);
    Advanced(env, Advanced(env, a, rid, key, now, f.second), rid, key, now, f.third)
  }

  /** A statement of the concurrent model moves its request and the tables as it does here. */
  lemma StatementIsAdvance(env: Env, s: State, rid: nat, now: int, fault: Fault, t: State)
    requires Next(env, s, Statement(rid, now, fault)) == Some(t)
    ensures rid in s.requests && rid in t.requests && s.requests[rid].pid in s.procs && s.procs[s.requests[rid].pid].Up?
    ensures var key := s.procs[s.requests[rid].pid].key;
            var a := Advanced(env, Alone(s.agents, s.actions, s.requests[rid]), rid, key, now, fault);
            t.agents == a.agents && t.actions == a.actions
            && t.requests[rid].(point := s.requests[rid].point) == a.thread
  {
  }

  predicate Ends(a: Alone, agents: Table, actions: seq<ActionRow>, response: Response) {
    a.agents == agents && a.actions == actions && a.thread.pc == Finish(response)
  }

  /** The trail after a lifecycle insert. */
  function Logging(env: Env, agents: Table, actions: seq<ActionRow>, id: string, action: string, key: string,
                   text: string, rid: nat, fault: Fault): seq<ActionRow>
  {
    var details := Parse(Details(key, text, env.isPrint), true);
    if id in agents && details.Some? && fault != Lost
    then actions + [ActionRow(id, action, details.value, "success", rid)] else actions
  }

  predicate Hit(agents: Table, op: Op) {
    op.id in agents && agents[op.id].status == Active
  }

  /** A revocation run alone. */
  function Revoking(env: Env, agents: Table, actions: seq<ActionRow>, rid: nat, op: Op, now: int, f: Faults)
      : (Table, seq<ActionRow>, Response)
    requires op.Revoke?
  {
    var reason := if op.reason == "" then "manual revocation" else op.reason;
    var updated := if Hit(agents, op) && f.first != Lost then agents[op.id := Ended(agents[op.id], reason, now)]
                   else agents;
    if f.first != NoFault then (updated, actions, ServerError)
    else if Hit(agents, op) then
      (updated, Logging(env, updated, actions, op.id, "passport_revoked", "reason", reason, rid, f.second),
       RevokedOk(reason))
    else if f.second != NoFault || op.id !in agents then (agents, actions, NotFound)
    else
      (agents, Logging(env, agents, actions, op.id, "passport_revoked", "reason", reason, rid, f.third),
       RevokedOk(reason))
  }

  function Ended(row: AgentRow, reason: string, now: int): AgentRow {
    row.(status := Revoked, revokedAt := Some(now), revokeReason := reason)
  }

  /** A request past its last statement stands still. */
  lemma FinishedStays(env: Env, a: Alone, rid: nat, key: string, now: int, fault: Fault)
    requires a.thread.pc.Finish?
    ensures Advanced(env, a, rid, key, now, fault) == a
  {
  }

  lemma EventAdvance(env: Env, a: Alone, rid: nat, key: string, now: int, fault: Fault)
    requires a.thread.pc.Lifecycle? && a.thread.op.Revoke?
    ensures var op := a.thread.op;
            var reason := if op.reason == "" then "manual revocation" else op.reason;
            Ends(Advanced(env, a, rid, key, now, fault), a.agents,
                 Logging(env, a.agents, a.actions, op.id, "passport_revoked", "reason", reason, rid, fault),
                 RevokedOk(reason))
  {
  }

  lemma UpdateAdvance(env: Env, a: Alone, rid: nat, key: string, now: int, fault: Fault)
    requires a.thread.pc.First? && a.thread.op.Revoke?
    ensures var op := a.thread.op;
            var reason := if op.reason == "" then "manual revocation" else op.reason;
            var b := Advanced(env, a, rid, key, now, fault);
            b.actions == a.actions && b.thread.op == op
            && b.agents == (if Hit(a.agents, op) && fault != Lost
                            then a.agents[op.id := Ended(a.agents[op.id], reason, now)] else a.agents)
            && b.thread.pc == if fault != NoFault then Finish(ServerError)
                              else if Hit(a.agents, op) then Lifecycle else Check
  {
  }

  lemma CheckAdvance(env: Env, a: Alone, rid: nat, key: string, now: int, fault: Fault)
    requires a.thread.pc.Check? && a.thread.op.Revoke?
    ensures var b := Advanced(env, a, rid, key, now, fault);
            b.actions == a.actions && b.agents == a.agents && b.thread.op == a.thread.op
            && b.thread.pc == if fault == NoFault && a.thread.op.id in a.agents then Lifecycle else Finish(NotFound)
  {
  }

  /** The revoke handler is its thread of the concurrent model, run alone, whatever fails. */
  lemma RevokingIsAlone(env: Env, agents: Table, actions: seq<ActionRow>, rid: nat, op: Op, key: string, now: int,
                        f: Faults)
    requires op.Revoke?
    ensures var r := Revoking(env, agents, actions, rid, op, now, f);
            Ends(RunAlone(env, agents, actions, rid, op, key, now, f), r.0, r.1, r.2)
  {
    var a := Alone(agents, actions, Start(env, op));
    UpdateAdvance(env, a, rid, key, now, f.first);
    var b := Advanced(env, a, rid, key, now, f.first);
    var c := Advanced(env, b, rid, key, now, f.second);
    if b.thread.pc.Check? {
      CheckAdvance(env, b, rid, key, now, f.second);
    } else if b.thread.pc.Lifecycle? {
      EventAdvance(env, b, rid, key, now, f.second);
    } else {
      FinishedStays(env, b, rid, key, now, f.second);
    }
    if c.thread.pc.Lifecycle? {
      EventAdvance(env, c, rid, key, now, f.third);
    } else {
      FinishedStays(env, c, rid, key, now, f.third);
    }
  }

  /** A registration run alone. */
  function Enrolling(env: Env, agents: Table, actions: seq<ActionRow>, rid: nat, op: Op, key: string, f: Faults)
      : (Table, seq<ActionRow>, Response)
    requires op.Register?
  {
    var payload := P.CanonicalBytes(P.CanonicalPayload(op.id, op.name, op.organization, op.capabilities, op.issuedAt));
    var row := AgentRow(op.name, op.description, op.organization, op.capabilities, Active, key,
                        env.sign(key, payload), payload, op.issuedAt, None, "");
    var stored := if op.id in agents || f.first == Lost then agents else agents[op.id := row];
    if env.blank(op.name) || env.blank(op.organization) then (agents, actions, BadRequest)
    else if op.id in agents || f.first != NoFault then (stored, actions, ServerError)
    else
      (stored, Logging(env, stored, actions, op.id, "passport_issued", "name", op.name, rid, f.second), Created(op.id))
  }

  lemma InsertAdvance(env: Env, a: Alone, rid: nat, key: string, now: int, fault: Fault)
    requires a.thread.pc.First? && a.thread.op.Register?
    requires !env.blank(a.thread.op.name) && !env.blank(a.thread.op.organization)
    ensures var op := a.thread.op;
            var b := Advanced(env, a, rid, key, now, fault);
            b.actions == a.actions && b.thread.op == op
            && b.agents == Enrolling(env, a.agents, a.actions, rid, op, key, Faults(fault, Lost, Lost)).0
            && b.thread.pc == if op.id in a.agents || fault != NoFault then Finish(ServerError) else Lifecycle
  {
  }

  lemma IssueAdvance(env: Env, a: Alone, rid: nat, key: string, now: int, fault: Fault)
    requires a.thread.pc.Lifecycle? && a.thread.op.Register?
    ensures var op := a.thread.op;
            Ends(Advanced(env, a, rid, key, now, fault), a.agents,
                 Logging(env, a.agents, a.actions, op.id, "passport_issued", "name", op.name, rid, fault),
                 Created(op.id))
  {
  }

  /** So is the registration handler. */
  lemma EnrollingIsAlone(env: Env, agents: Table, actions: seq<ActionRow>, rid: nat, op: Op, key: string, now: int,
                         f: Faults)
    requires op.Register?
    ensures var r := Enrolling(env, agents, actions, rid, op, key, f);
            Ends(RunAlone(env, agents, actions, rid, op, key, now, f), r.0, r.1, r.2)
  {
    var a := Alone(agents, actions, Start(env, op));
    if a.thread.pc.First? {
      InsertAdvance(env, a, rid, key, now, f.first);
    } else {
      FinishedStays(env, a, rid, key, now, f.first);
    }
    var b := Advanced(env, a, rid, key, now, f.first);
    if b.thread.pc.Lifecycle? {
      IssueAdvance(env, b, rid, key, now, f.second);
    } else {
      FinishedStays(env, b, rid, key, now, f.second);
    }
    FinishedStays(env, Advanced(env, b, rid, key, now, f.second), rid, key, now, f.third);
  }

  // ----- the boot run alone

  /** The stored key and the signer of a boot: a server with no signer does not come up. */
  function Loading(keyRow: Option<string>, generated: string, select: Fault, insert: Fault)
      : (Option<string>, Option<string>)
  {
    if select != NoFault then (keyRow, None)
    else if keyRow.Some? then (keyRow, keyRow)
    else (if insert == Lost then None else Some(generated), if insert == NoFault then Some(generated) else None)
  }

  predicate Signs(p: Proc, signer: Option<string>) {
    if signer.Some? then p == Up(signer.value) else p == Down
  }

  /** LoadOrInitSigner is the boot of the concurrent model with no other boot in between. */
  lemma LoadingIsBoot(env: Env, s: State, pid: nat, generated: string, select: Fault, insert: Fault) returns (t: State)
    requires pid in s.procs && s.procs[pid].Booting?
    ensures var u := Next(env, s, BootSelect(pid, generated, select));
            u.Some? && (u == Some(t) || Next(env, u.value, BootInsert(pid, insert)) == Some(t))
    ensures var r := Loading(s.keyRow, generated, select, insert);
            t.keyRow == r.0 && pid in t.procs && Signs(t.procs[pid], r.1)
  {
    t := Next(env, s, BootSelect(pid, generated, select)).value;
    if t.procs[pid].Generated? {
      t := Next(env, t, BootInsert(pid, insert)).value;
    }
  }

  /** Every request is answered, and one that runs alone with nothing failing is the atomic operation. */
  lemma AloneIsAtomic(env: Env, agents: Table, actions: seq<ActionRow>, rid: nat, op: Op, key: string, now: int)
    ensures var a := RunAlone(env, agents, actions, rid, op, key, now, Faults(NoFault, NoFault, NoFault));
            a.thread.pc.Finish? && (a.agents, a.thread.pc.response) == Atomic(env, agents, op, key, now)
  {
    if op.Revoke? {
      RevokingIsAlone(env, agents, actions, rid, op, key, now, Faults(NoFault, NoFault, NoFault));
    } else if op.Register? {
      RegisterAlone(env, agents, actions, rid, op, key, now);
    } else {
      ReadAlone(env, agents, actions, rid, op, key, now);
    }
  }

  lemma RegisterAlone(env: Env, agents: Table, actions: seq<ActionRow>, rid: nat, op: Op, key: string, now: int)
    requires op.Register?
    ensures var a := RunAlone(env, agents, actions, rid, op, key, now, Faults(NoFault, NoFault, NoFault));
            a.thread.pc.Finish? && (a.agents, a.thread.pc.response) == Atomic(env, agents, op, key, now)
  {
    EnrollingIsAlone(env, agents, actions, rid, op, key, now, Faults(NoFault, NoFault, NoFault));
  }

  lemma ReadAlone(env: Env, agents: Table, actions: seq<ActionRow>, rid: nat, op: Op, key: string, now: int)
    requires !op.Register? && !op.Revoke?
    ensures var a := RunAlone(env, agents, actions, rid, op, key, now, Faults(NoFault, NoFault, NoFault));
            a.thread.pc.Finish? && (a.agents, a.thread.pc.response) == Atomic(env, agents, op, key, now)
  {
  }

  // ----- the handlers

  class Store {
    var agents: Table
    var actions: seq<ActionRow>
    var keyRow: Option<string>

    constructor ()
      ensures agents == map[] && actions == [] && keyRow == None
    {
      agents, actions, keyRow := map[], [], None;
    }

    /** LoadOrInitSigner: the stored key, or a generated one, which is kept even if another was stored first. */
    method LoadOrInitSigner(generated: string, select: Fault, insert: Fault) returns (signer: Option<string>)
      modifies this`keyRow
      ensures (keyRow, signer) == Loading(old(keyRow), generated, select, insert)
      ensures old(keyRow).Some? ==> keyRow == old(keyRow)
      ensures old(keyRow).None? ==> keyRow == if select == NoFault && insert != Lost then Some(generated) else None
      ensures signer == if select != NoFault then None
                        else if old(keyRow).Some? then old(keyRow)
                        else if insert == NoFault then Some(generated) else None
    {
      if select != NoFault {
        return None;
      }
      if keyRow.Some? {
        return keyRow;
      }
      if insert != Lost && keyRow.None? {
        keyRow := Some(generated);
      }
      signer := if insert == NoFault then Some(generated) else None;
    }

    /** INSERT INTO agents, refused by the primary key. */
    method InsertRow(id: string, row: AgentRow, fault: Fault) returns (failed: bool)
      modifies this`agents
      ensures agents == if id in old(agents) || fault == Lost then old(agents) else old(agents)[id := row]
      ensures failed <==> id in old(agents) || fault != NoFault
    {
      failed := id in agents || fault != NoFault;
      if id !in agents && fault != Lost {
        agents := agents[id := row];
      }
    }

    /** INSERT INTO agent_actions of a lifecycle event, its error ignored: the %q text of the name or reason is
        cast to jsonb and the passport must exist. */
    method InsertEvent(env: Env, id: string, action: string, key: string, text: string, rid: nat, fault: Fault)
      requires key == "name" || key == "reason"
      modifies this`actions
      ensures actions == Logging(env, agents, old(actions), id, action, key, text, rid, fault)
      ensures PrintsAscii(env.isPrint) ==>
                actions == old(actions) +
                           if id in agents && fault != Lost && Shared(text, env.isPrint)
                           then [ActionRow(id, action, Obj([Field(key, Str(text))]), "success", rid)] else []
    {
      var details := Parse(Details(key, text, env.isPrint), true);
      if PrintsAscii(env.isPrint) {
        assert forall i | 0 <= i < |key| :: key[i] as int != 0;
        DetailsAccepted(key, text, env.isPrint);
      }
      if id in agents && details.Some? && fault != Lost {
        actions := actions + [ActionRow(id, action, details.value, "success", rid)];
      }
    }

    /** UPDATE agents ... WHERE status = 'active'. */
    method UpdateActive(op: Op, reason: string, now: int, fault: Fault) returns (affected: nat, failed: bool)
      requires op.Revoke?
      modifies this`agents
      ensures failed <==> fault != NoFault
      ensures affected == if Hit(old(agents), op) then 1 else 0
      ensures agents == if Hit(old(agents), op) && fault != Lost
                        then old(agents)[op.id := Ended(old(agents)[op.id], reason, now)] else old(agents)
    {
      affected, failed := 0, fault != NoFault;
      if op.id in agents && agents[op.id].status == Active {
        affected := 1;
        if fault != Lost {
          agents := agents[op.id := agents[op.id].(status := Revoked, revokedAt := Some(now), revokeReason := reason)];
        }
      }
    }

    /** handleAgentRegister. */
    method Register(env: Env, key: string, rid: nat, op: Op, f: Faults) returns (response: Response)
      requires op.Register?
      modifies this`agents, this`actions
      ensures (agents, actions, response) == Enrolling(env, old(agents), old(actions), rid, op, key, f)
      ensures response == if env.blank(op.name) || env.blank(op.organization) then BadRequest
                          else if op.id in old(agents) || f.first != NoFault then ServerError
                          else Created(op.id)
      ensures var payload :=
                P.CanonicalBytes(P.CanonicalPayload(op.id, op.name, op.organization, op.capabilities, op.issuedAt));
              agents == if response == BadRequest || op.id in old(agents) || f.first == Lost then old(agents)
                        else old(agents)[op.id := AgentRow(op.name, op.description, op.organization, op.capabilities,
                                                           Active, key, env.sign(key, payload), payload, op.issuedAt,
                                                           None, "")]
      ensures !response.Created? ==> actions == old(actions)
      ensures PrintsAscii(env.isPrint) && response.Created? ==>
                actions == old(actions) +
                           if f.second != Lost && Shared(op.name, env.isPrint)
                           then [ActionRow(op.id, "passport_issued", Obj([Field("name", Str(op.name))]), "success",
                                           rid)]
                           else []
    {
      if env.blank(op.name) || env.blank(op.organization) {
        return BadRequest;
      }
      var signed := P.CanonicalPayload(op.id, op.name, op.organization, op.capabilities, op.issuedAt);
      var payload := P.CanonicalBytes(signed);
      var row := AgentRow(op.name, op.description, op.organization, op.capabilities, Active, key,
                          env.sign(key, payload), payload, op.issuedAt, None, "");
      var failed := InsertRow(op.id, row, f.first);
      if failed {
        return ServerError;
      }
      InsertEvent(env, op.id, "passport_issued", "name", op.name, rid, f.second);
      response := Created(op.id);
    }

    /** handleAgentVerify. */
    method Verify(env: Env, key: string, rid: nat, op: Op, now: int, f: Faults) returns (response: Response)
      requires op.Verify?
      ensures var a := RunAlone(env, agents, actions, rid, op, key, now, f);
              agents == a.agents && actions == a.actions && Finish(response) == a.thread.pc
      ensures f.first != NoFault ==> response == ServerError
      ensures f.first == NoFault && op.id !in agents ==> response == NotFound
      ensures f.first == NoFault && op.id in agents ==>
                var row := agents[op.id];
                response == Verified(op.id, row.status, env.verify(key, row.payload, row.signature), row.capabilities,
                                     row.issuedAt, row.revokedAt)
    {
      if f.first != NoFault {
        return ServerError;
      }
      if op.id !in agents {
        return NotFound;
      }
      var row := agents[op.id];
      var valid := env.verify(key, row.payload, row.signature);
      response := Verified(op.id, row.status, valid, row.capabilities, row.issuedAt, row.revokedAt);
    }

    /** handleAgentCapability: the loop over the row's capabilities. */
    method Capability(env: Env, key: string, rid: nat, op: Op, now: int, f: Faults) returns (response: Response)
      requires op.Capability?
      ensures var a := RunAlone(env, agents, actions, rid, op, key, now, f);
              agents == a.agents && actions == a.actions && Finish(response) == a.thread.pc
      ensures response == ServerError <==> f.first != NoFault
      ensures response == NotFound <==> f.first == NoFault && op.id !in agents
      ensures response.Granted? <==> f.first == NoFault && op.id in agents && agents[op.id].status == Active
                                     && op.capability in agents[op.id].capabilities
      ensures response.Granted? ==> response == Granted(op.capability, agents[op.id].issuedAt)
      ensures response.Denied? ==> f.first == NoFault && op.id in agents
                                   && response.reason == if agents[op.id].status == Revoked then "passport_revoked"
                                                         else "capability_not_found"
    {
      if f.first != NoFault {
        return ServerError;
      }
      if op.id !in agents {
        return NotFound;
      }
      var row := agents[op.id];
      if row.status == Revoked {
        return Denied("passport_revoked");
      }
      for i := 0 to |row.capabilities|
        invariant op.capability !in row.capabilities[..i]
      {
        if row.capabilities[i] == op.capability {
          return Granted(op.capability, row.issuedAt);
        }
      }
      response := Denied("capability_not_found");
    }

    /** handleAgentLogAction. */
    method LogAction(env: Env, key: string, rid: nat, op: Op, now: int, f: Faults) returns (response: Response)
      requires op.LogAction?
      modifies this`actions
      ensures var a := RunAlone(env, agents, old(actions), rid, op, key, now, f);
              agents == a.agents && actions == a.actions && Finish(response) == a.thread.pc
      ensures response == BadRequest <==>
              env.blank(op.action) || op.outcome !in {"", "success", "blocked", "failure"}
      ensures response == if response == BadRequest then BadRequest
                          else if f.first != NoFault then ServerError
                          else if op.id in agents then Logged else NotFound
      ensures actions == if response == BadRequest || op.id !in agents || f.first == Lost then old(actions)
                         else old(actions) + [ActionRow(op.id, op.action, op.details,
                                                        if op.outcome == "" then "success" else op.outcome, rid)]
    {
      if env.blank(op.action) {
        return BadRequest;
      }
      var outcome := op.outcome;
      if outcome == "" {
        outcome := "success";
      }
      if !ValidOutcome(outcome) {
        return BadRequest;
      }
      var affected := 0;
      if op.id in agents && f.first != Lost {
        actions := actions + [ActionRow(op.id, op.action, op.details, outcome, rid)];
        affected := 1;
      }
      if f.first != NoFault {
        return ServerError;
      }
      if affected == 0 {
        return NotFound;
      }
      response := Logged;
    }

    /** handleAgentRevoke. */
    method Revoke(env: Env, rid: nat, op: Op, now: int, f: Faults) returns (response: Response)
      requires op.Revoke?
      modifies this`agents, this`actions
      ensures (agents, actions, response) == Revoking(env, old(agents), old(actions), rid, op, now, f)
      ensures agents == if op.id in old(agents) && old(agents)[op.id].status == Active && f.first != Lost
                        then old(agents)[op.id := old(agents)[op.id].(
                                           status := Revoked, revokedAt := Some(now),
                                           revokeReason := if op.reason == "" then "manual revocation" else op.reason)]
                        else old(agents)
      ensures response == if f.first != NoFault then ServerError
                          else if op.id in old(agents) && (old(agents)[op.id].status == Active || f.second == NoFault)
                          then RevokedOk(if op.reason == "" then "manual revocation" else op.reason)
                          else NotFound
      ensures !response.RevokedOk? ==> actions == old(actions)
      ensures PrintsAscii(env.isPrint) && response.RevokedOk? ==>
                var event := if old(agents)[op.id].status == Active then f.second else f.third;
                var reason := if op.reason == "" then "manual revocation" else op.reason;
                actions == old(actions) +
                           if event != Lost && Shared(reason, env.isPrint)
                           then [ActionRow(op.id, "passport_revoked", Obj([Field("reason", Str(reason))]), "success",
                                           rid)]
                           else []
    {
      var reason := op.reason;
      if reason == "" {
        reason := "manual revocation";
      }
      var affected, failed := UpdateActive(op, reason, now, f.first);
      if failed {
        return ServerError;
      }
      var insert := f.second;
      if affected == 0 {
        assert agents == old(agents);
        var found := f.second == NoFault && op.id in agents;
        if !found {
          return NotFound;
        }
        insert := f.third;
      }
      InsertEvent(env, op.id, "passport_revoked", "reason", reason, rid, insert);
      response := RevokedOk(reason);
    }
  }
}
