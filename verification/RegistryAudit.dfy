/** The server's audit trail under concurrency, faults and crashes: who wrote which row, and which lifecycle
    rows are missing and why. */
module RegistryAudit {
  import opened Text
  import opened Statements
  import opened Json
  import opened GoQuote
  import opened Registry

  /** The rows one request inserted, in order. */
  function RowsBy(actions: seq<ActionRow>, rid: nat): seq<ActionRow> {
    if actions == [] then []
    else
      var last := actions[|actions| - 1];
      RowsBy(actions[..|actions| - 1], rid) + if last.writer == rid then [last] else []
  }

  lemma RowsByAppend(actions: seq<ActionRow>, row: ActionRow, rid: nat)
    ensures RowsBy(actions + [row], rid) == RowsBy(actions, rid) + if row.writer == rid then [row] else []
  {
    assert (actions + [row])[..|actions|] == actions;
  }

  /** The row an operation leaves in the trail, with its details as stored. */
  function OwnRow(op: Op, rid: nat): ActionRow {
    match op
    case LogAction(id, action, details, outcome) =>
      ActionRow(id, action, details, if outcome == "" then "success" else outcome, rid)
    case Register(id, name, _, _, _, _) =>
      ActionRow(id, "passport_issued", Obj([Field("name", Str(name))]), "success", rid)
    case Revoke(id, reason) =>
      ActionRow(id, "passport_revoked", Obj([Field("reason", Str(GivenReason(reason)))]), "success", rid)
    case _ => ActionRow(op.id, "", Null, "success", rid)
  }

  /** The reason a caller gave, or the default. */
  function GivenReason(reason: string): string {
    if |reason| > 0 then reason else "manual revocation"
  }

  /** The text a lifecycle row quotes. */
  function OwnText(op: Op): string {
    match op
    case Register(_, name, _, _, _, _) => name
    case Revoke(_, reason) => GivenReason(reason)
    case _ => ""
  }

  /** What the fate recorded for a request's row means. A lifecycle row is dropped only by a lost statement or
      by a text whose %q form is not JSON; it is written only for a text whose form is. */
  predicate FateOk(env: Env, t: Thread, rid: nat, rows: seq<ActionRow>) {
    match t.audit
    case NotYet => rows == []
    case Written => rows == [OwnRow(t.op, rid)] && (!t.op.LogAction? ==> Shared(OwnText(t.op), env.isPrint))
    case Dropped(fault) => rows == [] && (fault == Lost || !Shared(OwnText(t.op), env.isPrint))
  }

  /** What an answer says, and what it implies about the row. */
  predicate AnswerOk(t: Thread) {
    && (Running(t) ==> t.audit == NotYet)
    && (t.pc.Check? ==> t.op.Revoke?)
    && (t.pc.Lifecycle? ==> t.op.Register? || t.op.Revoke?)
    && (t.pc.Finish? || t.pc.Closed? ==>
          (t.pc.response.Created? ==> t.op.Register? && t.audit != NotYet && t.pc.response.id == t.op.id)
          && (t.pc.response.RevokedOk? ==>
                t.op.Revoke? && t.audit != NotYet && t.pc.response.reason == GivenReason(t.op.reason))
          && (t.pc.response.Logged? ==> t.op.LogAction? && t.audit == Written)
          && (t.pc.response.NotFound? || t.pc.response.BadRequest? ==> t.audit == NotYet))
  }

  function WriterSet(s: State): set<nat> {
    set rid | rid in s.requests && s.requests[rid].audit == Written
  }

  /** One request and the rows it inserted. */
  predicate RequestOk(env: Env, s: State, rid: nat) {
    if rid !in s.requests then RowsBy(s.actions, rid) == []
    else
      var t := s.requests[rid];
      AnswerOk(t) && FateOk(env, t, rid, RowsBy(s.actions, rid)) && (Running(t) ==> Acceptable(env, t.op))
      && (t.pc.Lifecycle? ==> t.op.id in s.agents)
  }

  predicate RowValid(s: State, row: ActionRow) {
    row.writer in s.requests && row.passportId in s.agents && row.outcome in {"success", "blocked", "failure"}
  }

  ghost predicate Trail(env: Env, s: State) {
    && (forall rid :: RequestOk(env, s, rid))
    && (forall row | row in s.actions :: RowValid(s, row))
    && |s.actions| == |WriterSet(s)|
  }

  lemma LifecycleRow(env: Env, op: Op)
    requires PrintsAscii(env.isPrint) && (op.Register? || op.Revoke?)
    ensures LifecycleDetails(env, op)
            == if Shared(OwnText(op), env.isPrint) then Some(OwnRow(op, 0).details) else None
  {
    var key := LifecycleKey(op);
    assert forall i | 0 <= i < |key| :: key[i] as int != 0;
    DetailsAccepted(key, OwnText(op), env.isPrint);
  }

  lemma OwnDetails(op: Op, rid: nat)
    requires op.Register? || op.Revoke?
    ensures OwnRow(op, rid) == ActionRow(op.id, LifecycleAction(op), OwnRow(op, 0).details, "success", rid)
  {
  }

  lemma LifecycleTrail(env: Env, agents: Table, op: Op, rid: nat, fault: Fault)
    requires PrintsAscii(env.isPrint) && (op.Register? || op.Revoke?) && op.id in agents
    ensures var e := InsertLifecycle(env, agents, op, rid, fault);
            e.agents == agents
            && (if e.row.Some? then
                  e.row.value == OwnRow(op, rid) && e.audit == Written && Shared(OwnText(op), env.isPrint)
                else e.audit == Dropped(fault) && (fault == Lost || !Shared(OwnText(op), env.isPrint)))
  {
    LifecycleRow(env, op);
    OwnDetails(op, rid);
  }

  lemma LifecycleAnswer(env: Env, agents: Table, op: Op, rid: nat, fault: Fault)
    requires op.Register? || op.Revoke?
    ensures InsertLifecycle(env, agents, op, rid, fault).pc
            == Finish(if op.Register? then Created(op.id) else RevokedOk(GivenReason(op.reason)))
  {
  }

  /** One statement's contribution to the trail. */
  lemma ExecuteTrail(env: Env, agents: Table, rid: nat, t: Thread, key: string, now: int, fault: Fault)
    requires PrintsAscii(env.isPrint) && Running(t) && AnswerOk(t) && Acceptable(env, t.op)
    requires t.pc.Lifecycle? ==> t.op.id in agents
    ensures var e := Execute(env, agents, rid, t, key, now, fault);
            var u := t.(pc := e.pc, audit := e.audit);
            AnswerOk(u) && FateOk(env, u, rid, if e.row.Some? then [e.row.value] else [])
            && (e.row.Some? <==> e.audit == Written)
            && (e.row.Some? ==> e.row.value.writer == rid && e.row.value.passportId in e.agents
                                && e.row.value.outcome in {"success", "blocked", "failure"})
            && (u.pc.Lifecycle? ==> u.op.id in e.agents)
  {
    if t.pc.Lifecycle? {
      LifecycleAnswer(env, agents, t.op, rid, fault);
      LifecycleTrail(env, agents, t.op, rid, fault);
    }
  }

  lemma WriterCount(s: State, t: State, rid: nat, u: Thread)
    requires t.requests == s.requests[rid := u]
    requires rid in s.requests ==> s.requests[rid].audit != Written || u.audit == Written
    ensures |WriterSet(t)| == |WriterSet(s)|
            + if u.audit == Written && rid !in WriterSet(s) then 1 else 0
  {
    if u.audit == Written {
      assert WriterSet(t) == WriterSet(s) + {rid};
    } else {
      assert WriterSet(t) == WriterSet(s);
    }
  }

  lemma OwnRequest(env: Env, s: State, rid: nat, now: int, fault: Fault, key: string)
    requires PrintsAscii(env.isPrint) && rid in s.requests && Running(s.requests[rid]) && RequestOk(env, s, rid)
    ensures RequestOk(env, AfterStatement(env, s, rid, now, fault, key), rid)
  {
    var th := s.requests[rid];
    var e := Execute(env, s.agents, rid, th, key, now, fault);
    ExecuteTrail(env, s.agents, rid, th, key, now, fault);
    if e.row.Some? {
      RowsByAppend(s.actions, e.row.value, rid);
    }
  }

  lemma OtherRequest(env: Env, s: State, rid: nat, now: int, fault: Fault, key: string, r: nat)
    requires PrintsAscii(env.isPrint) && rid in s.requests && Running(s.requests[rid]) && r != rid
    requires RequestOk(env, s, rid) && RequestOk(env, s, r)
    ensures RequestOk(env, AfterStatement(env, s, rid, now, fault, key), r)
  {
    var th := s.requests[rid];
    var e := Execute(env, s.agents, rid, th, key, now, fault);
    ExecuteTrail(env, s.agents, rid, th, key, now, fault);
    ExecuteGrows(env, s.agents, rid, th, key, now, fault);
    if e.row.Some? {
      RowsByAppend(s.actions, e.row.value, r);
    }
  }

  lemma StatementTrail(env: Env, s: State, rid: nat, now: int, fault: Fault, key: string)
    requires PrintsAscii(env.isPrint) && Trail(env, s) && rid in s.requests && Running(s.requests[rid])
    ensures Trail(env, AfterStatement(env, s, rid, now, fault, key))
  {
    var th := s.requests[rid];
    var t := AfterStatement(env, s, rid, now, fault, key);
    assert RequestOk(env, s, rid);
    forall r ensures RequestOk(env, t, r) {
      assert RequestOk(env, s, r);
      if r == rid {
        OwnRequest(env, s, rid, now, fault, key);
      } else {
        OtherRequest(env, s, rid, now, fault, key, r);
      }
    }
    StatementActions(env, s, rid, now, fault, key);
  }

  lemma StatementActions(env: Env, s: State, rid: nat, now: int, fault: Fault, key: string)
    requires PrintsAscii(env.isPrint) && rid in s.requests && Running(s.requests[rid]) && RequestOk(env, s, rid)
    requires (forall row | row in s.actions :: RowValid(s, row)) && |s.actions| == |WriterSet(s)|
    ensures var t := AfterStatement(env, s, rid, now, fault, key);
            (forall row | row in t.actions :: RowValid(t, row)) && |t.actions| == |WriterSet(t)|
  {
    var th := s.requests[rid];
    var t := AfterStatement(env, s, rid, now, fault, key);
    ExecuteTrail(env, s.agents, rid, th, key, now, fault);
    ExecuteGrows(env, s.agents, rid, th, key, now, fault);
    forall row | row in t.actions ensures RowValid(t, row) {
      if row in s.actions {
        RowStaysValid(s, t, row);
      }
    }
    WriterCount(s, t, rid, t.requests[rid]);
  }

  lemma RowStaysValid(s: State, t: State, row: ActionRow)
    requires RowValid(s, row) && TableGrows(s.agents, t.agents) && s.requests.Keys <= t.requests.Keys
    ensures RowValid(t, row)
  {
    assert row.writer in s.requests.Keys;
  }

  /** A step that inserts no row and leaves every request but one alone. */
  lemma QuietTrail(env: Env, s: State, t: State, rid: nat, u: Thread)
    requires Trail(env, s) && t.agents == s.agents && t.actions == s.actions && t.requests == s.requests[rid := u]
    requires RequestOk(env, t, rid) && u.audit == if rid in s.requests then s.requests[rid].audit else NotYet
    ensures Trail(env, t)
  {
    forall r ensures RequestOk(env, t, r) {
      assert RequestOk(env, s, r);
    }
    forall row | row in t.actions ensures RowValid(t, row) {
      assert RowValid(s, row);
    }
    WriterCount(s, t, rid, u);
  }

  lemma SameTrail(env: Env, s: State, t: State)
    requires Trail(env, s) && t.agents == s.agents && t.actions == s.actions && t.requests == s.requests
    ensures Trail(env, t)
  {
    forall r ensures RequestOk(env, t, r) {
      assert RequestOk(env, s, r);
    }
    forall row | row in t.actions ensures RowValid(t, row) {
      assert RowValid(s, row);
    }
    assert WriterSet(t) == WriterSet(s);
  }

  lemma StepTrail(env: Env, s: State, l: Label, t: State)
    requires PrintsAscii(env.isPrint) && Next(env, s, l) == Some(t) && Trail(env, s)
    ensures Trail(env, t)
  {
    match l
    case Statement(rid, now, fault) => StatementTrail(env, s, rid, now, fault, s.procs[s.requests[rid].pid].key);
    case Invoke(rid, pid, op) =>
      assert RequestOk(env, s, rid);
      QuietTrail(env, s, t, rid, t.requests[rid]);
    case Respond(rid) =>
      assert RequestOk(env, s, rid);
      QuietTrail(env, s, t, rid, t.requests[rid]);
    case _ => SameTrail(env, s, t);
  }

  /** In every run, whatever fails or crashes: each row names an existing passport, carries a valid outcome and
      was written by one request; a request writes at most its own row; a 201 for a logged action has its row;
      a lifecycle row is missing only for a lost statement or an unquotable text; and the trail is as long as
      the number of requests that wrote. */
  lemma {:induction false} AuditTrail(env: Env, states: seq<State>, labels: seq<Label>, k: nat)
    requires PrintsAscii(env.isPrint) && IsRun(env, states, labels) && states[0] == INITIAL && k < |states|
    ensures Trail(env, states[k])
  {
    if k > 0 {
      AuditTrail(env, states, labels, k - 1);
      TrailNext(env, states, labels, k - 1);
    } else {
      assert WriterSet(states[0]) == {};
    }
  }

  lemma TrailNext(env: Env, states: seq<State>, labels: seq<Label>, j: nat)
    requires PrintsAscii(env.isPrint) && IsRun(env, states, labels) && j < |labels| && Trail(env, states[j])
    ensures Trail(env, states[j + 1])
  {
    assert Stepped(env, states, labels, j);
    StepTrail(env, states[j], labels[j], states[j + 1]);
  }

  function LoggedSet(s: State): set<nat> {
    set rid | rid in s.requests && s.requests[rid].audit == Written && s.requests[rid].op.LogAction?
  }

  function LifecycleSet(s: State): set<nat> {
    set rid | rid in s.requests && s.requests[rid].audit == Written && !s.requests[rid].op.LogAction?
  }

  function DroppedSet(s: State): set<nat> {
    set rid | rid in s.requests && s.requests[rid].audit.Dropped?
  }

  /** Requests that changed a passport's life and have said so. */
  function AnsweredLifecycle(s: State): set<nat> {
    set rid | rid in s.requests && s.requests[rid].pc.Closed?
              && (s.requests[rid].pc.response.Created? || s.requests[rid].pc.response.RevokedOk?)
  }

  /** The books balance: rows are logged actions plus lifecycle events, and every answered issue or revocation
      is either among the lifecycle rows or among the dropped ones. */
  lemma Accounting(env: Env, states: seq<State>, labels: seq<Label>, k: nat)
    requires PrintsAscii(env.isPrint) && IsRun(env, states, labels) && states[0] == INITIAL && k < |states|
    ensures |states[k].actions| == |LoggedSet(states[k])| + |LifecycleSet(states[k])|
    ensures AnsweredLifecycle(states[k]) <= LifecycleSet(states[k]) + DroppedSet(states[k])
    ensures DroppedSet(states[k]) !! LoggedSet(states[k]) + LifecycleSet(states[k])
  {
    var s := states[k];
    AuditTrail(env, states, labels, k);
    forall rid | rid in AnsweredLifecycle(s)
      ensures rid in LifecycleSet(s) + DroppedSet(s)
    {
      assert RequestOk(env, s, rid);
    }
    assert WriterSet(s) == LoggedSet(s) + LifecycleSet(s);
    assert LoggedSet(s) !! LifecycleSet(s);
  }

  /** Short of a lost statement, an answered issue or revocation has its row exactly when its name or reason is
      spelled alike by %q and JSON; the row then holds that very text. */
  lemma LifecycleIff(env: Env, states: seq<State>, labels: seq<Label>, k: nat, rid: nat)
    requires PrintsAscii(env.isPrint) && IsRun(env, states, labels) && states[0] == INITIAL && k < |states|
    requires rid in AnsweredLifecycle(states[k]) && states[k].requests[rid].audit != Dropped(Lost)
    ensures var op := states[k].requests[rid].op;
            RowsBy(states[k].actions, rid) == if Shared(OwnText(op), env.isPrint) then [OwnRow(op, rid)] else []
  {
    AuditTrail(env, states, labels, k);
    assert RequestOk(env, states[k], rid);
  }
}
