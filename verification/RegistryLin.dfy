/** Linearisability of the agent endpoints: under any interleaving of statements the answers are those of an
    atomic registry in which every request takes effect at one instant of its own execution. */
module RegistryLin {
  import opened Text
  import opened Statements
  import opened Registry

  // ----- the sequential specification

  /** The table an entry leaves behind: nothing if its statement was lost, else the atomic effect. */
  function AfterEntry(env: Env, reg: Table, e: Entry): Table {
    if e.fault == Lost then reg else Atomic(env, reg, e.op, e.key, e.now).0
  }

  /** Without a database fault the answer is the atomic one. With a fault it is a server error, or "not found"
      for a revoke, whose existence query drops its error. */
  predicate LegalAnswer(env: Env, reg: Table, e: Entry) {
    if e.fault == NoFault then e.response == Atomic(env, reg, e.op, e.key, e.now).1
    else e.response == ServerError || (e.op.Revoke? && e.fault == Lost && e.response == NotFound)
  }

  function Replay(env: Env, lin: seq<Entry>): Table {
    if lin == [] then map[]
    else AfterEntry(env, Replay(env, lin[..|lin| - 1]), lin[|lin| - 1])
  }

  predicate LegalAt(env: Env, lin: seq<Entry>, i: nat)
    requires i < |lin|
  {
    LegalAnswer(env, Replay(env, lin[..i]), lin[i])
  }

  ghost predicate LegalSequence(env: Env, lin: seq<Entry>) {
    forall i | 0 <= i < |lin| :: LegalAt(env, lin, i)
  }

  /** A sequence of entries linearises a history: it is legal; its entries are distinct invoked requests with
      their own operations; every answered request is in it with its answer; and a request answered before
      another was invoked comes first. */
  ghost predicate Linearizes(env: Env, lin: seq<Entry>, history: seq<Event>) {
    && LegalSequence(env, lin)
    && (forall i, j | 0 <= i < j < |lin| :: lin[i].rid != lin[j].rid)
    && (forall i | 0 <= i < |lin| :: Invoked(lin[i].rid, lin[i].op) in history)
    && (forall h | 0 <= h < |history| && history[h].Responded? ::
          exists i | 0 <= i < |lin| :: lin[i].rid == history[h].rid && lin[i].response == history[h].response)
    && RealTime(lin, history)
  }

  ghost predicate RealTime(lin: seq<Entry>, history: seq<Event>) {
    forall h, g, i, j | 0 <= h < g < |history| && history[h].Responded? && history[g].Invoked?
                        && 0 <= i < |lin| && 0 <= j < |lin|
                        && lin[i].rid == history[h].rid && lin[j].rid == history[g].rid :: i < j
  }

  // ----- when it holds

  /** A revoke whose UPDATE touched nothing finds, at its EXISTS query, an active row: the row was created in
      between. It will answer 200 for a passport that is not revoked. */
  predicate Overlooks(s: State, l: Label) {
    l.Statement? && l.rid in s.requests && l.fault == NoFault
    && s.requests[l.rid].pc.Check? && s.requests[l.rid].op.id in s.agents
    && s.agents[s.requests[l.rid].op.id].status == Active
  }

  ghost predicate NeverOverlooks(states: seq<State>, labels: seq<Label>, k: nat)
    requires |states| == |labels| + 1 && k <= |labels|
  {
    forall i | 0 <= i < k :: !Overlooks(states[i], labels[i])
  }

  // ----- invariants

  predicate ShapeOk(env: Env, t: Thread) {
    && (Running(t) ==> Acceptable(env, t.op))
    && (t.pc.Check? ==> t.op.Revoke?)
    && (t.pc.Lifecycle? ==> t.op.Register? || t.op.Revoke?)
    && (t.pc.First? || t.pc.Check? <==> t.point.None?)
  }

  /** The answer a request past its point is bound to give. */
  function Promise(t: Thread): Response {
    if t.pc.Finish? || t.pc.Closed? then t.pc.response
    else if t.op.Register? then Created(t.op.id)
    else if t.op.Revoke? then RevokedOk(ReasonOf(t.op.reason))
    else ServerError
  }

  predicate PointOk(t: Thread, rid: nat, lin: seq<Entry>) {
    t.point.Some? ==>
      var p := t.point.value;
      p < |lin| && lin[p].rid == rid && lin[p].op == t.op && lin[p].response == Promise(t)
  }

  ghost predicate Points(env: Env, s: State) {
    && (forall rid | rid in s.requests :: ShapeOk(env, s.requests[rid]) && PointOk(s.requests[rid], rid, s.lin))
    && (forall i | 0 <= i < |s.lin| :: s.lin[i].rid in s.requests && s.requests[s.lin[i].rid].point == Some(i))
  }

  ghost predicate EventOk(s: State, h: nat)
    requires h < |s.history| == |s.marks|
  {
    var e := s.history[h];
    e.rid in s.requests &&
    var t := s.requests[e.rid];
    match e
    case Invoked(_, op) => t.op == op && t.invoked == h && (t.point.Some? ==> s.marks[h] <= t.point.value)
    case Responded(_, r) => t.pc == Closed(r) && t.point.Some? && t.point.value < s.marks[h]
  }

  ghost predicate Marks(s: State) {
    && |s.history| == |s.marks|
    && (forall i, j | 0 <= i <= j < |s.marks| :: s.marks[i] <= s.marks[j])
    && (forall i | 0 <= i < |s.marks| :: s.marks[i] <= |s.lin|)
    && (forall h | 0 <= h < |s.history| :: EventOk(s, h))
    && (forall rid | rid in s.requests ::
          s.requests[rid].invoked < |s.history|
          && s.history[s.requests[rid].invoked] == Invoked(rid, s.requests[rid].op))
  }

  ghost predicate Legal(env: Env, s: State) {
    Replay(env, s.lin) == s.agents && LegalSequence(env, s.lin)
  }

  // ----- one statement against the specification

  lemma FirstLegal(env: Env, agents: Table, rid: nat, t: Thread, key: string, now: int, fault: Fault)
    requires t.pc.First? && ShapeOk(env, t) && !t.op.Revoke? && !t.op.Register?
    ensures var e := Execute(env, agents, rid, t, key, now, fault);
            e.answer.Some?
            && var entry := Entry(rid, t.op, key, now, FaultAt(t, fault), e.answer.value);
               e.agents == AfterEntry(env, agents, entry) && LegalAnswer(env, agents, entry)
  {
    if t.op.LogAction? && t.op.id in agents {
      assert Atomic(env, agents, t.op, key, now).0 == agents;
    }
  }

  lemma ExecuteLegal(env: Env, agents: Table, rid: nat, t: Thread, key: string, now: int, fault: Fault)
    requires Running(t) && ShapeOk(env, t)
    requires t.pc.Check? && fault == NoFault && t.op.id in agents ==> agents[t.op.id].status == Revoked
    ensures var e := Execute(env, agents, rid, t, key, now, fault);
            if e.answer.Some? then
              var entry := Entry(rid, t.op, key, now, FaultAt(t, fault), e.answer.value);
              e.agents == AfterEntry(env, agents, entry) && LegalAnswer(env, agents, entry)
            else e.agents == agents
  {
    if t.pc.First? && !t.op.Revoke? && !t.op.Register? {
      FirstLegal(env, agents, rid, t, key, now, fault);
    }
  }

  /** A request keeps its shape and its promise from one statement to the next. */
  predicate ShapeKept(env: Env, t: Thread, e: Effect, fault: Fault) {
    var u := t.(pc := e.pc, audit := e.audit, point := if e.answer.Some? then Some(0) else t.point);
    ShapeOk(env, u) && !u.pc.Closed?
    && (e.answer.Some? ==> t.point.None? && Promise(u) == e.answer.value)
    && (e.answer.None? ==> Promise(u) == Promise(t) || u.point.None?)
    && (u.pc.Check? ==> t.pc.First? && t.op.Revoke? && fault == NoFault)
  }

  lemma FirstShape(env: Env, agents: Table, rid: nat, t: Thread, key: string, now: int, fault: Fault)
    requires t.pc.First? && ShapeOk(env, t)
    ensures ShapeKept(env, t, Execute(env, agents, rid, t, key, now, fault), fault)
  {
  }

  lemma ExecuteShape(env: Env, agents: Table, rid: nat, t: Thread, key: string, now: int, fault: Fault)
    requires Running(t) && ShapeOk(env, t)
    ensures ShapeKept(env, t, Execute(env, agents, rid, t, key, now, fault), fault)
  {
    if t.pc.First? {
      FirstShape(env, agents, rid, t, key, now, fault);
    }
  }

  lemma AppendLegal(env: Env, lin: seq<Entry>, e: Entry)
    requires LegalSequence(env, lin) && LegalAnswer(env, Replay(env, lin), e)
    ensures LegalSequence(env, lin + [e]) && Replay(env, lin + [e]) == AfterEntry(env, Replay(env, lin), e)
  {
    var all := lin + [e];
    assert all[..|lin|] == lin;
    forall i | 0 <= i < |all| ensures LegalAt(env, all, i) {
      if i < |lin| {
        assert all[..i] == lin[..i] && LegalAt(env, lin, i);
      }
    }
  }

  // ----- preservation, label by label

  /** Steps of server processes touch neither tables nor requests. */
  lemma Quiet(env: Env, s: State, l: Label, t: State)
    requires Next(env, s, l) == Some(t) && !l.Invoke? && !l.Statement? && !l.Respond?
    ensures t == s.(procs := t.procs, keyRow := t.keyRow)
    ensures forall rid | rid in s.requests :: Live(t, rid) ==> Live(s, rid) || l.BootSelect? || l.BootInsert?
  {
  }

  lemma StatementPoints(env: Env, s: State, rid: nat, now: int, fault: Fault, key: string)
    requires rid in s.requests && Running(s.requests[rid]) && Points(env, s)
    ensures Points(env, AfterStatement(env, s, rid, now, fault, key))
  {
    var t := s.requests[rid];
    var e := Execute(env, s.agents, rid, t, key, now, fault);
    var u := AfterStatement(env, s, rid, now, fault, key);
    ExecuteShape(env, s.agents, rid, t, key, now, fault);
    assert PointOk(t, rid, s.lin);
    forall r | r in u.requests ensures ShapeOk(env, u.requests[r]) && PointOk(u.requests[r], r, u.lin) {
      if r != rid {
        assert PointOk(s.requests[r], r, s.lin);
      }
    }
  }

  lemma StatementMarks(env: Env, s: State, rid: nat, now: int, fault: Fault, key: string)
    requires rid in s.requests && Running(s.requests[rid]) && Points(env, s) && Marks(s)
    ensures Marks(AfterStatement(env, s, rid, now, fault, key))
  {
    var t := s.requests[rid];
    var e := Execute(env, s.agents, rid, t, key, now, fault);
    var u := AfterStatement(env, s, rid, now, fault, key);
    ExecuteShape(env, s.agents, rid, t, key, now, fault);
    forall h | 0 <= h < |u.history| ensures EventOk(u, h) {
      assert EventOk(s, h);
    }
  }

  lemma StatementLegal(env: Env, s: State, rid: nat, now: int, fault: Fault, key: string)
    requires rid in s.requests && Running(s.requests[rid]) && Points(env, s) && Legal(env, s)
    requires !Overlooks(s, Statement(rid, now, fault))
    ensures Legal(env, AfterStatement(env, s, rid, now, fault, key))
  {
    var t := s.requests[rid];
    var e := Execute(env, s.agents, rid, t, key, now, fault);
    ExecuteLegal(env, s.agents, rid, t, key, now, fault);
    if e.answer.Some? {
      AppendLegal(env, s.lin, Entry(rid, t.op, key, now, FaultAt(t, fault), e.answer.value));
    }
  }

  lemma InvokePoints(env: Env, s: State, rid: nat, pid: nat, op: Op)
    requires rid !in s.requests && Points(env, s)
    ensures Points(env, AfterInvoke(env, s, rid, pid, op))
  {
    var t := AfterInvoke(env, s, rid, pid, op);
    forall r | r in t.requests ensures ShapeOk(env, t.requests[r]) && PointOk(t.requests[r], r, t.lin) {
      if r != rid {
        assert PointOk(s.requests[r], r, s.lin);
      }
    }
  }

  lemma InvokeMarks(env: Env, s: State, rid: nat, pid: nat, op: Op)
    requires rid !in s.requests && Marks(s)
    ensures Marks(AfterInvoke(env, s, rid, pid, op))
  {
    var t := AfterInvoke(env, s, rid, pid, op);
    forall h | 0 <= h < |t.history| ensures EventOk(t, h) {
      if h < |s.history| {
        assert EventOk(s, h);
      }
    }
  }

  lemma InvokeLegal(env: Env, s: State, rid: nat, pid: nat, op: Op)
    requires Legal(env, s)
    ensures Legal(env, AfterInvoke(env, s, rid, pid, op))
  {
    if !Acceptable(env, op) {
      AppendLegal(env, s.lin, Entry(rid, op, "", 0, NoFault, BadRequest));
    }
  }

  lemma RespondPreserves(env: Env, s: State, rid: nat, response: Response)
    requires rid in s.requests && s.requests[rid].pc == Finish(response) && Points(env, s) && Marks(s)
    ensures Points(env, AfterRespond(s, rid, response)) && Marks(AfterRespond(s, rid, response))
  {
    var t := AfterRespond(s, rid, response);
    assert PointOk(s.requests[rid], rid, s.lin) && ShapeOk(env, s.requests[rid]);
    forall r | r in t.requests ensures ShapeOk(env, t.requests[r]) && PointOk(t.requests[r], r, t.lin) {
      assert PointOk(s.requests[r], r, s.lin);
    }
    forall h | 0 <= h < |t.history| ensures EventOk(t, h) {
      if h < |s.history| {
        assert EventOk(s, h);
      }
    }
  }

  /** Every request has its place, in every run. */
  ghost predicate Placed(env: Env, s: State) {
    Points(env, s) && Marks(s)
  }

  lemma QuietPlaced(env: Env, s: State, l: Label, t: State)
    requires Next(env, s, l) == Some(t) && !l.Invoke? && !l.Statement? && !l.Respond?
    requires Placed(env, s)
    ensures Placed(env, t)
  {
    Quiet(env, s, l, t);
    forall h | 0 <= h < |t.history| ensures EventOk(t, h) {
      assert EventOk(s, h);
    }
  }

  lemma StepPlaced(env: Env, s: State, l: Label, t: State)
    requires Next(env, s, l) == Some(t) && Placed(env, s)
    ensures Placed(env, t)
  {
    match l
    case Statement(rid, now, fault) =>
      var key := s.procs[s.requests[rid].pid].key;
      StatementPoints(env, s, rid, now, fault, key);
      StatementMarks(env, s, rid, now, fault, key);
    case Invoke(rid, pid, op) =>
      InvokePoints(env, s, rid, pid, op);
      InvokeMarks(env, s, rid, pid, op);
    case Respond(rid) => RespondPreserves(env, s, rid, s.requests[rid].pc.response);
    case _ => QuietPlaced(env, s, l, t);
  }

  lemma StepLegal(env: Env, s: State, l: Label, t: State)
    requires Next(env, s, l) == Some(t) && Placed(env, s) && Legal(env, s) && !Overlooks(s, l)
    ensures Legal(env, t)
  {
    match l
    case Statement(rid, now, fault) =>
      StatementLegal(env, s, rid, now, fault, s.procs[s.requests[rid].pid].key);
    case Invoke(rid, pid, op) => InvokeLegal(env, s, rid, pid, op);
    case _ =>
  }

  lemma {:induction false} RunPlaced(env: Env, states: seq<State>, labels: seq<Label>, k: nat)
    requires IsRun(env, states, labels) && states[0] == INITIAL && k < |states|
    ensures Placed(env, states[k])
  {
    if k > 0 {
      RunPlaced(env, states, labels, k - 1);
      assert Stepped(env, states, labels, k - 1);
      StepPlaced(env, states[k - 1], labels[k - 1], states[k]);
    }
  }

  lemma {:induction false} RunLegal(env: Env, states: seq<State>, labels: seq<Label>, k: nat)
    requires IsRun(env, states, labels) && states[0] == INITIAL && k < |states| && NeverOverlooks(states, labels, k)
    ensures Legal(env, states[k])
  {
    if k > 0 {
      RunLegal(env, states, labels, k - 1);
      LegalNext(env, states, labels, k - 1);
    }
  }

  lemma LegalNext(env: Env, states: seq<State>, labels: seq<Label>, j: nat)
    requires IsRun(env, states, labels) && states[0] == INITIAL && j < |labels|
    requires Legal(env, states[j]) && !Overlooks(states[j], labels[j])
    ensures Legal(env, states[j + 1])
  {
    RunPlaced(env, states, labels, j);
    assert Stepped(env, states, labels, j);
    StepLegal(env, states[j], labels[j], states[j + 1]);
  }

  /** A revoke that overlooks a row leaves the database behind the atomic registry. */
  lemma OverlookedIllegal(env: Env, s: State, l: Label, t: State)
    requires Next(env, s, l) == Some(t) && Placed(env, s) && Legal(env, s) && Overlooks(s, l)
    ensures !Legal(env, t)
  {
    var r := s.requests[l.rid];
    var entry := Entry(l.rid, r.op, s.procs[r.pid].key, l.now, NoFault, RevokedOk(ReasonOf(r.op.reason)));
    assert ShapeOk(env, r) && Acceptable(env, r.op);
    assert t.lin == s.lin + [entry] && t.agents == s.agents;
    assert t.lin[..|s.lin|] == s.lin;
    assert Replay(env, t.lin)[r.op.id].status == Revoked;
  }

  /** Exactly when the database agrees with the atomic registry at every instant of a run: when no revoke's
      EXISTS query finds an active row. */
  lemma LegalIff(env: Env, states: seq<State>, labels: seq<Label>, k: nat)
    requires IsRun(env, states, labels) && states[0] == INITIAL && k < |states|
    ensures (forall i | 0 <= i <= k :: Legal(env, states[i])) <==> NeverOverlooks(states, labels, k)
  {
    if NeverOverlooks(states, labels, k) {
      forall i | 0 <= i <= k ensures Legal(env, states[i]) {
        RunLegal(env, states, labels, i);
      }
    } else {
      var i :| 0 <= i < k && Overlooks(states[i], labels[i]);
      RunPlaced(env, states, labels, i);
      assert Stepped(env, states, labels, i);
      if Legal(env, states[i]) {
        OverlookedIllegal(env, states[i], labels[i], states[i + 1]);
      }
    }
  }

  lemma PlacedAnswers(env: Env, s: State)
    requires Placed(env, s)
    ensures forall i, j | 0 <= i < j < |s.lin| :: s.lin[i].rid != s.lin[j].rid
    ensures forall i | 0 <= i < |s.lin| :: Invoked(s.lin[i].rid, s.lin[i].op) in s.history
    ensures forall h | 0 <= h < |s.history| && s.history[h].Responded? ::
              exists i | 0 <= i < |s.lin| ::
                s.lin[i].rid == s.history[h].rid && s.lin[i].response == s.history[h].response
  {
    var lin, history := s.lin, s.history;
    forall i | 0 <= i < |lin| ensures Invoked(lin[i].rid, lin[i].op) in history {
      var t := s.requests[lin[i].rid];
      assert PointOk(t, lin[i].rid, lin);
      assert history[t.invoked] == Invoked(lin[i].rid, lin[i].op);
    }
    forall h | 0 <= h < |history| && history[h].Responded?
      ensures exists i | 0 <= i < |lin| :: lin[i].rid == history[h].rid && lin[i].response == history[h].response
    {
      assert EventOk(s, h);
      var t := s.requests[history[h].rid];
      assert PointOk(t, history[h].rid, lin);
      assert lin[t.point.value].rid == history[h].rid;
    }
  }

  lemma PlacedOrder(env: Env, s: State, h: nat, g: nat, i: nat, j: nat)
    requires Placed(env, s) && h < g < |s.history| && s.history[h].Responded? && s.history[g].Invoked?
    requires i < |s.lin| && j < |s.lin| && s.lin[i].rid == s.history[h].rid && s.lin[j].rid == s.history[g].rid
    ensures i < j
  {
    assert EventOk(s, h) && EventOk(s, g);
    assert s.requests[s.lin[i].rid].point == Some(i) && s.requests[s.lin[j].rid].point == Some(j);
    assert s.marks[h] <= s.marks[g];
  }

  lemma PlacedRealTime(env: Env, s: State)
    requires Placed(env, s)
    ensures RealTime(s.lin, s.history)
  {
    forall h, g, i, j | 0 <= h < g < |s.history| && s.history[h].Responded? && s.history[g].Invoked?
                        && 0 <= i < |s.lin| && 0 <= j < |s.lin|
                        && s.lin[i].rid == s.history[h].rid && s.lin[j].rid == s.history[g].rid
      ensures i < j
    {
      PlacedOrder(env, s, h, g, i, j);
    }
  }

  /** Every run in which no revoke overlooks a row is linearisable, and the linearisation leads to the table
      the database really holds. */
  lemma Linearizable(env: Env, states: seq<State>, labels: seq<Label>, k: nat)
    requires IsRun(env, states, labels) && states[0] == INITIAL && k < |states| && NeverOverlooks(states, labels, k)
    ensures Linearizes(env, states[k].lin, states[k].history) && Replay(env, states[k].lin) == states[k].agents
  {
    RunPlaced(env, states, labels, k);
    RunLegal(env, states, labels, k);
    PlacedAnswers(env, states[k]);
    PlacedRealTime(env, states[k]);
  }

  /** Without database faults every entry is fault-free, so every answer is exactly the atomic one. */
  lemma {:induction false} FaultFree(env: Env, states: seq<State>, labels: seq<Label>, k: nat)
    requires IsRun(env, states, labels) && states[0] == INITIAL && k < |states|
    requires forall i | 0 <= i < k && labels[i].Statement? :: labels[i].fault == NoFault
    ensures forall i | 0 <= i < |states[k].lin| :: states[k].lin[i].fault == NoFault
  {
    if k > 0 {
      FaultFree(env, states, labels, k - 1);
      assert Stepped(env, states, labels, k - 1);
    }
  }

  // ----- a discipline that suffices

  predicate Live(s: State, rid: nat) {
    rid in s.requests && s.requests[rid].pid in s.procs && s.procs[s.requests[rid].pid].Up?
  }

  /** The step creates this passport's row. */
  predicate Creates(s: State, l: Label, id: string) {
    l.Statement? && l.rid in s.requests && s.requests[l.rid].pc.First? && s.requests[l.rid].op.Register?
    && s.requests[l.rid].op.id == id && id !in s.agents && l.fault != Lost
  }

  /** No row is created while a revoke of its id is between its UPDATE and its EXISTS query. */
  ghost predicate Undisturbed(s: State, l: Label) {
    forall rid | rid in s.requests && Live(s, rid) && s.requests[rid].pc.Check? ::
      !Creates(s, l, s.requests[rid].op.id)
  }

  /** What a live revoke that found nothing to update may rely on. */
  ghost predicate Checked(s: State) {
    forall rid | rid in s.requests && Live(s, rid) && s.requests[rid].pc.Check? ::
      s.requests[rid].op.id in s.agents ==> s.agents[s.requests[rid].op.id].status == Revoked
  }

  /** Requests of a process exist only once it is up. */
  ghost predicate Hosted(s: State) {
    forall rid | rid in s.requests ::
      s.requests[rid].pid in s.procs && !s.procs[s.requests[rid].pid].Booting?
      && !s.procs[s.requests[rid].pid].Generated?
  }

  lemma StepHosted(env: Env, s: State, l: Label, t: State)
    requires Next(env, s, l) == Some(t) && Hosted(s)
    ensures Hosted(t)
    ensures forall rid | rid in s.requests && Live(t, rid) :: Live(s, rid)
  {
  }

  lemma CreatedBy(env: Env, s: State, l: Label, t: State, id: string)
    requires Next(env, s, l) == Some(t) && id !in s.agents && id in t.agents
    ensures Creates(s, l, id) && t.requests[l.rid].pc != Check
  {
  }

  lemma CheckOrigin(env: Env, s: State, l: Label, t: State, rid: nat)
    requires Next(env, s, l) == Some(t) && Points(env, s) && rid in t.requests && t.requests[rid].pc.Check?
    ensures rid in s.requests && t.requests[rid].op == s.requests[rid].op && t.requests[rid].pid == s.requests[rid].pid
    ensures s.requests[rid].pc.Check?
            || (t.requests[rid].op.id in s.agents ==> s.agents[t.requests[rid].op.id].status == Revoked)
  {
    if l.Statement? && l.rid == rid {
      ExecuteShape(env, s.agents, rid, s.requests[rid], s.procs[s.requests[rid].pid].key, l.now, l.fault);
    }
  }

  lemma StepChecked(env: Env, s: State, l: Label, t: State)
    requires Next(env, s, l) == Some(t) && Points(env, s) && Hosted(s) && Checked(s) && Undisturbed(s, l)
    ensures Checked(t) && !Overlooks(s, l)
  {
    StepGrows(env, s, l, t);
    StepHosted(env, s, l, t);
    forall rid | rid in t.requests && Live(t, rid) && t.requests[rid].pc.Check? && t.requests[rid].op.id in t.agents
      ensures t.agents[t.requests[rid].op.id].status == Revoked
    {
      var id := t.requests[rid].op.id;
      CheckOrigin(env, s, l, t, rid);
      if id in s.agents {
        assert RowGrows(s.agents[id], t.agents[id]);
      } else {
        CreatedBy(env, s, l, t, id);
      }
    }
    if l.Statement? && l.rid in s.requests {
      assert Live(s, l.rid);
    }
  }

  lemma {:induction false} RunChecked(env: Env, states: seq<State>, labels: seq<Label>, k: nat)
    requires IsRun(env, states, labels) && states[0] == INITIAL && k < |states|
    requires forall i | 0 <= i < k :: Undisturbed(states[i], labels[i])
    ensures Checked(states[k]) && Hosted(states[k]) && NeverOverlooks(states, labels, k)
  {
    if k > 0 {
      RunChecked(env, states, labels, k - 1);
      RunPlaced(env, states, labels, k - 1);
      CheckedNext(env, states, labels, k - 1);
    }
  }

  lemma CheckedNext(env: Env, states: seq<State>, labels: seq<Label>, j: nat)
    requires IsRun(env, states, labels) && j < |labels| && Points(env, states[j])
    requires Hosted(states[j]) && Checked(states[j]) && Undisturbed(states[j], labels[j])
    ensures Hosted(states[j + 1]) && Checked(states[j + 1]) && !Overlooks(states[j], labels[j])
  {
    assert Stepped(env, states, labels, j);
    StepHosted(env, states[j], labels[j], states[j + 1]);
    StepChecked(env, states[j], labels[j], states[j + 1]);
  }

  /** It is enough that no passport is created while a revoke of its id is between its two queries. */
  lemma UndisturbedLinearizable(env: Env, states: seq<State>, labels: seq<Label>, k: nat)
    requires IsRun(env, states, labels) && states[0] == INITIAL && k < |states|
    requires forall i | 0 <= i < k :: Undisturbed(states[i], labels[i])
    ensures Linearizes(env, states[k].lin, states[k].history) && Replay(env, states[k].lin) == states[k].agents
  {
    RunChecked(env, states, labels, k);
    Linearizable(env, states, labels, k);
  }
}
