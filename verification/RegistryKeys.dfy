/** The persisted signing key across boots, crashes and restarts (server/signer.go). */
module RegistryKeys {
  import opened Text
  import opened Statements
  import opened Registry
  import P = Payload

  // ----- rows and what was signed

  /** The stored bytes decode to the row's own fields and the stored signature is over them. */
  predicate RowOk(env: Env, id: string, row: AgentRow) {
    P.DecodePayload(row.payload) == Some(PayloadOf(id, row)) && row.signature == env.sign(row.key, row.payload)
  }

  ghost predicate RowsOk(env: Env, s: State) {
    forall id | id in s.agents :: RowOk(env, id, s.agents[id])
  }

  lemma NewRowOk(env: Env, key: string, op: Op)
    requires op.Register?
    ensures RowOk(env, op.id, NewRow(env, key, op)) && NewRow(env, key, op).key == key
  {
    P.DecodeCanonical(P.CanonicalPayload(op.id, op.name, op.organization, op.capabilities, op.issuedAt));
  }

  lemma RowStaysOk(env: Env, id: string, p: AgentRow, q: AgentRow)
    requires RowOk(env, id, p) && RowGrows(p, q)
    ensures RowOk(env, id, q) && q.key == p.key
  {
  }

  lemma ExecuteRow(env: Env, agents: Table, rid: nat, t: Thread, key: string, now: int, fault: Fault, id: string)
    requires id !in agents && id in Execute(env, agents, rid, t, key, now, fault).agents
    ensures t.op.Register? && t.op.id == id
            && Execute(env, agents, rid, t, key, now, fault).agents[id] == NewRow(env, key, t.op)
  {
  }

  /** A row that appears is a new row of the acting process's key. */
  lemma StepRow(env: Env, s: State, l: Label, t: State, id: string)
    requires Next(env, s, l) == Some(t) && id in t.agents && id !in s.agents
    ensures RowOk(env, id, t.agents[id])
    ensures exists pid :: pid in s.procs && s.procs[pid] == Up(t.agents[id].key)
  {
    match l
    case Statement(rid, now, fault) =>
      var r := s.requests[rid];
      var key := s.procs[r.pid].key;
      ExecuteRow(env, s.agents, rid, r, key, now, fault, id);
      NewRowOk(env, key, r.op);
      assert s.procs[r.pid] == Up(key);
    case _ => assert false;
  }

  lemma StepRows(env: Env, s: State, l: Label, t: State)
    requires Next(env, s, l) == Some(t) && RowsOk(env, s)
    ensures RowsOk(env, t)
    ensures forall id | id in t.agents ::
              if id in s.agents then t.agents[id].key == s.agents[id].key
              else exists pid :: pid in s.procs && s.procs[pid] == Up(t.agents[id].key)
  {
    StepGrows(env, s, l, t);
    forall id | id in t.agents
      ensures RowOk(env, id, t.agents[id])
      ensures if id in s.agents then t.agents[id].key == s.agents[id].key
              else exists pid :: pid in s.procs && s.procs[pid] == Up(t.agents[id].key)
    {
      if id in s.agents {
        RowStaysOk(env, id, s.agents[id], t.agents[id]);
      } else {
        StepRow(env, s, l, t, id);
      }
    }
  }

  /** In every run each row's signed payload says what the row says. */
  lemma {:induction false} PayloadsMatchRows(env: Env, states: seq<State>, labels: seq<Label>, k: nat)
    requires IsRun(env, states, labels) && states[0] == INITIAL && k < |states|
    ensures RowsOk(env, states[k])
  {
    if k > 0 {
      PayloadsMatchRows(env, states, labels, k - 1);
      RowsNext(env, states, labels, k - 1);
    }
  }

  lemma RowsNext(env: Env, states: seq<State>, labels: seq<Label>, j: nat)
    requires IsRun(env, states, labels) && j < |labels| && RowsOk(env, states[j])
    ensures RowsOk(env, states[j + 1])
  {
    assert Stepped(env, states, labels, j);
    StepRows(env, states[j], labels[j], states[j + 1]);
  }

  // ----- one key

  /** Every server that is up signs and verifies with the stored key. */
  ghost predicate KeysAgree(s: State) {
    forall pid | pid in s.procs && s.procs[pid].Up? :: s.keyRow == Some(s.procs[pid].key)
  }

  /** A first boot whose insert meets another boot's key: nothing is stored, yet it serves with its own. */
  predicate Stale(s: State, l: Label) {
    l.BootInsert? && l.pid in s.procs && s.procs[l.pid].Generated? && l.fault == NoFault
    && s.keyRow.Some? && s.keyRow.value != s.procs[l.pid].key
  }

  lemma StepKeys(env: Env, s: State, l: Label, t: State)
    requires Next(env, s, l) == Some(t) && KeysAgree(s)
    ensures KeysAgree(t) <==> !Stale(s, l)
    ensures s.keyRow.Some? ==> t.keyRow == s.keyRow
  {
    if Stale(s, l) {
      assert t.procs[l.pid] == Up(s.procs[l.pid].key);
    }
  }

  ghost predicate AllUnderKeyRow(s: State) {
    forall id | id in s.agents :: s.keyRow == Some(s.agents[id].key)
  }

  lemma {:induction false} RunKeys(env: Env, states: seq<State>, labels: seq<Label>, k: nat)
    requires IsRun(env, states, labels) && states[0] == INITIAL && k < |states|
    requires forall i | 0 <= i < k :: !Stale(states[i], labels[i])
    ensures KeysAgree(states[k])
    ensures AllUnderKeyRow(states[k])
  {
    if k > 0 {
      RunKeys(env, states, labels, k - 1);
      PayloadsMatchRows(env, states, labels, k - 1);
      KeysNext(env, states, labels, k - 1);
    }
  }

  lemma KeysNext(env: Env, states: seq<State>, labels: seq<Label>, j: nat)
    requires IsRun(env, states, labels) && j < |labels| && RowsOk(env, states[j]) && KeysAgree(states[j])
    requires !Stale(states[j], labels[j])
    requires AllUnderKeyRow(states[j])
    ensures KeysAgree(states[j + 1])
    ensures AllUnderKeyRow(states[j + 1])
  {
    assert Stepped(env, states, labels, j);
    StepKeys(env, states[j], labels[j], states[j + 1]);
    StepRows(env, states[j], labels[j], states[j + 1]);
  }

  /** All servers hold the stored key at every instant exactly when no first boot's insert meets another key. */
  lemma KeysAgreeIff(env: Env, states: seq<State>, labels: seq<Label>, k: nat)
    requires IsRun(env, states, labels) && states[0] == INITIAL && k < |states|
    ensures (forall i | 0 <= i <= k :: KeysAgree(states[i]))
            <==> (forall i | 0 <= i < k :: !Stale(states[i], labels[i]))
  {
    if forall i | 0 <= i < k :: !Stale(states[i], labels[i]) {
      forall i | 0 <= i <= k ensures KeysAgree(states[i]) {
        RunKeys(env, states, labels, i);
      }
    } else {
      var i :| 0 <= i < k && Stale(states[i], labels[i]);
      assert Stepped(env, states, labels, i);
      if KeysAgree(states[i]) {
        StepKeys(env, states[i], labels[i], states[i + 1]);
      }
    }
  }

  predicate Affirms(pc: Pc) {
    (pc.Finish? || pc.Closed?) && pc.response.Verified? ==> pc.response.signatureValid
  }

  lemma RowVerifies(env: Env, s: State, id: string, pid: nat)
    requires Sound(env) && RowsOk(env, s) && KeysAgree(s) && id in s.agents && pid in s.procs && s.procs[pid].Up?
    requires s.keyRow == Some(s.agents[id].key)
    ensures env.verify(s.procs[pid].key, s.agents[id].payload, s.agents[id].signature)
  {
    assert RowOk(env, id, s.agents[id]);
  }

  /** What a statement leaves a request answering, given that the passport it reads verifies. */
  lemma ExecuteAffirms(env: Env, agents: Table, rid: nat, t: Thread, key: string, now: int, fault: Fault)
    requires Affirms(t.pc)
    requires t.op.id in agents ==> env.verify(key, agents[t.op.id].payload, agents[t.op.id].signature)
    ensures Affirms(Execute(env, agents, rid, t, key, now, fault).pc)
  {
  }

  lemma StepAffirms(env: Env, s: State, l: Label, t: State, rid: nat)
    requires Sound(env) && Next(env, s, l) == Some(t) && RowsOk(env, s) && KeysAgree(s)
    requires AllUnderKeyRow(s)
    requires rid in t.requests && (rid in s.requests ==> Affirms(s.requests[rid].pc))
    ensures Affirms(t.requests[rid].pc)
  {
    match l
    case Statement(r, now, fault) =>
      if r == rid {
        var th := s.requests[rid];
        if th.op.id in s.agents {
          RowVerifies(env, s, th.op.id, th.pid);
        }
        ExecuteAffirms(env, s.agents, rid, th, s.procs[th.pid].key, now, fault);
      }
    case _ =>
  }

  /** When first boots do not overlap, over any requests, crashes and restarts: every stored passport, active or
      revoked, verifies under the key of every server that is up. */
  lemma SignaturesSurvive(env: Env, states: seq<State>, labels: seq<Label>, k: nat, id: string, pid: nat)
    requires Sound(env) && IsRun(env, states, labels) && states[0] == INITIAL && k < |states|
    requires forall i | 0 <= i < k :: !Stale(states[i], labels[i])
    requires id in states[k].agents && pid in states[k].procs && states[k].procs[pid].Up?
    ensures env.verify(states[k].procs[pid].key, states[k].agents[id].payload, states[k].agents[id].signature)
  {
    RunKeys(env, states, labels, k);
    PayloadsMatchRows(env, states, labels, k);
    RowVerifies(env, states[k], id, pid);
  }

  /** And no verification ever answers signature_valid = false. */
  lemma {:induction false} VerifyAffirms(env: Env, states: seq<State>, labels: seq<Label>, k: nat, rid: nat)
    requires Sound(env) && IsRun(env, states, labels) && states[0] == INITIAL && k < |states|
    requires forall i | 0 <= i < k :: !Stale(states[i], labels[i])
    requires rid in states[k].requests
    ensures Affirms(states[k].requests[rid].pc)
  {
    assert Stepped(env, states, labels, k - 1);
    RunKeys(env, states, labels, k - 1);
    PayloadsMatchRows(env, states, labels, k - 1);
    if rid in states[k - 1].requests {
      VerifyAffirms(env, states, labels, k - 1, rid);
    }
    StepAffirms(env, states[k - 1], labels[k - 1], states[k], rid);
  }

  // ----- a discipline that suffices

  /** No boot finds the key table empty while another is still about to store its key. */
  ghost predicate BootsAlone(s: State, l: Label) {
    l.BootSelect? && l.fault == NoFault && s.keyRow.None? ==>
      forall pid | pid in s.procs :: !s.procs[pid].Generated?
  }

  /** At most one generated key is waiting, and only while none is stored. */
  ghost predicate OneBoot(s: State) {
    && (forall p, q | p in s.procs && q in s.procs && s.procs[p].Generated? && s.procs[q].Generated? :: p == q)
    && (s.keyRow.Some? ==> forall p | p in s.procs :: !s.procs[p].Generated?)
  }

  lemma {:induction false} AloneNeverStale(env: Env, states: seq<State>, labels: seq<Label>, k: nat)
    requires IsRun(env, states, labels) && states[0] == INITIAL && k < |states|
    requires forall i | 0 <= i < k :: BootsAlone(states[i], labels[i])
    ensures OneBoot(states[k]) && forall i | 0 <= i < k :: !Stale(states[i], labels[i])
  {
    if k > 0 {
      AloneNeverStale(env, states, labels, k - 1);
      assert Stepped(env, states, labels, k - 1);
      StepAlone(env, states[k - 1], labels[k - 1], states[k]);
    }
  }

  lemma StepAlone(env: Env, s: State, l: Label, t: State)
    requires Next(env, s, l) == Some(t) && OneBoot(s) && BootsAlone(s, l)
    ensures OneBoot(t) && !Stale(s, l)
  {
  }

  // ----- the hypothesis is needed

  /** A signature scheme in which only the signing key verifies. */
  const KEYED: Env := Env((k, m) => k, (k, m, s) => s == k, c => 0x20 <= c as int < 0x7F, s => s == "")

  /** Two servers boot on an empty database; the second registers an agent and the first verifies it. */
  function TwoBoots(op: Op): seq<Label> {
    OverlappingBoots() + IssueAndVerify(op)
  }

  function OverlappingBoots(): seq<Label> {
    [Boot(0), Boot(1), BootSelect(0, "j", NoFault), BootSelect(1, "k", NoFault), BootInsert(0, NoFault),
     BootInsert(1, NoFault)]
  }

  function IssueAndVerify(op: Op): seq<Label> {
    [Invoke(1, 1, op), Statement(1, 0, NoFault), Invoke(2, 0, Verify(op.id)), Statement(2, 0, NoFault)]
  }

  lemma BootsRun() returns (states: seq<State>)
    ensures IsRun(KEYED, states, OverlappingBoots()) && states[0] == INITIAL
    ensures Serve(states[6]) && states[6].agents == map[] && states[6].requests == map[]
  {
    var s1 := INITIAL.(procs := INITIAL.procs[0 := Booting]);
    var s2 := s1.(procs := s1.procs[1 := Booting]);
    var s3 := s2.(procs := s2.procs[0 := Generated("j")]);
    var s4 := s3.(procs := s3.procs[1 := Generated("k")]);
    var s5 := s4.(keyRow := Some("j"), procs := s4.procs[0 := Up("j")]);
    var s6 := s5.(procs := s5.procs[1 := Up("k")]);
    states := [INITIAL, s1, s2, s3, s4, s5, s6];
  }

  /** Two servers are up with different keys. */
  predicate Serve(s: State) {
    0 in s.procs && 1 in s.procs && s.procs[0] == Up("j") && s.procs[1] == Up("k")
  }

  /** The second server registers an agent under its own key. */
  lemma RegisterSteps(s6: State, op: Op) returns (s7: State, s8: State)
    requires Serve(s6) && s6.agents == map[] && s6.requests == map[]
    requires op.Register? && Acceptable(KEYED, op)
    ensures Next(KEYED, s6, Invoke(1, 1, op)) == Some(s7) && Next(KEYED, s7, Statement(1, 0, NoFault)) == Some(s8)
    ensures Serve(s8) && 2 !in s8.requests && op.id in s8.agents && s8.agents[op.id].signature == "k"
  {
    s7 := AfterInvoke(KEYED, s6, 1, 1, op);
    s8 := AfterStatement(KEYED, s7, 1, 0, NoFault, "k");
    assert s8.agents[op.id] == NewRow(KEYED, "k", op);
  }

  /** The first server verifies it under the other. */
  lemma VerifySteps(s8: State, op: Op) returns (s9: State, s10: State)
    requires Serve(s8) && 2 !in s8.requests && op.id in s8.agents && s8.agents[op.id].signature == "k"
    ensures Next(KEYED, s8, Invoke(2, 0, Verify(op.id))) == Some(s9)
    ensures Next(KEYED, s9, Statement(2, 0, NoFault)) == Some(s10)
    ensures 2 in s10.requests && s10.requests[2].pc.Finish?
    ensures s10.requests[2].pc.response.Verified? && !s10.requests[2].pc.response.signatureValid
  {
    s9 := AfterInvoke(KEYED, s8, 2, 0, Verify(op.id));
    s10 := AfterStatement(KEYED, s9, 2, 0, NoFault, "j");
  }

  lemma IssueRun(s6: State, op: Op) returns (states: seq<State>)
    requires Serve(s6) && s6.agents == map[] && s6.requests == map[] && op.Register? && Acceptable(KEYED, op)
    ensures IsRun(KEYED, states, IssueAndVerify(op)) && states[0] == s6
    ensures 2 in states[4].requests && states[4].requests[2].pc.Finish?
    ensures states[4].requests[2].pc.response.Verified? && !states[4].requests[2].pc.response.signatureValid
  {
    var s7, s8 := RegisterSteps(s6, op);
    var s9, s10 := VerifySteps(s8, op);
    states := [s6, s7, s8, s9, s10];
  }

  /** With overlapping first boots any freshly issued, intact passport can be reported as wrongly signed. */
  lemma TwoBootsDisagree(op: Op) returns (states: seq<State>)
    requires op.Register? && Acceptable(KEYED, op)
    ensures Sound(KEYED) && IsRun(KEYED, states, TwoBoots(op)) && states[0] == INITIAL
    ensures 2 in states[10].requests && states[10].requests[2].pc.Finish?
    ensures states[10].requests[2].pc.response.Verified? && !states[10].requests[2].pc.response.signatureValid
  {
    var boots := BootsRun();
    var rest := IssueRun(boots[6], op);
    states := boots + rest[1..];
    JoinRuns(KEYED, boots, OverlappingBoots(), rest, IssueAndVerify(op));
  }
}
