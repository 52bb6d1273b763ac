/** What linearisability means for revocation, and a run that shows why it needs its hypothesis. */
module RegistryEffects {
  import opened Text
  import opened Statements
  import opened Registry
  import opened RegistryLin

  // ----- consequences for every legal order

  predicate RevokedIn(reg: Table, id: string) {
    id in reg && reg[id].status == Revoked
  }

  predicate IsRevokeOk(e: Entry, id: string) {
    e.op.Revoke? && e.op.id == id && e.response.RevokedOk?
  }

  lemma EntryKeepsRevoked(env: Env, reg: Table, e: Entry, id: string)
    requires RevokedIn(reg, id)
    ensures RevokedIn(AfterEntry(env, reg, e), id) && AfterEntry(env, reg, e)[id] == reg[id]
  {
  }

  lemma RevokeTakes(env: Env, reg: Table, e: Entry, id: string)
    requires LegalAnswer(env, reg, e) && IsRevokeOk(e, id)
    ensures RevokedIn(AfterEntry(env, reg, e), id)
  {
  }

  lemma ReplayStep(env: Env, lin: seq<Entry>, q: nat)
    requires q < |lin|
    ensures Replay(env, lin[..q + 1]) == AfterEntry(env, Replay(env, lin[..q]), lin[q])
  {
    assert lin[..q + 1][..q] == lin[..q];
  }

  lemma RevokeTakesAt(env: Env, lin: seq<Entry>, p: nat, id: string)
    requires LegalSequence(env, lin) && p < |lin| && IsRevokeOk(lin[p], id)
    ensures RevokedIn(Replay(env, lin[..p + 1]), id)
  {
    ReplayStep(env, lin, p);
    assert LegalAt(env, lin, p);
    RevokeTakes(env, Replay(env, lin[..p]), lin[p], id);
  }

  /** A successful revoke takes effect, and no later operation takes it back. */
  lemma {:induction false} RevokedStays(env: Env, lin: seq<Entry>, p: nat, q: nat, id: string)
    requires LegalSequence(env, lin) && p < q <= |lin| && IsRevokeOk(lin[p], id)
    ensures RevokedIn(Replay(env, lin[..q]), id)
    decreases q
  {
    if p < q - 1 {
      RevokedStays(env, lin, p, q - 1, id);
      ReplayStep(env, lin, q - 1);
      EntryKeepsRevoked(env, Replay(env, lin[..q - 1]), lin[q - 1], id);
    } else {
      RevokeTakesAt(env, lin, p, id);
    }
  }

  /** After a successful revoke no check is granted and no verification answers active. */
  lemma NoGrantAfter(env: Env, lin: seq<Entry>, p: nat, q: nat, id: string)
    requires LegalSequence(env, lin) && p < q < |lin| && IsRevokeOk(lin[p], id)
    ensures lin[q].op.Capability? && lin[q].op.id == id ==> !lin[q].response.Granted?
    ensures lin[q].op.Verify? && lin[q].op.id == id && lin[q].response.Verified? ==> lin[q].response.status == Revoked
  {
    RevokedStays(env, lin, p, q, id);
    assert LegalAt(env, lin, q);
  }

  /** This entry is the one that turned the row from active to revoked. */
  predicate Turns(env: Env, lin: seq<Entry>, p: nat, id: string)
    requires p < |lin|
  {
    var reg := Replay(env, lin[..p]);
    id in reg && reg[id].status == Active && lin[p].op.Revoke? && lin[p].op.id == id && lin[p].fault != Lost
  }

  /** In a legal order exactly one revoke of a passport writes: a revoked row carries the time and the reason
      of the one entry that found it active. */
  lemma {:induction false} OneEntryWrites(env: Env, lin: seq<Entry>, id: string)
    requires RevokedIn(Replay(env, lin), id)
    ensures exists p | 0 <= p < |lin| ::
              Turns(env, lin, p, id) && Replay(env, lin)[id].revokedAt == Some(lin[p].now)
              && Replay(env, lin)[id].revokeReason == (if lin[p].op.reason == "" then "manual revocation"
                                                       else lin[p].op.reason)
    ensures forall p, q | 0 <= p < |lin| && 0 <= q < |lin| && Turns(env, lin, p, id) && Turns(env, lin, q, id) :: p == q
  {
    var n := |lin| - 1;
    var init := lin[..n];
    var e := lin[n];
    if RevokedIn(Replay(env, init), id) {
      OneEntryWrites(env, init, id);
      var p :| 0 <= p < |init| && Turns(env, init, p, id) && Replay(env, init)[id].revokedAt == Some(init[p].now)
               && Replay(env, init)[id].revokeReason == (if init[p].op.reason == "" then "manual revocation"
                                                         else init[p].op.reason);
      assert lin[..p] == init[..p];
      assert Turns(env, lin, p, id) && Replay(env, lin)[id] == Replay(env, init)[id];
    } else {
      assert lin[..n] == init;
      assert Turns(env, lin, n, id) && Replay(env, lin)[id].revokedAt == Some(lin[n].now);
    }
    forall p, q | 0 <= p < |lin| && 0 <= q < |lin| && Turns(env, lin, p, id) && Turns(env, lin, q, id)
      ensures p == q
    {
      if p < q {
        TurnsOnce(env, lin, p, q, id);
      } else if q < p {
        TurnsOnce(env, lin, q, p, id);
      }
    }
  }

  lemma {:induction false} TurnedStays(env: Env, lin: seq<Entry>, p: nat, q: nat, id: string)
    requires p < q <= |lin| && Turns(env, lin, p, id)
    requires Acceptable(env, lin[p].op)
    ensures RevokedIn(Replay(env, lin[..q]), id)
    decreases q
  {
    ReplayStep(env, lin, q - 1);
    if p < q - 1 {
      TurnedStays(env, lin, p, q - 1, id);
      EntryKeepsRevoked(env, Replay(env, lin[..q - 1]), lin[q - 1], id);
    }
  }

  lemma TurnsOnce(env: Env, lin: seq<Entry>, p: nat, q: nat, id: string)
    requires p < q < |lin| && Turns(env, lin, p, id)
    ensures !Turns(env, lin, q, id)
  {
    TurnedStays(env, lin, p, q, id);
  }

  // ----- consequences for runs

  /** This request was invoked, and with no other operation. */
  ghost predicate InvokedAs(history: seq<Event>, rid: nat, op: Op) {
    Invoked(rid, op) in history && forall x | x in history && x.Invoked? && x.rid == rid :: x.op == op
  }

  /** The entry of an answered request: its own operation and its answer. */
  lemma EntryOf(env: Env, lin: seq<Entry>, history: seq<Event>, h: nat, op: Op) returns (i: nat)
    requires Linearizes(env, lin, history) && h < |history| && history[h].Responded?
    requires InvokedAs(history, history[h].rid, op)
    ensures i < |lin| && lin[i].rid == history[h].rid && lin[i].op == op && lin[i].response == history[h].response
  {
    i :| 0 <= i < |lin| && lin[i].rid == history[h].rid && lin[i].response == history[h].response;
    assert Invoked(lin[i].rid, lin[i].op) in history;
  }

  lemma OneInvocation(env: Env, s: State, rid: nat, op: Op)
    requires Placed(env, s) && Invoked(rid, op) in s.history
    ensures InvokedAs(s.history, rid, op)
  {
    var j :| 0 <= j < |s.history| && s.history[j] == Invoked(rid, op);
    assert EventOk(s, j);
    forall x | x in s.history && x.Invoked? && x.rid == rid ensures x.op == op {
      var i :| 0 <= i < |s.history| && s.history[i] == x;
      assert EventOk(s, i);
    }
  }

  /** A revoke that has answered 200, whatever reason it answered, has left its passport revoked. */
  lemma RevokedMeansRevoked(
    env: Env, states: seq<State>, labels: seq<Label>, k: nat, rid: nat, id: string, reason: string, answer: string
  )
    requires IsRun(env, states, labels) && states[0] == INITIAL && k < |states| && NeverOverlooks(states, labels, k)
    requires Invoked(rid, Revoke(id, reason)) in states[k].history
    requires Responded(rid, RevokedOk(answer)) in states[k].history
    ensures RevokedIn(states[k].agents, id) && answer == if reason == "" then "manual revocation" else reason
  {
    Linearizable(env, states, labels, k);
    RunPlaced(env, states, labels, k);
    OneInvocation(env, states[k], rid, Revoke(id, reason));
    RevokedFinally(env, states[k].lin, states[k].history, rid, Revoke(id, reason), answer);
  }

  lemma AnsweredReason(env: Env, lin: seq<Entry>, i: nat, answer: string)
    requires LegalSequence(env, lin) && i < |lin| && lin[i].op.Revoke? && lin[i].response == RevokedOk(answer)
    ensures answer == if lin[i].op.reason == "" then "manual revocation" else lin[i].op.reason
  {
    assert LegalAt(env, lin, i);
  }

  lemma RevokedFinally(env: Env, lin: seq<Entry>, history: seq<Event>, rid: nat, op: Op, answer: string)
    requires Linearizes(env, lin, history) && op.Revoke? && InvokedAs(history, rid, op)
    requires Responded(rid, RevokedOk(answer)) in history
    ensures RevokedIn(Replay(env, lin), op.id)
    ensures answer == if op.reason == "" then "manual revocation" else op.reason
  {
    var h :| 0 <= h < |history| && history[h] == Responded(rid, RevokedOk(answer));
    var i := EntryOf(env, lin, history, h, op);
    AnsweredReason(env, lin, i, answer);
    RevokedStays(env, lin, i, |lin|, op.id);
    assert lin[..|lin|] == lin;
  }

  /** The statement at which a revoke becomes bound to answer 200 leaves its passport revoked exactly when it
      does not overlook an active row. */
  lemma DecidedIff(env: Env, s: State, l: Label, t: State)
    requires Next(env, s, l) == Some(t) && l.Statement? && s.requests[l.rid].op.Revoke?
    requires !s.requests[l.rid].pc.Lifecycle? && t.requests[l.rid].pc.Lifecycle?
    ensures RevokedIn(t.agents, s.requests[l.rid].op.id) <==> !Overlooks(s, l)
  {
    assert s.requests[l.rid].pc.First? || s.requests[l.rid].pc.Check?;
  }

  /** And then for good, in every run, whatever the other requests do. */
  lemma DecidedForGood(env: Env, states: seq<State>, labels: seq<Label>, i: nat, k: nat)
    requires IsRun(env, states, labels) && i < k < |states| && labels[i].Statement? && !Overlooks(states[i], labels[i])
    requires labels[i].rid in states[i].requests && labels[i].rid in states[i + 1].requests
    requires states[i].requests[labels[i].rid].op.Revoke? && !states[i].requests[labels[i].rid].pc.Lifecycle?
    requires states[i + 1].requests[labels[i].rid].pc.Lifecycle?
    ensures RevokedIn(states[k].agents, states[i].requests[labels[i].rid].op.id)
  {
    assert Stepped(env, states, labels, i);
    DecidedIff(env, states[i], labels[i], states[i + 1]);
    StaysRevoked(env, states, labels, i + 1, k, states[i].requests[labels[i].rid].op.id);
  }

  lemma StaysRevoked(env: Env, states: seq<State>, labels: seq<Label>, i: nat, j: nat, id: string)
    requires IsRun(env, states, labels) && i <= j < |states| && RevokedIn(states[i].agents, id)
    ensures RevokedIn(states[j].agents, id)
  {
    RunGrows(env, states, labels, i, j);
    assert RowGrows(states[i].agents[id], states[j].agents[id]);
  }

  lemma InvokedCheck(env: Env, s: State, rid: nat, pid: nat, id: string, capability: string, t: State)
    requires Next(env, s, Invoke(rid, pid, Capability(id, capability))) == Some(t)
    ensures CheckPending(t, rid, id, capability)
  {
  }

  // ----- who wrote a revocation

  /** The UPDATE of a revoke that finds the row active and takes effect, told to the client or not. */
  predicate Hits(s: State, l: Label, id: string) {
    l.Statement? && l.rid in s.requests && s.requests[l.rid].pc.First? && s.requests[l.rid].op.Revoke?
    && s.requests[l.rid].op.id == id && l.fault != Lost && id in s.agents && s.agents[id].status == Active
  }

  /** The row says so: it has this statement's time and reason. */
  predicate WrittenBy(s: State, l: Label, row: AgentRow)
    requires l.Statement? && l.rid in s.requests && s.requests[l.rid].op.Revoke?
  {
    var reason := s.requests[l.rid].op.reason;
    row.revokedAt == Some(l.now) && row.revokeReason == if reason == "" then "manual revocation" else reason
  }

  lemma HitRevokes(env: Env, s: State, l: Label, t: State, id: string)
    requires Next(env, s, l) == Some(t) && Hits(s, l, id)
    ensures RevokedIn(t.agents, id) && WrittenBy(s, l, t.agents[id])
  {
  }

  lemma ExecuteRevokes(env: Env, agents: Table, rid: nat, t: Thread, key: string, now: int, fault: Fault, id: string)
    requires RevokedIn(Execute(env, agents, rid, t, key, now, fault).agents, id) && !RevokedIn(agents, id)
    ensures t.pc.First? && t.op.Revoke? && t.op.id == id && fault != Lost && id in agents
  {
  }

  /** Nothing else turns a row into a revoked one, and a revoked row is not written again. */
  lemma RevokedStep(env: Env, s: State, l: Label, t: State, id: string)
    requires Next(env, s, l) == Some(t) && RevokedIn(t.agents, id)
    ensures if RevokedIn(s.agents, id) then t.agents[id] == s.agents[id] else Hits(s, l, id)
  {
    if RevokedIn(s.agents, id) {
      StepGrows(env, s, l, t);
      assert RowGrows(s.agents[id], t.agents[id]);
    } else if l.Statement? {
      ExecuteRevokes(env, s.agents, l.rid, s.requests[l.rid], s.procs[s.requests[l.rid].pid].key, l.now, l.fault, id);
    }
  }

  lemma HitOnce(env: Env, states: seq<State>, labels: seq<Label>, i: nat, j: nat, id: string)
    requires IsRun(env, states, labels) && i < j < |labels| && Hits(states[i], labels[i], id)
    ensures !Hits(states[j], labels[j], id)
  {
    assert Stepped(env, states, labels, i);
    HitRevokes(env, states[i], labels[i], states[i + 1], id);
    StaysRevoked(env, states, labels, i + 1, j, id);
  }

  lemma {:induction false} RevokedWasHit(env: Env, states: seq<State>, labels: seq<Label>, k: nat, id: string)
      returns (i: nat)
    requires IsRun(env, states, labels) && states[0] == INITIAL && k < |states| && RevokedIn(states[k].agents, id)
    ensures i < k && Hits(states[i], labels[i], id) && WrittenBy(states[i], labels[i], states[k].agents[id])
  {
    var s, l, t := states[k - 1], labels[k - 1], states[k];
    assert Stepped(env, states, labels, k - 1);
    RevokedStep(env, s, l, t, id);
    if RevokedIn(s.agents, id) {
      i := RevokedWasHit(env, states, labels, k - 1, id);
    } else {
      i := k - 1;
      HitRevokes(env, s, l, t, id);
    }
  }

  /** In every run, whatever fails or overlooks a row: of all revokes of a passport exactly one has written to
      the database, and the revoked row carries its time and the reason it gave, or the default. */
  lemma OneRevokeWrites(env: Env, states: seq<State>, labels: seq<Label>, k: nat, id: string)
    requires IsRun(env, states, labels) && states[0] == INITIAL && k < |states| && RevokedIn(states[k].agents, id)
    ensures exists i | 0 <= i < k ::
              Hits(states[i], labels[i], id) && WrittenBy(states[i], labels[i], states[k].agents[id])
    ensures forall i, j | 0 <= i < k && 0 <= j < k
                          && Hits(states[i], labels[i], id) && Hits(states[j], labels[j], id) ::
              i == j
  {
    var w := RevokedWasHit(env, states, labels, k, id);
    forall i, j | 0 <= i < k && 0 <= j < k && Hits(states[i], labels[i], id) && Hits(states[j], labels[j], id)
      ensures i == j
    {
      if i < j {
        HitOnce(env, states, labels, i, j, id);
      } else if j < i {
        HitOnce(env, states, labels, j, i, id);
      }
    }
  }

  // ----- when a revoke overlooks a row

  /** Step u is the UPDATE of request rid and touches no row; step k is its EXISTS query, and it runs. */
  predicate Window(states: seq<State>, labels: seq<Label>, u: nat, k: nat, rid: nat, id: string)
    requires |states| == |labels| + 1
  {
    && u < k < |labels|
    && labels[u].Statement? && labels[u].rid == rid && rid in states[u].requests && states[u].requests[rid].pc.First?
    && rid in states[u + 1].requests && states[u + 1].requests[rid].pc.Check?
    && labels[k].Statement? && labels[k].rid == rid && labels[k].fault == NoFault
    && rid in states[k].requests && states[k].requests[rid].pc.Check?
    && states[u].requests[rid].op.Revoke? && states[u].requests[rid].op.id == id && states[k].requests[rid].op.id == id
  }

  /** Step i creates the row and no revoke has hit it between i and k. */
  ghost predicate CreatedUnhit(states: seq<State>, labels: seq<Label>, i: nat, k: nat, id: string)
    requires |states| == |labels| + 1 && i < k <= |labels|
  {
    Creates(states[i], labels[i], id) && forall j | i < j < k :: !Hits(states[j], labels[j], id)
  }

  predicate ActiveIn(reg: Table, id: string) {
    id in reg && reg[id].status == Active
  }

  lemma MissedUpdate(env: Env, s: State, l: Label, t: State, id: string)
    requires Next(env, s, l) == Some(t) && l.Statement? && s.requests[l.rid].pc.First?
    requires s.requests[l.rid].op.Revoke? && s.requests[l.rid].op.id == id && t.requests[l.rid].pc.Check?
    ensures t.agents == s.agents && !ActiveIn(s.agents, id)
  {
  }

  lemma ActiveStep(env: Env, s: State, l: Label, t: State, id: string)
    requires Next(env, s, l) == Some(t)
    ensures ActiveIn(s.agents, id) ==> (ActiveIn(t.agents, id) <==> !Hits(s, l, id))
    ensures id !in s.agents ==> (ActiveIn(t.agents, id) <==> Creates(s, l, id))
    ensures id !in s.agents ==> (id in t.agents <==> Creates(s, l, id))
  {
    StepGrows(env, s, l, t);
    if ActiveIn(s.agents, id) {
      assert RowGrows(s.agents[id], t.agents[id]);
      if RevokedIn(t.agents, id) {
        RevokedStep(env, s, l, t, id);
      }
      if Hits(s, l, id) {
        HitRevokes(env, s, l, t, id);
      }
    } else if id !in s.agents {
      CreatesRow(env, s, l, t, id);
    }
  }

  lemma CreatesRow(env: Env, s: State, l: Label, t: State, id: string)
    requires Next(env, s, l) == Some(t) && id !in s.agents
    ensures Creates(s, l, id) <==> id in t.agents
    ensures Creates(s, l, id) ==> ActiveIn(t.agents, id)
  {
    if id in t.agents {
      CreatedBy(env, s, l, t, id);
    }
  }

  lemma CreatedIsNew(s: State, l: Label, id: string)
    requires Creates(s, l, id)
    ensures id !in s.agents
  {
  }

  lemma ActiveAt(env: Env, states: seq<State>, labels: seq<Label>, j: nat, id: string)
    requires IsRun(env, states, labels) && j < |labels|
    ensures var s, l, t := states[j], labels[j], states[j + 1];
            (ActiveIn(s.agents, id) ==> (ActiveIn(t.agents, id) <==> !Hits(s, l, id)))
            && (id !in s.agents ==> (ActiveIn(t.agents, id) <==> Creates(s, l, id)))
  {
    assert Stepped(env, states, labels, j);
    ActiveStep(env, states[j], labels[j], states[j + 1], id);
  }

  /** From an absent row to an active one: it was created, and not hit since. */
  lemma {:induction false} ActiveWasCreated(
    env: Env, states: seq<State>, labels: seq<Label>, u: nat, k: nat, id: string
  )
      returns (i: nat)
    requires IsRun(env, states, labels) && u <= k < |states|
    requires id !in states[u].agents && ActiveIn(states[k].agents, id)
    ensures u <= i < k && CreatedUnhit(states, labels, i, k, id)
    decreases k
  {
    ActiveAt(env, states, labels, k - 1, id);
    if id !in states[k - 1].agents {
      i := k - 1;
    } else {
      if RevokedIn(states[k - 1].agents, id) {
        StaysRevoked(env, states, labels, k - 1, k, id);
        assert false;
      }
      i := ActiveWasCreated(env, states, labels, u, k - 1, id);
    }
  }

  lemma {:induction false} CreatedStaysActive(
    env: Env, states: seq<State>, labels: seq<Label>, i: nat, k: nat, id: string
  )
    requires IsRun(env, states, labels) && i < k < |states| && CreatedUnhit(states, labels, i, k, id)
    ensures ActiveIn(states[k].agents, id)
    decreases k
  {
    if i < k - 1 {
      CreatedStaysActive(env, states, labels, i, k - 1, id);
      assert !Hits(states[k - 1], labels[k - 1], id);
    } else {
      CreatedIsNew(states[i], labels[i], id);
    }
    ActiveAt(env, states, labels, k - 1, id);
  }

  /** A revoke overlooks a row exactly when the row was created between its two queries and no other revoke
      has hit it since. */
  lemma OverlooksIff(env: Env, states: seq<State>, labels: seq<Label>, u: nat, k: nat, rid: nat, id: string)
    requires IsRun(env, states, labels) && Window(states, labels, u, k, rid, id)
    ensures Overlooks(states[k], labels[k]) <==> exists i | u < i < k :: CreatedUnhit(states, labels, i, k, id)
  {
    assert Stepped(env, states, labels, u);
    MissedUpdate(env, states[u], labels[u], states[u + 1], id);
    if Overlooks(states[k], labels[k]) {
      if id in states[u + 1].agents {
        StaysRevoked(env, states, labels, u + 1, k, id);
        assert false;
      }
      var i := ActiveWasCreated(env, states, labels, u + 1, k, id);
    }
    if exists i | u < i < k :: CreatedUnhit(states, labels, i, k, id) {
      var i :| u < i < k && CreatedUnhit(states, labels, i, k, id);
      CreatedStaysActive(env, states, labels, i, k, id);
    }
  }

  /** A capability check that has not been granted. */
  ghost predicate CheckPending(s: State, rid: nat, id: string, capability: string) {
    rid in s.requests && s.requests[rid].op == Capability(id, capability) && Ungranted(s.requests[rid].pc)
  }

  lemma CheckAt(
    env: Env, states: seq<State>, labels: seq<Label>, i: nat, j: nat, rid: nat, id: string, capability: string
  )
    requires IsRun(env, states, labels) && i <= j < |labels| && RevokedIn(states[i].agents, id)
    requires CheckPending(states[j], rid, id, capability)
    ensures CheckPending(states[j + 1], rid, id, capability)
  {
    StaysRevoked(env, states, labels, i, j, id);
    assert Stepped(env, states, labels, j);
    UngrantedStep(env, states[j], labels[j], states[j + 1], rid);
  }

  /** In any run at all: a capability check invoked after the UPDATE has revoked the row is never granted. */
  lemma {:induction false} NoGrantAfterUpdate(env: Env, states: seq<State>, labels: seq<Label>, i: nat, j: nat, k: nat,
                                              rid: nat, pid: nat, id: string, capability: string)
    requires IsRun(env, states, labels) && i <= j < k < |states|
    requires RevokedIn(states[i].agents, id) && labels[j] == Invoke(rid, pid, Capability(id, capability))
    ensures CheckPending(states[k], rid, id, capability)
    decreases k
  {
    if j < k - 1 {
      NoGrantAfterUpdate(env, states, labels, i, j, k - 1, rid, pid, id, capability);
      CheckAt(env, states, labels, i, k - 1, rid, id, capability);
    } else {
      assert Stepped(env, states, labels, j);
      InvokedCheck(env, states[j], rid, pid, id, capability, states[j + 1]);
    }
  }

  predicate Ungranted(pc: Pc) {
    pc.First? || ((pc.Finish? || pc.Closed?) && !pc.response.Granted?)
  }

  lemma UngrantedStep(env: Env, s: State, l: Label, t: State, rid: nat)
    requires Next(env, s, l) == Some(t) && rid in s.requests && s.requests[rid].op.Capability?
    requires RevokedIn(s.agents, s.requests[rid].op.id) && Ungranted(s.requests[rid].pc)
    ensures rid in t.requests && t.requests[rid].op == s.requests[rid].op && Ungranted(t.requests[rid].pc)
  {
  }

  // ----- the hypothesis is needed

  /** No order of atomic operations explains a history in which a revoke answers 200 before a verification is
      asked for that finds the passport active. */
  lemma Unexplained(env: Env, lin: seq<Entry>, history: seq<Event>, h: nat, g: nat, f: nat, a: nat, b: nat,
                    id: string, reason: string)
    requires h < g < |history| && f < |history|
    requires InvokedAs(history, a, Revoke(id, reason)) && InvokedAs(history, b, Verify(id))
    requires history[h].Responded? && history[h].rid == a && history[h].response.RevokedOk?
    requires history[g] == Invoked(b, Verify(id))
    requires history[f].Responded? && history[f].rid == b
    requires history[f].response.Verified? && history[f].response.status == Active
    ensures !Linearizes(env, lin, history)
  {
    if Linearizes(env, lin, history) {
      var i := EntryOf(env, lin, history, h, Revoke(id, reason));
      var j := EntryOf(env, lin, history, f, Verify(id));
      Precedes(lin, history, h, g, i, j);
      NoGrantAfter(env, lin, i, j, id);
    }
  }

  lemma Precedes(lin: seq<Entry>, history: seq<Event>, h: nat, g: nat, i: nat, j: nat)
    requires RealTime(lin, history) && h < g < |history| && history[h].Responded? && history[g].Invoked?
    requires i < |lin| && j < |lin| && lin[i].rid == history[h].rid && lin[j].rid == history[g].rid
    ensures i < j
  {
  }

  /** One server, "k" its key; the steps below follow it. */
  predicate Serving(s: State) {
    0 in s.procs && s.procs[0] == Up("k")
  }

  lemma InvokeStep(env: Env, s: State, rid: nat, op: Op) returns (t: State)
    requires Serving(s) && rid !in s.requests && Acceptable(env, op)
    ensures Next(env, s, Invoke(rid, 0, op)) == Some(t) && Serving(t) && t.agents == s.agents
    ensures rid in t.requests && t.requests[rid].pc == First && t.requests[rid].op == op && t.requests[rid].pid == 0
    ensures forall r | r in s.requests :: r in t.requests && t.requests[r] == s.requests[r]
    ensures t.requests.Keys == s.requests.Keys + {rid} && t.history == s.history + [Invoked(rid, op)]
  {
    t := AfterInvoke(env, s, rid, 0, op);
  }

  lemma StatementStep(env: Env, s: State, rid: nat, fault: Fault) returns (t: State)
    requires Serving(s) && rid in s.requests && Running(s.requests[rid]) && s.requests[rid].pid == 0
    ensures Next(env, s, Statement(rid, 0, fault)) == Some(t) && Serving(t) && t.history == s.history
    ensures var e := Execute(env, s.agents, rid, s.requests[rid], "k", 0, fault);
            rid in t.requests && t.agents == e.agents && t.requests[rid].pc == e.pc
    ensures t.requests[rid].op == s.requests[rid].op && t.requests[rid].pid == 0
    ensures forall r | r in s.requests && r != rid :: r in t.requests && t.requests[r] == s.requests[r]
    ensures t.requests.Keys == s.requests.Keys
  {
    t := AfterStatement(env, s, rid, 0, fault, "k");
  }

  lemma RespondStep(env: Env, s: State, rid: nat, response: Response) returns (t: State)
    requires Serving(s) && rid in s.requests && s.requests[rid].pc == Finish(response) && s.requests[rid].pid == 0
    ensures Next(env, s, Respond(rid)) == Some(t) && Serving(t) && t.agents == s.agents
    ensures forall r | r in s.requests && r != rid :: r in t.requests && t.requests[r] == s.requests[r]
    ensures t.requests.Keys == s.requests.Keys && t.history == s.history + [Responded(rid, response)]
  {
    t := AfterRespond(s, rid, response);
  }

  lemma BootSteps(env: Env) returns (s1: State, s2: State, s3: State)
    ensures Next(env, INITIAL, Boot(0)) == Some(s1) && Next(env, s1, BootSelect(0, "k", NoFault)) == Some(s2)
    ensures Next(env, s2, BootInsert(0, NoFault)) == Some(s3)
    ensures Serving(s3) && s3.agents == map[] && s3.requests == map[] && s3.history == []
  {
    s1 := INITIAL.(procs := map[0 := Booting]);
    s2 := s1.(procs := s1.procs[0 := Generated("k")]);
    s3 := s2.(keyRow := Some("k"), procs := s2.procs[0 := Up("k")]);
  }

  /** A run in which an agent is registered between the two queries of a revoke of it. */
  function LateCreation(register: Op, reason: string): seq<Label>
    requires register.Register?
  {
    BeforeCheck(register, reason) + FromCheck(register.id)
  }

  function BeforeCheck(register: Op, reason: string): seq<Label>
    requires register.Register?
  {
    [Boot(0), BootSelect(0, "k", NoFault), BootInsert(0, NoFault),
     Invoke(1, 0, Revoke(register.id, reason)), Statement(1, 0, NoFault),
     Invoke(2, 0, register), Statement(2, 0, NoFault)]
  }

  function FromCheck(id: string): seq<Label> {
    [Statement(1, 0, NoFault), Statement(1, 0, Lost), Respond(1),
     Invoke(3, 0, Verify(id)), Statement(3, 0, NoFault), Respond(3)]
  }

  /** Up to the point where the agent exists and the revoke is about to look for it. */
  /** The revoke finds nothing to update. */
  lemma MissStep(env: Env, s3: State, id: string, reason: string) returns (s4: State, s5: State)
    requires Serving(s3) && s3.agents == map[] && s3.requests == map[] && s3.history == []
    ensures Next(env, s3, Invoke(1, 0, Revoke(id, reason))) == Some(s4)
    ensures Next(env, s4, Statement(1, 0, NoFault)) == Some(s5)
    ensures Serving(s5) && s5.agents == map[] && s5.requests.Keys == {1}
    ensures s5.history == [Invoked(1, Revoke(id, reason))]
    ensures s5.requests[1].pid == 0 && s5.requests[1].pc == Check && s5.requests[1].op == Revoke(id, reason)
  {
    s4 := InvokeStep(env, s3, 1, Revoke(id, reason));
    s5 := StatementStep(env, s4, 1, NoFault);
  }

  lemma LateCreationFirst(env: Env, s3: State, register: Op, reason: string)
      returns (s4: State, s5: State, s6: State, s7: State)
    requires Serving(s3) && s3.agents == map[] && s3.requests == map[] && s3.history == []
    requires register.Register? && Acceptable(env, register)
    ensures Next(env, s3, Invoke(1, 0, Revoke(register.id, reason))) == Some(s4)
    ensures Next(env, s4, Statement(1, 0, NoFault)) == Some(s5)
    ensures Next(env, s5, Invoke(2, 0, register)) == Some(s6) && Next(env, s6, Statement(2, 0, NoFault)) == Some(s7)
    ensures Serving(s7) && s7.requests.Keys == {1, 2} && s7.requests[1].pid == 0 && s7.requests[1].pc == Check
    ensures s7.requests[1].op == Revoke(register.id, reason)
    ensures register.id in s7.agents && s7.agents[register.id].status == Active
    ensures s7.history == [Invoked(1, Revoke(register.id, reason)), Invoked(2, register)]
  {
    s4, s5 := MissStep(env, s3, register.id, reason);
    s6 := InvokeStep(env, s5, 2, register);
    s7 := StatementStep(env, s6, 2, NoFault);
    assert s7.agents[register.id] == NewRow(env, "k", register);
  }

  lemma RunBeforeCheck(env: Env, register: Op, reason: string) returns (states: seq<State>)
    requires register.Register? && Acceptable(env, register)
    ensures IsRun(env, states, BeforeCheck(register, reason)) && states[0] == INITIAL
    ensures var s7 := states[7];
            Serving(s7) && s7.requests.Keys == {1, 2} && s7.requests[1].pid == 0 && s7.requests[1].pc == Check
            && s7.requests[1].op == Revoke(register.id, reason)
            && register.id in s7.agents && s7.agents[register.id].status == Active
            && s7.history == [Invoked(1, Revoke(register.id, reason)), Invoked(2, register)]
  {
    var s1, s2, s3 := BootSteps(env);
    var s4, s5, s6, s7 := LateCreationFirst(env, s3, register, reason);
    states := [INITIAL, s1, s2, s3, s4, s5, s6, s7];
  }

  /** The revoke finds the agent, fails to log, and answers 200 although the row is active. */
  lemma LateCreationMiddle(env: Env, s7: State, id: string, reason: string)
      returns (s8: State, s9: State, s10: State)
    requires Serving(s7) && s7.requests.Keys == {1, 2} && s7.requests[1].pid == 0 && s7.requests[1].pc == Check
    requires s7.requests[1].op == Revoke(id, reason) && id in s7.agents && s7.agents[id].status == Active
    ensures Next(env, s7, Statement(1, 0, NoFault)) == Some(s8) && Next(env, s8, Statement(1, 0, Lost)) == Some(s9)
    ensures Next(env, s9, Respond(1)) == Some(s10)
    ensures Serving(s10) && s10.requests.Keys == {1, 2} && s10.agents == s7.agents
    ensures s10.history == s7.history + [Responded(1, RevokedOk(ReasonOf(reason)))]
  {
    s8 := StatementStep(env, s7, 1, NoFault);
    s9 := StatementStep(env, s8, 1, Lost);
    s10 := RespondStep(env, s9, 1, RevokedOk(ReasonOf(reason)));
  }

  lemma LateCreationRest(env: Env, s10: State, id: string) returns (s11: State, s12: State, s13: State, r: Response)
    requires Serving(s10) && s10.requests.Keys == {1, 2} && id in s10.agents && s10.agents[id].status == Active
    ensures Next(env, s10, Invoke(3, 0, Verify(id))) == Some(s11)
    ensures Next(env, s11, Statement(3, 0, NoFault)) == Some(s12) && Next(env, s12, Respond(3)) == Some(s13)
    ensures r.Verified? && r.status == Active
    ensures s13.history == s10.history + [Invoked(3, Verify(id)), Responded(3, r)]
  {
    s11 := InvokeStep(env, s10, 3, Verify(id));
    s12 := StatementStep(env, s11, 3, NoFault);
    r := s12.requests[3].pc.response;
    s13 := RespondStep(env, s12, 3, r);
  }

  lemma RunFromCheck(env: Env, s7: State, id: string, reason: string) returns (states: seq<State>, r: Response)
    requires Serving(s7) && s7.requests.Keys == {1, 2} && s7.requests[1].pid == 0 && s7.requests[1].pc == Check
    requires s7.requests[1].op == Revoke(id, reason) && id in s7.agents && s7.agents[id].status == Active
    ensures IsRun(env, states, FromCheck(id)) && states[0] == s7
    ensures r.Verified? && r.status == Active
    ensures states[6].history
            == s7.history + [Responded(1, RevokedOk(ReasonOf(reason))), Invoked(3, Verify(id)), Responded(3, r)]
  {
    var s8, s9, s10 := LateCreationMiddle(env, s7, id, reason);
    var s11, s12, s13;
    s11, s12, s13, r := LateCreationRest(env, s10, id);
    states := [s7, s8, s9, s10, s11, s12, s13];
  }

  /** Whatever order is proposed, it does not explain these five events. */
  lemma FiveEvents(env: Env, history: seq<Event>, register: Op, reason: string, r: Response)
    requires register.Register? && r.Verified? && r.status == Active
    requires history == [Invoked(1, Revoke(register.id, reason)), Invoked(2, register),
                         Responded(1, RevokedOk(ReasonOf(reason))), Invoked(3, Verify(register.id)), Responded(3, r)]
    ensures forall lin :: !Linearizes(env, lin, history)
  {
    assert history[0] == Invoked(1, Revoke(register.id, reason));
    forall lin ensures !Linearizes(env, lin, history) {
      Unexplained(env, lin, history, 2, 3, 4, 1, 3, register.id, reason);
    }
  }

  /** Without the hypothesis linearisability fails, whichever passport it is: a revoke of an unknown id that is
      registered between its UPDATE and its EXISTS query answers 200, the passport stays active, and no order of
      atomic operations explains the answers. */
  lemma LateCreationUnexplained(env: Env, register: Op, reason: string) returns (states: seq<State>)
    requires register.Register? && Acceptable(env, register)
    ensures IsRun(env, states, LateCreation(register, reason)) && states[0] == INITIAL
    ensures forall lin :: !Linearizes(env, lin, states[13].history)
  {
    var first := RunBeforeCheck(env, register, reason);
    var rest, r := RunFromCheck(env, first[7], register.id, reason);
    states := first + rest[1..];
    JoinRuns(env, first, BeforeCheck(register, reason), rest, FromCheck(register.id));
    FiveEvents(env, states[13].history, register, reason, r);
  }
}
