/** The methods of a local passport are the calls of module LocalRuns with no other call in between (agent.go,
    helpers.go, office.go): a run of the step system for each of them, whatever the passports are. */
module LocalAlone {
  import opened Text
  import opened Passports
  import opened LocalRuns
  import Agent

  // ----- runs of labels

  function RunAll(s: State, labels: seq<Label>): Option<State> {
    Folded(Next, s, labels)
  }

  /** The state some labels lead to, for any step function. */
  function Folded<S, L>(next: (S, L) -> Option<S>, s: S, labels: seq<L>): Option<S>
    decreases |labels|
  {
    if labels == [] then Some(s)
    else
      match next(s, labels[0])
      case None => None
      case Some(t) => Folded(next, t, labels[1..])
  }

  lemma {:induction false} FoldedAppend<S, L>(next: (S, L) -> Option<S>, s: S, a: seq<L>, t: S, b: seq<L>)
    requires Folded(next, s, a) == Some(t)
    ensures Folded(next, s, a + b) == Folded(next, t, b)
    decreases |a|
  {
    if a == [] {
      assert a + b == b;
    } else {
      FoldedAppend(next, next(s, a[0]).value, a[1..], t, b);
      assert (a + b)[0] == a[0] && (a + b)[1..] == a[1..] + b;
    }
  }

  lemma FoldedOneMore<S, L>(next: (S, L) -> Option<S>, s: S, before: seq<L>, t: S, l: L, u: S)
    requires Folded(next, s, before) == Some(t) && next(t, l) == Some(u)
    ensures Folded(next, s, before + [l]) == Some(u)
  {
    FoldedAppend(next, s, before, t, [l]);
    assert [l][1..] == [] && Folded(next, u, []) == Some(u);
  }

  lemma RunAppend(s: State, a: seq<Label>, t: State, b: seq<Label>)
    requires RunAll(s, a) == Some(t)
    ensures RunAll(s, a + b) == RunAll(t, b)
  {
    FoldedAppend(Next, s, a, t, b);
  }

  lemma RunOneMore(s: State, before: seq<Label>, t: State, l: Label, u: State) returns (labels: seq<Label>)
    requires RunAll(s, before) == Some(t) && Next(t, l) == Some(u)
    ensures RunAll(s, labels) == Some(u)
  {
    labels := before + [l];
    FoldedOneMore(Next, s, before, t, l, u);
  }

  /** Call tid is at this pc and the passport has this value; nothing else has changed since s. */
  predicate Reached(s: State, t: State, tid: nat, pc: Pc, id: string, p: Passport) {
    t.threads == s.threads[tid := pc] && t.passports == s.passports[id := p]
  }

  lemma Itself(s: State, tid: nat, id: string)
    requires tid in s.threads && id in s.passports
    ensures Reached(s, s, tid, s.threads[tid], id, s.passports[id])
  {
    assert s.passports == s.passports[id := s.passports[id]] && s.threads == s.threads[tid := s.threads[tid]];
  }

  /** One critical section more. */
  lemma Enter(s: State, before: seq<Label>, t: State, tid: nat, pc: Pc, id: string, p: Passport, now: int,
              uuid: string, erred: bool)
      returns (labels: seq<Label>, u: State)
    requires RunAll(s, before) == Some(t) && Reached(s, t, tid, pc, id, p)
    requires !pc.Done? && !Outside(pc) && Target(pc) == Some(id)
    ensures RunAll(s, labels) == Some(u)
    ensures var e := Section(pc, id, p, now, uuid, erred);
            Reached(s, u, tid, e.pc, id, if e.passport.Some? then e.passport.value else p)
  {
    var e := Section(pc, id, p, now, uuid, erred);
    u := Advanced(t, tid, e, now);
    labels := RunOneMore(s, before, t, Advance(tid, now, uuid, erred), u);
    SectionGrows(pc, id, p, now, uuid, erred);
    EffectOf(s, t, tid, pc, id, p, e, now);
  }

  lemma EffectOf(s: State, t: State, tid: nat, pc: Pc, id: string, p: Passport, e: Effect, now: int)
    requires Reached(s, t, tid, pc, id, p) && (e.passport.Some? ==> e.id == Some(id))
    ensures Reached(s, Advanced(t, tid, e, now), tid, e.pc, id, if e.passport.Some? then e.passport.value else p)
  {
    var q := if e.passport.Some? then e.passport.value else p;
    assert s.passports[id := p][id := q] == s.passports[id := q];
    assert s.threads[tid := pc][tid := e.pc] == s.threads[tid := e.pc];
  }

  /** A critical section that only looks. */
  lemma LookOn(s: State, before: seq<Label>, t: State, tid: nat, pc: Pc, id: string, p: Passport, next: Pc)
      returns (labels: seq<Label>, u: State)
    requires RunAll(s, before) == Some(t) && Reached(s, t, tid, pc, id, p)
    requires !pc.Done? && !Outside(pc) && Target(pc) == Some(id) && Section(pc, id, p, 0, "", false) == Look(next)
    ensures RunAll(s, labels) == Some(u) && Reached(s, u, tid, next, id, p)
  {
    labels, u := Enter(s, before, t, tid, pc, id, p, 0, "", false);
  }

  lemma Called(s: State, tid: nat, call: Call, id: string) returns (labels: seq<Label>, t: State)
    requires tid !in s.threads && id in s.passports && Subjects(call) <= s.passports.Keys
    ensures RunAll(s, labels) == Some(t) && Reached(s, t, tid, Start(call), id, s.passports[id])
  {
    t := Next(s, Begin(tid, call)).value;
    labels := RunOneMore(s, [], s, Begin(tid, call), t);
    assert s.passports[id := s.passports[id]] == s.passports;
  }

  // ----- one method call

  function CallOf(id: string, op: Op): Call {
    match op
    case OpTrust(_) => TrustCall(id)
    case OpVerify(action, _, _) => VerifyCall(id, action)
    case OpRevoke(reason, _, _) => RevokeCall(id, reason)
    case OpLog(action, details, outcome, _) => LogCall(id, action, details, outcome)
    case OpSummary => SummaryCall(id)
    case OpAuditLog => AuditLogCall(id)
    case OpExport => ExportCall(id)
  }

  /** The call's result says what the method answered. */
  predicate Says(r: Result, id: string, op: Op, a: Answer) {
    match op
    case OpTrust(_) => a.ABool? && r == RTrust(a.b)
    case OpVerify(action, _, _) => a.ABool? && r == if a.b then RVerified else RBlocked(id, action)
    case OpRevoke(_, _, _) => a.ADone? && r == RRevoked(id)
    case OpLog(action, _, _, _) => a.AEntry? && r == RLogged(id, action, a.entry.outcome)
    case OpSummary => a.ASummary? && r == RSummary(a.summary)
    case OpAuditLog => a.ALog? && r == RLog(id, a.log)
    case OpExport => a.AExport? && r == RExport(id, a.doc)
  }

  /** A call that has ended with the method's answer and effect. */
  ghost predicate Ends(s: State, t: State, tid: nat, id: string, op: Op)
    requires id in s.passports
  {
    var (p, a) := Apply(s.passports[id], op);
    exists r :: Reached(s, t, tid, Done(r), id, p) && Says(r, id, op, a)
  }

  /** Why a check that fails at this instant fails. */
  function Refusal(p: Passport, now: int): string {
    if TrustedAt(p, now) then "capability_not_granted" else "passport_invalid"
  }

  /** The entry of a refused check. */
  lemma Block(s: State, before: seq<Label>, refused: State, tid: nat, id: string, action: string, reason: string,
              p: Passport, stamp: Stamp)
      returns (labels: seq<Label>, t: State)
    requires RunAll(s, before) == Some(refused) && Reached(s, refused, tid, BlockPc(id, action, reason), id, p)
    ensures RunAll(s, labels) == Some(t)
    ensures Reached(s, t, tid, Done(RBlocked(id, action)), id,
                    AfterLog(p, Entry(p, action, Reason(reason), Blocked, stamp)))
  {
    labels, t := Enter(s, before, refused, tid, BlockPc(id, action, reason), id, p, stamp.at, stamp.logId, false);
  }

  lemma VerifyingIsRun(s: State, tid: nat, id: string, action: string, now: int, stamp: Stamp)
      returns (labels: seq<Label>, t: State)
    requires tid !in s.threads && id in s.passports
    ensures RunAll(s, labels) == Some(t) && Ends(s, t, tid, id, OpVerify(action, now, stamp))
  {
    var p := s.passports[id];
    labels, t := Called(s, tid, VerifyCall(id, action), id);
    labels, t := Enter(s, labels, t, tid, VerifyPc(id, action), id, p, now, "", false);
    if TrustedAt(p, now) && Allows(p.capabilities, action) {
      assert Reached(s, t, tid, Done(RVerified), id, p);
    } else {
      labels, t := Block(s, labels, t, tid, id, action, Refusal(p, now), AfterTrust(p, now), stamp);
      assert Reached(s, t, tid, Done(RBlocked(id, action)), id, Verify(p, action, now, stamp).0);
    }
  }

  lemma RevokingIsRun(s: State, tid: nat, id: string, reason: string, now: int, stamp: Stamp)
      returns (labels: seq<Label>, t: State)
    requires tid !in s.threads && id in s.passports
    ensures RunAll(s, labels) == Some(t) && Ends(s, t, tid, id, OpRevoke(reason, now, stamp))
  {
    var p, text := s.passports[id], RevokeText(reason);
    labels, t := Called(s, tid, RevokeCall(id, reason), id);
    labels, t := Enter(s, labels, t, tid, RevokePc(id, text), id, p, now, "", false);
    labels, t := Enter(s, labels, t, tid, RevokeLogPc(id, text), id, AfterRevoke(p, text, now), stamp.at, stamp.logId,
                       false);
    assert Reached(s, t, tid, Done(RRevoked(id)), id, RevokeLogged(p, reason, now, stamp));
  }

  lemma ExportingIsRun(s: State, tid: nat, id: string) returns (labels: seq<Label>, t: State)
    requires tid !in s.threads && id in s.passports
    ensures RunAll(s, labels) == Some(t) && Ends(s, t, tid, id, OpExport)
  {
    var p := s.passports[id];
    labels, t := Called(s, tid, ExportCall(id), id);
    ExportSections(id, p);
    labels, t := LookOn(s, labels, t, tid, ExportPc(id), id, p, ExportSummaryPc(id, p.log));
    labels, t := ExportRest(s, labels, t, tid, id, p);
    ExportEnds(s, t, tid, id);
  }

  lemma ExportEnds(s: State, t: State, tid: nat, id: string)
    requires id in s.passports
    requires var p := s.passports[id]; Reached(s, t, tid, Done(RExport(id, Export(p))), id, p)
    ensures Ends(s, t, tid, id, OpExport)
  {
  }

  lemma ExportRest(s: State, before: seq<Label>, copied: State, tid: nat, id: string, p: Passport)
      returns (labels: seq<Label>, t: State)
    requires RunAll(s, before) == Some(copied) && Reached(s, copied, tid, ExportSummaryPc(id, p.log), id, p)
    ensures RunAll(s, labels) == Some(t) && Reached(s, t, tid, Done(RExport(id, Export(p))), id, p)
  {
    var rest := ExportRestPc(id, p.log, Summarize(p));
    ExportSections(id, p);
    labels, t := LookOn(s, before, copied, tid, ExportSummaryPc(id, p.log), id, p, rest);
    labels, t := LookOn(s, labels, t, tid, rest, id, p, Done(RExport(id, Export(p))));
  }

  lemma ExportSections(id: string, p: Passport)
    ensures Section(ExportPc(id), id, p, 0, "", false) == Look(ExportSummaryPc(id, p.log))
    ensures Section(ExportSummaryPc(id, p.log), id, p, 0, "", false) == Look(ExportRestPc(id, p.log, Summarize(p)))
    ensures Section(ExportRestPc(id, p.log, Summarize(p)), id, p, 0, "", false) == Look(Done(RExport(id, Export(p))))
  {
  }

  /** The calls that are one critical section. */
  lemma SectionIsRun(s: State, tid: nat, id: string, op: Op) returns (labels: seq<Label>, t: State)
    requires tid !in s.threads && id in s.passports
    requires op.OpTrust? || op.OpLog? || op.OpSummary? || op.OpAuditLog?
    ensures RunAll(s, labels) == Some(t) && Ends(s, t, tid, id, op)
  {
    var now := match op case OpTrust(now) => now case OpLog(_, _, _, stamp) => stamp.at case _ => 0;
    var uuid := if op.OpLog? then op.stamp.logId else "";
    var p, pc := s.passports[id], Start(CallOf(id, op));
    labels, t := Called(s, tid, CallOf(id, op), id);
    labels, t := Enter(s, labels, t, tid, pc, id, p, now, uuid, false);
    SectionAnswers(id, op, p, now, uuid);
  }

  lemma SectionAnswers(id: string, op: Op, p: Passport, now: int, uuid: string)
    requires op.OpTrust? || op.OpLog? || op.OpSummary? || op.OpAuditLog?
    requires (op.OpTrust? ==> now == op.now) && (op.OpLog? ==> op.stamp == Stamp(uuid, now))
    ensures var e := Section(Start(CallOf(id, op)), id, p, now, uuid, false);
            var (q, a) := Apply(p, op);
            e.pc.Done? && Says(e.pc.result, id, op, a) && q == if e.passport.Some? then e.passport.value else p
  {
  }

  /** Every method is a run of its call. */
  lemma MethodIsRun(s: State, tid: nat, id: string, op: Op) returns (labels: seq<Label>, t: State)
    requires tid !in s.threads && id in s.passports
    ensures RunAll(s, labels) == Some(t) && Ends(s, t, tid, id, op)
  {
    match op
    case OpVerify(action, now, stamp) => labels, t := VerifyingIsRun(s, tid, id, action, now, stamp);
    case OpRevoke(reason, now, stamp) => labels, t := RevokingIsRun(s, tid, id, reason, now, stamp);
    case OpExport => labels, t := ExportingIsRun(s, tid, id);
    case _ => labels, t := SectionIsRun(s, tid, id, op);
  }

  // ----- the guard

  /** No call has this number or a later one. */
  ghost predicate Unused(s: State, tid: nat) {
    forall n: nat | n >= tid :: n !in s.threads
  }

  /** What a wrapped function does to its passport, as calls one after the other. */
  lemma {:induction false} BodyIsRun(s: State, tid: nat, id: string, body: seq<Op>)
      returns (labels: seq<Label>, t: State)
    requires Unused(s, tid) && id in s.passports
    ensures RunAll(s, labels) == Some(t) && t.passports == s.passports[id := ApplyAll(s.passports[id], body)]
    ensures forall k | k in s.threads :: k in t.threads && t.threads[k] == s.threads[k]
    decreases |body|
  {
    if body == [] {
      return [], s;
    }
    var first, u := MethodIsRun(s, tid, id, body[0]);
    var rest;
    rest, t := BodyIsRun(u, tid + 1, id, body[1..]);
    labels := first + rest;
    RunAppend(s, first, u, rest);
  }

  function ResultOf<R>(g: Agent.Guarded<R>, id: string, capability: string): Result {
    match g
    case Returned(_, erred) => RReturned(id, capability, erred)
    case Refused(error) => if error == Agent.ErrAuthentication then RTrust(false) else RBlocked(id, capability)
  }

  /** The passport and the pc when a guard has let its function in, or refused. */
  function Entered(p: Passport, id: string, capability: string, now: int, again: int, denied: Stamp): (Passport, Pc) {
    if !TrustedAt(p, now) then (AfterTrust(p, now), Done(RTrust(false)))
    else if capability == "" then (p, InsidePc(id, capability))
    else
      var v := Verify(p, capability, again, denied);
      (v.0, if v.1 then InsidePc(id, capability) else Done(RBlocked(id, capability)))
  }

  lemma GuardEntered(s: State, tid: nat, id: string, capability: string, now: int, again: int, denied: Stamp)
      returns (labels: seq<Label>, t: State)
    requires tid !in s.threads && id in s.passports
    ensures RunAll(s, labels) == Some(t)
    ensures var (q, pc) := Entered(s.passports[id], id, capability, now, again, denied); Reached(s, t, tid, pc, id, q)
  {
    var p := s.passports[id];
    labels, t := Called(s, tid, GuardCall(id, capability), id);
    labels, t := Enter(s, labels, t, tid, GuardPc(id, capability), id, p, now, "", false);
    if TrustedAt(p, now) && capability != "" {
      labels, t := GuardVerified(s, labels, t, tid, id, capability, p, again, denied);
    }
  }

  lemma GuardVerified(s: State, before: seq<Label>, inside: State, tid: nat, id: string, capability: string,
                      p: Passport, again: int, denied: Stamp)
      returns (labels: seq<Label>, t: State)
    requires RunAll(s, before) == Some(inside) && Reached(s, inside, tid, GuardVerifyPc(id, capability), id, p)
    ensures RunAll(s, labels) == Some(t)
    ensures var v := Verify(p, capability, again, denied);
            Reached(s, t, tid, if v.1 then InsidePc(id, capability) else Done(RBlocked(id, capability)), id, v.0)
  {
    GuardSection(id, capability, p, again);
    labels, t := Enter(s, before, inside, tid, GuardVerifyPc(id, capability), id, p, again, "", false);
    if !(TrustedAt(p, again) && Allows(p.capabilities, capability)) {
      labels, t := Block(s, labels, t, tid, id, capability, Refusal(p, again), AfterTrust(p, again), denied);
    }
  }

  lemma GuardSection(id: string, capability: string, p: Passport, now: int)
    ensures Section(GuardVerifyPc(id, capability), id, p, now, "", false)
            == Change(id, AfterTrust(p, now),
                      if TrustedAt(p, now) && Allows(p.capabilities, capability) then InsidePc(id, capability)
                      else BlockPc(id, capability, Refusal(p, now)))
  {
  }

  /** From inside the guard to its end: the function's calls, its error, and the entry. */
  lemma GuardLeft(s: State, tid: nat, id: string, capability: string, body: seq<Op>, erred: bool, called: Stamp)
      returns (labels: seq<Label>, t: State)
    requires Unused(s, tid + 1) && tid in s.threads && s.threads[tid] == InsidePc(id, capability) && id in s.passports
    ensures RunAll(s, labels) == Some(t)
    ensures var q := ApplyAll(s.passports[id], body);
            t.passports == s.passports[id := AfterLog(q, Agent.CallEntry(q, capability, erred, called))]
    ensures tid in t.threads && t.threads[tid] == Done(RReturned(id, capability, erred))
  {
    var calls, u := BodyIsRun(s, tid + 1, id, body);
    labels, t := Leave(u, tid, id, capability, erred, called);
    RunAppend(s, calls, u, labels);
    labels := calls + labels;
  }

  lemma Leave(u: State, tid: nat, id: string, capability: string, erred: bool, called: Stamp)
      returns (labels: seq<Label>, t: State)
    requires tid in u.threads && u.threads[tid] == InsidePc(id, capability) && id in u.passports
    ensures RunAll(u, labels) == Some(t)
    ensures var q := u.passports[id];
            Reached(u, t, tid, Done(RReturned(id, capability, erred)), id,
                    AfterLog(q, Agent.CallEntry(q, capability, erred, called)))
  {
    var q := u.passports[id];
    Itself(u, tid, id);
    labels, t := Enter(u, [], u, tid, InsidePc(id, capability), id, q, 0, "", erred);
    labels, t := Enter(u, labels, t, tid, CalledPc(id, capability, erred), id, q, called.at, called.logId, false);
  }

  /** RequirePassport is a run of its guarded call: the checks, the function's own calls, and the entry. */
  lemma GuardingIsRun<R>(s: State, tid: nat, id: string, capability: string, now: int, again: int, denied: Stamp,
                         body: seq<Op>, result: R, erred: bool, called: Stamp)
      returns (labels: seq<Label>, t: State)
    requires Unused(s, tid) && id in s.passports
    ensures RunAll(s, labels) == Some(t)
    ensures var (p, r) := Agent.Guard(s.passports[id], capability, now, again, denied, body, result, erred, called);
            t.passports == s.passports[id := p] && tid in t.threads
            && t.threads[tid] == Done(ResultOf(r, id, capability))
  {
    var (q, pc) := Entered(s.passports[id], id, capability, now, again, denied);
    labels, t := GuardEntered(s, tid, id, capability, now, again, denied);
    if pc.InsidePc? {
      var inside := t;
      var rest;
      rest, t := GuardLeft(inside, tid, id, capability, body, erred, called);
      RunAppend(s, labels, inside, rest);
      labels := labels + rest;
    }
  }

  // ----- issuing

  /** The parent, if any, may spawn and passes the trust check. */
  predicate Vouches(s: State, o: Agent.IssueOptions, parent: Option<string>, checkedAt: int)
    requires parent.Some? ==> parent.value in s.passports
  {
    !Missing(o) && (parent.Some? ==> s.passports[parent.value].capabilities.spawnAgents
                                     && TrustedAt(s.passports[parent.value], checkedAt))
  }

  /** The passports after the parent's trust check, if there was one. */
  function Checked(s: State, o: Agent.IssueOptions, parent: Option<string>, checkedAt: int): map<string, Passport>
    requires parent.Some? ==> parent.value in s.passports
  {
    if !Missing(o) && parent.Some? && s.passports[parent.value].capabilities.spawnAgents
    then s.passports[parent.value := AfterTrust(s.passports[parent.value], checkedAt)] else s.passports
  }

  /** Building the passport and writing its first entry. */
  lemma BuildingIsRun(s: State, tid: nat, o: Agent.IssueOptions, parent: Option<string>, id: string, now: int,
                      stamp: Stamp)
      returns (labels: seq<Label>, t: State)
    requires tid in s.threads && s.threads[tid] == BuildPc(o, parent) && id != "" && id !in s.passports
    ensures RunAll(s, labels) == Some(t) && tid in t.threads && t.threads[tid] == Done(RIssued(id))
    ensures t.passports
            == s.passports[id := Agent.Issued(o, if parent.Some? then parent.value else "", id, now, "", stamp)]
  {
    var p := Built(o, parent, id, now);
    var u := Next(s, Advance(tid, now, id, false)).value;
    assert u.passports == s.passports[id := p];
    var first := RunOneMore(s, [], s, Advance(tid, now, id, false), u);
    var rest;
    Itself(u, tid, id);
    rest, t := Enter(u, [], u, tid, IssueLogPc(id, o.agentName), id, p, stamp.at, stamp.logId, false);
    RunAppend(s, first, u, rest);
    labels := first + rest;
  }

  /** An issuing call up to its refusal or its build. */
  lemma VouchingIsRun(s: State, tid: nat, o: Agent.IssueOptions, parent: Option<string>, checkedAt: int)
      returns (labels: seq<Label>, t: State)
    requires tid !in s.threads && (parent.Some? ==> parent.value in s.passports)
    ensures RunAll(s, labels) == Some(t) && t.passports == Checked(s, o, parent, checkedAt)
    ensures tid in t.threads
            && t.threads[tid] == if Vouches(s, o, parent, checkedAt) then BuildPc(o, parent) else Done(RIssueRefused)
  {
    var u := Next(s, Begin(tid, IssueCall(o, parent))).value;
    labels := RunOneMore(s, [], s, Begin(tid, IssueCall(o, parent)), u);
    if Missing(o) || parent.None? {
      t := Next(u, Advance(tid, checkedAt, "", false)).value;
      labels := RunOneMore(s, labels, u, Advance(tid, checkedAt, "", false), t);
    } else {
      var id := parent.value;
      assert Reached(s, u, tid, IssuePc(o, parent), id, s.passports[id]) by {
        assert s.passports[id := s.passports[id]] == s.passports;
      }
      labels, t := Enter(s, labels, u, tid, IssuePc(o, parent), id, s.passports[id], checkedAt, "", false);
      VouchSection(s, o, parent, checkedAt);
      assert s.passports[id := s.passports[id]] == s.passports;
    }
  }

  lemma VouchSection(s: State, o: Agent.IssueOptions, parent: Option<string>, checkedAt: int)
    requires !Missing(o) && parent.Some? && parent.value in s.passports
    ensures var p := s.passports[parent.value];
            Section(IssuePc(o, parent), parent.value, p, checkedAt, "", false)
            == if !p.capabilities.spawnAgents then Look(Done(RIssueRefused))
               else Change(parent.value, AfterTrust(p, checkedAt),
                           if TrustedAt(p, checkedAt) then BuildPc(o, parent) else Done(RIssueRefused))
  {
  }

  /** IssueAgentPassport is a run of its call: refused with the same effect on the parent, or built as Issued
      says, its fingerprint aside. */
  lemma IssuingIsRun(s: State, tid: nat, o: Agent.IssueOptions, parent: Option<string>, checkedAt: int, id: string,
                     now: int, stamp: Stamp)
      returns (labels: seq<Label>, t: State)
    requires tid !in s.threads && (parent.Some? ==> parent.value in s.passports) && id != "" && id !in s.passports
    ensures RunAll(s, labels) == Some(t) && tid in t.threads
    ensures var checked := Checked(s, o, parent, checkedAt);
            if Vouches(s, o, parent, checkedAt) then
              t.threads[tid] == Done(RIssued(id))
              && t.passports
                 == checked[id := Agent.Issued(o, if parent.Some? then parent.value else "", id, now, "", stamp)]
            else t.threads[tid] == Done(RIssueRefused) && t.passports == checked
  {
    labels, t := VouchingIsRun(s, tid, o, parent, checkedAt);
    if Vouches(s, o, parent, checkedAt) {
      var u := t;
      var rest;
      rest, t := BuildingIsRun(u, tid, o, parent, id, now, stamp);
      RunAppend(s, labels, u, rest);
      labels := labels + rest;
    }
  }

  // ----- the report

  /** The passports after the first n trust checks of a report. */
  function CheckedTo(ps: map<string, Passport>, order: seq<string>, clock: nat -> int, n: nat): map<string, Passport>
    requires n <= |order| && forall i | 0 <= i < |order| :: order[i] in ps
  {
    if n == 0 then ps
    else CheckedTo(ps, order, clock, n - 1)[order[n - 1] := AfterTrust(ps[order[n - 1]], clock(n - 1))]
  }

  /** A passport's line, at the clock reading of its trust check. */
  function LineAt(p: Passport, now: int): AuditLine {
    AuditLine(Summarize(AfterTrust(p, now)), AfterTrust(p, now).log)
  }

  /** The lines of the first n passports. */
  function LinesTo(ps: map<string, Passport>, order: seq<string>, clock: nat -> int, n: nat): (lines: seq<AuditLine>)
    requires n <= |order| && forall i | 0 <= i < |order| :: order[i] in ps
    ensures |lines| == n
  {
    if n == 0 then []
    else LinesTo(ps, order, clock, n - 1) + [LineAt(ps[order[n - 1]], clock(n - 1))]
  }

  /** How many of the first n trust checks succeed. */
  function TrustedTo(ps: map<string, Passport>, order: seq<string>, clock: nat -> int, n: nat): nat
    requires n <= |order| && forall i | 0 <= i < |order| :: order[i] in ps
  {
    if n == 0 then 0
    else TrustedTo(ps, order, clock, n - 1) + if TrustedAt(ps[order[n - 1]], clock(n - 1)) then 1 else 0
  }

  lemma {:induction false} TrustedIsCount(ps: map<string, Passport>, order: seq<string>, clock: nat -> int, n: nat)
    requires n <= |order| && forall i | 0 <= i < |order| :: order[i] in ps
    ensures TrustedTo(ps, order, clock, n) == CountActive(LinesTo(ps, order, clock, n))
  {
    if n > 0 {
      TrustedIsCount(ps, order, clock, n - 1);
      CountOneMore(LinesTo(ps, order, clock, n - 1), ps[order[n - 1]], clock(n - 1));
    }
  }

  lemma {:induction false} NotYetChecked(ps: map<string, Passport>, order: seq<string>, clock: nat -> int, n: nat,
                                         m: nat)
    requires n <= m < |order| && forall i | 0 <= i < |order| :: order[i] in ps
    requires forall i, j | 0 <= i < j < |order| :: order[i] != order[j]
    ensures order[m] in CheckedTo(ps, order, clock, n) && CheckedTo(ps, order, clock, n)[order[m]] == ps[order[m]]
  {
    if n > 0 {
      NotYetChecked(ps, order, clock, n - 1, m);
    }
  }

  /** One passport's trust check, summary and log copy. */
  lemma LineIsRun(s: State, before: seq<Label>, t: State, tid: nat, order: seq<string>, active: nat,
                  lines: seq<AuditLine>, p: Passport, now: int)
      returns (labels: seq<Label>, u: State)
    requires |lines| < |order| && RunAll(s, before) == Some(t)
    requires Reached(s, t, tid, ReportPc(order, active, lines, 0), order[|lines|], p)
    ensures RunAll(s, labels) == Some(u)
    ensures var more := active + if TrustedAt(p, now) then 1 else 0;
            Reached(s, u, tid, ReportPc(order, more, lines + [LineAt(p, now)], 0), order[|lines|], AfterTrust(p, now))
  {
    var id, q, ok := order[|lines|], AfterTrust(p, now), TrustedAt(p, now);
    var more := active + if ok then 1 else 0;
    LineSections(id, order, active, more, lines, p, q, now, ok);
    labels, u := Enter(s, before, t, tid, ReportPc(order, active, lines, 0), id, p, now, "", false);
    labels, u := LookOn(s, labels, u, tid, LineSummaryPc(order, more, lines, 0, ok), id, q,
                        LineLogPc(order, more, lines, 0, Summarize(q)));
    labels, u := LookOn(s, labels, u, tid, LineLogPc(order, more, lines, 0, Summarize(q)), id, q,
                        ReportPc(order, more, lines + [LineAt(p, now)], 0));
  }

  lemma LineSections(id: string, order: seq<string>, active: nat, more: nat, lines: seq<AuditLine>, p: Passport,
                     q: Passport, now: int, ok: bool)
    requires q == AfterTrust(p, now) && ok == TrustedAt(p, now) && more == active + if ok then 1 else 0
    ensures Section(ReportPc(order, active, lines, 0), id, p, now, "", false)
            == Change(id, q, LineSummaryPc(order, more, lines, 0, ok))
    ensures Section(LineSummaryPc(order, more, lines, 0, ok), id, q, 0, "", false)
            == Look(LineLogPc(order, more, lines, 0, Summarize(q)))
    ensures Section(LineLogPc(order, more, lines, 0, Summarize(q)), id, q, 0, "", false)
            == Look(ReportPc(order, more, lines + [LineAt(p, now)], 0))
  {
  }

  /** A report at this point of its loop. */
  predicate AtLine(s: State, t: State, tid: nat, order: seq<string>, active: nat, lines: seq<AuditLine>,
                   ps: map<string, Passport>)
  {
    t.passports == ps && t.threads == s.threads[tid := ReportPc(order, active, lines, 0)]
  }

  lemma ReportStarts(s: State, tid: nat, order: seq<string>) returns (labels: seq<Label>, t: State)
    requires tid !in s.threads && forall i | 0 <= i < |order| :: order[i] in s.passports
    ensures RunAll(s, labels) == Some(t) && AtLine(s, t, tid, order, 0, [], s.passports)
  {
    t := Next(s, Begin(tid, ReportCall(order))).value;
    labels := RunOneMore(s, [], s, Begin(tid, ReportCall(order)), t);
  }

  lemma NextLine(s: State, before: seq<Label>, u: State, tid: nat, order: seq<string>, active: nat,
                 lines: seq<AuditLine>, ps: map<string, Passport>, now: int)
      returns (labels: seq<Label>, t: State)
    requires RunAll(s, before) == Some(u)
    requires AtLine(s, u, tid, order, active, lines, ps) && |lines| < |order| && order[|lines|] in ps
    ensures RunAll(s, labels) == Some(t)
    ensures var id := order[|lines|];
            var p := ps[id];
            AtLine(s, t, tid, order, active + if TrustedAt(p, now) then 1 else 0, lines + [LineAt(p, now)],
                   ps[id := AfterTrust(p, now)])
  {
    Itself(u, tid, order[|lines|]);
    labels, t := LineIsRun(u, [], u, tid, order, active, lines, ps[order[|lines|]], now);
    RunAppend(s, before, u, labels);
    labels := before + labels;
  }

  lemma {:induction false} LinesAreRun(s: State, tid: nat, order: seq<string>, clock: nat -> int, n: nat)
      returns (labels: seq<Label>, t: State)
    requires tid !in s.threads && n <= |order| && forall i | 0 <= i < |order| :: order[i] in s.passports
    requires forall i, j | 0 <= i < j < |order| :: order[i] != order[j]
    ensures RunAll(s, labels) == Some(t)
    ensures var lines := LinesTo(s.passports, order, clock, n);
            AtLine(s, t, tid, order, TrustedTo(s.passports, order, clock, n), lines,
                   CheckedTo(s.passports, order, clock, n))
  {
    if n == 0 {
      labels, t := ReportStarts(s, tid, order);
    } else {
      var before, u := LinesAreRun(s, tid, order, clock, n - 1);
      var lines, ps := LinesTo(s.passports, order, clock, n - 1), CheckedTo(s.passports, order, clock, n - 1);
      NotYetChecked(s.passports, order, clock, n - 1, n - 1);
      labels, t := NextLine(s, before, u, tid, order, TrustedTo(s.passports, order, clock, n - 1), lines, ps,
                            clock(n - 1));
    }
  }

  lemma CountOneMore(lines: seq<AuditLine>, p: Passport, now: int)
    ensures CountActive(lines + [LineAt(p, now)]) == CountActive(lines) + if TrustedAt(p, now) then 1 else 0
  {
    var all := lines + [LineAt(p, now)];
    assert all[..|all| - 1] == lines;
  }

  /** AuditReport is a run of its call: the lines it returns, an active count that agrees with them, and no
      torn line. */
  lemma ReportingIsRun(s: State, tid: nat, order: seq<string>, clock: nat -> int)
      returns (labels: seq<Label>, t: State)
    requires tid !in s.threads && forall i | 0 <= i < |order| :: order[i] in s.passports
    requires forall i, j | 0 <= i < j < |order| :: order[i] != order[j]
    ensures RunAll(s, labels) == Some(t) && t.passports == CheckedTo(s.passports, order, clock, |order|)
    ensures var lines := LinesTo(s.passports, order, clock, |order|);
            tid in t.threads && t.threads[tid] == Done(RReport(order, CountActive(lines), lines, 0))
  {
    var before, u := LinesAreRun(s, tid, order, clock, |order|);
    TrustedIsCount(s.passports, order, clock, |order|);
    t := Next(u, Advance(tid, 0, "", false)).value;
    labels := RunOneMore(s, before, u, Advance(tid, 0, "", false), t);
  }
}
