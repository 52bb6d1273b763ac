/** What every run of the device tables guarantees (server/handlers_devices.go). */
module DeviceRuns {
  import opened Text
  import opened Statements
  import opened Sets
  import opened DeviceCode
  import opened Devices

  // ----- codes

  ghost function DevicesOf(s: State, t: string): set<string> {
    set id | id in s.devices && s.devices[id].deviceType == t
  }

  ghost function CodesOf(s: State, t: string): set<string> {
    set id | id in s.devices && s.devices[id].deviceType == t :: s.devices[id].code
  }

  ghost function FirstCodes(env: Env, t: string, last: nat): set<string> {
    set n | 1 <= n <= last :: Code(env.upper, t, n)
  }

  lemma EntriesDiffer(env: Env, s: State, t: string, i: nat, j: nat)
    requires Good(env, s) && i < j < |Issued(s, t)|
    ensures Issued(s, t)[i] != Issued(s, t)[j]
  {
    assert LedgerOk(env, s, t);
    assert EntryOk(env, s, t, i) && EntryOk(env, s, t, j);
    CodeInjective(env.upper, t, i + 1, t, j + 1);
  }

  lemma LedgerMembers(env: Env, s: State, t: string)
    requires Good(env, s)
    ensures DevicesOf(s, t) == set id | id in Issued(s, t)
  {
    assert LedgerOk(env, s, t);
    forall id ensures id in DevicesOf(s, t) <==> id in Issued(s, t) {
      if id in Issued(s, t) {
        var i :| 0 <= i < |Issued(s, t)| && Issued(s, t)[i] == id;
        assert EntryOk(env, s, t, i);
      }
      if id in DevicesOf(s, t) {
        assert DeviceOk(s, id);
      }
    }
  }

  lemma CountIsLast(env: Env, s: State, t: string)
    requires Good(env, s)
    ensures |DevicesOf(s, t)| == LastN(s.counters, t)
  {
    LedgerMembers(env, s, t);
    forall i, j | 0 <= i < j < |Issued(s, t)| ensures Issued(s, t)[i] != Issued(s, t)[j] {
      EntriesDiffer(env, s, t, i, j);
    }
    SetOfDistinct(Issued(s, t));
    assert LedgerOk(env, s, t);
  }

  /** The number a device carries. */
  lemma NumberOf(env: Env, s: State, id: string) returns (n: nat)
    requires Good(env, s) && id in s.devices
    ensures 1 <= n <= LastN(s.counters, s.devices[id].deviceType)
    ensures s.devices[id].code == Code(env.upper, s.devices[id].deviceType, n)
  {
    var t := s.devices[id].deviceType;
    assert DeviceOk(s, id) && LedgerOk(env, s, t);
    var i :| 0 <= i < |Issued(s, t)| && Issued(s, t)[i] == id;
    assert EntryOk(env, s, t, i);
    n := i + 1;
  }

  /** The device that carries a number. */
  lemma HolderOf(env: Env, s: State, t: string, n: nat) returns (id: string)
    requires Good(env, s) && 1 <= n <= LastN(s.counters, t)
    ensures id in s.devices && s.devices[id].deviceType == t && s.devices[id].code == Code(env.upper, t, n)
  {
    assert LedgerOk(env, s, t);
    assert EntryOk(env, s, t, n - 1);
    id := Issued(s, t)[n - 1];
  }

  lemma CodesAreFirst(env: Env, s: State, t: string)
    requires Good(env, s)
    ensures CodesOf(s, t) == FirstCodes(env, t, LastN(s.counters, t))
  {
    forall c ensures c in CodesOf(s, t) <==> c in FirstCodes(env, t, LastN(s.counters, t)) {
      if c in CodesOf(s, t) {
        var id :| id in s.devices && s.devices[id].deviceType == t && s.devices[id].code == c;
        var n := NumberOf(env, s, id);
      }
      if c in FirstCodes(env, t, LastN(s.counters, t)) {
        var n :| 1 <= n <= LastN(s.counters, t) && Code(env.upper, t, n) == c;
        var id := HolderOf(env, s, t, n);
        assert id in DevicesOf(s, t);
      }
    }
  }

  /** In every run, whatever commits, rolls back, conflicts or is lost: a type's codes are its numbers from 1
      to last_n with no gap and no repeat, and last_n counts its devices. */
  lemma CodesAreDense(env: Env, states: seq<State>, labels: seq<Label>, k: nat, t: string)
    requires IsRun(env, states, labels) && states[0] == INITIAL && k < |states|
    ensures CodesOf(states[k], t) == FirstCodes(env, t, LastN(states[k].counters, t))
    ensures |DevicesOf(states[k], t)| == LastN(states[k].counters, t)
    ensures forall a, b | a in states[k].devices && b in states[k].devices
              && states[k].devices[a].code == states[k].devices[b].code :: a == b
  {
    AlwaysGood(env, states, labels, k);
    CodesAreFirst(env, states[k], t);
    CountIsLast(env, states[k], t);
    forall a, b | a in states[k].devices && b in states[k].devices
             && states[k].devices[a].code == states[k].devices[b].code
      ensures a == b
    {
      assert DeviceOk(states[k], a) && DeviceOk(states[k], b);
    }
  }

  // ----- spellings

  lemma SpellingsMeet(env: Env, s: State, t: string, u: string)
    requires Good(env, s) && LastN(s.counters, t) >= 1 && LastN(s.counters, u) >= 1
    requires env.upper(t) == env.upper(u)
    ensures t == u
  {
    var a := HolderOf(env, s, t, 1);
    var b := HolderOf(env, s, u, 1);
    assert DeviceOk(s, a) && DeviceOk(s, b);
  }

  /** The counter is keyed by the type as sent and the code by its upper case, so at most one spelling of a
      type ever owns a device. */
  lemma OneSpelling(env: Env, states: seq<State>, labels: seq<Label>, k: nat, a: string, b: string)
    requires IsRun(env, states, labels) && states[0] == INITIAL && k < |states|
    requires a in states[k].devices && b in states[k].devices
    requires env.upper(states[k].devices[a].deviceType) == env.upper(states[k].devices[b].deviceType)
    ensures states[k].devices[a].deviceType == states[k].devices[b].deviceType
  {
    AlwaysGood(env, states, labels, k);
    var m := NumberOf(env, states[k], a);
    var n := NumberOf(env, states[k], b);
    SpellingsMeet(env, states[k], states[k].devices[a].deviceType, states[k].devices[b].deviceType);
  }

  /** Another spelling of this type owns a device. */
  ghost predicate Taken(env: Env, s: State, t: string) {
    exists id :: id in s.devices && s.devices[id].deviceType != t && env.upper(s.devices[id].deviceType) == env.upper(t)
  }

  lemma TakenConflicts(env: Env, s: State, tid: nat)
    requires Good(env, s) && tid in s.open && s.open[tid].pc.Counted? && Taken(env, s, s.open[tid].deviceType)
    ensures CodeOf(env, s.open[tid]) in s.codes
  {
    var t := s.open[tid].deviceType;
    var b :| b in s.devices && s.devices[b].deviceType != t && env.upper(s.devices[b].deviceType) == env.upper(t);
    var m := NumberOf(env, s, b);
    assert TxOk(env, s, tid) && LedgerOk(env, s, t);
    if LastN(s.counters, t) >= 1 {
      SpellingsMeet(env, s, t, s.devices[b].deviceType);
      assert false;
    }
    var a := HolderOf(env, s, s.devices[b].deviceType, 1);
    assert DeviceOk(s, a);
  }

  lemma ConflictTaken(env: Env, s: State, tid: nat)
    requires Good(env, s) && tid in s.open && s.open[tid].pc.Counted? && CodeOf(env, s.open[tid]) in s.codes
    ensures Taken(env, s, s.open[tid].deviceType)
  {
    var t, c := s.open[tid].deviceType, CodeOf(env, s.open[tid]);
    assert TxOk(env, s, tid) && LedgerOk(env, s, t) && CodeOk(s, c);
    var a := s.codes[c];
    var n := NumberOf(env, s, a);
    CodeInjective(env.upper, t, s.open[tid].pc.n, s.devices[a].deviceType, n);
  }

  /** In every reachable state: with a new device id, and nothing else failing, the insertion of an allotted
      code is refused exactly when another spelling of the type owns a device. */
  lemma RefusedIff(env: Env, s: State, tid: nat, id: string, issuedAt: int)
    requires Good(env, s) && id !in s.devices && Next(env, s, Insert(tid, id, issuedAt, true)).Some?
    ensures tid in s.open
    ensures tid !in Next(env, s, Insert(tid, id, issuedAt, true)).value.open <==> Taken(env, s, s.open[tid].deviceType)
  {
    if Taken(env, s, s.open[tid].deviceType) {
      TakenConflicts(env, s, tid);
    }
    if CodeOf(env, s.open[tid]) in s.codes {
      ConflictTaken(env, s, tid);
    }
  }

  // ----- what only grows

  /** Devices are never removed; nothing but a pending status changes, once, into active. */
  predicate DeviceGrows(d: Device, e: Device) {
    && e == d.(status := e.status, approvedAt := e.approvedAt)
    && (d.status == Active ==> e == d)
    && (e.status == Pending ==> e == d)
  }

  ghost predicate DevicesGrow(p: map<string, Device>, q: map<string, Device>) {
    forall id | id in p :: id in q && DeviceGrows(p[id], q[id])
  }

  /** What a step does to the table of devices. */
  datatype Change = Same | Added(id: string, device: Device) | Activated(id: string, now: int)

  function ChangeOf(env: Env, s: State, l: Label): Change {
    if l.Commit? && l.tid in s.open && s.open[l.tid].pc.Inserted? && l.fault != Lost then
      Added(s.open[l.tid].pc.id, NewDevice(env, s.open[l.tid]))
    else if l.Approve? && l.fault != Lost && l.id in s.devices && s.devices[l.id].status == Pending then
      Activated(l.id, l.now)
    else Same
  }

  function Changed(devices: map<string, Device>, c: Change): map<string, Device> {
    match c
    case Same => devices
    case Added(id, d) => devices[id := d]
    case Activated(id, now) => if id in devices then devices[id := ApprovedDevice(devices[id], now)] else devices
  }

  lemma CommitChanges(env: Env, s: State, tid: nat, fault: Fault, t: State)
    requires Next(env, s, Commit(tid, fault)) == Some(t)
    ensures t.devices == Changed(s.devices, ChangeOf(env, s, Commit(tid, fault)))
  {
  }

  lemma CountChanges(env: Env, s: State, tid: nat, ok: bool, t: State)
    requires Next(env, s, Count(tid, ok)) == Some(t)
    ensures t.devices == s.devices
  {
  }

  lemma InsertChanges(env: Env, s: State, tid: nat, id: string, issuedAt: int, ok: bool, t: State)
    requires Next(env, s, Insert(tid, id, issuedAt, ok)) == Some(t)
    ensures t.devices == s.devices
  {
  }

  lemma ApproveChanges(env: Env, s: State, id: string, now: int, fault: Fault, t: State)
    requires Next(env, s, Approve(id, now, fault)) == Some(t)
    ensures t.devices == Changed(s.devices, ChangeOf(env, s, Approve(id, now, fault)))
  {
  }

  lemma BeginChanges(env: Env, s: State, tid: nat, name: string, deviceType: string, ip: string, ok: bool, t: State)
    requires Next(env, s, Begin(tid, name, deviceType, ip, ok)) == Some(t)
    ensures t.devices == s.devices && Fails(s, t)
  {
    if env.blank(name) || env.blank(deviceType) {
      assert t == Answering(s, BadRequest);
    } else if !ok {
      assert t == Answering(s, ServerError);
    } else {
      assert t.answers == s.answers;
    }
  }

  lemma AbandonChanges(env: Env, s: State, tid: nat, t: State)
    requires Next(env, s, Abandon(tid)) == Some(t)
    ensures t.devices == s.devices && t.answers == s.answers
  {
  }

  lemma StepChanges(env: Env, s: State, l: Label, t: State)
    requires Next(env, s, l) == Some(t)
    ensures t.devices == Changed(s.devices, ChangeOf(env, s, l))
  {
    match l
    case Begin(tid, name, deviceType, ip, ok) => BeginChanges(env, s, tid, name, deviceType, ip, ok, t);
    case Count(tid, ok) => CountChanges(env, s, tid, ok, t);
    case Insert(tid, id, issuedAt, ok) => InsertChanges(env, s, tid, id, issuedAt, ok, t);
    case Commit(tid, fault) => CommitChanges(env, s, tid, fault, t);
    case Abandon(tid) => AbandonChanges(env, s, tid, t);
    case Approve(id, now, fault) => ApproveChanges(env, s, id, now, fault, t);
    case Authenticate(_, _) =>
  }

  lemma AddedIsNew(env: Env, s: State, l: Label)
    requires Good(env, s)
    ensures ChangeOf(env, s, l).Added? ==> ChangeOf(env, s, l).id !in s.devices
  {
    if ChangeOf(env, s, l).Added? {
      assert TxOk(env, s, l.tid);
    }
  }

  lemma ChangeGrows(env: Env, s: State, l: Label)
    requires ChangeOf(env, s, l).Added? ==> ChangeOf(env, s, l).id !in s.devices
    ensures DevicesGrow(s.devices, Changed(s.devices, ChangeOf(env, s, l)))
  {
  }

  lemma StepGrows(env: Env, s: State, l: Label, t: State)
    requires Good(env, s) && Next(env, s, l) == Some(t)
    ensures DevicesGrow(s.devices, t.devices)
  {
    StepChanges(env, s, l, t);
    AddedIsNew(env, s, l);
    ChangeGrows(env, s, l);
  }

  lemma GrowsAt(env: Env, states: seq<State>, labels: seq<Label>, j: nat)
    requires IsRun(env, states, labels) && states[0] == INITIAL && j < |labels|
    ensures DevicesGrow(states[j].devices, states[j + 1].devices)
  {
    AlwaysGood(env, states, labels, j);
    assert Stepped(env, states, labels, j);
    StepGrows(env, states[j], labels[j], states[j + 1]);
  }

  lemma {:induction false} RunGrows(env: Env, states: seq<State>, labels: seq<Label>, i: nat, j: nat)
    requires IsRun(env, states, labels) && states[0] == INITIAL && i <= j < |states|
    ensures DevicesGrow(states[i].devices, states[j].devices)
    decreases j - i
  {
    if i < j {
      RunGrows(env, states, labels, i, j - 1);
      GrowsAt(env, states, labels, j - 1);
      GrowsOn(states[i].devices, states[j - 1].devices, states[j].devices);
    }
  }

  lemma GrowsOn(p: map<string, Device>, q: map<string, Device>, r: map<string, Device>)
    requires DevicesGrow(p, q) && DevicesGrow(q, r)
    ensures DevicesGrow(p, r)
  {
    forall id | id in p ensures id in r && DeviceGrows(p[id], r[id]) {
      assert DeviceGrows(p[id], q[id]) && DeviceGrows(q[id], r[id]);
    }
  }

  /** Once one spelling owns a device, no other spelling ever does. */
  lemma SpellingIsFinal(env: Env, states: seq<State>, labels: seq<Label>, i: nat, k: nat, a: string, t: string)
    requires IsRun(env, states, labels) && states[0] == INITIAL && i <= k < |states| && a in states[i].devices
    requires env.upper(t) == env.upper(states[i].devices[a].deviceType) && t != states[i].devices[a].deviceType
    ensures DevicesOf(states[k], t) == {} && LastN(states[k].counters, t) == 0
  {
    RunGrows(env, states, labels, i, k);
    assert DeviceGrows(states[i].devices[a], states[k].devices[a]);
    forall b | b in states[k].devices ensures states[k].devices[b].deviceType != t {
      if states[k].devices[b].deviceType == t {
        OneSpelling(env, states, labels, k, a, b);
      }
    }
    AlwaysGood(env, states, labels, k);
    CountIsLast(env, states[k], t);
  }

  // ----- answers

  /** What an answer given so far still means. */
  predicate AnswerOk(s: State, a: Answer) {
    match a
    case Registered(id, code) => id in s.devices && s.devices[id].code == code
    case Approved(id) => id in s.devices && s.devices[id].status == Active
    case Token(id, code) => id in s.devices && s.devices[id].code == code && s.devices[id].status == Active
    case _ => true
  }

  /** Answers that can be given only once. */
  predicate Repeats(a: Answer, b: Answer) {
    || (a.Registered? && b.Registered? && (a.id == b.id || a.code == b.code))
    || (a.Approved? && b.Approved? && a.id == b.id)
  }

  lemma AnswerStays(s: State, t: State, a: Answer)
    requires DevicesGrow(s.devices, t.devices) && AnswerOk(s, a)
    ensures AnswerOk(t, a)
  {
    if a.Registered? || a.Approved? || a.Token? {
      assert DeviceGrows(s.devices[a.id], t.devices[a.id]);
    }
  }

  /** An answer that claims something new claims what was not so before. */
  predicate News(s: State, a: Answer) {
    && (a.Registered? ==> a.id !in s.devices && a.code !in s.codes)
    && (a.Approved? ==> a.id in s.devices && s.devices[a.id].status == Pending)
  }

  lemma NewsDiffers(env: Env, s: State, a: Answer, b: Answer)
    requires Good(env, s) && AnswerOk(s, a) && News(s, b)
    ensures !Repeats(a, b)
  {
    if a.Registered? {
      assert DeviceOk(s, a.id);
    }
  }

  lemma CommitSays(env: Env, s: State, tid: nat, t: State)
    requires Good(env, s) && Next(env, s, Commit(tid, NoFault)) == Some(t)
    ensures exists a :: t.answers == s.answers + [a] && AnswerOk(t, a) && News(s, a)
  {
    assert TxOk(env, s, tid);
    var a := Registered(s.open[tid].pc.id, CodeOf(env, s.open[tid]));
    assert t.answers == s.answers + [a] && AnswerOk(t, a) && News(s, a);
  }

  lemma ApproveSays(env: Env, s: State, id: string, now: int, fault: Fault, t: State)
    requires Next(env, s, Approve(id, now, fault)) == Some(t)
    ensures exists a :: t.answers == s.answers + [a] && AnswerOk(t, a) && News(s, a)
  {
    var hit := id in s.devices && s.devices[id].status == Pending;
    var a := if fault != NoFault then ServerError else if hit then Approved(id) else NotPending;
    assert t.answers == s.answers + [a] && AnswerOk(t, a) && News(s, a);
  }

  lemma AuthenticateSays(env: Env, s: State, code: string, ok: bool, t: State)
    requires Good(env, s) && Next(env, s, Authenticate(code, ok)) == Some(t)
    ensures exists a :: t.answers == s.answers + [a] && AnswerOk(t, a) && News(s, a)
  {
    var a := AuthAnswer(s.devices, s.codes, code, ok);
    if code in s.codes {
      assert CodeOk(s, code);
    }
    assert t.answers == s.answers + [a] && AnswerOk(t, a) && News(s, a);
  }

  ghost predicate Fails(s: State, t: State) {
    t.answers == s.answers || t.answers == s.answers + [BadRequest] || t.answers == s.answers + [ServerError]
  }

  lemma CountSays(env: Env, s: State, tid: nat, ok: bool, t: State)
    requires Next(env, s, Count(tid, ok)) == Some(t)
    ensures Fails(s, t)
  {
  }

  lemma InsertSays(env: Env, s: State, tid: nat, id: string, issuedAt: int, ok: bool, t: State)
    requires Next(env, s, Insert(tid, id, issuedAt, ok)) == Some(t)
    ensures Fails(s, t)
  {
  }

  lemma CommitFails(env: Env, s: State, tid: nat, fault: Fault, t: State)
    requires Next(env, s, Commit(tid, fault)) == Some(t) && fault != NoFault
    ensures Fails(s, t)
  {
  }

  /** Every other answer reports a failure. */
  lemma OtherSays(env: Env, s: State, l: Label, t: State)
    requires Next(env, s, l) == Some(t) && !l.Approve? && !l.Authenticate? && !(l.Commit? && l.fault == NoFault)
    ensures Fails(s, t)
  {
    match l
    case Begin(tid, name, deviceType, ip, ok) => BeginChanges(env, s, tid, name, deviceType, ip, ok, t);
    case Count(tid, ok) => CountSays(env, s, tid, ok, t);
    case Insert(tid, id, issuedAt, ok) => InsertSays(env, s, tid, id, issuedAt, ok, t);
    case Commit(tid, fault) => CommitFails(env, s, tid, fault, t);
    case Abandon(tid) => AbandonChanges(env, s, tid, t);
  }

  lemma StepSays(env: Env, s: State, l: Label, t: State)
    requires Good(env, s) && Next(env, s, l) == Some(t)
    ensures t.answers == s.answers || exists a :: t.answers == s.answers + [a] && AnswerOk(t, a) && News(s, a)
  {
    if l.Approve? {
      ApproveSays(env, s, l.id, l.now, l.fault, t);
    } else if l.Authenticate? {
      AuthenticateSays(env, s, l.code, l.ok, t);
    } else if l.Commit? && l.fault == NoFault {
      CommitSays(env, s, l.tid, t);
    } else {
      OtherSays(env, s, l, t);
      assert AnswerOk(t, BadRequest) && News(s, BadRequest) && AnswerOk(t, ServerError) && News(s, ServerError);
    }
  }

  ghost predicate AnswersOk(s: State) {
    && (forall a | a in s.answers :: AnswerOk(s, a))
    && (forall i, j | 0 <= i < j < |s.answers| :: !Repeats(s.answers[i], s.answers[j]))
  }

  lemma AddedAnswer(env: Env, s: State, t: State, a: Answer)
    requires Good(env, s) && AnswersOk(s) && DevicesGrow(s.devices, t.devices)
    requires t.answers == s.answers + [a] && AnswerOk(t, a) && News(s, a)
    ensures AnswersOk(t)
  {
    forall b | b in t.answers ensures AnswerOk(t, b) {
      if b in s.answers {
        AnswerStays(s, t, b);
      }
    }
    forall i, j | 0 <= i < j < |t.answers| ensures !Repeats(t.answers[i], t.answers[j]) {
      if j == |s.answers| {
        NewsDiffers(env, s, s.answers[i], a);
      }
    }
  }

  lemma SameAnswers(s: State, t: State)
    requires AnswersOk(s) && DevicesGrow(s.devices, t.devices) && t.answers == s.answers
    ensures AnswersOk(t)
  {
    forall b | b in t.answers ensures AnswerOk(t, b) {
      AnswerStays(s, t, b);
    }
  }

  lemma StepAnswers(env: Env, s: State, l: Label, t: State)
    requires Good(env, s) && Next(env, s, l) == Some(t) && AnswersOk(s)
    ensures AnswersOk(t)
  {
    StepGrows(env, s, l, t);
    StepSays(env, s, l, t);
    if t.answers == s.answers {
      SameAnswers(s, t);
    } else {
      var a :| t.answers == s.answers + [a] && AnswerOk(t, a) && News(s, a);
      AddedAnswer(env, s, t, a);
    }
  }

  lemma AnswersAt(env: Env, states: seq<State>, labels: seq<Label>, j: nat)
    requires IsRun(env, states, labels) && states[0] == INITIAL && j < |labels| && AnswersOk(states[j])
    ensures AnswersOk(states[j + 1])
  {
    AlwaysGood(env, states, labels, j);
    assert Stepped(env, states, labels, j);
    StepAnswers(env, states[j], labels[j], states[j + 1]);
  }

  /** A registered device keeps its id and code for good and shares them with no other registration; of all
      approvals of a device at most one answers 200, and it stays active; a token is only for an active one. */
  lemma {:induction false} AnswersHold(env: Env, states: seq<State>, labels: seq<Label>, k: nat)
    requires IsRun(env, states, labels) && states[0] == INITIAL && k < |states|
    ensures AnswersOk(states[k])
  {
    if k > 0 {
      AnswersHold(env, states, labels, k - 1);
      AnswersAt(env, states, labels, k - 1);
    }
  }

  /** The approval that took effect: it found the device pending. */
  predicate Approves(s: State, l: Label, id: string) {
    l.Approve? && l.id == id && l.fault != Lost && id in s.devices && s.devices[id].status == Pending
  }

  lemma ActiveStep(env: Env, s: State, l: Label, t: State, id: string)
    requires Good(env, s) && Next(env, s, l) == Some(t) && id in t.devices && t.devices[id].status == Active
    ensures (id in s.devices && t.devices[id] == s.devices[id])
            || (Approves(s, l, id) && t.devices[id].approvedAt == Some(l.now))
  {
    StepChanges(env, s, l, t);
    AddedIsNew(env, s, l);
  }

  /** The only way to an active device, hence to a token, is an approval of it while it was pending; the
      approval time on record is that approval's. */
  lemma {:induction false} ActiveNeedsApproval(env: Env, states: seq<State>, labels: seq<Label>, k: nat, id: string)
    requires IsRun(env, states, labels) && states[0] == INITIAL && k < |states|
    requires id in states[k].devices && states[k].devices[id].status == Active
    ensures exists i | 0 <= i < k ::
              Approves(states[i], labels[i], id) && states[k].devices[id].approvedAt == Some(labels[i].now)
  {
    assert Stepped(env, states, labels, k - 1);
    AlwaysGood(env, states, labels, k - 1);
    ActiveStep(env, states[k - 1], labels[k - 1], states[k], id);
    if !Approves(states[k - 1], labels[k - 1], id) {
      ActiveNeedsApproval(env, states, labels, k - 1, id);
    }
  }

  /** A device registered under a code can be authenticated with it exactly when it is active. */
  lemma TokenIff(env: Env, states: seq<State>, labels: seq<Label>, k: nat, id: string)
    requires IsRun(env, states, labels) && states[0] == INITIAL && k < |states| && id in states[k].devices
    ensures var d := states[k].devices[id];
            AuthAnswer(states[k].devices, states[k].codes, d.code, true)
            == if d.status == Active then Token(id, d.code) else Forbidden
  {
    AlwaysGood(env, states, labels, k);
    assert DeviceOk(states[k], id);
    var n := NumberOf(env, states[k], id);
  }

  // ----- waiting

  /** The statement an open transaction sends next. */
  function Own(s: State, tid: nat, id: string, now: int): Label
    requires tid in s.open
  {
    match s.open[tid].pc
    case Begun => Count(tid, true)
    case Counted(_) => Insert(tid, id, now, true)
    case Inserted(_, _, _) => Commit(tid, NoFault)
  }

  /** Registrations wait for each other but never in a circle: of any open ones some can go on. */
  lemma NoDeadlock(env: Env, s: State, tid: nat, id: string, now: int) returns (u: nat)
    requires Good(env, s) && tid in s.open
    ensures u in s.open && Next(env, s, Own(s, u, id, now)).Some?
  {
    u := tid;
    if s.open[u].pc.Begun? && s.open[u].deviceType in s.locks {
      assert LockOk(s, s.open[u].deviceType);
      u := s.locks[s.open[u].deviceType];
    }
    if s.open[u].pc.Counted? && id in s.pendingIds {
      assert PendingIdOk(s, id);
      u := s.pendingIds[id];
    } else if s.open[u].pc.Counted? && CodeOf(env, s.open[u]) in s.pendingCodes {
      assert PendingCodeOk(env, s, CodeOf(env, s.open[u]));
      u := s.pendingCodes[CodeOf(env, s.open[u])];
    }
  }
}
