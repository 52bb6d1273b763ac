/** The device handlers as they run, statement after statement, on the tables (server/handlers_devices.go),
    and the tokens they give out. */
module DeviceHandlers {
  import opened Text
  import opened Statements
  import opened DeviceCode
  import opened Devices
  import opened DeviceRuns
  import V = GoValues
  import Jwt

  /** Which statement of a registration fails, if any. */
  datatype Trouble = Smooth | AtBegin | AtCount | AtInsert | AtCommit(fault: Fault)

  datatype Request = Request(name: string, deviceType: string, ip: string, id: string, issuedAt: int)

  ghost predicate CodeUsed(devices: map<string, Device>, code: string) {
    exists id :: id in devices && devices[id].code == code
  }

  /** The UNIQUE constraint on device_code. */
  ghost predicate UniqueCodes(devices: map<string, Device>) {
    forall a, b | a in devices && b in devices && devices[a].code == devices[b].code :: a == b
  }

  ghost predicate HasCode(devices: map<string, Device>, code: string, status: Status) {
    exists id :: id in devices && devices[id].code == code && devices[id].status == status
  }

  /** Which answer an authentication gives, and exactly when. */
  ghost predicate Authenticates(devices: map<string, Device>, code: string, ok: bool, answer: Answer) {
    && (answer == BadRequest <==> code == "")
    && (answer == ServerError <==> code != "" && !ok)
    && (answer == NotFound <==> code != "" && ok && !CodeUsed(devices, code))
    && (answer == Forbidden <==> code != "" && ok && HasCode(devices, code, Pending))
    && (answer.Token? <==> code != "" && ok && HasCode(devices, code, Active))
    && (answer.Token? ==> answer.code == code && answer.id in devices && devices[answer.id].code == code)
  }

  /** In nanoseconds. */
  const SECOND: int := 1_000_000_000
  const HOUR: int := 3600 * SECOND

  // ----- the handlers

  class Store {
    var counters: map<string, nat>
    var devices: map<string, Device>

    constructor ()
      ensures counters == map[] && devices == map[]
    {
      counters, devices := map[], map[];
    }

    /** handleDeviceRegister: the counter and the device are written in one transaction. */
    method Register(env: Env, r: Request, trouble: Trouble) returns (answer: Answer)
      modifies this
      ensures (counters, devices, answer) == Registering(env, old(counters), old(devices), r, trouble)
      ensures answer == BadRequest <==> env.blank(r.name) || env.blank(r.deviceType)
      ensures var n := (if r.deviceType in old(counters) then old(counters)[r.deviceType] else 0) + 1;
              var code := env.upper(r.deviceType) + "-" + Padded(n);
              if answer == BadRequest || trouble in {AtBegin, AtCount, AtInsert, AtCommit(Lost)}
                 || r.id in old(devices) || (exists id :: id in old(devices) && old(devices)[id].code == code)
              then counters == old(counters) && devices == old(devices) && answer in {BadRequest, ServerError}
              else
                counters == old(counters)[r.deviceType := n]
                && devices == old(devices)[r.id := Device(code, r.name, r.deviceType, r.ip, Pending, r.issuedAt, None)]
                && answer == if trouble == AtCommit(Ambiguous) then ServerError else Registered(r.id, code)
    {
      if env.blank(r.name) || env.blank(r.deviceType) {
        return BadRequest;
      }
      if trouble == AtBegin {
        return ServerError;
      }
      var txCounters, txDevices := counters, devices;
      if trouble == AtCount {
        return ServerError;
      }
      var next := if r.deviceType in txCounters then txCounters[r.deviceType] + 1 else 1;
      txCounters := txCounters[r.deviceType := next];
      var code := Code(env.upper, r.deviceType, next);
      if trouble == AtInsert || r.id in txDevices || (exists id | id in txDevices :: txDevices[id].code == code) {
        return ServerError;
      }
      txDevices := txDevices[r.id := Device(code, r.name, r.deviceType, r.ip, Pending, r.issuedAt, None)];
      if trouble != AtCommit(Lost) {
        counters, devices := txCounters, txDevices;
      }
      if trouble.AtCommit? && trouble.fault != NoFault {
        return ServerError;
      }
      answer := Registered(r.id, code);
    }

    /** handleDeviceApprove. */
    method Approve(id: string, now: int, fault: Fault) returns (answer: Answer)
      modifies this`devices
      ensures devices == if id in old(devices) && old(devices)[id].status == Pending && fault != Lost
                         then old(devices)[id := old(devices)[id].(status := Active, approvedAt := Some(now))]
                         else old(devices)
      ensures answer == if fault != NoFault then ServerError
                        else if id in old(devices) && old(devices)[id].status == Pending then Approved(id)
                        else NotPending
    {
      var affected := 0;
      if id in devices && devices[id].status == Pending {
        affected := 1;
        if fault != Lost {
          devices := devices[id := devices[id].(status := Active, approvedAt := Some(now))];
        }
      }
      if fault != NoFault {
        return ServerError;
      }
      if affected == 0 {
        return NotPending;
      }
      answer := Approved(id);
    }

    /** handleDeviceAuthenticate: the answer, and with a token its text, which expires an hour after now. */
    method Authenticate(code: string, ok: bool, now: int, f: V.Floats, mac: Jwt.Mac, secret: string)
      returns (answer: Answer, token: string)
      requires UniqueCodes(devices)
      ensures Authenticates(devices, code, ok, answer)
      ensures answer.Token? ==>
                token == Jwt.SignJwt(f, mac, secret,
                                     map["sub" := V.String(answer.id), "device_code" := V.String(code),
                                         "exp" := V.Int((now + 3600 * 1_000_000_000) / 1_000_000_000),
                                         "iss" := V.String("computeid-server")])
      ensures !answer.Token? ==> token == ""
    {
      token := "";
      if code == "" {
        answer := BadRequest;
        return;
      }
      if !ok {
        answer := ServerError;
        return;
      }
      if !(exists id | id in devices :: devices[id].code == code) {
        answer := NotFound;
        return;
      }
      var id :| id in devices && devices[id].code == code;
      if devices[id].status != Active {
        answer := Forbidden;
        return;
      }
      answer := Token(id, code);
      token := Jwt.SignJwt(f, mac, secret, TokenClaims(id, code, (now + HOUR) / SECOND));
    }
  }

  /** A registration run alone. */
  ghost function Registering(env: Env, counters: map<string, nat>, devices: map<string, Device>, r: Request,
                             trouble: Trouble): (map<string, nat>, map<string, Device>, Answer)
  {
    var next := LastN(counters, r.deviceType) + 1;
    var code := Code(env.upper, r.deviceType, next);
    if env.blank(r.name) || env.blank(r.deviceType) then (counters, devices, BadRequest)
    else if trouble in {AtBegin, AtCount, AtInsert, AtCommit(Lost)} || r.id in devices || CodeUsed(devices, code) then
      (counters, devices, ServerError)
    else
      (counters[r.deviceType := next],
       devices[r.id := Device(code, r.name, r.deviceType, r.ip, Pending, r.issuedAt, None)],
       if trouble == AtCommit(Ambiguous) then ServerError else Registered(r.id, code))
  }

  // ----- the handler is its transaction run alone

  function RunAll(env: Env, s: State, labels: seq<Label>): Option<State>
    decreases |labels|
  {
    if labels == [] then Some(s)
    else
      match Next(env, s, labels[0])
      case None => None
      case Some(t) => RunAll(env, t, labels[1..])
  }

  function BeginOf(tid: nat, r: Request, trouble: Trouble): Label {
    Begin(tid, r.name, r.deviceType, r.ip, trouble != AtBegin)
  }

  function CommitFault(trouble: Trouble): Fault {
    if trouble.AtCommit? then trouble.fault else NoFault
  }

  /** What the tables and the last answer are after some steps. */
  ghost predicate Shows(s: State, t: State, r: (map<string, nat>, map<string, Device>, Answer)) {
    t.open == s.open && t.counters == r.0 && t.devices == r.1 && t.answers == s.answers + [r.2]
  }

  lemma CodeIndex(env: Env, s: State, code: string)
    requires Good(env, s)
    ensures code in s.codes <==> CodeUsed(s.devices, code)
  {
    if code in s.codes {
      assert CodeOk(s, code);
    }
    if CodeUsed(s.devices, code) {
      var id :| id in s.devices && s.devices[id].code == code;
      assert DeviceOk(s, id);
    }
  }

  lemma IdleIsFree(env: Env, s: State)
    requires Good(env, s) && s.open == map[]
    ensures s.locks == map[] && s.pendingCodes == map[] && s.pendingIds == map[]
  {
    assert forall t | t in s.locks :: LockOk(s, t);
    assert forall c | c in s.pendingCodes :: PendingCodeOk(env, s, c);
    assert forall id | id in s.pendingIds :: PendingIdOk(s, id);
  }

  lemma BeginAlone(env: Env, s: State, tid: nat, r: Request, trouble: Trouble) returns (t: State)
    requires s.open == map[]
    ensures Next(env, s, BeginOf(tid, r, trouble)) == Some(t)
    ensures if env.blank(r.name) || env.blank(r.deviceType) then t == Answering(s, BadRequest)
            else if trouble == AtBegin then t == Answering(s, ServerError)
            else t == s.(open := map[tid := Tx(r.name, r.deviceType, r.ip, Begun)])
  {
    t := Next(env, s, BeginOf(tid, r, trouble)).value;
  }

  lemma CountAlone(env: Env, s: State, tid: nat, tx: Tx, ok: bool) returns (t: State)
    requires s.open == map[tid := tx] && tx.pc.Begun? && s.locks == map[]
    ensures Next(env, s, Count(tid, ok)) == Some(t)
    ensures if ok then t == s.(open := map[tid := tx.(pc := Counted(LastN(s.counters, tx.deviceType) + 1))],
                               locks := map[tx.deviceType := tid])
            else t == Answering(s.(open := map[]), ServerError)
  {
    t := Next(env, s, Count(tid, ok)).value;
    assert s.open - {tid} == map[];
  }

  lemma InsertAlone(env: Env, s: State, tid: nat, tx: Tx, id: string, issuedAt: int, ok: bool) returns (t: State)
    requires s.open == map[tid := tx] && tx.pc.Counted? && s.pendingCodes == map[] && s.pendingIds == map[]
    requires s.locks == map[tx.deviceType := tid]
    ensures Next(env, s, Insert(tid, id, issuedAt, ok)) == Some(t)
    ensures if ok && CodeOf(env, tx) !in s.codes && id !in s.devices then
              t == s.(open := map[tid := tx.(pc := Inserted(tx.pc.n, id, issuedAt))],
                      pendingCodes := map[CodeOf(env, tx) := tid], pendingIds := map[id := tid])
            else t == Answering(s.(open := map[], locks := map[]), ServerError)
  {
    t := Next(env, s, Insert(tid, id, issuedAt, ok)).value;
    assert s.open - {tid} == map[] && s.locks - {tx.deviceType} == map[];
  }

  lemma CommitAlone(env: Env, s: State, tid: nat, tx: Tx, fault: Fault) returns (t: State)
    requires s.open == map[tid := tx] && tx.pc.Inserted?
    ensures Next(env, s, Commit(tid, fault)) == Some(t) && t.open == map[]
    ensures t.counters == if fault == Lost then s.counters else s.counters[tx.deviceType := tx.pc.n]
    ensures t.devices == if fault == Lost then s.devices else s.devices[tx.pc.id := NewDevice(env, tx)]
    ensures t.answers == s.answers + [if fault == NoFault then Registered(tx.pc.id, CodeOf(env, tx)) else ServerError]
  {
    t := Next(env, s, Commit(tid, fault)).value;
    assert s.open - {tid} == map[];
  }

  lemma {:induction false} RunOneMore(env: Env, s: State, labels: seq<Label>, l: Label)
    ensures RunAll(env, s, labels + [l])
            == match RunAll(env, s, labels) case None => None case Some(t) => Next(env, t, l)
    decreases |labels|
  {
    var all := labels + [l];
    if labels == [] {
      assert all == [l];
      if Next(env, s, l).Some? {
        assert RunAll(env, Next(env, s, l).value, all[1..]) == Some(Next(env, s, l).value);
      }
    } else {
      assert all[1..] == labels[1..] + [l];
      if Next(env, s, labels[0]).Some? {
        RunOneMore(env, Next(env, s, labels[0]).value, labels[1..], l);
      }
    }
  }

  lemma Then(env: Env, s: State, labels: seq<Label>, t: State, l: Label, u: State)
      returns (more: seq<Label>, last: State)
    requires RunAll(env, s, labels) == Some(t) && Next(env, t, l) == Some(u)
    ensures more == labels + [l] && last == u && RunAll(env, s, more) == Some(last)
  {
    RunOneMore(env, s, labels, l);
    more, last := labels + [l], u;
  }

  /** The commit. */
  lemma FromInserted(env: Env, s: State, tid: nat, r: Request, trouble: Trouble, before: seq<Label>, s3: State)
      returns (labels: seq<Label>, t: State)
    requires s.open == map[] && !env.blank(r.name) && !env.blank(r.deviceType)
    requires (trouble == Smooth || trouble.AtCommit?) && RunAll(env, s, before) == Some(s3)
    requires var n := LastN(s.counters, r.deviceType) + 1;
             s3.open == map[tid := Tx(r.name, r.deviceType, r.ip, Inserted(n, r.id, r.issuedAt))]
             && r.id !in s.devices && !CodeUsed(s.devices, Code(env.upper, r.deviceType, n))
    requires s3.counters == s.counters && s3.devices == s.devices && s3.answers == s.answers
    ensures RunAll(env, s, labels) == Some(t)
    ensures Shows(s, t, Registering(env, s.counters, s.devices, r, trouble))
  {
    var s4 := CommitAlone(env, s3, tid, s3.open[tid], CommitFault(trouble));
    labels, t := Then(env, s, before, s3, Commit(tid, CommitFault(trouble)), s4);
  }

  /** The refused insertion. */
  lemma RefusedShows(env: Env, s: State, r: Request, trouble: Trouble, s3: State)
    requires s.open == map[] && !env.blank(r.name) && !env.blank(r.deviceType)
    requires s3 == Answering(s.(open := map[], locks := map[]), ServerError)
    requires trouble == AtInsert || r.id in s.devices
             || CodeUsed(s.devices, Code(env.upper, r.deviceType, LastN(s.counters, r.deviceType) + 1))
    ensures Shows(s, s3, Registering(env, s.counters, s.devices, r, trouble))
  {
  }

  /** From a counted transaction to the end. */
  lemma FromCounted(env: Env, s: State, tid: nat, r: Request, trouble: Trouble, begun: seq<Label>, s2: State)
      returns (labels: seq<Label>, t: State)
    requires Good(env, s) && s.open == map[] && !env.blank(r.name) && !env.blank(r.deviceType)
    requires trouble != AtBegin && trouble != AtCount && RunAll(env, s, begun) == Some(s2)
    requires var tx := Tx(r.name, r.deviceType, r.ip, Counted(LastN(s.counters, r.deviceType) + 1));
             s2 == s.(open := map[tid := tx], locks := map[r.deviceType := tid])
    requires s.pendingCodes == map[] && s.pendingIds == map[]
    ensures RunAll(env, s, labels) == Some(t)
    ensures Shows(s, t, Registering(env, s.counters, s.devices, r, trouble))
  {
    var tx := s2.open[tid];
    CodeIndex(env, s, CodeOf(env, tx));
    var s3 := InsertAlone(env, s2, tid, tx, r.id, r.issuedAt, trouble != AtInsert);
    labels, t := Then(env, s, begun, s2, Insert(tid, r.id, r.issuedAt, trouble != AtInsert), s3);
    if trouble != AtInsert && CodeOf(env, tx) !in s.codes && r.id !in s.devices {
      labels, t := FromInserted(env, s, tid, r, trouble, labels, s3);
    } else {
      assert s3 == Answering(s.(open := map[], locks := map[]), ServerError);
      RefusedShows(env, s, r, trouble, s3);
    }
  }

  /** Whatever fails, the handler leaves the tables and answers as its transaction does when no other is open:
      all the theorems about runs of transactions are about the handler. */
  lemma RegisteringIsSerial(env: Env, s: State, tid: nat, r: Request, trouble: Trouble)
      returns (labels: seq<Label>, t: State)
    requires Good(env, s) && s.open == map[]
    ensures RunAll(env, s, labels) == Some(t)
    ensures Shows(s, t, Registering(env, s.counters, s.devices, r, trouble))
  {
    IdleIsFree(env, s);
    var s1 := BeginAlone(env, s, tid, r, trouble);
    labels, t := [BeginOf(tid, r, trouble)], s1;
    assert RunAll(env, s, labels) == Some(s1) by {
      assert labels[1..] == [];
    }
    if !env.blank(r.name) && !env.blank(r.deviceType) && trouble != AtBegin {
      var s2 := CountAlone(env, s1, tid, Tx(r.name, r.deviceType, r.ip, Begun), trouble != AtCount);
      labels, t := Then(env, s, labels, s1, Count(tid, trouble != AtCount), s2);
      if trouble != AtCount {
        labels, t := FromCounted(env, s, tid, r, trouble, labels, s2);
      }
    }
  }

  // ----- the other handlers are single steps

  /** Approval in any state, whatever transactions are open. */
  lemma ApprovingIsStep(env: Env, s: State, id: string, now: int, fault: Fault) returns (t: State)
    ensures Next(env, s, Approve(id, now, fault)) == Some(t)
    ensures t.devices == if id in s.devices && s.devices[id].status == Pending && fault != Lost
                         then s.devices[id := s.devices[id].(status := Active, approvedAt := Some(now))] else s.devices
    ensures t.answers == s.answers + [if fault != NoFault then ServerError
                                      else if id in s.devices && s.devices[id].status == Pending then Approved(id)
                                      else NotPending]
    ensures t == s.(devices := t.devices, answers := t.answers)
  {
    t := Approving(s, id, now, fault);
  }

  lemma GoodIsUnique(env: Env, s: State)
    requires Good(env, s)
    ensures UniqueCodes(s.devices)
  {
    forall a, b | a in s.devices && b in s.devices && s.devices[a].code == s.devices[b].code ensures a == b {
      assert DeviceOk(s, a) && DeviceOk(s, b);
    }
  }

  /** Authentication in any reachable state: the handler's contract leaves it the answer of the step. */
  lemma AuthenticatingIsStep(env: Env, s: State, code: string, ok: bool, answer: Answer)
    requires Good(env, s)
    ensures UniqueCodes(s.devices)
    ensures Authenticates(s.devices, code, ok, answer) <==>
            Next(env, s, Authenticate(code, ok)) == Some(Answering(s, answer))
  {
    GoodIsUnique(env, s);
    StepAuthenticates(env, s, code, ok);
    var step := AuthAnswer(s.devices, s.codes, code, ok);
    assert Next(env, s, Authenticate(code, ok)) == Some(Answering(s, step));
    assert Answering(s, answer).answers[|s.answers|] == answer && Answering(s, step).answers[|s.answers|] == step;
    if Authenticates(s.devices, code, ok, answer) {
      OneAnswer(s.devices, code, ok, answer, step);
    }
  }

  lemma StepAuthenticates(env: Env, s: State, code: string, ok: bool)
    requires Good(env, s)
    ensures Authenticates(s.devices, code, ok, AuthAnswer(s.devices, s.codes, code, ok))
  {
    GoodIsUnique(env, s);
    CodeIndex(env, s, code);
    if code in s.codes {
      assert CodeOk(s, code);
      OnlyHolder(s.devices, s.codes[code], Pending);
      OnlyHolder(s.devices, s.codes[code], Active);
    }
  }

  lemma OnlyHolder(devices: map<string, Device>, id: string, status: Status)
    requires UniqueCodes(devices) && id in devices
    ensures HasCode(devices, devices[id].code, status) <==> devices[id].status == status
  {
  }

  lemma OneAnswer(devices: map<string, Device>, code: string, ok: bool, a: Answer, b: Answer)
    requires UniqueCodes(devices) && Authenticates(devices, code, ok, a) && Authenticates(devices, code, ok, b)
    ensures a == b
  {
    if CodeUsed(devices, code) {
      var id :| id in devices && devices[id].code == code;
      OnlyHolder(devices, id, Pending);
      OnlyHolder(devices, id, Active);
    }
  }

  // ----- tokens

  function TokenClaims(id: string, code: string, exp: int): Jwt.Claims {
    map["sub" := V.String(id), "device_code" := V.String(code), "exp" := V.Int(exp),
        "iss" := V.String("computeid-server")]
  }

  /** In every run: a token that was given out verifies under its secret with these claims, its time of expiry
      included as long as that is a float64, and they name a device that has the claimed code and is active to
      this day. */
  lemma TokenNamesDevice(env: Env, states: seq<State>, labels: seq<Label>, k: nat, id: string, code: string,
                         f: V.Floats, mac: Jwt.Mac, secret: string, exp: int)
    requires IsRun(env, states, labels) && states[0] == INITIAL && k < |states|
    requires Token(id, code) in states[k].answers && V.Sound(f)
    ensures var token := Jwt.SignJwt(f, mac, secret,
                                     map["sub" := V.String(id), "device_code" := V.String(code), "exp" := V.Int(exp),
                                         "iss" := V.String("computeid-server")]);
            Jwt.VerifyJwt(f, mac, secret, token)
            == Jwt.Accepted(map["sub" := V.String(id), "device_code" := V.String(code),
                                "exp" := V.Float(exp as real), "iss" := V.String("computeid-server")])
            <==> V.IsFloat64(f, exp)
    ensures id in states[k].devices && states[k].devices[id].code == code && states[k].devices[id].status == Active
  {
    ExactClaims(id, code, exp);
    TokenReturns(f, mac, secret, id, code, exp);
    TokenIsAlive(env, states, labels, k, id, code);
  }

  lemma ExactClaims(id: string, code: string, exp: int)
    ensures Jwt.Exactly(TokenClaims(id, code, exp))
            == map["sub" := V.String(id), "device_code" := V.String(code), "exp" := V.Float(exp as real),
                   "iss" := V.String("computeid-server")]
  {
    var m := TokenClaims(id, code, exp);
    assert m["sub"] == V.String(id) && m["device_code"] == V.String(code) && m["exp"] == V.Int(exp);
    assert m["iss"] == V.String("computeid-server");
    var x := map["sub" := V.String(id), "device_code" := V.String(code), "exp" := V.Float(exp as real),
                 "iss" := V.String("computeid-server")];
    assert x["sub"] == V.String(id) && x["device_code"] == V.String(code) && x["exp"] == V.Float(exp as real);
    assert x["iss"] == V.String("computeid-server");
    forall k | k in m ensures V.Amounts(m[k]) == x[k] {
      assert k in {"sub", "device_code", "exp", "iss"};
    }
    V.SameEntries(Jwt.Exactly(m), x);
  }

  lemma TokenIsAlive(env: Env, states: seq<State>, labels: seq<Label>, k: nat, id: string, code: string)
    requires IsRun(env, states, labels) && states[0] == INITIAL && k < |states| && Token(id, code) in states[k].answers
    ensures id in states[k].devices && states[k].devices[id].code == code && states[k].devices[id].status == Active
  {
    AnswersHold(env, states, labels, k);
    assert AnswerOk(states[k], Token(id, code));
  }

  lemma TokenReturns(f: V.Floats, mac: Jwt.Mac, secret: string, id: string, code: string, exp: int)
    requires V.Sound(f)
    ensures Jwt.Returns(f, mac, secret, TokenClaims(id, code, exp)) <==> V.IsFloat64(f, exp)
  {
    TokenNumbers(f, id, code, exp);
    Jwt.ClaimsReturnIff(f, mac, secret, TokenClaims(id, code, exp));
  }

  lemma TokenNumbers(f: V.Floats, id: string, code: string, exp: int)
    ensures V.Float64s(f, V.Dict(TokenClaims(id, code, exp)))
    ensures (forall k | k in TokenClaims(id, code, exp) :: V.Fixed(f, TokenClaims(id, code, exp)[k]))
            <==> V.IsFloat64(f, exp)
  {
    assert TokenClaims(id, code, exp)["exp"] == V.Int(exp);
  }
}
