/** The server's device tables under concurrent requests (server/handlers_devices.go). Registration is one
    transaction of two statements; approval and authentication are single statements. Statements of any number
    of requests interleave, wait for each other's row locks and unique-index entries, fail, or lose their
    commit; a transaction that ends without committing leaves no trace. */
module Devices {
  import opened Text
  import opened Statements
  import opened DeviceCode

  datatype Status = Pending | Active

  datatype Device = Device(
    code: string, name: string, deviceType: string, ip: string, status: Status, issuedAt: int,
    approvedAt: Option<int>)

  /** Before the counter statement, between the two statements, and before the commit. */
  datatype Pc = Begun | Counted(n: nat) | Inserted(n: nat, id: string, issuedAt: int)

  datatype Tx = Tx(name: string, deviceType: string, ip: string, pc: Pc)

  datatype Answer =
    | Registered(id: string, code: string)
    | BadRequest
    | ServerError
    | Approved(id: string)
    | NotPending
    | Token(id: string, code: string)
    | NotFound
    | Forbidden

  /** counters and devices are the committed tables and codes the UNIQUE index on device_code. locks holds the
      counter rows, and pendingCodes and pendingIds the index entries, that an open transaction has written.
      ledger and answers are history: the devices of each type in the order they were committed, and what
      the clients were told. */
  datatype State = State(
    counters: map<string, nat>, devices: map<string, Device>, codes: map<string, string>,
    locks: map<string, nat>, pendingCodes: map<string, nat>, pendingIds: map<string, nat>, open: map<nat, Tx>,
    ledger: map<string, seq<string>>, answers: seq<Answer>)

  datatype Label =
    | Begin(tid: nat, name: string, deviceType: string, ip: string, ok: bool)
    | Count(tid: nat, ok: bool)
    | Insert(tid: nat, id: string, issuedAt: int, ok: bool)
    | Commit(tid: nat, fault: Fault)
    | Abandon(tid: nat)
    | Approve(id: string, now: int, fault: Fault)
    | Authenticate(code: string, ok: bool)

  /** strings.ToUpper, and "is blank after trimming". */
  datatype Env = Env(upper: Upper, blank: string -> bool)

  const INITIAL := State(map[], map[], map[], map[], map[], map[], map[], map[], [])

  function LastN(counters: map<string, nat>, t: string): nat {
    if t in counters then counters[t] else 0
  }

  function Issued(s: State, t: string): seq<string> {
    if t in s.ledger then s.ledger[t] else []
  }

  function CodeOf(env: Env, tx: Tx): string
    requires !tx.pc.Begun?
  {
    Code(env.upper, tx.deviceType, tx.pc.n)
  }

  // ----- steps

  /** The transaction ends: its locks and index entries go, and nothing it wrote is visible unless committed. */
  function Ended(env: Env, s: State, tid: nat): State
    requires tid in s.open
  {
    var tx := s.open[tid];
    s.(open := s.open - {tid},
       locks := if tx.pc.Begun? then s.locks else s.locks - {tx.deviceType},
       pendingCodes := if tx.pc.Inserted? then s.pendingCodes - {CodeOf(env, tx)} else s.pendingCodes,
       pendingIds := if tx.pc.Inserted? then s.pendingIds - {tx.pc.id} else s.pendingIds)
  }

  function Answering(s: State, a: Answer): State {
    s.(answers := s.answers + [a])
  }

  function NewDevice(env: Env, tx: Tx): Device
    requires tx.pc.Inserted?
  {
    Device(CodeOf(env, tx), tx.name, tx.deviceType, tx.ip, Pending, tx.pc.issuedAt, None)
  }

  function Committed(env: Env, s: State, tid: nat): State
    requires tid in s.open && s.open[tid].pc.Inserted?
  {
    var tx := s.open[tid];
    Ended(env, s, tid).(
      counters := s.counters[tx.deviceType := tx.pc.n],
      devices := s.devices[tx.pc.id := NewDevice(env, tx)],
      codes := s.codes[CodeOf(env, tx) := tx.pc.id],
      ledger := s.ledger[tx.deviceType := Issued(s, tx.deviceType) + [tx.pc.id]])
  }

  function Counting(env: Env, s: State, tid: nat): State
    requires tid in s.open
  {
    var tx := s.open[tid];
    s.(open := s.open[tid := tx.(pc := Counted(LastN(s.counters, tx.deviceType) + 1))],
       locks := s.locks[tx.deviceType := tid])
  }

  function Inserting(env: Env, s: State, tid: nat, id: string, issuedAt: int): State
    requires tid in s.open && s.open[tid].pc.Counted?
  {
    var tx := s.open[tid];
    s.(open := s.open[tid := tx.(pc := Inserted(tx.pc.n, id, issuedAt))],
       pendingCodes := s.pendingCodes[CodeOf(env, tx) := tid], pendingIds := s.pendingIds[id := tid])
  }

  function ApprovedDevice(d: Device, now: int): Device {
    d.(status := Active, approvedAt := Some(now))
  }

  /** UPDATE ... WHERE device_id = $1 AND status = 'pending'. */
  function Approving(s: State, id: string, now: int, fault: Fault): State {
    var hit := id in s.devices && s.devices[id].status == Pending;
    var answer := if fault != NoFault then ServerError else if hit then Approved(id) else NotPending;
    s.(devices := if hit && fault != Lost then s.devices[id := ApprovedDevice(s.devices[id], now)] else s.devices,
       answers := s.answers + [answer])
  }

  function AuthAnswer(devices: map<string, Device>, codes: map<string, string>, code: string, ok: bool): Answer {
    if code == "" then BadRequest
    else if !ok then ServerError
    else if code !in codes || codes[code] !in devices then NotFound
    else if devices[codes[code]].status != Active then Forbidden
    else Token(codes[code], code)
  }

  /** None is a step that cannot happen now: of no open transaction, or of one that must wait. */
  function Next(env: Env, s: State, l: Label): Option<State> {
    match l
    case Begin(tid, name, deviceType, ip, ok) =>
      if tid in s.open then None
      else if env.blank(name) || env.blank(deviceType) then Some(Answering(s, BadRequest))
      else if !ok then Some(Answering(s, ServerError))
      else Some(s.(open := s.open[tid := Tx(name, deviceType, ip, Begun)]))
    case Count(tid, ok) =>
      if tid !in s.open || !s.open[tid].pc.Begun? then None
      else if !ok then Some(Answering(Ended(env, s, tid), ServerError))
      else if s.open[tid].deviceType in s.locks then None
      else Some(Counting(env, s, tid))
    case Insert(tid, id, issuedAt, ok) =>
      if tid !in s.open || !s.open[tid].pc.Counted? then None
      else if !ok then Some(Answering(Ended(env, s, tid), ServerError))
      else if CodeOf(env, s.open[tid]) in s.pendingCodes || id in s.pendingIds then None
      else if CodeOf(env, s.open[tid]) in s.codes || id in s.devices then
        Some(Answering(Ended(env, s, tid), ServerError))
      else Some(Inserting(env, s, tid, id, issuedAt))
    case Commit(tid, fault) =>
      if tid !in s.open || !s.open[tid].pc.Inserted? then None
      else
        var t := if fault == Lost then Ended(env, s, tid) else Committed(env, s, tid);
        Some(Answering(t, if fault != NoFault then ServerError
                          else Registered(s.open[tid].pc.id, CodeOf(env, s.open[tid]))))
    case Abandon(tid) => if tid in s.open then Some(Ended(env, s, tid)) else None
    case Approve(id, now, fault) => Some(Approving(s, id, now, fault))
    case Authenticate(code, ok) => Some(Answering(s, AuthAnswer(s.devices, s.codes, code, ok)))
  }

  ghost predicate Stepped(env: Env, states: seq<State>, labels: seq<Label>, i: nat)
    requires i < |labels| && |states| == |labels| + 1
  {
    Next(env, states[i], labels[i]) == Some(states[i + 1])
  }

  ghost predicate IsRun(env: Env, states: seq<State>, labels: seq<Label>) {
    |states| == |labels| + 1 && forall i | 0 <= i < |labels| :: Stepped(env, states, labels, i)
  }

  // ----- the invariant

  predicate DeviceOk(s: State, id: string)
    requires id in s.devices
  {
    var d := s.devices[id];
    d.code in s.codes && s.codes[d.code] == id && id in Issued(s, d.deviceType)
  }

  predicate CodeOk(s: State, c: string)
    requires c in s.codes
  {
    s.codes[c] in s.devices && s.devices[s.codes[c]].code == c
  }

  /** The i-th device committed for a type carries number i + 1, and the counter is their count. */
  ghost predicate LedgerOk(env: Env, s: State, t: string) {
    && LastN(s.counters, t) == |Issued(s, t)|
    && (t in s.counters ==> s.counters[t] >= 1)
    && forall i | 0 <= i < |Issued(s, t)| :: EntryOk(env, s, t, i)
  }

  predicate EntryOk(env: Env, s: State, t: string, i: nat)
    requires i < |Issued(s, t)|
  {
    var id := Issued(s, t)[i];
    id in s.devices && s.devices[id].deviceType == t && s.devices[id].code == Code(env.upper, t, i + 1)
  }

  predicate TxOk(env: Env, s: State, tid: nat)
    requires tid in s.open
  {
    var tx := s.open[tid];
    && (!tx.pc.Begun? ==>
          tx.deviceType in s.locks && s.locks[tx.deviceType] == tid && tx.pc.n == |Issued(s, tx.deviceType)| + 1)
    && (tx.pc.Inserted? ==>
          && CodeOf(env, tx) in s.pendingCodes && s.pendingCodes[CodeOf(env, tx)] == tid
          && tx.pc.id in s.pendingIds && s.pendingIds[tx.pc.id] == tid
          && CodeOf(env, tx) !in s.codes && tx.pc.id !in s.devices)
  }

  predicate LockOk(s: State, t: string)
    requires t in s.locks
  {
    s.locks[t] in s.open && s.open[s.locks[t]].deviceType == t && !s.open[s.locks[t]].pc.Begun?
  }

  predicate PendingCodeOk(env: Env, s: State, c: string)
    requires c in s.pendingCodes
  {
    var tid := s.pendingCodes[c];
    tid in s.open && s.open[tid].pc.Inserted? && CodeOf(env, s.open[tid]) == c
  }

  predicate PendingIdOk(s: State, id: string)
    requires id in s.pendingIds
  {
    var tid := s.pendingIds[id];
    tid in s.open && s.open[tid].pc.Inserted? && s.open[tid].pc.id == id
  }

  ghost predicate TablesOk(env: Env, s: State) {
    && (forall id | id in s.devices :: DeviceOk(s, id))
    && (forall c | c in s.codes :: CodeOk(s, c))
    && (forall t :: LedgerOk(env, s, t))
  }

  ghost predicate OpenOk(env: Env, s: State) {
    && (forall tid | tid in s.open :: TxOk(env, s, tid))
    && (forall t | t in s.locks :: LockOk(s, t))
    && (forall c | c in s.pendingCodes :: PendingCodeOk(env, s, c))
    && (forall id | id in s.pendingIds :: PendingIdOk(s, id))
  }

  ghost predicate Good(env: Env, s: State) {
    TablesOk(env, s) && OpenOk(env, s)
  }

  lemma EndedTx(env: Env, s: State, tid: nat, u: nat)
    requires tid in s.open && u in s.open && u != tid && TxOk(env, s, tid) && TxOk(env, s, u)
    ensures TxOk(env, Ended(env, s, tid), u)
  {
  }

  lemma EndedLock(env: Env, s: State, tid: nat, x: string)
    requires tid in s.open && TxOk(env, s, tid) && x in s.locks && LockOk(s, x)
    ensures x in Ended(env, s, tid).locks ==> LockOk(Ended(env, s, tid), x)
  {
  }

  lemma EndedPending(env: Env, s: State, tid: nat)
    requires tid in s.open && (forall c | c in s.pendingCodes :: PendingCodeOk(env, s, c))
    requires forall id | id in s.pendingIds :: PendingIdOk(s, id)
    ensures var t := Ended(env, s, tid);
            (forall c | c in t.pendingCodes :: PendingCodeOk(env, t, c))
            && forall id | id in t.pendingIds :: PendingIdOk(t, id)
  {
    var t := Ended(env, s, tid);
    forall c | c in t.pendingCodes ensures PendingCodeOk(env, t, c) {
      assert PendingCodeOk(env, s, c);
    }
    forall id | id in t.pendingIds ensures PendingIdOk(t, id) {
      assert PendingIdOk(s, id);
    }
  }

  lemma EndedOpen(env: Env, s: State, tid: nat)
    requires OpenOk(env, s) && tid in s.open
    ensures OpenOk(env, Ended(env, s, tid))
  {
    var t := Ended(env, s, tid);
    forall u | u in t.open ensures TxOk(env, t, u) {
      EndedTx(env, s, tid, u);
    }
    forall x | x in t.locks ensures LockOk(t, x) {
      EndedLock(env, s, tid, x);
    }
    EndedPending(env, s, tid);
  }

  lemma CountingTx(env: Env, s: State, tid: nat, u: nat)
    requires tid in s.open && s.open[tid].pc.Begun? && s.open[tid].deviceType !in s.locks
    requires LedgerOk(env, s, s.open[tid].deviceType) && u in s.open && TxOk(env, s, u)
    ensures TxOk(env, Counting(env, s, tid), u)
  {
  }

  lemma CountingPending(env: Env, s: State, tid: nat)
    requires tid in s.open && s.open[tid].pc.Begun? && (forall c | c in s.pendingCodes :: PendingCodeOk(env, s, c))
    requires forall id | id in s.pendingIds :: PendingIdOk(s, id)
    ensures var t := Counting(env, s, tid);
            (forall c | c in t.pendingCodes :: PendingCodeOk(env, t, c))
            && forall id | id in t.pendingIds :: PendingIdOk(t, id)
  {
    var t := Counting(env, s, tid);
    forall c | c in t.pendingCodes ensures PendingCodeOk(env, t, c) {
      assert PendingCodeOk(env, s, c);
    }
    forall id | id in t.pendingIds ensures PendingIdOk(t, id) {
      assert PendingIdOk(s, id);
    }
  }

  lemma CountingOpen(env: Env, s: State, tid: nat)
    requires Good(env, s) && tid in s.open && s.open[tid].pc.Begun? && s.open[tid].deviceType !in s.locks
    ensures OpenOk(env, Counting(env, s, tid))
  {
    var t := Counting(env, s, tid);
    assert LedgerOk(env, s, s.open[tid].deviceType);
    forall u | u in t.open ensures TxOk(env, t, u) {
      CountingTx(env, s, tid, u);
    }
    forall x | x in t.locks ensures LockOk(t, x) {
      if x in s.locks { assert LockOk(s, x); }
    }
    CountingPending(env, s, tid);
  }

  /** A device may be inserted for a counted transaction. */
  predicate Insertable(env: Env, s: State, tid: nat, id: string) {
    && tid in s.open && s.open[tid].pc.Counted?
    && CodeOf(env, s.open[tid]) !in s.pendingCodes && id !in s.pendingIds
    && CodeOf(env, s.open[tid]) !in s.codes && id !in s.devices
  }

  lemma InsertingTx(env: Env, s: State, tid: nat, id: string, issuedAt: int, u: nat)
    requires Insertable(env, s, tid, id) && u in s.open && TxOk(env, s, u)
    ensures TxOk(env, Inserting(env, s, tid, id, issuedAt), u)
  {
  }

  lemma InsertingPending(env: Env, s: State, tid: nat, id: string, issuedAt: int, c: string)
    requires Insertable(env, s, tid, id) && (c in s.pendingCodes ==> PendingCodeOk(env, s, c))
    ensures var t := Inserting(env, s, tid, id, issuedAt); c in t.pendingCodes ==> PendingCodeOk(env, t, c)
  {
  }

  lemma InsertingOpen(env: Env, s: State, tid: nat, id: string, issuedAt: int)
    requires OpenOk(env, s) && Insertable(env, s, tid, id)
    ensures OpenOk(env, Inserting(env, s, tid, id, issuedAt))
  {
    var t := Inserting(env, s, tid, id, issuedAt);
    forall u | u in t.open ensures TxOk(env, t, u) {
      InsertingTx(env, s, tid, id, issuedAt, u);
    }
    forall x | x in t.locks ensures LockOk(t, x) {
      assert LockOk(s, x);
    }
    forall c | c in t.pendingCodes ensures PendingCodeOk(env, t, c) {
      InsertingPending(env, s, tid, id, issuedAt, c);
    }
    forall i | i in t.pendingIds ensures PendingIdOk(t, i) {
      if i in s.pendingIds { assert PendingIdOk(s, i); }
    }
  }

  lemma CommittedOpen(env: Env, s: State, tid: nat)
    requires OpenOk(env, s) && tid in s.open && s.open[tid].pc.Inserted?
    ensures OpenOk(env, Committed(env, s, tid))
  {
    var e, t := Ended(env, s, tid), Committed(env, s, tid);
    EndedOpen(env, s, tid);
    assert TxOk(env, s, tid);
    forall u | u in t.open ensures TxOk(env, t, u) {
      assert TxOk(env, e, u) && TxOk(env, s, u);
    }
    forall x | x in t.locks ensures LockOk(t, x) {
      assert LockOk(e, x);
    }
    forall c | c in t.pendingCodes ensures PendingCodeOk(env, t, c) {
      assert PendingCodeOk(env, e, c);
    }
    forall id | id in t.pendingIds ensures PendingIdOk(t, id) {
      assert PendingIdOk(e, id);
    }
  }

  lemma CommittedLedger(env: Env, s: State, tid: nat, x: string)
    requires LedgerOk(env, s, x) && tid in s.open && s.open[tid].pc.Inserted? && TxOk(env, s, tid)
    ensures LedgerOk(env, Committed(env, s, tid), x)
  {
    var t := Committed(env, s, tid);
    forall i | 0 <= i < |Issued(t, x)| ensures EntryOk(env, t, x, i) {
      if i < |Issued(s, x)| {
        assert EntryOk(env, s, x, i);
      }
    }
  }

  lemma CommittedDevice(env: Env, s: State, tid: nat, id: string)
    requires tid in s.open && s.open[tid].pc.Inserted? && TxOk(env, s, tid)
    requires id in s.devices ==> DeviceOk(s, id)
    ensures id in Committed(env, s, tid).devices ==> DeviceOk(Committed(env, s, tid), id)
  {
  }

  lemma CommittedTables(env: Env, s: State, tid: nat)
    requires Good(env, s) && tid in s.open && s.open[tid].pc.Inserted?
    ensures TablesOk(env, Committed(env, s, tid))
  {
    var t := Committed(env, s, tid);
    assert TxOk(env, s, tid);
    forall id | id in t.devices ensures DeviceOk(t, id) {
      CommittedDevice(env, s, tid, id);
    }
    forall c | c in t.codes ensures CodeOk(t, c) {
      if c in s.codes { assert CodeOk(s, c); }
    }
    forall x ensures LedgerOk(env, t, x) {
      CommittedLedger(env, s, tid, x);
    }
  }

  /** A step that leaves keys, codes and types of the devices alone. */
  lemma SameTables(env: Env, s: State, t: State)
    requires TablesOk(env, s) && t.counters == s.counters && t.codes == s.codes && t.ledger == s.ledger
    requires t.devices.Keys == s.devices.Keys
    requires forall id | id in s.devices ::
               t.devices[id].code == s.devices[id].code && t.devices[id].deviceType == s.devices[id].deviceType
    ensures TablesOk(env, t)
  {
    forall id | id in t.devices ensures DeviceOk(t, id) {
      assert DeviceOk(s, id);
    }
    forall c | c in t.codes ensures CodeOk(t, c) {
      assert CodeOk(s, c);
    }
    forall x ensures LedgerOk(env, t, x) {
      assert LedgerOk(env, s, x);
      forall i | 0 <= i < |Issued(t, x)| ensures EntryOk(env, t, x, i) {
        assert EntryOk(env, s, x, i);
      }
    }
  }

  lemma SameOpen(env: Env, s: State, t: State)
    requires OpenOk(env, s) && t.ledger == s.ledger && t.codes == s.codes && t.devices.Keys == s.devices.Keys
    requires t.open == s.open && t.locks == s.locks && t.pendingCodes == s.pendingCodes && t.pendingIds == s.pendingIds
    ensures OpenOk(env, t)
  {
    forall u | u in t.open ensures TxOk(env, t, u) {
      assert TxOk(env, s, u);
    }
    forall x | x in t.locks ensures LockOk(t, x) {
      assert LockOk(s, x);
    }
    forall c | c in t.pendingCodes ensures PendingCodeOk(env, t, c) {
      assert PendingCodeOk(env, s, c);
    }
    forall id | id in t.pendingIds ensures PendingIdOk(t, id) {
      assert PendingIdOk(s, id);
    }
  }

  lemma BeginTx(env: Env, s: State, tid: nat, tx: Tx, u: nat)
    requires tid !in s.open && tx.pc.Begun? && (u in s.open ==> TxOk(env, s, u))
    ensures var t := s.(open := s.open[tid := tx]); u in t.open ==> TxOk(env, t, u)
  {
  }

  lemma BeginPending(env: Env, s: State, tid: nat, tx: Tx)
    requires tid !in s.open && (forall c | c in s.pendingCodes :: PendingCodeOk(env, s, c))
    requires forall id | id in s.pendingIds :: PendingIdOk(s, id)
    ensures var t := s.(open := s.open[tid := tx]);
            (forall c | c in t.pendingCodes :: PendingCodeOk(env, t, c))
            && forall id | id in t.pendingIds :: PendingIdOk(t, id)
  {
    var t := s.(open := s.open[tid := tx]);
    forall c | c in t.pendingCodes ensures PendingCodeOk(env, t, c) {
      assert PendingCodeOk(env, s, c);
    }
    forall id | id in t.pendingIds ensures PendingIdOk(t, id) {
      assert PendingIdOk(s, id);
    }
  }

  lemma BeginOpen(env: Env, s: State, tid: nat, tx: Tx)
    requires OpenOk(env, s) && tid !in s.open && tx.pc.Begun?
    ensures OpenOk(env, s.(open := s.open[tid := tx]))
  {
    var t := s.(open := s.open[tid := tx]);
    forall u | u in t.open ensures TxOk(env, t, u) {
      BeginTx(env, s, tid, tx, u);
    }
    forall x | x in t.locks ensures LockOk(t, x) {
      assert LockOk(s, x);
    }
    BeginPending(env, s, tid, tx);
  }

  lemma AnsweringGood(env: Env, s: State, a: Answer)
    requires Good(env, s)
    ensures Good(env, Answering(s, a))
  {
    SameTables(env, s, Answering(s, a));
    SameOpen(env, s, Answering(s, a));
  }

  lemma EndedGood(env: Env, s: State, tid: nat)
    requires Good(env, s) && tid in s.open
    ensures Good(env, Ended(env, s, tid))
  {
    EndedOpen(env, s, tid);
    SameTables(env, s, Ended(env, s, tid));
  }

  /** The transaction ends and its client is told that it failed. */
  lemma FailedGood(env: Env, s: State, tid: nat)
    requires Good(env, s) && tid in s.open
    ensures Good(env, Answering(Ended(env, s, tid), ServerError))
  {
    EndedGood(env, s, tid);
    AnsweringGood(env, Ended(env, s, tid), ServerError);
  }

  lemma BeginGood(env: Env, s: State, tid: nat, tx: Tx)
    requires Good(env, s) && tid !in s.open && tx.pc.Begun?
    ensures Good(env, s.(open := s.open[tid := tx]))
  {
    BeginOpen(env, s, tid, tx);
    SameTables(env, s, s.(open := s.open[tid := tx]));
  }

  lemma CountGood(env: Env, s: State, tid: nat, ok: bool, t: State)
    requires Good(env, s) && Next(env, s, Count(tid, ok)) == Some(t)
    ensures Good(env, t)
  {
    if ok {
      CountingOpen(env, s, tid);
      SameTables(env, s, Counting(env, s, tid));
    } else {
      FailedGood(env, s, tid);
    }
  }

  lemma InsertGood(env: Env, s: State, tid: nat, id: string, issuedAt: int, ok: bool, t: State)
    requires Good(env, s) && Next(env, s, Insert(tid, id, issuedAt, ok)) == Some(t)
    ensures Good(env, t)
  {
    if !ok || CodeOf(env, s.open[tid]) in s.codes || id in s.devices {
      FailedGood(env, s, tid);
    } else {
      InsertingOpen(env, s, tid, id, issuedAt);
      SameTables(env, s, Inserting(env, s, tid, id, issuedAt));
    }
  }

  lemma CommitGood(env: Env, s: State, tid: nat, fault: Fault, t: State)
    requires Good(env, s) && Next(env, s, Commit(tid, fault)) == Some(t)
    ensures Good(env, t)
  {
    if fault == Lost {
      FailedGood(env, s, tid);
    } else {
      CommittedGood(env, s, tid, if fault != NoFault then ServerError
                                 else Registered(s.open[tid].pc.id, CodeOf(env, s.open[tid])));
    }
  }

  lemma CommittedGood(env: Env, s: State, tid: nat, a: Answer)
    requires Good(env, s) && tid in s.open && s.open[tid].pc.Inserted?
    ensures Good(env, Answering(Committed(env, s, tid), a))
  {
    CommittedOpen(env, s, tid);
    CommittedTables(env, s, tid);
    AnsweringGood(env, Committed(env, s, tid), a);
  }

  /** A step that changes at most what approval may change. */
  ghost predicate Alike(s: State, t: State) {
    && t.counters == s.counters && t.codes == s.codes && t.ledger == s.ledger && t.open == s.open
    && t.locks == s.locks && t.pendingCodes == s.pendingCodes && t.pendingIds == s.pendingIds
    && t.devices.Keys == s.devices.Keys
    && forall id | id in s.devices ::
         t.devices[id].code == s.devices[id].code && t.devices[id].deviceType == s.devices[id].deviceType
  }

  lemma ApproveAlike(s: State, id: string, now: int, fault: Fault, t: State)
    requires t == Approving(s, id, now, fault)
    ensures Alike(s, t)
  {
    if id in s.devices && s.devices[id].status == Pending && fault != Lost {
      assert t.devices == s.devices[id := ApprovedDevice(s.devices[id], now)];
    } else {
      assert t.devices == s.devices;
    }
  }

  lemma AlikeGood(env: Env, s: State, t: State)
    requires Good(env, s) && Alike(s, t)
    ensures Good(env, t)
  {
    SameOpen(env, s, t);
    SameTables(env, s, t);
  }

  lemma ApproveGood(env: Env, s: State, id: string, now: int, fault: Fault, t: State)
    requires Good(env, s) && t == Approving(s, id, now, fault)
    ensures Good(env, t)
  {
    ApproveAlike(s, id, now, fault, t);
    AlikeGood(env, s, t);
  }

  lemma StepGood(env: Env, s: State, l: Label, t: State)
    requires Good(env, s) && Next(env, s, l) == Some(t)
    ensures Good(env, t)
  {
    match l
    case Begin(tid, name, deviceType, ip, ok) =>
      BeginGood(env, s, tid, Tx(name, deviceType, ip, Begun));
      AnsweringGood(env, s, BadRequest);
      AnsweringGood(env, s, ServerError);
    case Count(tid, ok) => CountGood(env, s, tid, ok, t);
    case Insert(tid, id, issuedAt, ok) => InsertGood(env, s, tid, id, issuedAt, ok, t);
    case Commit(tid, fault) => CommitGood(env, s, tid, fault, t);
    case Abandon(tid) => EndedGood(env, s, tid);
    case Approve(id, now, fault) => ApproveGood(env, s, id, now, fault, t);
    case Authenticate(code, ok) => AnsweringGood(env, s, AuthAnswer(s.devices, s.codes, code, ok));
  }

  lemma {:induction false} AlwaysGood(env: Env, states: seq<State>, labels: seq<Label>, k: nat)
    requires IsRun(env, states, labels) && states[0] == INITIAL && k < |states|
    ensures Good(env, states[k])
  {
    if k > 0 {
      AlwaysGood(env, states, labels, k - 1);
      GoodNext(env, states, labels, k - 1);
    }
  }

  lemma GoodNext(env: Env, states: seq<State>, labels: seq<Label>, j: nat)
    requires IsRun(env, states, labels) && j < |labels| && Good(env, states[j])
    ensures Good(env, states[j + 1])
  {
    assert Stepped(env, states, labels, j);
    StepGood(env, states[j], labels[j], states[j + 1]);
  }
}
