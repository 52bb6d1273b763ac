/** What the audit logs, exports and reports of concurrent local passports always satisfy. */
module LocalAudit {
  import opened Text
  import opened Passports
  import opened LocalRuns

  // ----- each call's own entries

  /** The entries of the journal that belong to one passport, in order. */
  function EntriesOf(journal: seq<Written>, id: string): (e: seq<AuditEntry>) {
    if journal == [] then []
    else
      var last := journal[|journal| - 1];
      EntriesOf(journal[..|journal| - 1], id) + if last.id == id then [last.entry] else []
  }

  datatype Trace = Trace(id: string, action: string, outcome: Outcome)

  /** What one call has written so far. */
  function WrittenBy(journal: seq<Written>, tid: nat): (e: seq<Trace>) {
    if journal == [] then []
    else
      var last := journal[|journal| - 1];
      WrittenBy(journal[..|journal| - 1], tid)
      + if last.tid == tid then [Trace(last.id, last.entry.action, last.entry.outcome)] else []
  }

  /** What a call that has got this far must have written: one entry at most, and only when it is over. */
  function Owed(pc: Pc): seq<Trace> {
    if !pc.Done? then []
    else
      match pc.result
      case RBlocked(id, action) => [Trace(id, action, Blocked)]
      case RRevoked(id) => [Trace(id, "passport_revoked", Success)]
      case RLogged(id, action, outcome) => [Trace(id, action, if outcome == Unset then Success else outcome)]
      case RReturned(id, capability, erred) => [Trace(id, capability + "_call", if erred then Failure else Success)]
      case RIssued(id) => [Trace(id, "passport_issued", Success)]
      case _ => []
  }

  lemma JournalAppend(journal: seq<Written>, w: Written, id: string, tid: nat)
    ensures EntriesOf(journal + [w], id) == EntriesOf(journal, id) + if w.id == id then [w.entry] else []
    ensures WrittenBy(journal + [w], tid)
            == WrittenBy(journal, tid) + if w.tid == tid then [Trace(w.id, w.entry.action, w.entry.outcome)] else []
  {
    assert (journal + [w])[..|journal|] == journal;
  }

  lemma SectionOwes(pc: Pc, id: string, p: Passport, now: int, uuid: string, erred: bool)
    requires !pc.Done? && !pc.BuildPc?
    ensures var e := Section(pc, id, p, now, uuid, erred);
            Owed(e.pc) == (if e.entry.Some? then [Trace(id, e.entry.value.action, e.entry.value.outcome)] else [])
            && (e.entry.Some? ==> e.id == Some(id))
  {
  }

  /** One call's move: its next pc and the entries it appended, at most one. */
  ghost predicate Moves(s: State, t: State, tid: nat, pc: Pc, w: seq<Written>) {
    && tid in s.threads && Owed(s.threads[tid]) == []
    && t.threads == s.threads[tid := pc]
    && t.journal == s.journal + w
    && (w == [] || (|w| == 1 && w[0].tid == tid && w[0].id in s.passports))
    && Owed(pc) == (if w == [] then [] else [Trace(w[0].id, w[0].entry.action, w[0].entry.outcome)])
    && (forall id | id in t.passports ::
          t.passports[id].log == if id !in s.passports then []
                                 else if w != [] && w[0].id == id then s.passports[id].log + [w[0].entry]
                                 else s.passports[id].log)
    && s.passports.Keys <= t.passports.Keys
  }

  lemma SectionMoves(s: State, tid: nat, id: string, now: int, uuid: string, erred: bool, t: State)
    returns (pc: Pc, w: seq<Written>)
    requires tid in s.threads && !s.threads[tid].Done? && !s.threads[tid].BuildPc? && id in s.passports
    requires t == Advanced(s, tid, Section(s.threads[tid], id, s.passports[id], now, uuid, erred), now)
    ensures Moves(s, t, tid, pc, w)
  {
    var e := Section(s.threads[tid], id, s.passports[id], now, uuid, erred);
    SectionOwes(s.threads[tid], id, s.passports[id], now, uuid, erred);
    SectionGrows(s.threads[tid], id, s.passports[id], now, uuid, erred);
    pc := e.pc;
    w := if e.entry.Some? then [Written(tid, id, e.entry.value)] else [];
    assert t.journal == s.journal + w;
  }

  lemma StepMoves(s: State, l: Label, t: State) returns (pc: Pc, w: seq<Written>)
    requires Next(s, l) == Some(t) && l.Advance?
    ensures Moves(s, t, l.tid, pc, w)
  {
    var at := s.threads[l.tid];
    if Outside(at) {
      pc, w := t.threads[l.tid], [];
      assert t.journal == s.journal + w;
    } else {
      pc, w := SectionMoves(s, l.tid, Target(at).value, l.now, l.uuid, l.erred, t);
    }
  }

  lemma StepJournal(s: State, l: Label, t: State, tid: nat)
    requires Next(s, l) == Some(t)
    requires WrittenBy(s.journal, tid) == if tid in s.threads then Owed(s.threads[tid]) else []
    ensures WrittenBy(t.journal, tid) == if tid in t.threads then Owed(t.threads[tid]) else []
  {
    if l.Advance? {
      var pc, w := StepMoves(s, l, t);
      MovesOwe(s, t, l.tid, pc, w, tid);
    }
  }

  lemma MovesOwe(s: State, t: State, mover: nat, pc: Pc, w: seq<Written>, tid: nat)
    requires Moves(s, t, mover, pc, w)
    requires WrittenBy(s.journal, tid) == if tid in s.threads then Owed(s.threads[tid]) else []
    ensures WrittenBy(t.journal, tid) == if tid in t.threads then Owed(t.threads[tid]) else []
  {
    MovesJournal(s, t, mover, pc, w, tid, "");
  }

  lemma MovesJournal(s: State, t: State, mover: nat, pc: Pc, w: seq<Written>, tid: nat, id: string)
    requires Moves(s, t, mover, pc, w)
    ensures WrittenBy(t.journal, tid) == WrittenBy(s.journal, tid) + if tid == mover then Owed(pc) else []
    ensures EntriesOf(t.journal, id)
            == EntriesOf(s.journal, id) + if w != [] && w[0].id == id then [w[0].entry] else []
  {
    if w == [] {
      assert t.journal == s.journal;
    } else {
      assert w == [w[0]];
      JournalAppend(s.journal, w[0], id, tid);
    }
  }

  /** Every finished call has written exactly the entry its result stands for and every other call nothing:
      in particular each guarded function that returned has one _call entry, a failure iff it erred. */
  lemma {:induction false} CallsWriteWhatTheyOwe(states: seq<State>, labels: seq<Label>, k: nat, tid: nat)
    requires IsRun(states, labels) && k < |states| && states[0].journal == [] && tid !in states[0].threads
    ensures WrittenBy(states[k].journal, tid)
            == if tid in states[k].threads then Owed(states[k].threads[tid]) else []
  {
    if k > 0 {
      CallsWriteWhatTheyOwe(states, labels, k - 1, tid);
      assert Stepped(states, labels, k - 1);
      StepJournal(states[k - 1], labels[k - 1], states[k], tid);
    }
  }

  function Base(s: State, id: string): seq<AuditEntry> {
    if id in s.passports then s.passports[id].log else []
  }

  ghost predicate LogIs(s: State, start: State, id: string) {
    if id in s.passports then s.passports[id].log == Base(start, id) + EntriesOf(s.journal, id)
    else id !in start.passports && EntriesOf(s.journal, id) == []
  }

  lemma StepLog(s: State, l: Label, t: State, start: State, id: string)
    requires Next(s, l) == Some(t) && LogIs(s, start, id)
    ensures LogIs(t, start, id)
  {
    if l.Advance? {
      var pc, w := StepMoves(s, l, t);
      MovesLog(s, t, l.tid, pc, w, start, id);
    }
  }

  lemma MovesLog(s: State, t: State, mover: nat, pc: Pc, w: seq<Written>, start: State, id: string)
    requires Moves(s, t, mover, pc, w) && LogIs(s, start, id)
    ensures LogIs(t, start, id)
  {
    MovesJournal(s, t, mover, pc, w, mover, id);
    if w != [] && w[0].id == id {
      Assoc(Base(start, id), EntriesOf(s.journal, id), [w[0].entry]);
    }
  }

  /** Nothing else reaches a log: it is the entries of these calls, in the order they took the lock. */
  lemma {:induction false} LogIsJournal(states: seq<State>, labels: seq<Label>, k: nat, id: string)
    requires IsRun(states, labels) && k < |states| && states[0].journal == []
    ensures LogIs(states[k], states[0], id)
  {
    if k > 0 {
      LogIsJournal(states, labels, k - 1, id);
      assert Stepped(states, labels, k - 1);
      StepLog(states[k - 1], labels[k - 1], states[k], states[0], id);
    }
  }

  // ----- torn snapshots

  predicate PrefixOf(log: seq<AuditEntry>, id: string, ps: map<string, Passport>) {
    id in ps && log <= ps[id].log
  }

  predicate LineOk(line: AuditLine, id: string, ps: map<string, Passport>) {
    line.summary.actionsLogged <= |line.log| && PrefixOf(line.log, id, ps) && line.summary.agentId == ps[id].agentId
  }

  predicate LinesOk(lines: seq<AuditLine>, order: seq<string>, ps: map<string, Passport>) {
    |lines| <= |order| && forall i | 0 <= i < |lines| :: LineOk(lines[i], order[i], ps)
  }

  /** The facts a snapshot in progress carries from one critical section to the next. */
  predicate SnapshotOk(pc: Pc, ps: map<string, Passport>) {
    match pc
    case ExportSummaryPc(id, log) => PrefixOf(log, id, ps)
    case ExportRestPc(id, log, summary) =>
      PrefixOf(log, id, ps) && |log| <= summary.actionsLogged <= |ps[id].log|
    case ReportPc(order, active, lines, torn) => LinesOk(lines, order, ps) && active == CountActive(lines) + torn
    case LineSummaryPc(order, active, lines, torn, trusted) =>
      LinesOk(lines, order, ps) && |lines| < |order|
      && active == CountActive(lines) + torn + (if trusted then 1 else 0)
      && order[|lines|] in ps && (!trusted ==> ps[order[|lines|]].status != Active)
    case LineLogPc(order, active, lines, torn, summary) =>
      LinesOk(lines, order, ps) && |lines| < |order|
      && active == CountActive(lines) + torn + (if summary.status == Active then 1 else 0)
      && order[|lines|] in ps && summary.agentId == ps[order[|lines|]].agentId
      && summary.actionsLogged <= |ps[order[|lines|]].log|
    case Done(result) =>
      (match result
       case RLog(id, log) => PrefixOf(log, id, ps)
       case RExport(id, doc) =>
         PrefixOf(doc.log, id, ps) && |doc.log| <= doc.summary.actionsLogged <= |ps[id].log|
       case RReport(order, active, lines, torn) =>
         LinesOk(lines, order, ps) && |lines| == |order| && active == CountActive(lines) + torn
       case _ => true)
    case _ => true
  }

  lemma CountAppend(lines: seq<AuditLine>, line: AuditLine)
    ensures CountActive(lines + [line]) == CountActive(lines) + if line.summary.status == Active then 1 else 0
  {
    assert (lines + [line])[..|lines|] == lines;
  }

  lemma SnapshotGrows(pc: Pc, s: State, t: State)
    requires AllGrow(s, t) && SnapshotOk(pc, s.passports)
    ensures SnapshotOk(pc, t.passports)
  {
  }

  lemma LinesAppend(pc: Pc, log: seq<AuditEntry>, ps: map<string, Passport>)
    requires pc.LineLogPc? && SnapshotOk(pc, ps) && log == ps[pc.order[|pc.lines|]].log
    ensures LinesOk(pc.lines + [AuditLine(pc.summary, log)], pc.order, ps)
  {
    var lines := pc.lines + [AuditLine(pc.summary, log)];
    forall i | 0 <= i < |lines| ensures LineOk(lines[i], pc.order[i], ps) {
      if i < |pc.lines| {
        assert lines[i] == pc.lines[i];
      }
    }
  }

  /** A pc enters the critical section of its target. */
  ghost predicate Enters(pc: Pc, id: string, s: State, t: State, now: int, uuid: string, erred: bool) {
    && Target(pc) == Some(id) && id in s.passports && SnapshotOk(pc, s.passports) && AllGrow(s, t)
    && var e := Section(pc, id, s.passports[id], now, uuid, erred);
       t.passports == if e.passport.Some? then s.passports[id := e.passport.value] else s.passports
  }

  lemma LineLogSnapshot(pc: Pc, id: string, s: State, t: State, now: int, uuid: string, erred: bool)
    requires Enters(pc, id, s, t, now, uuid, erred) && pc.LineLogPc?
    ensures SnapshotOk(Section(pc, id, s.passports[id], now, uuid, erred).pc, t.passports)
  {
    CountAppend(pc.lines, AuditLine(pc.summary, s.passports[id].log));
    LinesAppend(pc, s.passports[id].log, s.passports);
  }

  lemma LineSnapshot(pc: Pc, id: string, s: State, t: State, now: int, uuid: string, erred: bool)
    requires Enters(pc, id, s, t, now, uuid, erred) && pc.LineSummaryPc?
    ensures SnapshotOk(Section(pc, id, s.passports[id], now, uuid, erred).pc, t.passports)
  {
    SnapshotGrows(pc, s, t);
  }

  lemma CheckSnapshot(pc: Pc, id: string, s: State, t: State, now: int, uuid: string, erred: bool)
    requires Enters(pc, id, s, t, now, uuid, erred) && pc.ReportPc?
    ensures SnapshotOk(Section(pc, id, s.passports[id], now, uuid, erred).pc, t.passports)
  {
    SnapshotGrows(pc, s, t);
  }

  lemma ExportSnapshot(pc: Pc, id: string, s: State, t: State, now: int, uuid: string, erred: bool)
    requires Enters(pc, id, s, t, now, uuid, erred) && (pc.ExportSummaryPc? || pc.ExportRestPc?)
    ensures SnapshotOk(Section(pc, id, s.passports[id], now, uuid, erred).pc, t.passports)
  {
    assert Grows(s.passports[id], t.passports[id]);
  }

  lemma CopySnapshot(pc: Pc, id: string, s: State, t: State, now: int, uuid: string, erred: bool)
    requires Enters(pc, id, s, t, now, uuid, erred) && (pc.AuditLogPc? || pc.ExportPc?)
    ensures SnapshotOk(Section(pc, id, s.passports[id], now, uuid, erred).pc, t.passports)
  {
    assert Grows(s.passports[id], t.passports[id]);
  }

  predicate Lines(pc: Pc) {
    pc.ReportPc? || pc.LineSummaryPc? || pc.LineLogPc?
  }

  predicate Copies(pc: Pc) {
    pc.AuditLogPc? || pc.ExportPc? || pc.ExportSummaryPc? || pc.ExportRestPc?
  }

  /** The other calls carry no snapshot. */
  lemma PlainSnapshot(pc: Pc, id: string, p: Passport, ps: map<string, Passport>, now: int, uuid: string, erred: bool)
    requires Target(pc) == Some(id) && !Lines(pc) && !Copies(pc)
    ensures SnapshotOk(Section(pc, id, p, now, uuid, erred).pc, ps)
  {
  }

  lemma SectionSnapshot(pc: Pc, id: string, s: State, t: State, now: int, uuid: string, erred: bool)
    requires Enters(pc, id, s, t, now, uuid, erred)
    ensures SnapshotOk(Section(pc, id, s.passports[id], now, uuid, erred).pc, t.passports)
  {
    if pc.LineLogPc? {
      LineLogSnapshot(pc, id, s, t, now, uuid, erred);
    } else if pc.ReportPc? {
      CheckSnapshot(pc, id, s, t, now, uuid, erred);
    } else if Lines(pc) {
      LineSnapshot(pc, id, s, t, now, uuid, erred);
    } else if pc.AuditLogPc? || pc.ExportPc? {
      CopySnapshot(pc, id, s, t, now, uuid, erred);
    } else if Copies(pc) {
      ExportSnapshot(pc, id, s, t, now, uuid, erred);
    } else {
      PlainSnapshot(pc, id, s.passports[id], t.passports, now, uuid, erred);
    }
  }

  lemma StepSnapshot(s: State, l: Label, t: State, tid: nat)
    requires Next(s, l) == Some(t) && tid in t.threads
    requires tid in s.threads ==> SnapshotOk(s.threads[tid], s.passports)
    ensures SnapshotOk(t.threads[tid], t.passports)
  {
    StepGrows(s, l, t);
    if l.tid != tid {
      StepKeepsOthers(s, l, t, tid);
      SnapshotGrows(s.threads[tid], s, t);
    } else if l.Begin? {
      StartSnapshot(l.call, t.passports);
    } else {
      OwnSnapshot(s, l, t);
    }
  }

  lemma StartSnapshot(c: Call, ps: map<string, Passport>)
    ensures SnapshotOk(Start(c), ps)
  {
  }

  lemma OwnSnapshot(s: State, l: Label, t: State)
    requires Next(s, l) == Some(t) && l.Advance? && AllGrow(s, t) && SnapshotOk(s.threads[l.tid], s.passports)
    ensures SnapshotOk(t.threads[l.tid], t.passports)
  {
    var at := s.threads[l.tid];
    if !Outside(at) {
      SectionSnapshotStep(s, l.tid, Target(at).value, l.now, l.uuid, l.erred, t);
    }
  }

  lemma SectionSnapshotStep(s: State, tid: nat, id: string, now: int, uuid: string, erred: bool, t: State)
    requires tid in s.threads && Target(s.threads[tid]) == Some(id) && id in s.passports
    requires SnapshotOk(s.threads[tid], s.passports) && AllGrow(s, t)
    requires t == Advanced(s, tid, Section(s.threads[tid], id, s.passports[id], now, uuid, erred), now)
    ensures SnapshotOk(t.threads[tid], t.passports)
  {
    SectionGrows(s.threads[tid], id, s.passports[id], now, uuid, erred);
    SectionSnapshot(s.threads[tid], id, s, t, now, uuid, erred);
  }

  /** Every export and report, however torn, is made of ordered prefixes: an export counts at least the
      entries it lists, a report line at most, each listed log is a prefix of the passport's log from then
      on, and a report's active count is its active lines plus the passports that lost their trust between
      its two looks at them. */
  lemma {:induction false} SnapshotsAreOrdered(states: seq<State>, labels: seq<Label>, k: nat, tid: nat)
    requires IsRun(states, labels) && k < |states| && tid !in states[0].threads && tid in states[k].threads
    ensures SnapshotOk(states[k].threads[tid], states[k].passports)
  {
    assert Stepped(states, labels, k - 1);
    if tid in states[k - 1].threads {
      SnapshotsAreOrdered(states, labels, k - 1, tid);
    }
    StepSnapshot(states[k - 1], labels[k - 1], states[k], tid);
  }

  /** Export read in SnapshotsAreOrdered's terms. */
  lemma ExportIsOrdered(states: seq<State>, labels: seq<Label>, k: nat, tid: nat, id: string, doc: Exported)
    requires IsRun(states, labels) && k < |states| && tid !in states[0].threads
    requires tid in states[k].threads && states[k].threads[tid] == Done(RExport(id, doc))
    ensures doc.summary.actionsLogged >= |doc.log|
    ensures forall j | k <= j < |states| :: id in states[j].passports && doc.log <= states[j].passports[id].log
  {
    SnapshotsAreOrdered(states, labels, k, tid);
    forall j | k <= j < |states|
      ensures id in states[j].passports && doc.log <= states[j].passports[id].log
    {
      RunGrows(states, labels, k, j);
    }
  }

  /** So is a report: one line for every passport of its walk, each with that passport's own id, counting at
      most the entries it lists, and they are a prefix of every later log. */
  lemma ReportIsOrdered(states: seq<State>, labels: seq<Label>, k: nat, tid: nat)
    requires IsRun(states, labels) && k < |states| && tid !in states[0].threads && tid in states[k].threads
    requires states[k].threads[tid].Done? && states[k].threads[tid].result.RReport?
    ensures var r := states[k].threads[tid].result;
            |r.lines| == |r.order|
            && forall i, j | 0 <= i < |r.lines| && k <= j < |states| ::
                 LineOk(r.lines[i], r.order[i], states[j].passports)
  {
    SnapshotsAreOrdered(states, labels, k, tid);
    var r := states[k].threads[tid].result;
    forall i, j | 0 <= i < |r.lines| && k <= j < |states| ensures LineOk(r.lines[i], r.order[i], states[j].passports) {
      assert LineOk(r.lines[i], r.order[i], states[k].passports);
      RunGrows(states, labels, k, j);
      LineStays(r.lines[i], r.order[i], states[k], states[j]);
    }
  }

  lemma LineStays(line: AuditLine, id: string, s: State, t: State)
    requires LineOk(line, id, s.passports) && AllGrow(s, t)
    ensures LineOk(line, id, t.passports)
  {
    assert Grows(s.passports[id], t.passports[id]);
  }

  /** A report never claims fewer active agents than it lists, and claims as many exactly when no passport
      lost its trust between its check and its summary. */
  lemma ReportCount(states: seq<State>, labels: seq<Label>, k: nat, tid: nat)
    requires IsRun(states, labels) && k < |states| && tid !in states[0].threads && tid in states[k].threads
    requires states[k].threads[tid].Done? && states[k].threads[tid].result.RReport?
    ensures var r := states[k].threads[tid].result;
            r.active >= CountActive(r.lines) && (r.active == CountActive(r.lines) <==> r.torn == 0)
            && forall i | 0 <= i < |r.lines| :: r.lines[i].summary.actionsLogged <= |r.lines[i].log|
  {
    SnapshotsAreOrdered(states, labels, k, tid);
    var r := states[k].threads[tid].result;
    assert forall i | 0 <= i < |r.lines| :: LineOk(r.lines[i], r.order[i], states[k].passports);
  }
}
