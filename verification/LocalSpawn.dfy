/** The parent-child trust chain (agent.go): who may spawn whom, over every run that starts with no passport. */
module LocalSpawn {
  import opened Text
  import opened Passports
  import opened LocalRuns

  /** Readings of the clock never go back. */
  ghost predicate ClockForward(states: seq<State>, labels: seq<Label>)
    requires |states| == |labels| + 1
  {
    forall i | 0 <= i < |labels| && labels[i].Advance? :: states[i].clock <= labels[i].now
  }

  ghost predicate Empty(s: State) {
    s.passports == map[] && s.threads == map[] && s.journal == [] && s.born == []
  }

  /** The passport at position i has no parent, or one born before it and issued no later. */
  ghost predicate Rooted(s: State, i: nat)
    requires i < |s.born| && forall j | 0 <= j <= i :: s.born[j] in s.passports
  {
    var p := s.passports[s.born[i]];
    p.parentId == "" ||
    exists j | 0 <= j < i :: s.born[j] == p.parentId && s.passports[s.born[j]].issuedAt <= p.issuedAt
  }

  ghost predicate Forest(s: State) {
    && (forall id :: id in s.passports <==> id in s.born)
    && (forall i, j | 0 <= i < j < |s.born| :: s.born[i] != s.born[j])
    && (forall id | id in s.passports ::
          id != "" && s.passports[id].agentId == id && s.passports[id].issuedAt <= s.clock)
    && (forall i | 0 <= i < |s.born| :: Rooted(s, i))
  }

  /** A call that names a parent names an existing passport. */
  ghost predicate ParentsExist(s: State) {
    forall tid | tid in s.threads ::
      (s.threads[tid].IssuePc? && s.threads[tid].parent.Some? ==> s.threads[tid].parent.value in s.passports)
      && (s.threads[tid].BuildPc? && s.threads[tid].parent.Some? ==> s.threads[tid].parent.value in s.passports)
  }

  lemma SectionParents(pc: Pc, id: string, p: Passport, now: int, uuid: string, erred: bool)
    ensures var e := Section(pc, id, p, now, uuid, erred).pc;
            (e.IssuePc? ==> e == pc) && (e.BuildPc? ==> e == pc || (pc.IssuePc? && e.parent == pc.parent))
  {
  }

  lemma StepParents(s: State, l: Label, t: State)
    requires Next(s, l) == Some(t) && ParentsExist(s)
    ensures ParentsExist(t)
  {
    StepGrows(s, l, t);
    forall tid | tid in t.threads
      ensures (t.threads[tid].IssuePc? && t.threads[tid].parent.Some? ==> t.threads[tid].parent.value in t.passports)
              && (t.threads[tid].BuildPc? && t.threads[tid].parent.Some? ==> t.threads[tid].parent.value in t.passports)
    {
      if l.tid != tid {
        StepKeepsOthers(s, l, t, tid);
      } else if l.Advance? && Target(s.threads[tid]).Some? && Target(s.threads[tid]).value in s.passports {
        var id := Target(s.threads[tid]).value;
        SectionParents(s.threads[tid], id, s.passports[id], l.now, l.uuid, l.erred);
      }
    }
  }

  /** A step adds no passport, or the one an issuing call builds. */
  lemma StepBirth(s: State, l: Label, t: State)
    requires Next(s, l) == Some(t)
    ensures (t.born == s.born && t.passports.Keys == s.passports.Keys)
            || (l.Advance? && l.tid in s.threads && s.threads[l.tid].BuildPc? && l.uuid != "" && l.uuid !in s.passports
                && t.born == s.born + [l.uuid]
                && t.passports
                   == s.passports[l.uuid := Built(s.threads[l.tid].options, s.threads[l.tid].parent, l.uuid, l.now)])
    ensures l.Advance? ==> t.clock == l.now
    ensures l.Begin? ==> t.clock == s.clock
  {
    if l.Advance? && Target(s.threads[l.tid]).Some? && Target(s.threads[l.tid]).value in s.passports {
      var id := Target(s.threads[l.tid]).value;
      SectionGrows(s.threads[l.tid], id, s.passports[id], l.now, l.uuid, l.erred);
    }
  }

  lemma ForestKept(s: State, t: State)
    requires Forest(s) && AllGrow(s, t) && t.born == s.born
    requires t.passports.Keys == s.passports.Keys && s.clock <= t.clock
    ensures Forest(t)
  {
    forall i | 0 <= i < |t.born| ensures Rooted(t, i) {
      assert Rooted(s, i);
      assert s.born[i] in s.passports;
      var p := s.passports[s.born[i]];
      if p.parentId != "" {
        var j :| 0 <= j < i && s.born[j] == p.parentId && s.passports[s.born[j]].issuedAt <= p.issuedAt;
        assert s.born[j] in s.passports;
        assert t.born[j] == p.parentId && t.passports[t.born[j]].issuedAt <= p.issuedAt;
      }
    }
  }

  /** A passport is added at the end, issued now, under an existing parent or none. */
  ghost predicate Adds(s: State, t: State, uuid: string, p: Passport) {
    && uuid !in s.passports && uuid != "" && s.clock <= t.clock
    && t.born == s.born + [uuid] && t.passports == s.passports[uuid := p]
    && p.agentId == uuid && p.issuedAt == t.clock && (p.parentId == "" || p.parentId in s.passports)
  }

  lemma OldRooted(s: State, t: State, uuid: string, p: Passport, i: nat)
    requires Forest(s) && Adds(s, t, uuid, p) && i < |s.born|
    ensures (forall j | 0 <= j <= i :: t.born[j] in t.passports) && Rooted(t, i)
  {
    assert Rooted(s, i);
    assert forall j | 0 <= j <= i :: t.born[j] == s.born[j] && s.born[j] in s.passports;
    var q := s.passports[s.born[i]];
    if q.parentId != "" {
      var j :| 0 <= j < i && s.born[j] == q.parentId && s.passports[s.born[j]].issuedAt <= q.issuedAt;
      assert t.born[j] == s.born[j];
    }
  }

  lemma NewRooted(s: State, t: State, uuid: string, p: Passport)
    requires Forest(s) && Adds(s, t, uuid, p)
    ensures (forall j | 0 <= j < |t.born| :: t.born[j] in t.passports) && Rooted(t, |s.born|)
  {
    assert forall j | 0 <= j < |s.born| :: t.born[j] == s.born[j] && s.born[j] in s.passports;
    if p.parentId != "" {
      var j :| 0 <= j < |s.born| && s.born[j] == p.parentId;
      assert t.born[j] == p.parentId && t.passports[t.born[j]].issuedAt <= p.issuedAt;
    }
  }

  lemma AllBorn(s: State, t: State, uuid: string, p: Passport)
    requires Forest(s) && Adds(s, t, uuid, p)
    ensures forall id :: id in t.passports <==> id in t.born
  {
    forall id ensures id in t.passports <==> id in t.born {
      assert id in t.born <==> id in s.born || id == uuid;
    }
  }

  lemma ForestGrown(s: State, t: State, uuid: string, p: Passport)
    requires Forest(s) && Adds(s, t, uuid, p)
    ensures Forest(t)
  {
    AllBorn(s, t, uuid, p);
    NewRooted(s, t, uuid, p);
    forall i | 0 <= i < |t.born| ensures Rooted(t, i) {
      if i < |s.born| {
        OldRooted(s, t, uuid, p, i);
      }
    }
    BornDistinct(s, t, uuid, p);
  }

  lemma BornDistinct(s: State, t: State, uuid: string, p: Passport)
    requires Forest(s) && Adds(s, t, uuid, p)
    ensures forall i, j | 0 <= i < j < |t.born| :: t.born[i] != t.born[j]
  {
    assert forall i | 0 <= i < |s.born| :: t.born[i] == s.born[i] && s.born[i] in s.born;
  }

  lemma StepForest(s: State, l: Label, t: State)
    requires Next(s, l) == Some(t) && Forest(s) && ParentsExist(s) && (l.Advance? ==> s.clock <= l.now)
    ensures Forest(t)
  {
    StepGrows(s, l, t);
    StepBirth(s, l, t);
    if t.born == s.born && t.passports.Keys == s.passports.Keys {
      ForestKept(s, t);
    } else {
      ForestGrown(s, t, l.uuid, Built(s.threads[l.tid].options, s.threads[l.tid].parent, l.uuid, l.now));
    }
  }

  /** In every run with fresh ids and a forward clock the parent links form a forest ordered by issue time. */
  lemma {:induction false} AlwaysForest(states: seq<State>, labels: seq<Label>, k: nat)
    requires IsRun(states, labels) && Empty(states[0]) && ClockForward(states, labels) && k < |states|
    ensures Forest(states[k]) && ParentsExist(states[k])
  {
    if k > 0 {
      AlwaysForest(states, labels, k - 1);
      assert Stepped(states, labels, k - 1);
      StepForest(states[k - 1], labels[k - 1], states[k]);
      StepParents(states[k - 1], labels[k - 1], states[k]);
    }
  }

  ghost function Position(s: State, id: string): (i: nat)
    requires Forest(s) && id in s.passports
    ensures i < |s.born| && s.born[i] == id
  {
    var i :| 0 <= i < |s.born| && s.born[i] == id; i
  }

  /** A chain follows parent links upwards. */
  ghost predicate Chain(s: State, path: seq<string>) {
    && (forall i | 0 <= i < |path| :: path[i] in s.passports)
    && (forall i | 0 <= i < |path| - 1 :: s.passports[path[i]].parentId == path[i + 1])
  }

  lemma {:induction false} ChainDescends(s: State, path: seq<string>, i: nat, j: nat)
    requires Forest(s) && Chain(s, path) && i < j < |path|
    ensures Position(s, path[j]) < Position(s, path[i])
    ensures s.passports[path[j]].issuedAt <= s.passports[path[i]].issuedAt
    decreases j - i
  {
    var a := Position(s, path[j - 1]);
    assert Rooted(s, a);
    assert path[j] != "" && s.passports[path[j - 1]].parentId == path[j];
    var b :| 0 <= b < a && s.born[b] == path[j] && s.passports[s.born[b]].issuedAt <= s.passports[s.born[a]].issuedAt;
    assert b == Position(s, path[j]);
    if i < j - 1 {
      ChainDescends(s, path, i, j - 1);
    }
  }

  /** Chains of ancestors are well founded: no passport is its own ancestor, and issue times never rise. */
  lemma NoCycles(s: State, path: seq<string>, i: nat, j: nat)
    requires Forest(s) && Chain(s, path) && i < j < |path|
    ensures path[i] != path[j] && s.passports[path[j]].issuedAt <= s.passports[path[i]].issuedAt
  {
    ChainDescends(s, path, i, j);
  }

  // ----- the parent's trust

  /** At step i, call tid was issuing under this parent and found it able to spawn and trusted. */
  ghost predicate Vouched(states: seq<State>, labels: seq<Label>, i: nat, tid: nat, parent: string)
    requires |states| == |labels| + 1
  {
    && i < |labels| && labels[i].Advance? && labels[i].tid == tid
    && tid in states[i].threads && states[i].threads[tid].IssuePc? && states[i].threads[tid].parent == Some(parent)
    && parent in states[i].passports && states[i].passports[parent].capabilities.spawnAgents
    && TrustedAt(states[i].passports[parent], labels[i].now)
  }

  lemma {:induction false} BuilderVouched(states: seq<State>, labels: seq<Label>, k: nat, tid: nat, parent: string)
    requires IsRun(states, labels) && k < |states| && states[0].threads == map[]
    requires tid in states[k].threads && states[k].threads[tid].BuildPc?
    requires states[k].threads[tid].parent == Some(parent)
    ensures exists i | 0 <= i < k :: Vouched(states, labels, i, tid, parent)
  {
    var s, l := states[k - 1], labels[k - 1];
    assert Stepped(states, labels, k - 1);
    if l.tid != tid {
      StepKeepsOthers(s, l, states[k], tid);
      BuilderVouched(states, labels, k - 1, tid, parent);
    } else {
      assert l.Advance?;
      assert s.threads[tid].IssuePc? && s.threads[tid].parent == Some(parent);
      assert Vouched(states, labels, k - 1, tid, parent);
    }
  }

  /** At step j, call tid built this passport. */
  ghost predicate BuiltAt(states: seq<State>, labels: seq<Label>, j: nat, tid: nat, id: string)
    requires |states| == |labels| + 1
  {
    j < |labels| && labels[j].Advance? && labels[j].tid == tid && tid in states[j].threads
    && states[j].threads[tid].BuildPc? && id !in states[j].passports && id in states[j + 1].passports
  }

  lemma BuiltUnder(s: State, l: Label, t: State, id: string)
    requires Next(s, l) == Some(t) && id in t.passports && id !in s.passports && t.passports[id].parentId != ""
    ensures l.Advance? && l.tid in s.threads && s.threads[l.tid].BuildPc?
    ensures s.threads[l.tid].parent == Some(t.passports[id].parentId)
  {
    StepBirth(s, l, t);
  }

  /** Every link was vouched for: inside the call that built the child, an earlier instant at which the parent
      could spawn and passed the trust check. */
  lemma {:induction false} LinksAreVouched(states: seq<State>, labels: seq<Label>, k: nat, id: string)
    requires IsRun(states, labels) && k < |states| && Empty(states[0])
    requires id in states[k].passports && states[k].passports[id].parentId != ""
    ensures exists i, j, tid | 0 <= i < j < k ::
              BuiltAt(states, labels, j, tid, id) && Vouched(states, labels, i, tid, states[k].passports[id].parentId)
  {
    assert Stepped(states, labels, k - 1);
    if id in states[k - 1].passports {
      StepGrows(states[k - 1], labels[k - 1], states[k]);
      assert Grows(states[k - 1].passports[id], states[k].passports[id]);
      LinksAreVouched(states, labels, k - 1, id);
    } else {
      LinkAt(states, labels, k - 1, id, states[k].passports[id].parentId);
    }
  }

  lemma LinkAt(states: seq<State>, labels: seq<Label>, j: nat, id: string, parent: string)
    requires IsRun(states, labels) && j < |labels| && Empty(states[0])
    requires id !in states[j].passports && id in states[j + 1].passports
    requires parent == states[j + 1].passports[id].parentId && parent != ""
    ensures exists i, tid | 0 <= i < j :: BuiltAt(states, labels, j, tid, id) && Vouched(states, labels, i, tid, parent)
  {
    var tid := labels[j].tid;
    assert Stepped(states, labels, j);
    BuiltUnder(states[j], labels[j], states[j + 1], id);
    BuilderVouched(states, labels, j, tid, parent);
    var i :| 0 <= i < j && Vouched(states, labels, i, tid, parent);
    assert BuiltAt(states, labels, j, tid, id);
  }
}
