/** The migration runner under concurrency and crashes (server/migrate.go). Any number of runners send their
    statements in any interleaving; each statement may fail, a commit may be lost or go unconfirmed, a runner
    may crash anywhere, and an open transaction leaves no trace unless it commits. */
module Migrations {
  import opened Text
  import opened Statements
  import opened Lexical

  const SUFFIX := ".up.sql"

  /** What a migration body does to a schema, by its file name; None is an SQL error. */
  type Bodies<!S> = (S, string) -> Option<S>

  predicate IsUp(name: string) {
    |name| >= |SUFFIX| && name[|name| - |SUFFIX|..] == SUFFIX
  }

  /** strings.TrimSuffix. */
  function Version(name: string): string {
    if IsUp(name) then name[..|name| - |SUFFIX|] else name
  }

  /** The up migrations of a directory, in the order they are applied. */
  ghost function Ups(names: set<string>): seq<string> {
    Sorted(set n | n in names && IsUp(n))
  }

  function VersionsOf(names: seq<string>): set<string> {
    set n | n in names :: Version(n)
  }

  function Fold<S>(bodies: Bodies<S>, start: S, names: seq<string>): Option<S> {
    if names == [] then Some(start)
    else
      match Fold(bodies, start, names[..|names| - 1])
      case None => None
      case Some(s) => bodies(s, names[|names| - 1])
  }

  /** The up migrations are the names with that ending, and a version is the name without it. */
  lemma IsUpIff(name: string)
    ensures IsUp(name) <==> exists v: string :: name == v + ".up.sql"
    ensures IsUp(name) ==> name == Version(name) + ".up.sql"
    ensures !IsUp(name) ==> Version(name) == name
  {
    if IsUp(name) {
      assert name == name[..|name| - |SUFFIX|] + SUFFIX;
    }
    if v: string :| name == v + ".up.sql" {
      assert name[|name| - |SUFFIX|..] == ".up.sql";
    }
  }

  lemma VersionOf(v: string)
    ensures IsUp(v + ".up.sql") && Version(v + ".up.sql") == v
  {
    var name := v + ".up.sql";
    assert name[|v|..] == ".up.sql" && name[..|v|] == v;
  }

  /** Distinct up migrations have distinct versions. */
  lemma VersionInjective(a: string, b: string)
    requires IsUp(a) && IsUp(b) && Version(a) == Version(b)
    ensures a == b
  {
    assert a == Version(a) + SUFFIX && b == Version(b) + SUFFIX;
  }

  lemma UpAt(names: set<string>, i: nat)
    requires i < |Ups(names)|
    ensures IsUp(Ups(names)[i])
  {
    assert Ups(names)[i] in Ups(names);
  }

  lemma UpsDistinct(names: set<string>, i: nat, j: nat)
    requires i < |Ups(names)| && j < |Ups(names)| && Version(Ups(names)[i]) == Version(Ups(names)[j])
    ensures i == j
  {
    UpAt(names, i);
    UpAt(names, j);
    VersionInjective(Ups(names)[i], Ups(names)[j]);
    AscendingDistinct(Ups(names), i, j);
  }

  lemma VersionIndex(q: seq<string>, v: string) returns (j: nat)
    requires v in VersionsOf(q)
    ensures j < |q| && Version(q[j]) == v
  {
    var n :| n in q && Version(n) == v;
    j :| 0 <= j < |q| && q[j] == n;
  }

  lemma VersionApplied(names: set<string>, i: nat, k: nat)
    requires i < |Ups(names)| && k <= |Ups(names)|
    ensures Version(Ups(names)[i]) in VersionsOf(Ups(names)[..k]) <==> i < k
  {
    if Version(Ups(names)[i]) in VersionsOf(Ups(names)[..k]) {
      var j := VersionIndex(Ups(names)[..k], Version(Ups(names)[i]));
      UpsDistinct(names, i, j);
    }
    if i < k {
      assert Ups(names)[..k][i] == Ups(names)[i];
    }
  }

  lemma VersionsGrow(names: seq<string>, k: nat)
    requires k < |names|
    ensures VersionsOf(names[..k + 1]) == VersionsOf(names[..k]) + {Version(names[k])}
  {
    assert names[..k + 1] == names[..k] + [names[k]];
  }

  lemma FoldGrows<S>(bodies: Bodies<S>, start: S, names: seq<string>, k: nat)
    requires k < |names| && Fold(bodies, start, names[..k]).Some?
    ensures Fold(bodies, start, names[..k + 1]) == bodies(Fold(bodies, start, names[..k]).value, names[k])
  {
    assert names[..k + 1][..k] == names[..k];
  }

  // ----- runners

  /** Creating the version table; then, for the i-th file: looking for its version, running its body in a
      transaction, inserting its version, committing. base is the length of the log when the body ran. */
  datatype Pc<S> =
    | Creating
    | Checking(i: nat)
    | Applying(i: nat)
    | Inserting(i: nat, base: nat, result: S)
    | Committing(i: nat, result: S)
    | Returned(ok: bool)
    | Crashed

  /** The committed database, the PRIMARY KEY entries of open transactions, the runners, and the history of
      commits by file name. */
  datatype State<S> = State(
    ready: bool, versions: set<string>, schema: S, pending: map<string, nat>, runners: map<nat, Pc<S>>,
    log: seq<string>)

  datatype Label =
    | Start(r: nat)
    | Create(r: nat, fault: Fault)
    | Check(r: nat, ok: bool)
    | Apply(r: nat, ok: bool)
    | Insert(r: nat, ok: bool)
    | Commit(r: nat, fault: Fault)
    | Crash(r: nat)

  function Moved<S>(s: State<S>, r: nat, pc: Pc<S>): State<S> {
    s.(runners := s.runners[r := pc])
  }

  /** A runner's transaction ends without effect. */
  function Ended<S>(ups: seq<string>, s: State<S>, r: nat, pc: Pc<S>): State<S>
    requires r in s.runners
  {
    var was := s.runners[r];
    Moved(if was.Committing? && was.i < |ups| then s.(pending := s.pending - {Version(ups[was.i])}) else s, r, pc)
  }

  /** The check of the i-th file, or the return when there is none. */
  function At<S>(ups: seq<string>, i: nat): Pc<S> {
    if i < |ups| then Checking(i) else Returned(true)
  }

  function Next<S>(bodies: Bodies<S>, ups: seq<string>, s: State<S>, l: Label): Option<State<S>> {
    if l.Start? then if l.r in s.runners then None else Some(Moved(s, l.r, Creating))
    else if l.r !in s.runners then None
    else
      var pc := s.runners[l.r];
      match l
      case Create(r, fault) =>
        if !pc.Creating? then None
        else
          var next := if fault == NoFault then At(ups, 0) else Returned(false);
          Some(Moved(s.(ready := s.ready || fault != Lost), r, next))
      case Check(r, ok) =>
        if !pc.Checking? || pc.i >= |ups| then None
        else if !ok || !s.ready then Some(Moved(s, r, Returned(false)))
        else Some(Moved(s, r, if Version(ups[pc.i]) in s.versions then At(ups, pc.i + 1) else Applying(pc.i)))
      case Apply(r, ok) =>
        if !pc.Applying? || pc.i >= |ups| then None
        else if !ok || bodies(s.schema, ups[pc.i]).None? then Some(Moved(s, r, Returned(false)))
        else Some(Moved(s, r, Inserting(pc.i, |s.log|, bodies(s.schema, ups[pc.i]).value)))
      case Insert(r, ok) =>
        if !pc.Inserting? || pc.i >= |ups| then None
        else if !ok then Some(Moved(s, r, Returned(false)))
        else if Version(ups[pc.i]) in s.pending then None
        else if Version(ups[pc.i]) in s.versions then Some(Moved(s, r, Returned(false)))
        else Some(Moved(s.(pending := s.pending[Version(ups[pc.i]) := r]), r, Committing(pc.i, pc.result)))
      case Commit(r, fault) =>
        if !pc.Committing? || pc.i >= |ups| then None
        else
          var t := Ended(ups, s, r, if fault == NoFault then At(ups, pc.i + 1) else Returned(false));
          Some(if fault == Lost then t
               else t.(versions := s.versions + {Version(ups[pc.i])}, schema := pc.result, log := s.log + [ups[pc.i]]))
      case Crash(r) => if pc.Returned? || pc.Crashed? then None else Some(Ended(ups, s, r, Crashed))
      case Start(r) => None
  }

  ghost predicate Stepped<S>(bodies: Bodies<S>, ups: seq<string>, states: seq<State<S>>, labels: seq<Label>, i: nat)
    requires i < |labels| && |states| == |labels| + 1
  {
    Next(bodies, ups, states[i], labels[i]) == Some(states[i + 1])
  }

  ghost predicate IsRun<S>(bodies: Bodies<S>, ups: seq<string>, states: seq<State<S>>, labels: seq<Label>) {
    |states| == |labels| + 1 && forall i | 0 <= i < |labels| :: Stepped(bodies, ups, states, labels, i)
  }

  function Initial<S>(start: S): State<S> {
    State(false, {}, start, map[], map[], [])
  }

  // ----- the invariant

  /** The log is the first so many files, the versions are theirs and the schema is what they make of it. */
  ghost predicate IsPrefix<S>(bodies: Bodies<S>, ups: seq<string>, start: S, s: State<S>) {
    && s.log <= ups
    && s.versions == VersionsOf(s.log)
    && Fold(bodies, start, s.log) == Some(s.schema)
  }

  /** A runner is never ahead of the log. A body that ran when the log was where the runner is made the
      schema the next file calls for; one whose version went in is the next file. */
  ghost predicate RunnerOk<S>(bodies: Bodies<S>, names: set<string>, s: State<S>, r: nat)
    requires r in s.runners && s.log <= Ups(names)
  {
    match s.runners[r]
    case Creating => true
    case Checking(i) => s.ready && i <= |s.log| && i < |Ups(names)|
    case Applying(i) => s.ready && i <= |s.log| && i < |Ups(names)|
    case Inserting(i, base, result) =>
      s.ready && i <= base <= |s.log| && i < |Ups(names)|
      && (base == |s.log| ==> bodies(s.schema, Ups(names)[i]) == Some(result))
    case Committing(i, result) =>
      s.ready && i == |s.log| && i < |Ups(names)| && bodies(s.schema, Ups(names)[i]) == Some(result)
      && Version(Ups(names)[i]) in s.pending && s.pending[Version(Ups(names)[i])] == r
    case Returned(ok) => ok ==> |s.log| == |Ups(names)|
    case Crashed => true
  }

  ghost predicate Inv<S>(bodies: Bodies<S>, names: set<string>, start: S, s: State<S>) {
    && IsPrefix(bodies, Ups(names), start, s)
    && forall r | r in s.runners :: RunnerOk(bodies, names, s, r)
  }

  /** A runner that moves while the database stays. */
  lemma MovedInv<S>(bodies: Bodies<S>, names: set<string>, start: S, s: State<S>, t: State<S>, r: nat, pc: Pc<S>)
    requires Inv(bodies, names, start, s) && t.runners == s.runners[r := pc] && (s.ready ==> t.ready)
    requires t.versions == s.versions && t.schema == s.schema && t.log == s.log
    requires forall v | v in s.pending && s.pending[v] != r :: v in t.pending && t.pending[v] == s.pending[v]
    requires RunnerOk(bodies, names, t, r)
    ensures Inv(bodies, names, start, t)
  {
    forall x | x in t.runners ensures RunnerOk(bodies, names, t, x) {
      if x != r {
        assert RunnerOk(bodies, names, s, x);
      }
    }
  }

  lemma CommitPrefix<S>(bodies: Bodies<S>, ups: seq<string>, start: S, s: State<S>, r: nat, fault: Fault, t: State<S>)
    requires IsPrefix(bodies, ups, start, s) && r in s.runners && s.runners[r].Committing?
    requires s.runners[r].i == |s.log| < |ups| && bodies(s.schema, ups[|s.log|]) == Some(s.runners[r].result)
    requires Next(bodies, ups, s, Commit(r, fault)) == Some(t) && fault != Lost
    ensures IsPrefix(bodies, ups, start, t)
  {
    CommitGrows(bodies, ups, s, r, fault, t);
    NextPrefix(bodies, ups, start, s.log, s.schema, t.schema);
    assert t.log == ups[..|s.log| + 1];
  }

  lemma CommitGrows<S>(bodies: Bodies<S>, ups: seq<string>, s: State<S>, r: nat, fault: Fault, t: State<S>)
    requires r in s.runners && s.runners[r].Committing? && s.runners[r].i == |s.log| < |ups|
    requires Next(bodies, ups, s, Commit(r, fault)) == Some(t) && fault != Lost
    ensures t.log == s.log + [ups[|s.log|]] && t.versions == s.versions + {Version(ups[|s.log|])}
    ensures t.schema == s.runners[r].result
  {
  }

  lemma NextPrefix<S>(bodies: Bodies<S>, ups: seq<string>, start: S, log: seq<string>, schema: S, next: S)
    requires log <= ups && |log| < |ups| && Fold(bodies, start, log) == Some(schema)
    requires bodies(schema, ups[|log|]) == Some(next)
    ensures Fold(bodies, start, ups[..|log| + 1]) == Some(next)
    ensures VersionsOf(ups[..|log| + 1]) == VersionsOf(log) + {Version(ups[|log|])}
  {
    assert log == ups[..|log|];
    VersionsGrow(ups, |log|);
    FoldGrows(bodies, start, ups, |log|);
  }

  /** The others fall behind the log by one; none of them can have had the same version in. */
  lemma CommitRunner<S>(bodies: Bodies<S>, names: set<string>, s: State<S>, r: nat, fault: Fault, t: State<S>, x: nat)
    requires s.log <= Ups(names) && t.log <= Ups(names) && r in s.runners && x in s.runners
    requires RunnerOk(bodies, names, s, r) && RunnerOk(bodies, names, s, x)
    requires Next(bodies, Ups(names), s, Commit(r, fault)) == Some(t) && fault != Lost
    ensures x in t.runners && RunnerOk(bodies, names, t, x)
  {
    assert |t.log| == |s.log| + 1;
  }

  lemma CommitInv<S>(bodies: Bodies<S>, names: set<string>, start: S, s: State<S>, r: nat, fault: Fault, t: State<S>)
    requires Inv(bodies, names, start, s) && Next(bodies, Ups(names), s, Commit(r, fault)) == Some(t) && fault != Lost
    ensures Inv(bodies, names, start, t)
  {
    assert RunnerOk(bodies, names, s, r);
    CommitPrefix(bodies, Ups(names), start, s, r, fault, t);
    assert t.runners.Keys == s.runners.Keys;
    forall x | x in t.runners ensures RunnerOk(bodies, names, t, x) {
      assert RunnerOk(bodies, names, s, x);
      CommitRunner(bodies, names, s, r, fault, t, x);
    }
  }

  lemma CheckInv<S>(bodies: Bodies<S>, names: set<string>, start: S, s: State<S>, r: nat, ok: bool, t: State<S>)
    requires Inv(bodies, names, start, s) && Next(bodies, Ups(names), s, Check(r, ok)) == Some(t)
    ensures Inv(bodies, names, start, t)
  {
    var ups, i := Ups(names), s.runners[r].i;
    assert RunnerOk(bodies, names, s, r);
    assert s.log == ups[..|s.log|];
    VersionApplied(names, i, |s.log|);
    MovedInv(bodies, names, start, s, t, r, t.runners[r]);
  }

  lemma InsertInv<S>(bodies: Bodies<S>, names: set<string>, start: S, s: State<S>, r: nat, ok: bool, t: State<S>)
    requires Inv(bodies, names, start, s) && Next(bodies, Ups(names), s, Insert(r, ok)) == Some(t)
    ensures Inv(bodies, names, start, t)
  {
    var ups, i := Ups(names), s.runners[r].i;
    assert RunnerOk(bodies, names, s, r);
    assert s.log == ups[..|s.log|];
    VersionApplied(names, i, |s.log|);
    MovedInv(bodies, names, start, s, t, r, t.runners[r]);
  }

  lemma StepInv<S>(bodies: Bodies<S>, names: set<string>, start: S, s: State<S>, l: Label, t: State<S>)
    requires Inv(bodies, names, start, s) && Next(bodies, Ups(names), s, l) == Some(t)
    ensures Inv(bodies, names, start, t)
  {
    if l.r in s.runners {
      assert RunnerOk(bodies, names, s, l.r);
    }
    match l
    case Check(r, ok) => CheckInv(bodies, names, start, s, r, ok, t);
    case Insert(r, ok) => InsertInv(bodies, names, start, s, r, ok, t);
    case Commit(r, fault) =>
      if fault == Lost {
        MovedInv(bodies, names, start, s, t, r, t.runners[r]);
      } else {
        CommitInv(bodies, names, start, s, r, fault, t);
      }
    case _ => MovedInv(bodies, names, start, s, t, l.r, t.runners[l.r]);
  }

  // ----- what every run guarantees

  lemma {:induction false} AlwaysInv<S>(bodies: Bodies<S>, names: set<string>, start: S, states: seq<State<S>>,
                                        labels: seq<Label>, k: nat)
    requires IsRun(bodies, Ups(names), states, labels) && states[0] == Initial(start) && k < |states|
    ensures Inv(bodies, names, start, states[k])
  {
    if k > 0 {
      AlwaysInv(bodies, names, start, states, labels, k - 1);
      assert Stepped(bodies, Ups(names), states, labels, k - 1);
      StepInv(bodies, names, start, states[k - 1], labels[k - 1], states[k]);
    }
  }

  /** Each body commits at most once, the committed files are always the first so many in lexical order, their
      versions are the ones recorded, and the schema is the fold of their bodies over the one at the start. */
  lemma ExactlyOncePrefix<S>(bodies: Bodies<S>, names: set<string>, start: S, states: seq<State<S>>,
                             labels: seq<Label>, k: nat)
    requires IsRun(bodies, Ups(names), states, labels) && states[0] == Initial(start) && k < |states|
    ensures states[k].log <= Ups(names) && states[k].versions == VersionsOf(states[k].log)
    ensures Fold(bodies, start, states[k].log) == Some(states[k].schema)
    ensures forall i, j | 0 <= i < |states[k].log| && 0 <= j < |states[k].log|
                          && states[k].log[i] == states[k].log[j] ::
              i == j
  {
    AlwaysInv(bodies, names, start, states, labels, k);
    forall i, j | 0 <= i < |states[k].log| && 0 <= j < |states[k].log| && states[k].log[i] == states[k].log[j]
      ensures i == j
    {
      AscendingDistinct(Ups(names), i, j);
    }
  }

  lemma StepAfterAll<S>(bodies: Bodies<S>, names: set<string>, start: S, s: State<S>, l: Label, t: State<S>)
    requires Inv(bodies, names, start, s) && Next(bodies, Ups(names), s, l) == Some(t) && |s.log| == |Ups(names)|
    ensures t.log == s.log && t.versions == s.versions && t.schema == s.schema
  {
    if l.r in s.runners {
      assert RunnerOk(bodies, names, s, l.r);
    }
  }

  lemma NilNow<S>(bodies: Bodies<S>, names: set<string>, start: S, s: State<S>, r: nat)
    requires Inv(bodies, names, start, s) && r in s.runners && s.runners[r] == Returned(true)
    ensures s.log == Ups(names)
  {
    assert RunnerOk(bodies, names, s, r);
  }

  /** When a run returns nil every migration is applied, and from then on nothing any run does, or fails to do,
      changes the versions or the schema. */
  lemma {:induction false} NilMeansApplied<S>(bodies: Bodies<S>, names: set<string>, start: S, states: seq<State<S>>,
                                              labels: seq<Label>, j: nat, k: nat, r: nat)
    requires IsRun(bodies, Ups(names), states, labels) && states[0] == Initial(start) && j <= k < |states|
    requires r in states[j].runners && states[j].runners[r] == Returned(true)
    ensures states[k].log == Ups(names) && states[k].versions == VersionsOf(Ups(names))
    ensures states[k].schema == states[j].schema && Fold(bodies, start, Ups(names)) == Some(states[k].schema)
    decreases k - j
  {
    if j < k {
      NilMeansApplied(bodies, names, start, states, labels, j, k - 1, r);
      AlwaysInv(bodies, names, start, states, labels, k - 1);
      assert Stepped(bodies, Ups(names), states, labels, k - 1);
      StepAfterAll(bodies, names, start, states[k - 1], labels[k - 1], states[k]);
    } else {
      AlwaysInv(bodies, names, start, states, labels, k);
      NilNow(bodies, names, start, states[k], r);
    }
  }
}
