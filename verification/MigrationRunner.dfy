/** Migrate itself: it collects and sorts the up migrations and applies those whose version is not recorded
    (server/migrate.go). */
module MigrationRunner {
  import opened Text
  import opened Statements
  import opened Lexical
  import opened Migrations

  datatype DirEntry = DirEntry(name: string, isDir: bool)

  /** The database a runner works on. */
  datatype Db<S> = Db(ready: bool, versions: set<string>, schema: S)

  /** What happens to the statements of a run, in the order they are sent. */
  type Script = nat -> Fault

  ghost function FileNames(entries: seq<DirEntry>): set<string> {
    set e | e in entries && !e.isDir :: e.name
  }

  // ----- what a run does from the i-th file on, when it runs alone

  ghost function Apply<S>(bodies: Bodies<S>, db: Db<S>, name: string): Option<Db<S>> {
    match bodies(db.schema, name)
    case None => None
    case Some(schema) => Some(db.(versions := db.versions + {Version(name)}, schema := schema))
  }

  /** One file's transaction: begin and body, version, commit. */
  ghost function Transact<S>(bodies: Bodies<S>, db: Db<S>, name: string, script: Script, n: nat): (Db<S>, bool) {
    var done := Apply(bodies, db, name);
    if script(n) != NoFault || done.None? || script(n + 1) != NoFault || script(n + 2) == Lost then (db, false)
    else (done.value, script(n + 2) == NoFault)
  }

  /** A file's transaction leaves body and version, or nothing; it succeeds when nothing fails. */
  lemma TransactLeaves<S>(bodies: Bodies<S>, db: Db<S>, name: string, script: Script, n: nat)
    ensures var (after, ok) := Transact(bodies, db, name, script, n);
            var sent := bodies(db.schema, name).Some? && script(n) == NoFault && script(n + 1) == NoFault;
            after.ready == db.ready && (ok <==> sent && script(n + 2) == NoFault)
            && (if sent && script(n + 2) != Lost
                then after.versions == db.versions + {Version(name)} && Some(after.schema) == bodies(db.schema, name)
                else after == db)
  {
  }

  ghost function RunFrom<S>(bodies: Bodies<S>, ups: seq<string>, i: nat, db: Db<S>, script: Script, n: nat)
    : (Db<S>, bool)
    requires i <= |ups|
    decreases |ups| - i
  {
    if i == |ups| then (db, true)
    else if script(n) != NoFault then (db, false)
    else if Version(ups[i]) in db.versions then RunFrom(bodies, ups, i + 1, db, script, n + 1)
    else
      var (after, ok) := Transact(bodies, db, ups[i], script, n + 1);
      if ok then RunFrom(bodies, ups, i + 1, after, script, n + 4) else (after, false)
  }

  /** The database the first k files make. */
  ghost function Made<S>(bodies: Bodies<S>, ups: seq<string>, start: S, k: nat): Option<Db<S>>
    requires k <= |ups|
  {
    if k == 0 then Some(Db(true, {}, start))
    else
      match Made(bodies, ups, start, k - 1)
      case None => None
      case Some(db) => Apply(bodies, db, ups[k - 1])
  }

  /** It is the database of the concurrent model: the versions of those files and the fold of their bodies. */
  lemma {:induction false} MadeIsFold<S>(bodies: Bodies<S>, ups: seq<string>, start: S, k: nat)
    requires k <= |ups|
    ensures match Made(bodies, ups, start, k)
            case None => Fold(bodies, start, ups[..k]).None?
            case Some(db) => db.versions == VersionsOf(ups[..k]) && Fold(bodies, start, ups[..k]) == Some(db.schema)
  {
    if k > 0 {
      MadeIsFold(bodies, ups, start, k - 1);
      VersionsGrow(ups, k - 1);
      assert ups[..k][..k - 1] == ups[..k - 1];
    }
  }

  /** No two files have one version. */
  ghost predicate Listed(ups: seq<string>) {
    forall i, j | 0 <= i < j < |ups| :: Version(ups[i]) != Version(ups[j])
  }

  lemma UpsListed(names: set<string>)
    ensures Listed(Ups(names))
  {
    forall i, j | 0 <= i < j < |Ups(names)| ensures Version(Ups(names)[i]) != Version(Ups(names)[j]) {
      if Version(Ups(names)[i]) == Version(Ups(names)[j]) {
        UpsDistinct(names, i, j);
      }
    }
  }

  /** A file is recorded exactly when it is one of the first k. */
  lemma {:induction false} Recorded<S>(bodies: Bodies<S>, ups: seq<string>, start: S, i: nat, k: nat)
    requires Listed(ups) && i < |ups| && k <= |ups| && Made(bodies, ups, start, k).Some?
    ensures Version(ups[i]) in Made(bodies, ups, start, k).value.versions <==> i < k
  {
    if k > 0 {
      Recorded(bodies, ups, start, i, k - 1);
    }
  }

  /** A run on a prefix leaves a longer or equal prefix whatever fails; when it returns nil, the whole list. */
  lemma {:induction false} RunExtends<S>(bodies: Bodies<S>, ups: seq<string>, start: S, i: nat, k: nat, script: Script,
                                         n: nat) returns (m: nat)
    requires Listed(ups) && i <= k <= |ups| && Made(bodies, ups, start, k).Some?
    ensures var r := RunFrom(bodies, ups, i, Made(bodies, ups, start, k).value, script, n);
            k <= m <= |ups| && Made(bodies, ups, start, m) == Some(r.0) && (r.1 ==> m == |ups|)
    decreases |ups| - i
  {
    m := k;
    if i < |ups| && script(n) == NoFault {
      var db := Made(bodies, ups, start, k).value;
      Recorded(bodies, ups, start, i, k);
      if i < k {
        m := RunExtends(bodies, ups, start, i + 1, k, script, n + 1);
      } else {
        var (after, ok) := Transact(bodies, db, ups[k], script, n + 1);
        if ok {
          m := RunExtends(bodies, ups, start, i + 1, k + 1, script, n + 4);
        } else if after != db {
          m := k + 1;
        }
      }
    }
  }

  /** Running again after all is applied changes nothing, and returns nil unless a check fails. */
  lemma {:induction false} RunAgain<S>(bodies: Bodies<S>, ups: seq<string>, start: S, i: nat, script: Script, n: nat)
    requires Listed(ups) && i <= |ups| && Made(bodies, ups, start, |ups|).Some?
    ensures var db := Made(bodies, ups, start, |ups|).value;
            RunFrom(bodies, ups, i, db, script, n).0 == db
            && (RunFrom(bodies, ups, i, db, script, n).1 <==> forall j | n <= j < n + |ups| - i :: script(j) == NoFault)
    decreases |ups| - i
  {
    if i < |ups| {
      Recorded(bodies, ups, start, i, |ups|);
      RunAgain(bodies, ups, start, i + 1, script, n + 1);
    }
  }

  ghost predicate Smooth(script: Script) {
    forall j: nat :: script(j) == NoFault
  }

  lemma {:induction false} MadeBefore<S>(bodies: Bodies<S>, ups: seq<string>, start: S, k: nat, m: nat)
    requires k <= m <= |ups| && Made(bodies, ups, start, m).Some?
    ensures Made(bodies, ups, start, k).Some?
    decreases m
  {
    if k < m {
      MadeBefore(bodies, ups, start, k, m - 1);
    }
  }

  lemma {:induction false} RunFinishes<S>(bodies: Bodies<S>, ups: seq<string>, start: S, i: nat, k: nat, script: Script,
                                          n: nat)
    requires Listed(ups) && i <= k <= |ups| && Made(bodies, ups, start, |ups|).Some? && Smooth(script)
    ensures Made(bodies, ups, start, k).Some?
    ensures RunFrom(bodies, ups, i, Made(bodies, ups, start, k).value, script, n).1
    decreases |ups| - i
  {
    MadeBefore(bodies, ups, start, k, |ups|);
    if i < |ups| {
      Recorded(bodies, ups, start, i, k);
      if i < k {
        RunFinishes(bodies, ups, start, i + 1, k, script, n + 1);
      } else {
        RunFinishes(bodies, ups, start, i + 1, k + 1, script, n + 4);
      }
    }
  }

  /** With nothing failing, a run from any prefix returns nil exactly when the whole list can be applied. */
  lemma RunCompletes<S>(bodies: Bodies<S>, ups: seq<string>, start: S, k: nat, script: Script, n: nat)
    requires Listed(ups) && k <= |ups| && Made(bodies, ups, start, k).Some? && Smooth(script)
    ensures RunFrom(bodies, ups, 0, Made(bodies, ups, start, k).value, script, n).1
            <==> Made(bodies, ups, start, |ups|).Some?
  {
    var m := RunExtends(bodies, ups, start, 0, k, script, n);
    if Made(bodies, ups, start, |ups|).Some? {
      RunFinishes(bodies, ups, start, 0, k, script, n);
    }
  }

  /** In the terms of the concurrent model: a run alone takes a prefix to a longer or equal prefix. */
  lemma RunKeepsPrefix<S>(bodies: Bodies<S>, names: set<string>, start: S, k: nat, script: Script, n: nat)
      returns (m: nat)
    requires k <= |Ups(names)| && Made(bodies, Ups(names), start, k).Some?
    ensures var r := RunFrom(bodies, Ups(names), 0, Made(bodies, Ups(names), start, k).value, script, n);
            k <= m <= |Ups(names)| && (r.1 ==> m == |Ups(names)|)
            && r.0.versions == VersionsOf(Ups(names)[..m])
            && Fold(bodies, start, Ups(names)[..m]) == Some(r.0.schema)
  {
    UpsListed(names);
    m := RunExtends(bodies, Ups(names), start, 0, k, script, n);
    MadeIsFold(bodies, Ups(names), start, m);
  }

  // ----- the runner is a run of the concurrent model

  ghost function RunAll<S>(bodies: Bodies<S>, ups: seq<string>, s: State<S>, labels: seq<Label>): Option<State<S>>
    decreases |labels|
  {
    if labels == [] then Some(s)
    else
      match Next(bodies, ups, s, labels[0])
      case None => None
      case Some(t) => RunAll(bodies, ups, t, labels[1..])
  }

  lemma RunFirst<S>(bodies: Bodies<S>, ups: seq<string>, s: State<S>, l: Label, t: State<S>, rest: seq<Label>)
    requires Next(bodies, ups, s, l) == Some(t)
    ensures RunAll(bodies, ups, s, [l] + rest) == RunAll(bodies, ups, t, rest)
  {
    assert ([l] + rest)[1..] == rest;
  }

  /** A runner about to look at file i, with no other transaction open. */
  ghost predicate Ready<S>(ups: seq<string>, s: State<S>, r: nat, i: nat) {
    r in s.runners && s.runners[r] == Migrations.At(ups, i) && s.ready && s.pending == map[]
  }

  /** A runner that has returned this, leaving this database. */
  ghost predicate Shows<S>(t: State<S>, r: nat, db: Db<S>, ok: bool) {
    && r in t.runners && t.runners[r] == Returned(ok) && t.pending == map[]
    && Db(t.ready, t.versions, t.schema) == db
  }

  ghost function DbOf<S>(s: State<S>): Db<S> {
    Db(s.ready, s.versions, s.schema)
  }

  lemma CheckAlone<S>(bodies: Bodies<S>, ups: seq<string>, s: State<S>, r: nat, i: nat, ok: bool) returns (t: State<S>)
    requires Ready(ups, s, r, i) && i < |ups|
    ensures Next(bodies, ups, s, Check(r, ok)) == Some(t) && DbOf(t) == DbOf(s) && t.pending == map[] && r in t.runners
    ensures t.runners[r] == if !ok then Returned(false)
                            else if Version(ups[i]) in s.versions then Migrations.At(ups, i + 1) else Applying(i)
  {
    t := Next(bodies, ups, s, Check(r, ok)).value;
  }

  lemma BodyAlone<S>(bodies: Bodies<S>, ups: seq<string>, s: State<S>, r: nat, i: nat, ok: bool) returns (t: State<S>)
    requires r in s.runners && s.runners[r] == Applying(i) && i < |ups| && s.pending == map[]
    ensures Next(bodies, ups, s, Label.Apply(r, ok)) == Some(t) && DbOf(t) == DbOf(s)
    ensures t.pending == map[] && r in t.runners
    ensures t.runners[r] == if !ok || bodies(s.schema, ups[i]).None? then Returned(false)
                            else Inserting(i, |s.log|, bodies(s.schema, ups[i]).value)
  {
    t := Next(bodies, ups, s, Label.Apply(r, ok)).value;
  }

  lemma InsertAlone<S>(bodies: Bodies<S>, ups: seq<string>, s: State<S>, r: nat, ok: bool) returns (t: State<S>)
    requires r in s.runners && s.runners[r].Inserting? && s.runners[r].i < |ups| && s.pending == map[]
    requires Version(ups[s.runners[r].i]) !in s.versions
    ensures Next(bodies, ups, s, Insert(r, ok)) == Some(t) && DbOf(t) == DbOf(s) && r in t.runners
    ensures if ok then t.runners[r] == Committing(s.runners[r].i, s.runners[r].result)
                       && t.pending == map[Version(ups[s.runners[r].i]) := r]
            else t.runners[r] == Returned(false) && t.pending == map[]
  {
    t := Next(bodies, ups, s, Insert(r, ok)).value;
  }

  lemma CommitAlone<S>(bodies: Bodies<S>, ups: seq<string>, s: State<S>, r: nat, fault: Fault) returns (t: State<S>)
    requires r in s.runners && s.runners[r].Committing? && s.runners[r].i < |ups|
    requires s.pending == map[Version(ups[s.runners[r].i]) := r]
    ensures Next(bodies, ups, s, Commit(r, fault)) == Some(t) && t.pending == map[] && r in t.runners
    ensures t.runners[r] == if fault == NoFault then Migrations.At(ups, s.runners[r].i + 1) else Returned(false)
    ensures DbOf(t) == if fault == Lost then DbOf(s)
                       else Db(s.ready, s.versions + {Version(ups[s.runners[r].i])}, s.runners[r].result)
  {
    t := Next(bodies, ups, s, Commit(r, fault)).value;
  }

  /** One file's transaction. */
  lemma TransactIsRun<S>(bodies: Bodies<S>, ups: seq<string>, s: State<S>, r: nat, i: nat, script: Script, n: nat)
      returns (labels: seq<Label>, t: State<S>)
    requires r in s.runners && s.runners[r] == Applying(i) && i < |ups| && s.pending == map[]
    requires Version(ups[i]) !in s.versions
    ensures RunAll(bodies, ups, s, labels) == Some(t) && t.pending == map[] && r in t.runners
    ensures var (db, ok) := Transact(bodies, DbOf(s), ups[i], script, n);
            DbOf(t) == db && t.runners[r] == if ok then Migrations.At(ups, i + 1) else Returned(false)
  {
    var s1 := BodyAlone(bodies, ups, s, r, i, script(n) == NoFault);
    labels, t := [], s1;
    if s1.runners[r].Inserting? {
      var s2 := InsertAlone(bodies, ups, s1, r, script(n + 1) == NoFault);
      t := s2;
      if s2.runners[r].Committing? {
        t := CommitAlone(bodies, ups, s2, r, script(n + 2));
        labels := [Commit(r, script(n + 2))];
        RunFirst(bodies, ups, s2, Commit(r, script(n + 2)), t, []);
      }
      RunFirst(bodies, ups, s1, Insert(r, script(n + 1) == NoFault), s2, labels);
      labels := [Insert(r, script(n + 1) == NoFault)] + labels;
    }
    RunFirst(bodies, ups, s, Label.Apply(r, script(n) == NoFault), s1, labels);
    labels := [Label.Apply(r, script(n) == NoFault)] + labels;
  }

  lemma {:induction false} RunAllAppend<S>(
    bodies: Bodies<S>, ups: seq<string>, s: State<S>, a: seq<Label>, t: State<S>, b: seq<Label>
  )
    requires RunAll(bodies, ups, s, a) == Some(t)
    ensures RunAll(bodies, ups, s, a + b) == RunAll(bodies, ups, t, b)
    decreases |a|
  {
    if a == [] {
      assert a + b == b;
    } else {
      assert (a + b)[1..] == a[1..] + b;
      RunAllAppend(bodies, ups, Next(bodies, ups, s, a[0]).value, a[1..], t, b);
    }
  }

  /** The loop from file i on. */
  lemma {:induction false} FromFile<S>(bodies: Bodies<S>, ups: seq<string>, s: State<S>, r: nat, i: nat, script: Script,
                                       n: nat) returns (labels: seq<Label>, t: State<S>)
    requires Ready(ups, s, r, i) && i <= |ups|
    ensures RunAll(bodies, ups, s, labels) == Some(t)
    ensures var (db, ok) := RunFrom(bodies, ups, i, DbOf(s), script, n); Shows(t, r, db, ok)
    decreases |ups| - i, 1
  {
    labels, t := [], s;
    if i < |ups| {
      var check := Check(r, script(n) == NoFault);
      var s1 := CheckAlone(bodies, ups, s, r, i, script(n) == NoFault);
      t := s1;
      if script(n) == NoFault {
        if Version(ups[i]) in s.versions {
          labels, t := FromFile(bodies, ups, s1, r, i + 1, script, n + 1);
        } else {
          labels, t := FromTransaction(bodies, ups, s1, r, i, script, n);
        }
      }
      RunFirst(bodies, ups, s, check, s1, labels);
      labels := [check] + labels;
    }
  }

  lemma {:induction false} FromTransaction<S>(bodies: Bodies<S>, ups: seq<string>, s: State<S>, r: nat, i: nat,
                                              script: Script, n: nat) returns (labels: seq<Label>, t: State<S>)
    requires r in s.runners && s.runners[r] == Applying(i) && i < |ups| && s.ready && s.pending == map[]
    requires Version(ups[i]) !in s.versions && script(n) == NoFault
    ensures RunAll(bodies, ups, s, labels) == Some(t)
    ensures var (db, ok) := RunFrom(bodies, ups, i, DbOf(s), script, n); Shows(t, r, db, ok)
    decreases |ups| - i, 0
  {
    var mid;
    labels, mid := TransactIsRun(bodies, ups, s, r, i, script, n + 1);
    t := mid;
    var (after, ok) := Transact(bodies, DbOf(s), ups[i], script, n + 1);
    if ok {
      var rest;
      rest, t := FromFile(bodies, ups, mid, r, i + 1, script, n + 4);
      RunAllAppend(bodies, ups, s, labels, mid, rest);
      labels := labels + rest;
    }
  }

  /** What Migrate leaves behind and returns, as its contract says. */
  ghost function Migrating<S>(bodies: Bodies<S>, ups: seq<string>, db: Db<S>, script: Script): (Db<S>, bool) {
    if script(0) != NoFault then (db.(ready := db.ready || script(0) != Lost), false)
    else RunFrom(bodies, ups, 0, db.(ready := true), script, 1)
  }

  /** Migrate is a run of the concurrent model in which one runner starts while no transaction is open and the
      others stand still: all the theorems about runs are about it. */
  lemma MigratingIsRun<S>(bodies: Bodies<S>, ups: seq<string>, s: State<S>, r: nat, script: Script)
      returns (labels: seq<Label>, t: State<S>)
    requires r !in s.runners && s.pending == map[]
    ensures RunAll(bodies, ups, s, labels) == Some(t)
    ensures var (db, ok) := Migrating(bodies, ups, DbOf(s), script); Shows(t, r, db, ok)
  {
    var s1 := Next(bodies, ups, s, Start(r)).value;
    var s2 := Next(bodies, ups, s1, Create(r, script(0))).value;
    labels, t := [], s2;
    if script(0) == NoFault {
      labels, t := FromFile(bodies, ups, s2, r, 0, script, 1);
    }
    RunFirst(bodies, ups, s1, Create(r, script(0)), s2, labels);
    labels := [Create(r, script(0))] + labels;
    RunFirst(bodies, ups, s, Start(r), s1, labels);
    labels := [Start(r)] + labels;
  }

  // ----- sorting

  /** sort.Strings on names that are all different, as those of a directory are. */
  method SortStrings(q: seq<string>) returns (sorted: seq<string>)
    requires forall i, j | 0 <= i < j < |q| :: q[i] != q[j]
    ensures sorted == Sorted(set x | x in q)
  {
    sorted := [];
    for n := 0 to |q|
      invariant Ascending(sorted)
      invariant forall x :: x in sorted <==> x in q[..n]
    {
      assert q[..n + 1] == q[..n] + [q[n]];
      sorted := Place(sorted, q[n]);
    }
    assert q[..|q|] == q;
    SortedUnique(sorted, set x | x in q);
  }

  method Place(q: seq<string>, x: string) returns (r: seq<string>)
    requires Ascending(q) && x !in q
    ensures Ascending(r) && forall y :: y in r <==> y in q || y == x
  {
    var k := 0;
    while k < |q| && Below(q[k], x)
      invariant k <= |q|
      invariant forall i | 0 <= i < k :: Below(q[i], x)
    {
      k := k + 1;
    }
    PlaceAscends(q, k, x);
    r := q[..k] + [x] + q[k..];
    assert forall y :: y in q <==> y in q[..k] || y in q[k..] by {
      assert q == q[..k] + q[k..];
    }
  }

  lemma PlaceAscends(q: seq<string>, k: nat, x: string)
    requires Ascending(q) && x !in q && k <= |q|
    requires forall i | 0 <= i < k :: Below(q[i], x)
    requires k < |q| ==> !Below(q[k], x)
    ensures Ascending(q[..k] + [x] + q[k..])
  {
    var r := q[..k] + [x] + q[k..];
    forall i, j | 0 <= i < j < |r| ensures Below(r[i], r[j]) {
      if i == k {
        AboveAll(q, k, x, j - 1);
      }
    }
  }

  lemma AboveAll(q: seq<string>, k: nat, x: string, j: nat)
    requires Ascending(q) && x !in q && k <= j < |q| && !Below(q[k], x)
    ensures Below(x, q[j])
  {
    Trichotomy(q[k], x);
    if k < j {
      Transitive(x, q[k], q[j]);
    }
  }

  lemma NameIsNew(entries: seq<DirEntry>, n: nat)
    requires forall i, j | 0 <= i < j < |entries| :: entries[i].name != entries[j].name
    requires n < |entries|
    ensures forall d | d in entries[..n] :: d.name != entries[n].name
  {
    forall d | d in entries[..n] ensures d.name != entries[n].name {
      var j :| 0 <= j < n && entries[j] == d;
    }
  }

  /** The ending of an up migration. */
  predicate EndsUp(name: string) {
    |name| >= 7 && name[|name| - 7..] == ".up.sql"
  }

  lemma EndsUpIff(name: string)
    ensures EndsUp(name) <==> IsUp(name)
  {
    IsUpIff(name);
    if EndsUp(name) {
      assert name == name[..|name| - 7] + ".up.sql";
    }
    if IsUp(name) {
      assert name[|name| - 7..] == ".up.sql";
    }
  }

  /** A run that returns nil has recorded every file from the i-th on. */
  lemma {:induction false} RunRecords<S>(bodies: Bodies<S>, ups: seq<string>, i: nat, db: Db<S>, script: Script, n: nat)
    requires i <= |ups|
    ensures var (after, ok) := RunFrom(bodies, ups, i, db, script, n);
            db.versions <= after.versions && (ok ==> forall j | i <= j < |ups| :: Version(ups[j]) in after.versions)
    decreases |ups| - i
  {
    if i < |ups| && script(n) == NoFault {
      if Version(ups[i]) in db.versions {
        RunRecords(bodies, ups, i + 1, db, script, n + 1);
      } else {
        var (after, ok) := Transact(bodies, db, ups[i], script, n + 1);
        if ok {
          RunRecords(bodies, ups, i + 1, after, script, n + 4);
        }
      }
    }
  }

  lemma AllRecorded(entries: seq<DirEntry>, ups: seq<string>, versions: set<string>)
    requires forall j | 0 <= j < |ups| :: Version(ups[j]) in versions
    requires forall x :: x in ups <==> EndsUp(x) && exists e :: e in entries && !e.isDir && e.name == x
    ensures forall v: string, e | e in entries && !e.isDir && e.name == v + ".up.sql" :: v in versions
  {
    forall v: string, e | e in entries && !e.isDir && e.name == v + ".up.sql" ensures v in versions {
      VersionOf(v);
      EndsUpIff(e.name);
      assert e.name in ups;
    }
  }

  // ----- the runner

  class Runner<S> {
    var ready: bool
    var versions: set<string>
    var schema: S

    constructor (start: S)
      ensures !ready && versions == {} && schema == start
    {
      ready, versions, schema := false, {}, start;
    }

    ghost function Current(): Db<S>
      reads this
    {
      Db(ready, versions, schema)
    }

    /** The names of the up migrations in a directory. */
    method Collect(entries: seq<DirEntry>) returns (ups: seq<string>)
      requires forall i, j | 0 <= i < j < |entries| :: entries[i].name != entries[j].name
      ensures ups == Ups(FileNames(entries))
      ensures forall x :: x in ups <==> EndsUp(x) && exists e :: e in entries && !e.isDir && e.name == x
      ensures Ascending(ups)
    {
      var found := [];
      for n := 0 to |entries|
        invariant forall x :: x in found <==> x in FileNames(entries[..n]) && IsUp(x)
        invariant forall i, j | 0 <= i < j < |found| :: found[i] != found[j]
      {
        var e := entries[n];
        assert entries[..n + 1] == entries[..n] + [e];
        assert FileNames(entries[..n + 1]) == FileNames(entries[..n]) + if e.isDir then {} else {e.name};
        NameIsNew(entries, n);
        assert e.name !in FileNames(entries[..n]);
        if !e.isDir && IsUp(e.name) {
          found := found + [e.name];
        }
      }
      assert entries[..|entries|] == entries;
      ups := SortStrings(found);
      assert (set x | x in found) == set x | x in FileNames(entries) && IsUp(x);
      forall x ensures x in ups <==> EndsUp(x) && exists e :: e in entries && !e.isDir && e.name == x {
        EndsUpIff(x);
        assert x in FileNames(entries) <==> exists e :: e in entries && !e.isDir && e.name == x;
      }
    }

    /** The body and the version in one transaction. */
    method ApplyFile(bodies: Bodies<S>, name: string, script: Script, n: nat) returns (ok: bool)
      modifies this`versions, this`schema
      ensures (Current(), ok) == Transact(bodies, old(Current()), name, script, n)
    {
      var result := bodies(schema, name);
      if script(n) != NoFault || result.None? {
        return false;
      }
      if script(n + 1) != NoFault {
        return false;
      }
      if script(n + 2) != Lost {
        versions, schema := versions + {Version(name)}, result.value;
      }
      ok := script(n + 2) == NoFault;
    }

    /** Migrate: create the version table, then one transaction for every file not yet recorded. */
    method Migrate(bodies: Bodies<S>, entries: seq<DirEntry>, script: Script) returns (ok: bool)
      requires forall i, j | 0 <= i < j < |entries| :: entries[i].name != entries[j].name
      modifies this
      ensures (Current(), ok) == Migrating(bodies, Ups(FileNames(entries)), old(Current()), script)
      ensures ok ==> forall v: string, e | e in entries && !e.isDir && e.name == v + ".up.sql" :: v in versions
    {
      if script(0) != Lost {
        ready := true;
      }
      if script(0) != NoFault {
        return false;
      }
      var ups := Collect(entries);
      ghost var start := Current();
      ghost var goal := RunFrom(bodies, ups, 0, start, script, 1);
      var n := 1;
      for i := 0 to |ups|
        invariant goal == RunFrom(bodies, ups, i, Current(), script, n)
      {
        var version := Version(ups[i]);
        if script(n) != NoFault {
          return false;
        }
        if version in versions {
          n := n + 1;
          continue;
        }
        var applied := ApplyFile(bodies, ups[i], script, n + 1);
        if !applied {
          return false;
        }
        n := n + 4;
      }
      ok := true;
      RunRecords(bodies, ups, 0, start, script, 1);
      AllRecorded(entries, ups, versions);
    }
  }
}
