/** Go structs as JSON objects: members under fixed names, some of them omitted when empty, and how
    json.Unmarshal finds them again. */
module Members {
  import opened Text
  import opened Json
  import opened JsonNumber

  /** strings.EqualFold on names is equality after any folding. */
  type Fold = string -> string

  /** The first n members, without those that are omitted. */
  function Present(names: seq<string>, vals: seq<Option<Json>>, n: nat): seq<Field>
    requires n <= |names| == |vals|
  {
    if n == 0 then []
    else Present(names, vals, n - 1) + if vals[n - 1].Some? then [Field(names[n - 1], vals[n - 1].value)] else []
  }

  /** A struct as an object. */
  function Struct(names: seq<string>, vals: seq<Option<Json>>): Json
    requires |names| == |vals|
  {
    Obj(Present(names, vals, |vals|))
  }

  /** A key stands for the member of that name, or for one it folds to if it is no member's name. */
  predicate Matches(fold: Fold, names: seq<string>, key: string, name: string) {
    key == name || (key !in names && fold(key) == fold(name))
  }

  /** The last key that stands for a member decides. */
  function Find(fold: Fold, names: seq<string>, fields: seq<Field>, name: string): Option<Json> {
    if fields == [] then None
    else if Matches(fold, names, fields[|fields| - 1].key, name) then Some(fields[|fields| - 1].val)
    else Find(fold, names, fields[..|fields| - 1], name)
  }

  /** This is the last member whose key is the name, or folds to it and is no other member's name. */
  ghost predicate IsLast(fold: Fold, names: seq<string>, fields: seq<Field>, name: string, i: int) {
    0 <= i < |fields|
    && (fields[i].key == name || (fields[i].key !in names && fold(fields[i].key) == fold(name)))
    && forall j | i < j < |fields| ::
         !(fields[j].key == name || (fields[j].key !in names && fold(fields[j].key) == fold(name)))
  }

  /** What is found is the value of that member, and nothing if there is none. */
  lemma {:induction false} FindIff(fold: Fold, names: seq<string>, fields: seq<Field>, name: string)
    ensures match Find(fold, names, fields, name)
            case Some(v) => exists i :: IsLast(fold, names, fields, name, i) && fields[i].val == v
            case None => forall i | 0 <= i < |fields| ::
                           fields[i].key != name && (fields[i].key in names || fold(fields[i].key) != fold(name))
  {
    if fields != [] {
      var n := |fields| - 1;
      if Matches(fold, names, fields[n].key, name) {
        assert IsLast(fold, names, fields, name, n);
      } else {
        FindIff(fold, names, fields[..n], name);
        if Find(fold, names, fields, name).Some? {
          var i :| IsLast(fold, names, fields[..n], name, i)
                   && fields[..n][i].val == Find(fold, names, fields, name).value;
          assert IsLast(fold, names, fields, name, i);
        } else {
          assert forall i | 0 <= i < n :: fields[i] == fields[..n][i];
        }
      }
    }
  }

  predicate Distinct(names: seq<string>) {
    forall i, j | 0 <= i < j < |names| :: names[i] != names[j]
  }

  /** Every member is found again, and an omitted one is not. */
  lemma {:induction false} FindPresent(fold: Fold, names: seq<string>, vals: seq<Option<Json>>, n: nat, i: nat)
    requires Distinct(names) && n <= |names| == |vals| && i < |names|
    ensures Find(fold, names, Present(names, vals, n), names[i]) == if i < n then vals[i] else None
  {
    if n > 0 {
      FindPresent(fold, names, vals, n - 1, i);
      if vals[n - 1].Some? {
        var before, f := Present(names, vals, n - 1), Field(names[n - 1], vals[n - 1].value);
        assert (before + [f])[..|before|] == before;
        assert f.key in names;
        assert Matches(fold, names, f.key, names[i]) <==> i == n - 1;
      } else {
        assert Present(names, vals, n) == Present(names, vals, n - 1);
      }
    }
  }

  /** What is found under each name. */
  function Looked(fold: Fold, names: seq<string>, fields: seq<Field>): (v: seq<Option<Json>>)
    ensures |v| == |names|
  {
    seq(|names|, i requires 0 <= i < |names| => Find(fold, names, fields, names[i]))
  }

  lemma LookedPresent(fold: Fold, names: seq<string>, vals: seq<Option<Json>>)
    requires Distinct(names) && |names| == |vals|
    ensures Looked(fold, names, Struct(names, vals).fields) == vals
  {
    forall i | 0 <= i < |names| ensures Find(fold, names, Struct(names, vals).fields, names[i]) == vals[i] {
      FindPresent(fold, names, vals, |vals|, i);
    }
  }

  /** No two structs are the same object. */
  lemma StructInjective(names: seq<string>, v: seq<Option<Json>>, w: seq<Option<Json>>)
    requires Distinct(names) && |v| == |w| == |names|
    ensures Struct(names, v) == Struct(names, w) <==> v == w
  {
    LookedPresent(s => s, names, v);
    LookedPresent(s => s, names, w);
  }

  // ----- member values; a missing member and null leave the zero value

  function TextOf(o: Option<Json>): Option<string> {
    if o.None? || o.value.Null? then Some("") else if o.value.Str? then Some(o.value.s) else None
  }

  function BoolOf(o: Option<Json>): Option<bool> {
    if o.None? || o.value.Null? then Some(false) else if o.value.Bool? then Some(o.value.b) else None
  }

  function IntOf(o: Option<Json>): Option<int> {
    if o.None? || o.value.Null? then Some(0) else if o.value.Num? then IntValue(o.value.text) else None
  }

  /** For an optional member: nil when missing or null. */
  function IntRefOf(o: Option<Json>): Option<Option<int>> {
    if o.None? || o.value.Null? then Some(None)
    else
      var n :- IntOf(o);
      Some(Some(n))
  }

  function StringsOf(o: Option<Json>): Option<seq<string>> {
    if o.None? || o.value.Null? then Some([])
    else if !o.value.Arr? then None
    else
      var items := o.value.items;
      if forall i | 0 <= i < |items| :: TextOf(Some(items[i])).Some?
      then
        Some(seq(|items|, i requires 0 <= i < |items| && TextOf(Some(items[i])).Some? =>
          TextOf(Some(items[i])).value))
      else None
  }

  function MembersOf(j: Json): Option<seq<Field>> {
    if j.Null? then Some([]) else if j.Obj? then Some(j.fields) else None
  }

  /** Every kind of member reads its own kind of value; a missing one and null are the zero value, and another
      kind is an error. */
  lemma MemberKinds(s: string, b: bool, n: int)
    ensures TextOf(Some(Str(s))) == Some(s) && BoolOf(Some(Bool(b))) == Some(b)
    ensures IntOf(Some(Num(IntText(n)))) == Some(n) && IntRefOf(Some(Num(IntText(n)))) == Some(Some(n))
    ensures TextOf(None) == TextOf(Some(Null)) == Some("") && BoolOf(None) == BoolOf(Some(Null)) == Some(false)
    ensures IntOf(None) == IntOf(Some(Null)) == Some(0) && IntRefOf(None) == IntRefOf(Some(Null)) == Some(None)
    ensures TextOf(Some(Bool(b))) == None && BoolOf(Some(Str(s))) == None && IntOf(Some(Str(s))) == None
    ensures StringsOf(None) == StringsOf(Some(Null)) == Some([]) && StringsOf(Some(Str(s))) == None
  {
    IntTextValue(n);
  }

  // ----- written values

  function OmitText(s: string): Option<Json> {
    if s == "" then None else Some(Str(s))
  }

  function Strings(items: seq<string>): Json {
    Arr(seq(|items|, i requires 0 <= i < |items| => Str(items[i])))
  }

  function OmitStrings(items: seq<string>): Option<Json> {
    if items == [] then None else Some(Strings(items))
  }

  lemma OmittedText(s: string)
    ensures TextOf(OmitText(s)) == Some(s)
  {
  }

  lemma OmittedStrings(items: seq<string>)
    ensures StringsOf(OmitStrings(items)) == Some(items)
  {
    if items != [] {
      var a := Strings(items).items;
      assert forall i | 0 <= i < |a| :: TextOf(Some(a[i])) == Some(items[i]);
      assert StringsOf(Some(Arr(a))).value == items;
    }
  }
}
