/** Go values of type any, as json.Marshal writes them and json.Unmarshal makes them. The decoder turns every
    number into a float64. */
module GoValues {
  import opened Text
  import opened Json
  import opened JsonNumber
  import opened Lexical

  datatype Value =
    | Nil
    | Truth(b: bool)
    | Int(n: int)
    | Float(x: real)
    | String(s: string)
    | List(items: seq<Value>)
    | Dict(entries: map<string, Value>)

  /** What is abstract: the float64 nearest to a value, if it is in range, and the text Go gives to one. */
  datatype Floats = Floats(round: real -> Option<real>, format: real -> NumText)

  const TWO_TO_THE_53: int := 0x20_0000_0000_0000

  /** All that is assumed: rounding is idempotent, and the text of a float64 reads back as that float64. */
  ghost predicate Sound(f: Floats) {
    && (forall x | f.round(x).Some? :: f.round(f.round(x).value) == f.round(x))
    && (forall x | f.round(x) == Some(x) :: f.round(NumberValue(f.format(x))) == Some(x))
  }

  predicate IsFloat64(f: Floats, n: int) {
    f.round(n as real) == Some(n as real)
  }

  function Pow2(e: nat): nat {
    if e == 0 then 1 else 2 * Pow2(e - 1)
  }

  predicate Scaled(n: int, m: int, e: nat) {
    -TWO_TO_THE_53 < m < TWO_TO_THE_53 && e <= 971 && n == m * Pow2(e)
  }

  /** The integers of the format binary64 (IEEE 754, section 3.4): 53 significant bits, and in range. */
  ghost predicate Significant53(n: int) {
    exists m, e: nat :: Scaled(n, m, e)
  }

  /** The float64s among the integers are those of binary64. */
  ghost predicate Binary64(f: Floats) {
    forall n: int :: IsFloat64(f, n) <==> Significant53(n)
  }

  lemma SmallIntegers(n: int)
    requires -TWO_TO_THE_53 <= n <= TWO_TO_THE_53
    ensures Significant53(n)
  {
    assert Pow2(1) == 2;
    if n == TWO_TO_THE_53 {
      assert Scaled(n, TWO_TO_THE_53 / 2, 1);
    } else if n == -TWO_TO_THE_53 {
      assert Scaled(n, -(TWO_TO_THE_53 / 2), 1);
    } else {
      assert Scaled(n, n, 0);
    }
  }

  lemma NotScaled(n: int, m: int, e: nat)
    requires n % 2 == 1 && n > TWO_TO_THE_53
    ensures !Scaled(n, m, e)
  {
    if e > 0 {
      assert m * Pow2(e) == 2 * (m * Pow2(e - 1));
    }
  }

  /** The first integer that is lost. */
  lemma FirstLost()
    ensures !Significant53(TWO_TO_THE_53 + 1)
  {
    var n := TWO_TO_THE_53 + 1;
    forall m, e: nat ensures !Scaled(n, m, e) {
      NotScaled(n, m, e);
    }
  }

  /** Every integer is at most 2^53 in magnitude. */
  predicate Small(v: Value)
    decreases v
  {
    match v
    case Int(n) => -TWO_TO_THE_53 <= n <= TWO_TO_THE_53
    case List(items) => forall i | 0 <= i < |items| :: Small(items[i])
    case Dict(m) => forall k | k in m :: Small(m[k])
    case _ => true
  }

  lemma {:induction false} SmallIsFixed(f: Floats, v: Value)
    requires Binary64(f) && Small(v)
    ensures Fixed(f, v)
    decreases v
  {
    match v
    case Int(n) => SmallIntegers(n);
    case List(items) =>
      forall i | 0 <= i < |items| ensures Fixed(f, items[i]) {
        SmallIsFixed(f, items[i]);
      }
    case Dict(m) =>
      forall k | k in m ensures Fixed(f, m[k]) {
        SmallIsFixed(f, m[k]);
      }
    case _ =>
  }

  // ----- the encoder

  /** The members of an object in lexical order of their keys. */
  function ToJson(f: Floats, v: Value): Json
    decreases v
  {
    match v
    case Nil => Null
    case Truth(b) => Bool(b)
    case Int(n) => Num(IntText(n))
    case Float(x) => Num(f.format(x))
    case String(s) => Str(s)
    case List(items) => Arr(seq(|items|, i requires 0 <= i < |items| => ToJson(f, items[i])))
    case Dict(m) =>
      var keys := Sorted(m.Keys);
      assert forall i | 0 <= i < |keys| :: keys[i] in m;
      Obj(seq(|keys|, i requires 0 <= i < |keys| && keys[i] in m => Field(keys[i], ToJson(f, m[keys[i]]))))
  }

  // ----- the decoder

  function KeysOf(fields: seq<Field>): set<string> {
    set i | 0 <= i < |fields| :: fields[i].key
  }

  /** A repeated member keeps its last value. */
  function LastOf(fields: seq<Field>, key: string): (i: nat)
    requires key in KeysOf(fields)
    ensures i < |fields| && fields[i].key == key
    ensures forall j | i < j < |fields| :: fields[j].key != key
  {
    if fields[|fields| - 1].key == key then |fields| - 1
    else
      assert key in KeysOf(fields[..|fields| - 1]) by {
        var i :| 0 <= i < |fields| && fields[i].key == key;
        assert fields[..|fields| - 1][i].key == key;
      }
      LastOf(fields[..|fields| - 1], key)
  }

  /** A number out of range fails the whole decoding. */
  function FromJson(f: Floats, j: Json): Option<Value>
    decreases j
  {
    match j
    case Null => Some(Nil)
    case Bool(b) => Some(Truth(b))
    case Num(text) =>
      var x := f.round(NumberValue(text));
      if x.Some? then Some(Float(x.value)) else None
    case Str(s) => Some(String(s))
    case Arr(items) =>
      if forall i | 0 <= i < |items| :: FromJson(f, items[i]).Some?
      then
        Some(List(seq(|items|, i requires 0 <= i < |items| && FromJson(f, items[i]).Some? =>
          FromJson(f, items[i]).value)))
      else None
    case Obj(fields) =>
      if forall i | 0 <= i < |fields| :: FromJson(f, fields[i].val).Some?
      then Some(Dict(map k | k in KeysOf(fields) :: FromJson(f, fields[LastOf(fields, k)].val).value))
      else None
  }

  /** Each kind of value is its own kind of JSON, in both directions. */
  lemma Kinds(f: Floats, b: bool, s: string, n: int, x: real, t: NumText)
    ensures ToJson(f, Nil) == Null && ToJson(f, Truth(b)) == Bool(b) && ToJson(f, String(s)) == Str(s)
    ensures ToJson(f, Int(n)) == Num(IntText(n)) && ToJson(f, Float(x)) == Num(f.format(x))
    ensures FromJson(f, Null) == Some(Nil) && FromJson(f, Bool(b)) == Some(Truth(b))
    ensures FromJson(f, Str(s)) == Some(String(s))
    ensures FromJson(f, Num(t)) == match f.round(NumberValue(t)) case None => None case Some(y) => Some(Float(y))
  {
  }

  /** A decoded object maps each key to the last of its values. */
  lemma LastWins(f: Floats, fields: seq<Field>, i: nat)
    requires i < |fields| && FromJson(f, Obj(fields)).Some?
    requires forall j | i < j < |fields| :: fields[j].key != fields[i].key
    ensures FromJson(f, Obj(fields)).value.Dict?
    ensures var m := FromJson(f, Obj(fields)).value.entries;
            fields[i].key in m && FromJson(f, fields[i].val) == Some(m[fields[i].key])
  {
    assert fields[i].key in KeysOf(fields);
    assert LastOf(fields, fields[i].key) == i;
  }

  // ----- what comes back

  /** Every float is a float64. */
  predicate Float64s(f: Floats, v: Value)
    decreases v
  {
    match v
    case Float(x) => f.round(x) == Some(x)
    case List(items) => forall i | 0 <= i < |items| :: Float64s(f, items[i])
    case Dict(m) => forall k | k in m :: Float64s(f, m[k])
    case _ => true
  }

  /** The same value with its integers rounded to float64s. */
  function Rounded(f: Floats, v: Value): Option<Value>
    decreases v
  {
    match v
    case Int(n) =>
      var x := f.round(n as real);
      if x.Some? then Some(Float(x.value)) else None
    case List(items) =>
      if forall i | 0 <= i < |items| :: Rounded(f, items[i]).Some?
      then
        Some(List(seq(|items|, i requires 0 <= i < |items| && Rounded(f, items[i]).Some? =>
          Rounded(f, items[i]).value)))
      else None
    case Dict(m) =>
      if forall k | k in m :: Rounded(f, m[k]).Some? then Some(Dict(map k | k in m :: Rounded(f, m[k]).value)) else None
    case _ => Some(v)
  }

  /** The same value with its integers read as the numbers they are. */
  function Amounts(v: Value): Value
    decreases v
  {
    match v
    case Int(n) => Float(n as real)
    case List(items) => List(seq(|items|, i requires 0 <= i < |items| => Amounts(items[i])))
    case Dict(m) => Dict(map k | k in m :: Amounts(m[k]))
    case _ => v
  }

  /** Every integer is a float64. */
  predicate Fixed(f: Floats, v: Value)
    decreases v
  {
    match v
    case Int(n) => IsFloat64(f, n)
    case List(items) => forall i | 0 <= i < |items| :: Fixed(f, items[i])
    case Dict(m) => forall k | k in m :: Fixed(f, m[k])
    case _ => true
  }

  /** Every integer keeps its text when it becomes a float64. */
  predicate Plain(f: Floats, v: Value)
    decreases v
  {
    match v
    case Int(n) => f.round(n as real).Some? && f.format(f.round(n as real).value) == IntText(n)
    case List(items) => forall i | 0 <= i < |items| :: Plain(f, items[i])
    case Dict(m) => forall k | k in m :: Plain(f, m[k])
    case _ => true
  }

  lemma FieldAt(f: Floats, m: map<string, Value>, i: nat)
    requires i < |Sorted(m.Keys)|
    ensures var fields := ToJson(f, Dict(m)).fields;
            |fields| == |Sorted(m.Keys)| && fields[i].key == Sorted(m.Keys)[i]
            && fields[i].key in m && fields[i].val == ToJson(f, m[fields[i].key])
  {
    assert Sorted(m.Keys)[i] in m.Keys;
  }

  lemma FieldsOfDict(f: Floats, m: map<string, Value>)
    ensures var fields := ToJson(f, Dict(m)).fields;
            KeysOf(fields) == m.Keys
            && forall i | 0 <= i < |fields| :: fields[i].key in m && fields[i].val == ToJson(f, m[fields[i].key])
  {
    var fields, keys := ToJson(f, Dict(m)).fields, Sorted(m.Keys);
    forall i | 0 <= i < |keys|
      ensures fields[i].key == keys[i] && keys[i] in m && fields[i].val == ToJson(f, m[keys[i]])
    {
      FieldAt(f, m, i);
    }
    forall k | k in m ensures k in KeysOf(fields) {
      var i :| 0 <= i < |keys| && keys[i] == k;
      assert fields[i].key == k;
    }
  }

  /** Decoding what was encoded gives the value with its integers rounded, or fails if one is out of range. */
  lemma {:induction false} FromToJson(f: Floats, v: Value)
    requires Sound(f) && Float64s(f, v)
    ensures FromJson(f, ToJson(f, v)) == Rounded(f, v)
    decreases v
  {
    match v
    case Int(n) => IntTextValue(n);
    case List(items) =>
      var a := ToJson(f, v).items;
      forall i | 0 <= i < |items| ensures FromJson(f, a[i]) == Rounded(f, items[i]) {
        FromToJson(f, items[i]);
      }
      DecodedList(f, items, a);
    case Dict(m) =>
      forall k | k in m ensures FromJson(f, ToJson(f, m[k])) == Rounded(f, m[k]) {
        FromToJson(f, m[k]);
      }
      DecodedDict(f, m);
    case _ =>
  }

  lemma DecodedList(f: Floats, items: seq<Value>, a: seq<Json>)
    requires |a| == |items| && forall i | 0 <= i < |items| :: FromJson(f, a[i]) == Rounded(f, items[i])
    ensures FromJson(f, Arr(a)) == Rounded(f, List(items))
  {
    if exists i | 0 <= i < |items| :: Rounded(f, items[i]).None? {
      var i :| 0 <= i < |items| && Rounded(f, items[i]).None?;
      assert FromJson(f, a[i]).None?;
    } else {
      assert forall i | 0 <= i < |a| :: FromJson(f, a[i]).Some?;
      assert FromJson(f, Arr(a)).value.items == Rounded(f, List(items)).value.items;
    }
  }

  lemma DecodedDict(f: Floats, m: map<string, Value>)
    requires forall k | k in m :: FromJson(f, ToJson(f, m[k])) == Rounded(f, m[k])
    ensures FromJson(f, ToJson(f, Dict(m))) == Rounded(f, Dict(m))
  {
    var fields := ToJson(f, Dict(m)).fields;
    FieldsOfDict(f, m);
    forall i | 0 <= i < |fields| ensures FromJson(f, fields[i].val) == Rounded(f, m[fields[i].key]) {
    }
    DecodedFields(f, m, fields);
  }

  /** Every member stands for the map's value at its key. */
  ghost predicate Stands(f: Floats, m: map<string, Value>, fields: seq<Field>) {
    && KeysOf(fields) == m.Keys
    && forall i | 0 <= i < |fields| :: fields[i].key in m && FromJson(f, fields[i].val) == Rounded(f, m[fields[i].key])
  }

  lemma NoneDecoded(f: Floats, m: map<string, Value>, fields: seq<Field>, k: string)
    requires Stands(f, m, fields) && k in m && Rounded(f, m[k]).None?
    ensures FromJson(f, Obj(fields)).None? && Rounded(f, Dict(m)).None?
  {
    assert k in KeysOf(fields);
    assert FromJson(f, fields[LastOf(fields, k)].val).None?;
  }

  lemma AllDecoded(f: Floats, m: map<string, Value>, fields: seq<Field>)
    requires Stands(f, m, fields) && forall k | k in m :: Rounded(f, m[k]).Some?
    ensures FromJson(f, Obj(fields)).Some? && FromJson(f, Obj(fields)).value.Dict?
    ensures FromJson(f, Obj(fields)).value.entries.Keys == m.Keys
    ensures forall k | k in m :: FromJson(f, Obj(fields)).value.entries[k] == Rounded(f, m[k]).value
    ensures Rounded(f, Dict(m)).Some?
  {
    assert forall i | 0 <= i < |fields| :: FromJson(f, fields[i].val).Some?;
    forall k | k in m ensures FromJson(f, Obj(fields)).value.entries[k] == Rounded(f, m[k]).value {
      assert k in KeysOf(fields);
      assert fields[LastOf(fields, k)].key == k;
    }
  }

  lemma DecodedFields(f: Floats, m: map<string, Value>, fields: seq<Field>)
    requires Stands(f, m, fields)
    ensures FromJson(f, Obj(fields)) == Rounded(f, Dict(m))
  {
    if exists k | k in m :: Rounded(f, m[k]).None? {
      var k :| k in m && Rounded(f, m[k]).None?;
      NoneDecoded(f, m, fields, k);
    } else {
      AllDecoded(f, m, fields);
      SameEntries(FromJson(f, Obj(fields)).value.entries, Rounded(f, Dict(m)).value.entries);
    }
  }

  lemma SameEntries(m: map<string, Value>, n: map<string, Value>)
    requires m.Keys == n.Keys && forall k | k in m :: m[k] == n[k]
    ensures m == n
  {
  }

  /** Numbers come back as they were exactly when every integer is a float64. */
  lemma {:induction false} RoundedIff(f: Floats, v: Value)
    ensures Rounded(f, v) == Some(Amounts(v)) <==> Fixed(f, v)
    decreases v
  {
    match v
    case List(items) =>
      forall i | 0 <= i < |items| ensures Rounded(f, items[i]) == Some(Amounts(items[i])) <==> Fixed(f, items[i]) {
        RoundedIff(f, items[i]);
      }
      RoundedList(f, items);
    case Dict(m) =>
      forall k | k in m ensures Rounded(f, m[k]) == Some(Amounts(m[k])) <==> Fixed(f, m[k]) {
        RoundedIff(f, m[k]);
      }
      RoundedDict(f, m);
    case _ =>
  }

  lemma RoundedList(f: Floats, items: seq<Value>)
    requires forall i | 0 <= i < |items| :: Rounded(f, items[i]) == Some(Amounts(items[i])) <==> Fixed(f, items[i])
    ensures Rounded(f, List(items)) == Some(Amounts(List(items))) <==> Fixed(f, List(items))
  {
    var v := List(items);
    if Rounded(f, v) == Some(Amounts(v)) {
      forall i | 0 <= i < |items| ensures Fixed(f, items[i]) {
        assert Rounded(f, v).value.items[i] == Amounts(v).items[i];
      }
    }
    if Fixed(f, v) {
      assert Rounded(f, v).value.items == Amounts(v).items;
    }
  }

  lemma RoundedDict(f: Floats, m: map<string, Value>)
    requires forall k | k in m :: Rounded(f, m[k]) == Some(Amounts(m[k])) <==> Fixed(f, m[k])
    ensures Rounded(f, Dict(m)) == Some(Amounts(Dict(m))) <==> Fixed(f, Dict(m))
  {
    var v := Dict(m);
    if Rounded(f, v) == Some(Amounts(v)) {
      forall k | k in m ensures Fixed(f, m[k]) {
        assert Rounded(f, v).value.entries[k] == Amounts(v).entries[k];
      }
    }
    if Fixed(f, v) {
      assert Rounded(f, v).value.entries == Amounts(v).entries;
    }
  }

  /** The text stays the same exactly when every integer keeps its own. */
  lemma {:induction false} PlainIff(f: Floats, v: Value)
    ensures Keeps(f, v) <==> Plain(f, v)
    decreases v
  {
    match v
    case List(items) =>
      forall i | 0 <= i < |items| ensures Keeps(f, items[i]) <==> Plain(f, items[i]) {
        PlainIff(f, items[i]);
      }
      PlainList(f, items);
    case Dict(m) =>
      forall k | k in m ensures Keeps(f, m[k]) <==> Plain(f, m[k]) {
        PlainIff(f, m[k]);
      }
      PlainDict(f, m);
    case _ =>
  }

  predicate Keeps(f: Floats, v: Value) {
    Rounded(f, v).Some? && ToJson(f, Rounded(f, v).value) == ToJson(f, v)
  }

  lemma KeepsItem(f: Floats, items: seq<Value>, i: nat)
    requires Keeps(f, List(items)) && i < |items|
    ensures Keeps(f, items[i])
  {
    var r := Rounded(f, List(items)).value.items;
    assert r[i] == Rounded(f, items[i]).value;
    assert ToJson(f, List(r)).items[i] == ToJson(f, List(items)).items[i];
  }

  lemma KeepsItems(f: Floats, items: seq<Value>)
    requires forall i | 0 <= i < |items| :: Keeps(f, items[i])
    ensures Keeps(f, List(items))
  {
    assert Rounded(f, List(items)).Some?;
    var r := Rounded(f, List(items)).value.items;
    assert forall i | 0 <= i < |items| :: r[i] == Rounded(f, items[i]).value;
    assert ToJson(f, List(r)).items == ToJson(f, List(items)).items;
  }

  lemma PlainList(f: Floats, items: seq<Value>)
    requires forall i | 0 <= i < |items| :: Keeps(f, items[i]) <==> Plain(f, items[i])
    ensures Keeps(f, List(items)) <==> Plain(f, List(items))
  {
    if Keeps(f, List(items)) {
      forall i | 0 <= i < |items| ensures Plain(f, items[i]) {
        KeepsItem(f, items, i);
      }
    }
    if Plain(f, List(items)) {
      KeepsItems(f, items);
    }
  }

  lemma KeepsEntry(f: Floats, m: map<string, Value>, k: string)
    requires Keeps(f, Dict(m)) && k in m
    ensures Keeps(f, m[k])
  {
    var r := Rounded(f, Dict(m)).value.entries;
    assert r.Keys == m.Keys && k in Sorted(m.Keys);
    var i :| 0 <= i < |Sorted(m.Keys)| && Sorted(m.Keys)[i] == k;
    FieldAt(f, m, i);
    FieldAt(f, r, i);
  }

  lemma KeepsEntries(f: Floats, m: map<string, Value>)
    requires forall k | k in m :: Keeps(f, m[k])
    ensures Keeps(f, Dict(m))
  {
    assert Rounded(f, Dict(m)).Some?;
    var r := Rounded(f, Dict(m)).value.entries;
    assert r.Keys == m.Keys;
    forall i | 0 <= i < |Sorted(m.Keys)| ensures ToJson(f, Dict(r)).fields[i] == ToJson(f, Dict(m)).fields[i] {
      FieldAt(f, m, i);
      FieldAt(f, r, i);
    }
    assert ToJson(f, Dict(r)).fields == ToJson(f, Dict(m)).fields;
  }

  lemma PlainDict(f: Floats, m: map<string, Value>)
    requires forall k | k in m :: Keeps(f, m[k]) <==> Plain(f, m[k])
    ensures Keeps(f, Dict(m)) <==> Plain(f, Dict(m))
  {
    if Keeps(f, Dict(m)) {
      forall k | k in m ensures Plain(f, m[k]) {
        KeepsEntry(f, m, k);
      }
    }
    if Plain(f, Dict(m)) {
      KeepsEntries(f, m);
    }
  }

  // ----- decoded values

  /** A value that decoding leaves alone. */
  predicate Settled(f: Floats, v: Value) {
    Float64s(f, v) && Rounded(f, v) == Some(v)
  }

  /** What the decoder makes is settled. */
  lemma {:induction false} DecodedSettles(f: Floats, j: Json)
    requires Sound(f) && FromJson(f, j).Some?
    ensures Settled(f, FromJson(f, j).value)
    decreases j
  {
    match j
    case Arr(items) =>
      forall i | 0 <= i < |items| ensures Settled(f, FromJson(f, items[i]).value) {
        DecodedSettles(f, items[i]);
      }
      SettledList(f, FromJson(f, j).value.items);
    case Obj(fields) =>
      forall i | 0 <= i < |fields| ensures Settled(f, FromJson(f, fields[i].val).value) {
        DecodedSettles(f, fields[i].val);
      }
      SettledDict(f, FromJson(f, j).value.entries);
    case _ =>
  }

  lemma SettledList(f: Floats, items: seq<Value>)
    requires forall i | 0 <= i < |items| :: Settled(f, items[i])
    ensures Settled(f, List(items))
  {
    assert Rounded(f, List(items)).value.items == items;
  }

  lemma SettledDict(f: Floats, m: map<string, Value>)
    requires forall k | k in m :: Settled(f, m[k])
    ensures Settled(f, Dict(m))
  {
    assert Rounded(f, Dict(m)).value.entries == m;
  }
}
