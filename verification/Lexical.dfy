/** Lexical order of strings, as Go's sort.Strings and its sorted map keys use it. UTF-8 keeps the order
    of scalar values, so comparing characters and comparing bytes agree. */
module Lexical {

  predicate Below(a: string, b: string) {
    b != "" && (a == "" || a[0] < b[0] || (a[0] == b[0] && Below(a[1..], b[1..])))
  }

  /** One is a proper prefix of the other, or at the first difference its character is the lower one. */
  lemma {:induction false} BelowIff(a: string, b: string)
    ensures Below(a, b) <==> a < b || exists i :: DiffersAt(a, b, i) && a[i] < b[i]
  {
    if a == "" {
      assert b != "" ==> a < b;
    } else if b != "" && a[0] == b[0] {
      BelowIff(a[1..], b[1..]);
      assert a == [a[0]] + a[1..] && b == [b[0]] + b[1..];
      if i :| DiffersAt(a, b, i) && a[i] < b[i] {
        assert DiffersAt(a[1..], b[1..], i - 1) by {
          assert a[1..][..i - 1] == a[..i][1..] && b[1..][..i - 1] == b[..i][1..];
        }
      }
      if i :| DiffersAt(a[1..], b[1..], i) && a[1..][i] < b[1..][i] {
        assert a[..i + 1] == [a[0]] + a[1..][..i] && b[..i + 1] == [b[0]] + b[1..][..i];
        assert DiffersAt(a, b, i + 1);
      }
      assert a < b <==> a[1..] < b[1..];
    } else if b != "" {
      assert DiffersAt(a, b, 0);
      if i :| DiffersAt(a, b, i) && a[i] < b[i] {
        if i > 0 {
          AgreesAtStart(a, b, i);
        }
      }
    }
  }

  lemma AgreesAtStart(a: string, b: string, i: int)
    requires DiffersAt(a, b, i) && i > 0
    ensures a[0] == b[0]
  {
    assert a[..i][0] == a[0] && b[..i][0] == b[0];
  }

  /** The texts agree before this place and differ there. */
  predicate DiffersAt(a: string, b: string, i: int) {
    0 <= i < |a| && i < |b| && a[..i] == b[..i] && a[i] != b[i]
  }

  lemma {:induction false} Irreflexive(a: string)
    ensures !Below(a, a)
  {
    if a != "" {
      Irreflexive(a[1..]);
    }
  }

  lemma {:induction false} Trichotomy(a: string, b: string)
    ensures a == b || Below(a, b) || Below(b, a)
    ensures !(Below(a, b) && Below(b, a))
    ensures !Below(a, a)
  {
    Irreflexive(a);
    if a != "" && b != "" && a[0] == b[0] {
      Trichotomy(a[1..], b[1..]);
      assert a == [a[0]] + a[1..] && b == [b[0]] + b[1..];
    }
  }

  lemma {:induction false} Transitive(a: string, b: string, c: string)
    requires Below(a, b) && Below(b, c)
    ensures Below(a, c)
  {
    if a != "" && a[0] == b[0] == c[0] {
      Transitive(a[1..], b[1..], c[1..]);
    }
  }

  predicate IsLeast(m: string, s: set<string>) {
    m in s && forall x | x in s && x != m :: Below(m, x)
  }

  lemma {:induction false} LeastExists(s: set<string>)
    requires s != {}
    ensures exists m :: IsLeast(m, s)
    decreases |s|
  {
    var x :| x in s;
    if s == {x} {
      assert IsLeast(x, s);
    } else {
      LeastExists(s - {x});
      var m :| IsLeast(m, s - {x});
      Trichotomy(m, x);
      if Below(m, x) {
        assert IsLeast(m, s);
      } else {
        forall y | y in s && y != x ensures Below(x, y) {
          if y != m { Transitive(x, m, y); }
        }
        assert IsLeast(x, s);
      }
    }
  }

  lemma LeastUnique(s: set<string>)
    ensures forall m, n | IsLeast(m, s) && IsLeast(n, s) :: m == n
  {
    forall m, n | IsLeast(m, s) && IsLeast(n, s) ensures m == n {
      Trichotomy(m, n);
    }
  }

  function Least(s: set<string>): (m: string)
    requires s != {}
    ensures IsLeast(m, s)
  {
    LeastExists(s);
    LeastUnique(s);
    var m :| m in s && IsLeast(m, s);
    m
  }

  ghost predicate Ascending(q: seq<string>) {
    forall i, j | 0 <= i < j < |q| :: Below(q[i], q[j])
  }

  /** The members of a set in lexical order. */
  function Sorted(s: set<string>): (q: seq<string>)
    ensures Ascending(q)
    ensures forall x :: x in q <==> x in s
    ensures |q| == |s|
    decreases |s|
  {
    if s == {} then []
    else
      var m := Least(s);
      var rest := Sorted(s - {m});
      assert forall i | 0 <= i < |rest| :: rest[i] in s - {m};
      [m] + rest
  }

  /** The order a directory is read in does not matter: sorting has one possible result. */
  lemma {:induction false} SortedUnique(q: seq<string>, s: set<string>)
    requires Ascending(q) && forall x :: x in q <==> x in s
    ensures q == Sorted(s)
    decreases |q|
  {
    if q == [] {
      assert s == {};
    } else {
      assert q[0] in s;
      var m := Least(s);
      var k :| 0 <= k < |q| && q[k] == m;
      if k > 0 {
        Trichotomy(q[0], m);
        assert false;
      }
      forall x ensures x in q[1..] <==> x in s - {m} {
        if x in q[1..] {
          var j :| 0 <= j < |q| - 1 && q[1..][j] == x;
          Trichotomy(q[0], q[j + 1]);
        }
      }
      SortedUnique(q[1..], s - {m});
      assert q == [q[0]] + q[1..];
    }
  }

  lemma AscendingDistinct(q: seq<string>, i: nat, j: nat)
    requires Ascending(q) && i < |q| && j < |q| && q[i] == q[j]
    ensures i == j
  {
    Trichotomy(q[i], q[i]);
  }
}
