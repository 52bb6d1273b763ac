/** Sizes of finite sets. */
module Sets {

  /** The elements of a sequence without repetition are as many as its length. */
  lemma {:induction false} SetOfDistinct<T>(q: seq<T>)
    requires forall i, j | 0 <= i < j < |q| :: q[i] != q[j]
    ensures |(set x | x in q)| == |q|
  {
    if q != [] {
      SetOfDistinct(q[1..]);
      assert (set x | x in q) == (set x | x in q[1..]) + {q[0]};
    }
  }

  lemma {:induction false} Subset<T>(a: set<T>, b: set<T>)
    requires a <= b
    ensures |a| <= |b|
    decreases |a|
  {
    if a != {} {
      var x :| x in a;
      Subset(a - {x}, b - {x});
    }
  }
}
