/** Finite sets: sizes of subsets and least elements. */
module Sets {

  lemma {:induction false} SubsetSize<T>(a: set<T>, b: set<T>)
    requires a <= b
    ensures |a| <= |b|
  {
    if a != {} {
      var x :| x in a;
      SubsetSize(a - {x}, b - {x});
    }
  }

  /** A subset as large as its superset is all of it. */
  lemma {:induction false} FullSubset<T>(a: set<T>, b: set<T>)
    requires a <= b && |a| >= |b|
    ensures a == b
  {
    if a != {} {
      var x :| x in a;
      FullSubset(a - {x}, b - {x});
    }
  }

  lemma Pick<T>(s: set<T>) returns (x: T)
    requires s != {}
    ensures x in s
  {
    x :| x in s;
  }

  ghost function Element<T>(s: set<T>): (x: T)
    requires s != {}
    ensures x in s
  {
    var x :| x in s; x
  }

  lemma {:induction false} SmallestExists(s: set<int>) returns (x: int)
    requires s != {}
    ensures x in s && forall y :: y in s ==> x <= y
  {
    var p := Pick(s);
    x := p;
    if s != {p} {
      var y := SmallestExists(s - {p});
      x := if y < p then y else p;
      assert forall z :: z in s ==> z == p || z in s - {p};
    }
  }
}
