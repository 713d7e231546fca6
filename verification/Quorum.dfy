/** Finite-set counting: two strict majorities of the same acceptors meet. */
module Quorum {

  lemma {:induction false} SubsetSize<T>(a: set<T>, b: set<T>)
    requires a <= b
    ensures |a| <= |b|
  {
    if a != {} {
      var x :| x in a;
      SubsetSize(a - {x}, b - {x});
    }
  }

  /**
   Counting only against the configured number of acceptors is enough: the
   configured number may exceed the number of distinct acceptors.
   */
  lemma MajoritiesMeet(all: set<int>, n: nat, a: set<int>, b: set<int>)
    requires |all| <= n
    requires a <= all && b <= all
    requires |a| > n / 2 && |b| > n / 2
    ensures exists x :: x in a && x in b
  {
    if forall x | x in a :: x !in b {
      assert a * b == {};
      SubsetSize(a + b, all);
      assert false;
    }
  }
}
