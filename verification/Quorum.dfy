/** Majorities of a cluster whose servers are numbered 0 .. n-1. */
module Quorum {

  ghost predicate Majority(q: set<nat>, n: nat) {
    && (forall v :: v in q ==> v < n)
    && 2 * |q| > n
  }

  lemma {:induction false} BoundedCardinality(q: set<nat>, n: nat)
    requires forall v :: v in q ==> v < n
    ensures |q| <= n
    decreases n
  {
    if n == 0 {
      assert q == {};
    } else {
      BoundedCardinality(q - {n - 1}, n - 1);
      if n - 1 !in q {
        assert q - {n - 1} == q;
      }
    }
  }

  // Any two majorities share a server.
  lemma Intersect(q1: set<nat>, q2: set<nat>, n: nat) returns (v: nat)
    requires Majority(q1, n) && Majority(q2, n)
    ensures v in q1 && v in q2
  {
    BoundedCardinality(q1 + q2, n);
    assert |q1 + q2| + |q1 * q2| == |q1| + |q2|;
    v :| v in q1 * q2;
  }
}
