module Wrappers {
  datatype Option<+T> = None | Some(value: T)
}

/** Finite sets: picking a member, counting, and overlap of large subsets. */
module Sets {
  lemma Member<T>(s: set<T>) returns (x: T)
    requires s != {}
    ensures x in s
  {
    x :| x in s;
  }

  predicate InRange(s: set<int>, n: nat) { forall q :: q in s ==> 0 <= q < n }

  function Below(n: nat): (s: set<int>)
    ensures |s| == n && forall x :: x in s <==> 0 <= x < n
  {
    if n == 0 then {} else Below(n - 1) + {n - 1}
  }

  lemma Cardinality(s: set<int>, n: nat)
    requires InRange(s, n)
    ensures |s| <= n
  {
    if n > 0 {
      var rest := s - {n - 1};
      Cardinality(rest, n - 1);
      assert s <= rest + {n - 1};
      if n - 1 in s { assert |s| == |rest| + 1; } else { assert s == rest; }
    } else if s != {} {
      var q := Member(s);
      assert false;
    }
  }

  /** Two sets whose sizes add up to more than n have a node in common. */
  lemma Overlap(a: set<int>, b: set<int>, n: nat) returns (q: int)
    requires InRange(a, n) && InRange(b, n) && |a| + |b| > n
    ensures q in a && q in b
  {
    if a * b == {} {
      assert |a + b| == |a| + |b|;
      Cardinality(a + b, n);
      assert false;
    }
    q := Member(a * b);
  }
}
