/** Sizes of finite sets. */
module Sets {
  lemma SmallerSet<T>(a: set<T>, b: set<T>)
    requires a < b
    ensures |a| < |b|
  {
    assert b == a + (b - a);
    assert b - a != {};
  }

  lemma SubsetCount<T>(a: set<T>, b: set<T>)
    requires a <= b
    ensures |a| <= |b|
  {
    assert b == a + (b - a);
  }

  /** Taking an element out of the rest still to be seen. */
  lemma OneMoreSeen<T>(all: set<T>, rest: set<T>, x: T)
    requires x in rest
    ensures |all - (rest - {x})| == |all - rest| + if x in all then 1 else 0
  {
    assert all - (rest - {x}) == if x in all then all - rest + {x} else all - rest;
  }
}
