/** Sizes of finite sets. */
module FiniteSets {

  lemma {:induction false} SubsetCard<T>(a: set<T>, b: set<T>)
    requires a <= b
    ensures |a| <= |b|
  {
    if x :| x in a {
      SubsetCard(a - {x}, b - {x});
    }
  }

  lemma SmallerCard<T>(a: set<T>, b: set<T>, x: T)
    requires a <= b && x in b && x !in a
    ensures |a| < |b|
  {
    SubsetCard(a, b - {x});
  }

  /** Taking one element more off `todo` adds one to what is done. */
  lemma OneMore<T>(all: set<T>, todo: set<T>, x: T)
    requires x in todo && todo <= all
    ensures |all - (todo - {x})| == |all - todo| + 1
  {
    assert all - (todo - {x}) == all - todo + {x};
  }
}
