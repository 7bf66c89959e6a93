/** Sizes of finite sets. */
module Sets {

  lemma SubsetSize<T>(a: set<T>, b: set<T>)
    requires a <= b
    ensures |a| <= |b|
  {
    assert b == a + (b - a);
  }

  lemma Removal<T>(before: set<T>, gone: set<T>, after: set<T>)
    requires gone <= before && after <= before - gone
    ensures |after| + |gone| <= |before|
  {
    assert before == (before - gone) + gone;
    assert before - gone == after + (before - gone - after);
  }
}
