// Facts about finite sets that the other modules share.

module Sets {

  /** A non-empty set has a member to choose. */
  lemma Some<T>(s: set<T>) returns (x: T)
    requires s != {}
    ensures x in s
  {
    x :| x in s;
  }

  lemma SubsetSize<T>(a: set<T>, b: set<T>)
    requires a <= b
    ensures |a| <= |b|
    ensures |a| == |b| ==> a == b
  {
    assert b == a + (b - a);
  }

  /** Two sets too large to sit side by side in u have a common member. */
  lemma Overlap<T>(u: set<T>, a: set<T>, b: set<T>)
    requires a <= u && b <= u && |a| + |b| > |u|
    ensures a * b != {}
  {
    if a * b == {} {
      assert |a + b| == |a| + |b|;
      SubsetSize(a + b, u);
      assert false;
    }
  }
}
