/** Facts about finite sets of indices. */
module Sets {

  /** A non-empty set has a member. */
  lemma SomeMember(s: set<int>)
    requires s != {}
    ensures exists k :: k in s
  {
    if forall k :: k !in s {
      assert false;
    }
  }
}
