/** Small facts about finite sets that the loops over Swift `Set`s and dictionaries rely on. */
module Sets {

  lemma NoMemberIsEmpty<T>(s: set<T>)
    requires forall x :: x !in s
    ensures s == {}
  {
    assert forall x :: x in s <==> x in {};
  }

  /** A non-empty set has a member: what `for x in set` needs to pick the next element. */
  lemma Member<T>(s: set<T>) returns (x: T)
    requires s != {}
    ensures x in s
  {
    if forall y :: y !in s {
      NoMemberIsEmpty(s);
    }
    x :| x in s;
  }
}
