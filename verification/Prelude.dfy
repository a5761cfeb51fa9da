/** What several modules need: optional values, and picking members of a finite set. */
module Prelude {

  datatype Option<T> = None | Some(value: T)

  lemma HasMember<T(!new)>(s: set<T>)
    ensures s == {} || exists x :: x in s
  {
    if forall x :: x !in s { assert s == {}; }
  }
}
