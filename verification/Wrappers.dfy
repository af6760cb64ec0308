/** Result shapes shared by the whole project. */
module Wrappers {
  datatype Option<+T> = None | Some(value: T) {
    /** JavaScript's `x ?? default` on a value that may be null or undefined. */
    function GetOr(default: T): T {
      match this
      case None => default
      case Some(v) => v
    }
  }

  datatype Result<+T, +E> = Success(value: T) | Failure(error: E)

  /** A non-empty set of identifiers has a member. */
  lemma SomeMember(s: set<int>)
    requires s != {}
    ensures exists x :: x in s
  {
    assert (forall x :: x !in s) ==> s == {};
  }
}
