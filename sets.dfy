/** Iterating over a Python `set` or the keys of a `dict`, in an order the model leaves open. */
module Sets {

  /** Some element of a non-empty set. */
  method Pick<T>(s: set<T>) returns (x: T)
    requires s != {}
    ensures x in s
  {
    if forall y :: y !in s {
      assert false;
    }
    x :| x in s;
  }
}
