/** Iteration over the keys of an unordered map, in an order the caller does not know. */
module Collections {
  method AnyOf<T(==)>(s: set<T>) returns (x: T)
    requires s != {}
    ensures x in s
  {
    x :| x in s;
  }
}
