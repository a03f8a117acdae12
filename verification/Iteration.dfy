/** Visiting the keys of a hash map, in whatever order it stores them. */
module Iteration {
  method Any<K(==)>(s: set<K>) returns (x: K)
    requires s != {}
    ensures x in s
  {
    x :| x in s;
  }
}
