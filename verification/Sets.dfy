/** Taking some element of a set, as ranging over a map does. */
module Sets {

  method Choose<T(==)>(s: set<T>) returns (x: T)
    requires s != {}
    ensures x in s
  {
    x :| x in s;
  }
}
