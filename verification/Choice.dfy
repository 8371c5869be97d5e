/** Taking an element of a set: once and for all in a proof, in any order in a program. */
module Choice {

  ghost function Pick<T>(s: set<T>): (x: T)
    requires s != {}
    ensures x in s
  {
    var x :| x in s; x
  }

  /** The next element of an iteration whose order nothing promises (a Go map, an unordered query). */
  method Any<T(==)>(s: set<T>) returns (x: T)
    requires s != {}
    ensures x in s
  {
    x :| x in s;
  }
}
