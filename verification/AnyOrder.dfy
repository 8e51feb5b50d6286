/** Going through a set or the keys of a map in no particular order, as a range over a Go map does. */
module AnyOrder {
  method Take<T(==)>(s: set<T>) returns (x: T, rest: set<T>)
    requires s != {}
    ensures x in s && rest == s - {x} && |rest| < |s|
  {
    x :| x in s;
    rest := s - {x};
  }

  lemma SameMap<K, V>(a: map<K, V>, b: map<K, V>)
    requires forall k | k in a :: k in b && a[k] == b[k]
    requires forall k | k in b :: k in a
    ensures a == b
  {
  }

  ghost predicate ComesFirst<T(!new)>(s: set<T>, leq: (T, T) -> bool, x: T) { x in s && forall y | y in s :: leq(x, y) }

  /** Of a finite set in a total order one element comes first. */
  lemma {:induction false} LeastOf<T(!new)>(s: set<T>, leq: (T, T) -> bool) returns (least: T)
    requires s != {}
    requires forall x: T, y: T :: leq(x, y) || leq(y, x)
    requires forall x: T, y: T, z: T :: leq(x, y) && leq(y, z) ==> leq(x, z)
    ensures ComesFirst(s, leq, least)
    decreases |s|
  {
    var some :| some in s;
    var rest := s - {some};
    least := some;
    if rest != {} {
      var first := LeastOf(rest, leq);
      least := if leq(some, first) then some else first;
    }
    forall y | y in s ensures leq(least, y) {
      assert y == some || y in rest;
    }
  }
}
