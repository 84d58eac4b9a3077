/** Choosing the first element of a finite set of ids in a given order. */
module Pick {

  /** Order by key, then by id. */
  predicate Precedes(key: int -> int, a: int, b: int) {
    key(a) < key(b) || (key(a) == key(b) && a <= b)
  }

  /** m comes first in s. */
  predicate IsLeast(s: set<int>, key: int -> int, m: int) {
    m in s && forall j :: j in s ==> Precedes(key, m, j)
  }

  /** Every non-empty finite set of ids has a first element. */
  lemma {:induction false} LeastExists(s: set<int>, key: int -> int)
    requires exists x :: x in s
    ensures exists m :: IsLeast(s, key, m)
    decreases |s|
  {
    var x :| x in s;
    var rest := s - {x};
    assert |rest| == |s| - 1;
    var w: int;
    if exists y :: y in rest {
      LeastExists(rest, key);
      var m :| IsLeast(rest, key, m);
      if Precedes(key, x, m) {
        forall j | j in s ensures Precedes(key, x, j) {
          if j != x { assert j in rest && Precedes(key, m, j); }
        }
        w := x;
      } else {
        forall j | j in s ensures Precedes(key, m, j) {
          if j != x { assert j in rest; }
        }
        w := m;
      }
    } else {
      forall j | j in s ensures Precedes(key, x, j) {
        assert j !in rest;
      }
      w := x;
    }
    assert IsLeast(s, key, w);
  }

  /** The first element of a non-empty set of ids in key order (ties: lowest id). */
  ghost function Least(s: set<int>, key: int -> int): (m: int)
    requires exists x :: x in s
    ensures IsLeast(s, key, m)
  {
    LeastExists(s, key);
    var m :| IsLeast(s, key, m);
    m
  }

  /** Only one element comes first. */
  lemma LeastUnique(s: set<int>, key: int -> int, m: int)
    requires IsLeast(s, key, m)
    ensures m == Least(s, key)
  {
    var l := Least(s, key);
    assert Precedes(key, m, l) && Precedes(key, l, m);
  }
}
