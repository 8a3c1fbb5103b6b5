/** Lexicographic string order and sorted key sequences. */
module Ordering {
  /** Python's order on strings: by code point, a proper prefix first. */
  predicate Le(a: string, b: string) {
    a == "" || (b != "" && (a[0] < b[0] || (a[0] == b[0] && Le(a[1..], b[1..]))))
  }

  lemma {:induction false} LeTotal(a: string, b: string)
    ensures Le(a, b) || Le(b, a)
  {
    if a != "" && b != "" && a[0] == b[0] { LeTotal(a[1..], b[1..]); }
  }

  lemma {:induction false} LeAntisymmetric(a: string, b: string)
    requires Le(a, b) && Le(b, a)
    ensures a == b
  {
    if a != "" {
      LeAntisymmetric(a[1..], b[1..]);
      assert a == [a[0]] + a[1..] && b == [b[0]] + b[1..];
    }
  }

  lemma {:induction false} LeTransitive(a: string, b: string, c: string)
    requires Le(a, b) && Le(b, c)
    ensures Le(a, c)
  {
    if a != "" && a[0] == b[0] == c[0] { LeTransitive(a[1..], b[1..], c[1..]); }
  }

  predicate Least(m: string, keys: set<string>) {
    m in keys && forall k :: k in keys ==> Le(m, k)
  }

  lemma {:induction false} LeastExists(keys: set<string>)
    requires keys != {}
    ensures exists m :: Least(m, keys)
    decreases |keys|
  {
    var x :| x in keys;
    LeTotal(x, x);
    if keys == {x} {
      assert Least(x, keys);
    } else {
      var rest := keys - {x};
      assert keys == rest + {x};
      LeastExists(rest);
      var m :| Least(m, rest);
      LeTotal(x, m);
      if Le(m, x) {
        assert Least(m, keys);
      } else {
        forall k | k in keys ensures Le(x, k) { if k != x { LeTransitive(x, m, k); } }
        assert Least(x, keys);
      }
    }
  }

  lemma LeastUnique(a: string, b: string, keys: set<string>)
    requires Least(a, keys) && Least(b, keys)
    ensures a == b
  {
    LeAntisymmetric(a, b);
  }

  function LeastOf(keys: set<string>): (m: string)
    requires keys != {}
    ensures Least(m, keys)
  {
    LeastExists(keys);
    assert forall a, b | Least(a, keys) && Least(b, keys) :: a == b by {
      forall a, b | Least(a, keys) && Least(b, keys) ensures a == b { LeastUnique(a, b, keys); }
    }
    var m :| Least(m, keys);
    m
  }

  function Elements(s: seq<string>): set<string> { set x | x in s }

  predicate Distinct<T(==)>(s: seq<T>) { forall i, j :: 0 <= i < j < |s| ==> s[i] != s[j] }

  /** The sequence names each of the keys once. */
  predicate Lists(order: seq<string>, keys: set<string>) { Distinct(order) && Elements(order) == keys }

  predicate Sorted(s: seq<string>) { forall i, j :: 0 <= i < j < |s| ==> Le(s[i], s[j]) }

  /** The keys in ascending order, each once. */
  function SortedKeys(keys: set<string>): (r: seq<string>)
    ensures |r| == |keys| && Elements(r) == keys
    ensures Sorted(r) && Distinct(r)
    decreases |keys|
  {
    if keys == {} then []
    else
      var m := LeastOf(keys);
      var rest := SortedKeys(keys - {m});
      var r := [m] + rest;
      assert Elements(r) == keys by {
        assert forall x :: x in r <==> x == m || x in Elements(rest);
      }
      assert Sorted(r) && Distinct(r) by {
        assert forall i :: 0 <= i < |rest| ==> rest[i] in Elements(rest);
      }
      r
  }

  lemma {:induction false} DistinctCount(s: seq<string>)
    requires Distinct(s)
    ensures |Elements(s)| == |s|
  {
    if s != [] {
      var front, x := s[..|s| - 1], s[|s| - 1];
      DistinctCount(front);
      assert Elements(s) == Elements(front) + {x};
      assert x !in front;
    }
  }
}
