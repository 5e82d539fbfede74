// `Array.prototype.sort` with a numeric comparator. ECMAScript 2019
// (section 22.1.3.27) requires the sort to be stable, so the result of sorting by
// a comparator of the form `key(b) - key(a)` is fully determined: keys
// non-increasing, and elements with equal keys in their original order. The
// model computes that result by a stable insertion sort.

module StableSort {

  predicate SortedDesc<T>(s: seq<T>, key: T -> real)
  {
    forall i, j :: 0 <= i < j < |s| ==> key(s[i]) >= key(s[j])
  }

  predicate SortedAsc<T>(s: seq<T>, key: T -> real)
  {
    forall i, j :: 0 <= i < j < |s| ==> key(s[i]) <= key(s[j])
  }

  /** The elements of `s` whose key is `v`, in their order in `s`. */
  function KeyClass<T>(s: seq<T>, key: T -> real, v: real): seq<T>
  {
    if s == [] then []
    else (if key(s[0]) == v then [s[0]] else []) + KeyClass(s[1..], key, v)
  }

  /** A key class holds only elements of the array that carry that key. */
  lemma {:induction false} KeyClassMembers<T>(s: seq<T>, key: T -> real, v: real)
    ensures forall x | x in KeyClass(s, key, v) :: x in s && key(x) == v
    decreases |s|
  {
    if s != [] {
      KeyClassMembers(s[1..], key, v);
    }
  }

  /** Places `x` in front of the first element whose key is not larger. */
  function Insert<T>(x: T, s: seq<T>, key: T -> real): (r: seq<T>)
    ensures |r| == |s| + 1
    ensures r[0] == x || (s != [] && r[0] == s[0])
  {
    if s == [] || key(x) >= key(s[0]) then [x] + s
    else [s[0]] + Insert(x, s[1..], key)
  }

  /** Inserting adds `x` and loses nothing. */
  lemma {:induction false} InsertMultiset<T>(x: T, s: seq<T>, key: T -> real)
    ensures multiset(Insert(x, s, key)) == multiset(s) + multiset{x}
    decreases |s|
  {
    if s != [] && key(x) < key(s[0]) {
      InsertMultiset(x, s[1..], key);
      assert s == [s[0]] + s[1..];
    }
  }

  /** Putting in front of a sorted array an element whose key is at least the
      first one's keeps it sorted. */
  lemma SortedCons<T>(h: T, t: seq<T>, key: T -> real)
    requires SortedDesc(t, key) && (t == [] || key(h) >= key(t[0]))
    ensures SortedDesc([h] + t, key)
  {
    var r := [h] + t;
    forall i, j | 0 <= i < j < |r| ensures key(r[i]) >= key(r[j]) {
      assert r[j] == t[j - 1];
      if i > 0 {
        assert r[i] == t[i - 1];
      }
    }
  }

  /** Inserting into a sorted array keeps it sorted. */
  lemma {:induction false} InsertSorted<T>(x: T, s: seq<T>, key: T -> real)
    requires SortedDesc(s, key)
    ensures SortedDesc(Insert(x, s, key), key)
    decreases |s|
  {
    if s == [] || key(x) >= key(s[0]) {
      SortedCons(x, s, key);
    } else {
      var t := s[1..];
      assert SortedDesc(t, key) by {
        forall i, j | 0 <= i < j < |t| ensures key(t[i]) >= key(t[j]) {
          assert t[i] == s[i + 1] && t[j] == s[j + 1];
        }
      }
      InsertSorted(x, t, key);
      var rest := Insert(x, t, key);
      assert t != [] ==> key(s[0]) >= key(t[0]) by {
        if t != [] {
          assert t[0] == s[1];
        }
      }
      SortedCons(s[0], rest, key);
    }
  }

  /** The array sorted by `key`, largest first, ties in input order. */
  function SortDesc<T>(s: seq<T>, key: T -> real): (r: seq<T>)
    ensures multiset(r) == multiset(s)
    ensures |r| == |s|
    ensures SortedDesc(r, key)
  {
    if s == [] then []
    else
      assert s == [s[0]] + s[1..];
      var rest := SortDesc(s[1..], key);
      InsertSorted(s[0], rest, key);
      InsertMultiset(s[0], rest, key);
      Insert(s[0], rest, key)
  }

  /** The array sorted by `key`, smallest first, ties in input order. */
  function SortAsc<T>(s: seq<T>, key: T -> real): (r: seq<T>)
    ensures multiset(r) == multiset(s)
    ensures |r| == |s|
    ensures SortedAsc(r, key)
  {
    var neg := (x: T) => -key(x);
    var r := SortDesc(s, neg);
    assert forall i, j :: 0 <= i < j < |r| ==> neg(r[i]) >= neg(r[j]);
    r
  }

  lemma {:induction false} InsertKeyClass<T>(x: T, s: seq<T>, key: T -> real, v: real)
    ensures KeyClass(Insert(x, s, key), key, v) == (if key(x) == v then [x] else []) + KeyClass(s, key, v)
    decreases |s|
  {
    var r := Insert(x, s, key);
    var hx: seq<T> := if key(x) == v then [x] else [];
    if s == [] || key(x) >= key(s[0]) {
      assert r[1..] == s;
    } else {
      var rest := Insert(x, s[1..], key);
      InsertKeyClass(x, s[1..], key, v);
      var hs: seq<T> := if key(s[0]) == v then [s[0]] else [];
      assert r[0] == s[0] && r[1..] == rest;
      assert KeyClass(r, key, v) == hs + KeyClass(rest, key, v);
      assert KeyClass(s, key, v) == hs + KeyClass(s[1..], key, v);
      if hs == [] {
        assert KeyClass(r, key, v) == hx + KeyClass(s[1..], key, v);
      } else {
        assert hx == [];
      }
    }
  }

  /** Stability: for every key, the elements with that key appear in the sorted
      array in the same order as in the input. */
  lemma {:induction false} SortDescStable<T>(s: seq<T>, key: T -> real, v: real)
    ensures KeyClass(SortDesc(s, key), key, v) == KeyClass(s, key, v)
    decreases |s|
  {
    if s != [] {
      SortDescStable(s[1..], key, v);
      InsertKeyClass(s[0], SortDesc(s[1..], key), key, v);
    }
  }

  lemma SortAscStable<T>(s: seq<T>, key: T -> real, v: real)
    ensures KeyClass(SortAsc(s, key), key, v) == KeyClass(s, key, v)
  {
    var neg := (x: T) => -key(x);
    SortDescStable(s, neg, -v);
    KeyClassNegated(SortDesc(s, neg), key, v);
    KeyClassNegated(s, key, v);
  }

  lemma {:induction false} KeyClassNegated<T>(s: seq<T>, key: T -> real, v: real)
    ensures KeyClass(s, (x: T) => -key(x), -v) == KeyClass(s, key, v)
    decreases |s|
  {
    if s != [] {
      KeyClassNegated(s[1..], key, v);
    }
  }

  /** A comparator that always returns 0: the stable sort keeps the input order. */
  lemma {:induction false} SortDescEqualKeys<T>(s: seq<T>, key: T -> real)
    requires forall i :: 0 <= i < |s| ==> key(s[i]) == key(s[0])
    ensures SortDesc(s, key) == s
    decreases |s|
  {
    if s != [] {
      SortDescEqualKeys(s[1..], key);
      assert s == [s[0]] + s[1..];
    }
  }

  /** The first element of an array sorted largest first has the largest key. */
  lemma SortedDescHead<T>(s: seq<T>, key: T -> real, x: T)
    requires SortedDesc(s, key) && x in s
    ensures key(s[0]) >= key(x)
  {
    var j :| 0 <= j < |s| && s[j] == x;
    assert j == 0 || key(s[0]) >= key(s[j]);
  }

  lemma KeyClassesNonEmpty<T>(r: seq<T>, t: seq<T>, key: T -> real)
    requires forall v :: KeyClass(r, key, v) == KeyClass(t, key, v)
    requires t != []
    ensures r != []
  {
    assert KeyClass(r, key, key(t[0])) == KeyClass(t, key, key(t[0]));
  }

  /** Two arrays sorted largest first whose key classes agree are equal. */
  lemma {:induction false} SortedSameClassesEqual<T>(r: seq<T>, t: seq<T>, key: T -> real)
    requires SortedDesc(r, key) && SortedDesc(t, key)
    requires forall v :: KeyClass(r, key, v) == KeyClass(t, key, v)
    ensures r == t
    decreases |r| + |t|
  {
    if r == [] || t == [] {
      if t != [] {
        KeyClassesNonEmpty(r, t, key);
      } else if r != [] {
        KeyClassesNonEmpty(t, r, key);
      }
    } else {
      var a := key(r[0]);
      assert KeyClass(t, key, a) == KeyClass(r, key, a);
      KeyClassMembers(t, key, a);
      SortedDescHead(t, key, KeyClass(t, key, a)[0]);
      var b := key(t[0]);
      assert KeyClass(r, key, b) == KeyClass(t, key, b);
      KeyClassMembers(r, key, b);
      SortedDescHead(r, key, KeyClass(r, key, b)[0]);
      assert a == b;
      assert r[0] == t[0];
      forall v ensures KeyClass(r[1..], key, v) == KeyClass(t[1..], key, v) {
        var head := if a == v then [r[0]] else [];
        assert KeyClass(r, key, v) == head + KeyClass(r[1..], key, v);
        assert KeyClass(t, key, v) == head + KeyClass(t[1..], key, v);
        assert KeyClass(r[1..], key, v) == KeyClass(r, key, v)[|head|..];
        assert KeyClass(t[1..], key, v) == KeyClass(t, key, v)[|head|..];
      }
      SortedSameClassesEqual(r[1..], t[1..], key);
      assert r == [r[0]] + r[1..] && t == [t[0]] + t[1..];
    }
  }

  /** Any array that is sorted largest first and keeps every key class in input
      order is the result of `SortDesc`: a stable sort has exactly one outcome. */
  lemma SortDescUnique<T>(s: seq<T>, r: seq<T>, key: T -> real)
    requires SortedDesc(r, key)
    requires forall v :: KeyClass(r, key, v) == KeyClass(s, key, v)
    ensures r == SortDesc(s, key)
  {
    forall v ensures KeyClass(r, key, v) == KeyClass(SortDesc(s, key), key, v) {
      SortDescStable(s, key, v);
    }
    SortedSameClassesEqual(r, SortDesc(s, key), key);
  }
}
