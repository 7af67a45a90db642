/**
 * Python's `list.sort(key=...)`: a stable sort, ascending by a key. A
 * descending sort (`reverse=True`, which is also stable) is the ascending
 * sort by the negated key.
 */
module StableSort {
  import opened Common

  predicate SortedBy<T>(s: seq<T>, key: T -> real)
  {
    forall i, j :: 0 <= i < j < |s| ==> key(s[i]) <= key(s[j])
  }

  /** Put `x` after every element whose key is no greater than its own. */
  function Insert<T>(s: seq<T>, x: T, key: T -> real): (r: seq<T>)
    ensures multiset(r) == multiset(s) + multiset{x}
    ensures |r| == |s| + 1
  {
    if s == [] || key(s[|s| - 1]) <= key(x) then s + [x]
    else
      assert s == s[..|s| - 1] + [s[|s| - 1]];
      Insert(s[..|s| - 1], x, key) + [s[|s| - 1]]
  }

  /** Insertion sort, each element placed after the equal-keyed ones before it. */
  function SortBy<T>(s: seq<T>, key: T -> real): (r: seq<T>)
    ensures multiset(r) == multiset(s)
    ensures |r| == |s|
  {
    if s == [] then []
    else
      assert s == s[..|s| - 1] + [s[|s| - 1]];
      Insert(SortBy(s[..|s| - 1], key), s[|s| - 1], key)
  }

  lemma {:induction false} InsertSorted<T>(s: seq<T>, x: T, key: T -> real)
    requires SortedBy(s, key)
    ensures SortedBy(Insert(s, x, key), key)
  {
    if s != [] && key(s[|s| - 1]) > key(x) {
      var init := s[..|s| - 1];
      var last := s[|s| - 1];
      InsertSorted(init, x, key);
      var t := Insert(init, x, key);
      forall i | 0 <= i < |t| ensures key(t[i]) <= key(last) {
        assert t[i] in multiset(t);
        if t[i] != x {
          assert t[i] in multiset(init);
          var k :| 0 <= k < |init| && init[k] == t[i];
        }
      }
    }
  }

  /** The result is in key order. */
  lemma {:induction false} SortBySorted<T>(s: seq<T>, key: T -> real)
    ensures SortedBy(SortBy(s, key), key)
  {
    if s != [] {
      SortBySorted(s[..|s| - 1], key);
      InsertSorted(SortBy(s[..|s| - 1], key), s[|s| - 1], key);
    }
  }

  /** The sorted sequence holds only elements of the input. */
  lemma SortByMembers<T>(s: seq<T>, key: T -> real)
    ensures forall x :: x in SortBy(s, key) ==> x in s
  {
    forall x | x in SortBy(s, key)
      ensures x in s
    {
      assert x in multiset(SortBy(s, key));
    }
  }

  /** Has key `k`. */
  function KeyIs<T>(key: T -> real, k: real): T -> bool
  {
    x => key(x) == k
  }

  lemma FilterOne<T>(x: T, p: T -> bool)
    ensures Filter([x], p) == if p(x) then [x] else []
  {
    assert [x][..0] == [];
  }

  lemma SwapEmpty<T>(a: seq<T>, b: seq<T>, c: seq<T>)
    requires b == [] || c == []
    ensures a + b + c == a + c + b
  {
    if b == [] {
      assert a + b == a;
    } else {
      assert a + b + c == a + b;
      assert a + c == a;
    }
  }

  /** Inserting `x` keeps the order of the elements with any one key, and puts `x` after those with its own key. */
  lemma {:induction false} InsertStable<T>(s: seq<T>, x: T, key: T -> real, k: real)
    ensures Filter(Insert(s, x, key), KeyIs(key, k)) == Filter(s, KeyIs(key, k)) + Filter([x], KeyIs(key, k))
  {
    var p := KeyIs(key, k);
    if s == [] || key(s[|s| - 1]) <= key(x) {
      FilterAppend(s, [x], p);
    } else {
      var init := s[..|s| - 1];
      var last := s[|s| - 1];
      var a := Filter(init, p);
      var fx := Filter([x], p);
      var fl := Filter([last], p);
      assert Filter(Insert(s, x, key), p) == a + fx + fl by {
        InsertStable(init, x, key, k);
        FilterAppend(Insert(init, x, key), [last], p);
      }
      assert Filter(s, p) == a + fl by {
        FilterOne(last, p);
      }
      assert fx == [] || fl == [] by {
        FilterOne(x, p);
        FilterOne(last, p);
      }
      SwapEmpty(a, fx, fl);
    }
  }

  /** The sort is stable: the elements with any one key keep their order. */
  lemma {:induction false} SortByStable<T>(s: seq<T>, key: T -> real, k: real)
    ensures Filter(SortBy(s, key), KeyIs(key, k)) == Filter(s, KeyIs(key, k))
  {
    if s != [] {
      var init := s[..|s| - 1];
      var last := s[|s| - 1];
      var p := KeyIs(key, k);
      assert SortBy(s, key) == Insert(SortBy(init, key), last, key);
      SortByStable(init, key, k);
      InsertStable(SortBy(init, key), last, key, k);
      assert Filter(s, p) == Filter(init, p) + Filter([last], p) by {
        FilterOne(last, p);
      }
    }
  }
}
