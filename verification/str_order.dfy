/**
 * Python's ordering of strings (code point by code point, a proper prefix
 * first) and `sorted(s)` of a set of strings.
 */
module StrOrder {

  /** `a < b` on Python strings. */
  predicate Less(a: string, b: string)
  {
    if a == [] then b != []
    else if b == [] then false
    else if a[0] != b[0] then a[0] < b[0]
    else Less(a[1..], b[1..])
  }

  lemma {:induction false} LessIrreflexive(a: string)
    ensures !Less(a, a)
  {
    if a != [] {
      LessIrreflexive(a[1..]);
    }
  }

  lemma {:induction false} LessAsymmetric(a: string, b: string)
    ensures Less(a, b) ==> !Less(b, a)
  {
    if a != [] && b != [] && a[0] == b[0] {
      LessAsymmetric(a[1..], b[1..]);
    }
  }

  lemma {:induction false} LessTransitive(a: string, b: string, c: string)
    requires Less(a, b) && Less(b, c)
    ensures Less(a, c)
  {
    if a != [] && a[0] == b[0] && b[0] == c[0] {
      LessTransitive(a[1..], b[1..], c[1..]);
    }
  }

  /** Any two different strings are ordered one way or the other. */
  lemma {:induction false} LessTotal(a: string, b: string)
    requires a != b
    ensures Less(a, b) || Less(b, a)
  {
    if a != [] && b != [] && a[0] == b[0] {
      assert a == [a[0]] + a[1..] && b == [b[0]] + b[1..];
      LessTotal(a[1..], b[1..]);
    }
  }

  /** Strictly ascending, so also free of repeats. */
  predicate Ascending(s: seq<string>)
  {
    forall i, j :: 0 <= i < j < |s| ==> Less(s[i], s[j])
  }

  predicate IsLeast(m: string, s: set<string>)
  {
    m in s && forall y :: y in s && y != m ==> Less(m, y)
  }

  /** Every non-empty finite set of strings has a least element. */
  lemma {:induction false} LeastExists(s: set<string>)
    requires s != {}
    ensures exists m :: IsLeast(m, s)
    decreases |s|
  {
    var x :| x in s;
    if s == {x} {
      assert IsLeast(x, s);
    } else {
      LeastExists(s - {x});
      var m :| IsLeast(m, s - {x});
      LessTotal(m, x);
      if Less(m, x) {
        assert IsLeast(m, s);
      } else {
        forall y | y in s && y != x
          ensures Less(x, y)
        {
          if y != m {
            LessTransitive(x, m, y);
          }
        }
        assert IsLeast(x, s);
      }
    }
  }

  lemma LeastUnique(s: set<string>)
    ensures forall m, n :: IsLeast(m, s) && IsLeast(n, s) ==> m == n
  {
    forall m, n | IsLeast(m, s) && IsLeast(n, s)
      ensures m == n
    {
      if m != n {
        LessAsymmetric(m, n);
      }
    }
  }

  function Least(s: set<string>): (m: string)
    requires s != {}
    ensures IsLeast(m, s)
  {
    LeastExists(s);
    LeastUnique(s);
    var m :| IsLeast(m, s);
    m
  }

  /** `sorted(s)`: the elements of `s` in ascending order (see `SortedAscending`). */
  function Sorted(s: set<string>): (r: seq<string>)
    ensures |r| == |s|
    ensures forall x :: x in r <==> x in s
    decreases |s|
  {
    if s == {} then [] else [Least(s)] + Sorted(s - {Least(s)})
  }

  lemma {:induction false} SortedAscending(s: set<string>)
    ensures Ascending(Sorted(s))
    decreases |s|
  {
    if s != {} {
      var m := Least(s);
      var rest := Sorted(s - {m});
      SortedAscending(s - {m});
      assert forall j :: 0 <= j < |rest| ==> rest[j] in s - {m};
      assert Sorted(s) == [m] + rest;
    }
  }

  /** In an ascending sequence, an element past a prefix is greater than everything in it. */
  lemma AscendingPrefix(r: seq<string>, k: nat, x: string)
    requires Ascending(r) && k <= |r| && x in r[k..]
    ensures forall y :: y in r[..k] ==> Less(y, x)
  {
    var i :| k <= i < |r| && r[i] == x;
    forall y | y in r[..k]
      ensures Less(y, x)
    {
      var j :| 0 <= j < k && r[j] == y;
    }
  }

  lemma NotInPrefix<T>(r: seq<T>, k: nat, x: T)
    requires k <= |r| && x in r && x !in r[..k]
    ensures x in r[k..]
  {
    assert r == r[..k] + r[k..];
  }

  /**
   * `sorted(s)[:n]` are the `n` least elements: whatever it leaves out is
   * greater than all it keeps.
   */
  lemma SortedPrefixLeast(s: set<string>, n: nat, x: string)
    requires x in s && x !in Sorted(s)[..if n <= |s| then n else |s|]
    ensures forall y :: y in Sorted(s)[..if n <= |s| then n else |s|] ==> Less(y, x)
  {
    var r := Sorted(s);
    var k := if n <= |s| then n else |s|;
    NotInPrefix(r, k, x);
    SortedAscending(s);
    AscendingPrefix(r, k, x);
  }
}
