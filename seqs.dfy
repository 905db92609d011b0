/** The list filtering both scrolling games use to purge what has left the
    screen (Array.prototype.filter, assets/script.js:119 and 236). */
module Seqs {

  /** The elements of s that satisfy keep, in their original order. */
  function Filter<T>(s: seq<T>, keep: T -> bool): (r: seq<T>)
    ensures |r| <= |s|
    ensures forall x :: x in r ==> x in s && keep(x)
    ensures forall x :: x in s && keep(x) ==> x in r
  {
    if s == [] then []
    else (if keep(s[0]) then [s[0]] else []) + Filter(s[1..], keep)
  }

  /** Filtering is done element by element: it distributes over
      concatenation, so the relative order of the survivors is kept. */
  lemma {:induction false} FilterAppend<T>(a: seq<T>, b: seq<T>, keep: T -> bool)
    ensures Filter(a + b, keep) == Filter(a, keep) + Filter(b, keep)
  {
    if a == [] {
      assert a + b == b;
    } else {
      assert (a + b)[0] == a[0];
      assert (a + b)[1..] == a[1..] + b;
      FilterAppend(a[1..], b, keep);
    }
  }

  /** Strictly increasing in the given key, front to back. */
  ghost predicate Ascending<T>(s: seq<T>, key: T -> real) {
    forall i, j :: 0 <= i < j < |s| ==> key(s[i]) < key(s[j])
  }

  /** The tail of an ascending list is ascending. */
  lemma TailAscending<T>(s: seq<T>, key: T -> real)
    requires s != [] && Ascending(s, key)
    ensures Ascending(s[1..], key)
  {
    forall i, j | 0 <= i < j < |s| - 1 ensures key(s[1..][i]) < key(s[1..][j]) {
      assert s[1..][i] == s[i + 1] && s[1..][j] == s[j + 1];
    }
  }

  /** Putting an element in front of an ascending list whose every element
      has a larger key gives an ascending list. */
  lemma ConsAscending<T>(x: T, rest: seq<T>, key: T -> real)
    requires Ascending(rest, key)
    requires forall y :: y in rest ==> key(x) < key(y)
    ensures Ascending([x] + rest, key)
  {
    var r := [x] + rest;
    forall i, j | 0 <= i < j < |r| ensures key(r[i]) < key(r[j]) {
      assert r[j] == rest[j - 1] && r[j] in rest;
      if i > 0 {
        assert r[i] == rest[i - 1];
      }
    }
  }

  /** Filtering keeps a list that is ordered by a key ordered. */
  lemma {:induction false} FilterAscending<T>(s: seq<T>, keep: T -> bool, key: T -> real)
    requires Ascending(s, key)
    ensures Ascending(Filter(s, keep), key)
  {
    if s != [] {
      var rest := Filter(s[1..], keep);
      TailAscending(s, key);
      FilterAscending(s[1..], keep, key);
      if keep(s[0]) {
        forall y | y in rest ensures key(s[0]) < key(y) {
          var k :| 0 <= k < |s| - 1 && s[1..][k] == y;
          assert y == s[k + 1];
        }
        ConsAscending(s[0], rest, key);
      }
    }
  }
}
