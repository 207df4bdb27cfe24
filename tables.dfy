/**
 * What the SQL the store issues means on a table held as a sequence of rows in
 * insertion order: `WHERE` keeps the matching rows, `ORDER BY ... DESC` returns
 * a newest-first permutation, and a UNIQUE or PRIMARY KEY column is a key no
 * two rows share.
 */
module Tables {

  /** No two rows of `s` agree on `key`. */
  ghost predicate DistinctBy<T, K>(s: seq<T>, key: T -> K) {
    forall i, j :: 0 <= i < j < |s| ==> key(s[i]) != key(s[j])
  }

  /** `SELECT * ... WHERE keep`: the rows satisfying `keep`, each as often as in the table. */
  function Filter<T(!new)>(s: seq<T>, keep: T -> bool): (r: seq<T>)
    ensures |r| <= |s|
    ensures forall x :: multiset(r)[x] == if keep(x) then multiset(s)[x] else 0
    ensures forall x :: x in r <==> x in s && keep(x)
  {
    if s == [] then []
    else
      assert s == [s[0]] + s[1..];
      (if keep(s[0]) then [s[0]] else []) + Filter(s[1..], keep)
  }

  /** Deleting rows never makes two remaining rows share a key. */
  lemma {:induction false} FilterKeepsDistinct<T(!new), K>(s: seq<T>, keep: T -> bool, key: T -> K)
    requires DistinctBy(s, key)
    ensures DistinctBy(Filter(s, keep), key)
  {
    if s != [] {
      var tail := Filter(s[1..], keep);
      assert Filter(s, keep) == (if keep(s[0]) then [s[0]] else []) + tail;
      assert DistinctBy(s[1..], key) by {
        forall i, j | 0 <= i < j < |s[1..]| ensures key(s[1..][i]) != key(s[1..][j]) {
          assert s[1..][i] == s[i + 1] && s[1..][j] == s[j + 1];
        }
      }
      FilterKeepsDistinct(s[1..], keep, key);
      if keep(s[0]) {
        forall j | 0 <= j < |tail| ensures key(tail[j]) != key(s[0]) {
          assert tail[j] in s[1..];
          var k :| 0 <= k < |s[1..]| && s[1..][k] == tail[j];
          assert s[k + 1] == tail[j];
        }
        PrependDistinct(s[0], tail, key);
      }
    }
  }

  /** A row whose key no row of `s` has can go in front of `s`. */
  lemma PrependDistinct<T, K>(x: T, s: seq<T>, key: T -> K)
    requires DistinctBy(s, key)
    requires forall j :: 0 <= j < |s| ==> key(s[j]) != key(x)
    ensures DistinctBy([x] + s, key)
  {
    var r := [x] + s;
    forall i, j | 0 <= i < j < |r| ensures key(r[i]) != key(r[j]) {
      assert r[j] == s[j - 1];
      if i > 0 {
        assert r[i] == s[i - 1];
      }
    }
  }

  /** Ordered by `key`, largest first (`ORDER BY key DESC`). */
  ghost predicate NewestFirst<T>(s: seq<T>, key: T -> int) {
    forall i, j :: 0 <= i < j < |s| ==> key(s[i]) >= key(s[j])
  }

  /** A row no older than the front of an ordered `s` can go in front of it. */
  lemma PrependNewest<T>(y: T, s: seq<T>, key: T -> int)
    requires NewestFirst(s, key)
    requires s == [] || key(s[0]) <= key(y)
    ensures NewestFirst([y] + s, key)
  {
    var r := [y] + s;
    forall i, j | 0 <= i < j < |r| ensures key(r[i]) >= key(r[j]) {
      assert r[j] == s[j - 1];
      if i > 0 {
        assert r[i] == s[i - 1];
      }
    }
  }

  /** One row into an ordered table: it goes before the first row no newer than itself. */
  function InsertNewest<T>(x: T, s: seq<T>, key: T -> int): (r: seq<T>)
    requires NewestFirst(s, key)
    ensures NewestFirst(r, key)
    ensures multiset(r) == multiset(s) + multiset{x}
    ensures r != [] && key(r[0]) == if s != [] && key(s[0]) > key(x) then key(s[0]) else key(x)
  {
    if s == [] || key(x) >= key(s[0]) then
      PrependNewest(x, s, key);
      [x] + s
    else
      var rest := InsertNewest(x, s[1..], key);
      assert s == [s[0]] + s[1..];
      PrependNewest(s[0], rest, key);
      [s[0]] + rest
  }

  /**
   * `ORDER BY key DESC`: a permutation of the rows, newest first. SQL leaves the
   * order of equal keys open; this one keeps table order among them.
   */
  function SortNewestFirst<T>(s: seq<T>, key: T -> int): (r: seq<T>)
    ensures NewestFirst(r, key)
    ensures multiset(r) == multiset(s)
  {
    if s == [] then []
    else
      assert s == [s[0]] + s[1..];
      InsertNewest(s[0], SortNewestFirst(s[1..], key), key)
  }
}
