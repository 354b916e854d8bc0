/** `ORDER BY key DESC LIMIT n` over the rows of a table: the query shape
    every list method of MemoryManager uses. */
module Sorting {
  import opened Common

  predicate SortedDesc<T>(s: seq<T>, key: T -> int) {
    forall i, j :: 0 <= i < j < |s| ==> key(s[i]) >= key(s[j])
  }

  /** A sorted sequence stays sorted behind a head whose key is at least
      that of its first element. */
  lemma SortedCons<T>(h: T, t: seq<T>, key: T -> int)
    requires SortedDesc(t, key)
    requires t != [] ==> key(h) >= key(t[0])
    ensures SortedDesc([h] + t, key)
  {
    var r := [h] + t;
    forall i, j | 0 <= i < j < |r|
      ensures key(r[i]) >= key(r[j])
    {
      assert r[j] == t[j - 1];
      if i > 0 {
        assert r[i] == t[i - 1];
      }
    }
  }

  lemma SortedTail<T>(s: seq<T>, key: T -> int)
    requires s != [] && SortedDesc(s, key)
    ensures SortedDesc(s[1..], key)
  {
    var t := s[1..];
    forall i, j | 0 <= i < j < |t|
      ensures key(t[i]) >= key(t[j])
    {
      assert t[i] == s[i + 1] && t[j] == s[j + 1];
    }
  }

  /** Inserts `x` in front of the first element whose key is smaller. */
  function InsertDesc<T>(x: T, s: seq<T>, key: T -> int): (r: seq<T>)
    ensures |r| == |s| + 1
    ensures r[0] == x || (s != [] && r[0] == s[0])
  {
    if s == [] || key(x) >= key(s[0]) then [x] + s
    else [s[0]] + InsertDesc(x, s[1..], key)
  }

  lemma {:induction false} InsertDescPerm<T>(x: T, s: seq<T>, key: T -> int)
    ensures multiset(InsertDesc(x, s, key)) == multiset(s) + multiset{x}
  {
    if s == [] || key(x) >= key(s[0]) {
    } else {
      InsertDescPerm(x, s[1..], key);
      assert s == [s[0]] + s[1..];
    }
  }

  /** Inserting into a sorted sequence keeps it sorted. */
  lemma {:induction false} InsertDescSorted<T>(x: T, s: seq<T>, key: T -> int)
    requires SortedDesc(s, key)
    ensures SortedDesc(InsertDesc(x, s, key), key)
  {
    if s == [] || key(x) >= key(s[0]) {
      SortedCons(x, s, key);
    } else {
      SortedTail(s, key);
      InsertDescSorted(x, s[1..], key);
      var rest := InsertDesc(x, s[1..], key);
      assert key(s[0]) >= key(rest[0]) by {
        if rest[0] != x {
          assert rest[0] == s[1..][0];
        }
      }
      SortedCons(s[0], rest, key);
    }
  }

  /** Insertion sort by descending key. */
  function SortDesc<T>(s: seq<T>, key: T -> int): (r: seq<T>)
    ensures |r| == |s|
  {
    if s == [] then [] else InsertDesc(s[0], SortDesc(s[1..], key), key)
  }

  /** The sort returns a sorted permutation of its input. */
  lemma {:induction false} SortDescProperties<T>(s: seq<T>, key: T -> int)
    ensures multiset(SortDesc(s, key)) == multiset(s)
    ensures SortedDesc(SortDesc(s, key), key)
  {
    if s != [] {
      SortDescProperties(s[1..], key);
      InsertDescPerm(s[0], SortDesc(s[1..], key), key);
      InsertDescSorted(s[0], SortDesc(s[1..], key), key);
      assert s == [s[0]] + s[1..];
    }
  }

  /** SQLite's `LIMIT n`: a negative limit means no limit. */
  function TakeLimit<T>(s: seq<T>, limit: int): (r: seq<T>)
    ensures r <= s
    ensures |r| == if limit < 0 || limit >= |s| then |s| else limit
  {
    if limit < 0 || limit >= |s| then s else s[..limit]
  }

  /** `SELECT ... ORDER BY key DESC LIMIT limit` */
  function Latest<T>(rows: seq<T>, key: T -> int, limit: int): seq<T> {
    TakeLimit(SortDesc(rows, key), limit)
  }

  /** `SELECT ... WHERE keep ORDER BY key DESC LIMIT limit` */
  function Query<T>(rows: seq<T>, keep: T -> bool, key: T -> int, limit: int): seq<T> {
    Latest(Filter(rows, keep), key, limit)
  }

  /** What an ordered query promises: rows of the table only, largest key
      first, as many as the limit allows, and no row left out whose key is
      larger than that of one returned. */
  lemma LatestProperties<T>(rows: seq<T>, key: T -> int, limit: int, r: seq<T>)
    requires r == Latest(rows, key, limit)
    ensures forall x :: x in r ==> x in rows
    ensures SortedDesc(r, key)
    ensures |r| == if limit < 0 || limit >= |rows| then |rows| else limit
    ensures multiset(r) <= multiset(rows)
    ensures forall x, y :: x in r && y in rows && y !in r ==> key(y) <= key(x)
  {
    var s := SortDesc(rows, key);
    SortDescProperties(rows, key);
    assert s == r + s[|r|..];
    assert multiset(s) == multiset(r) + multiset(s[|r|..]);
    forall x | x in r
      ensures x in rows
    {
      assert x in multiset(s);
    }
    forall x, y | x in r && y in rows && y !in r
      ensures key(y) <= key(x)
    {
      assert y in multiset(s);
      var j :| 0 <= j < |s| && s[j] == y;
      var i :| 0 <= i < |r| && r[i] == x;
      if j < |r| {
        assert y == r[j];
      }
    }
  }

  /** The same for a filtered query: only matching rows, and no matching row
      left out that is newer than one returned. */
  lemma QueryProperties<T>(rows: seq<T>, keep: T -> bool, key: T -> int, limit: int, r: seq<T>)
    requires r == Query(rows, keep, key, limit)
    ensures forall x :: x in r ==> x in rows && keep(x)
    ensures SortedDesc(r, key)
    ensures |r| == var n := |Filter(rows, keep)|; if limit < 0 || limit >= n then n else limit
    ensures multiset(r) <= multiset(Filter(rows, keep))
    ensures forall x, y :: x in r && y in rows && keep(y) && y !in r ==> key(y) <= key(x)
  {
    FilterMembers(rows, keep);
    LatestProperties(Filter(rows, keep), key, limit, r);
  }

  /** A row occurs at most once in a sequence without repeats. */
  lemma {:induction false} DistinctCount<T>(s: seq<T>, x: T)
    requires forall i, j :: 0 <= i < j < |s| ==> s[i] != s[j]
    ensures multiset(s)[x] <= 1
    decreases |s|
  {
    if s != [] {
      DistinctCount(s[1..], x);
      assert s == [s[0]] + s[1..];
      if s[0] == x {
        assert x !in s[1..];
      }
    }
  }

  /** Part of a table without repeated rows repeats no row either: a query
      never returns a row twice. */
  lemma SubMultisetDistinct<T>(r: seq<T>, rows: seq<T>)
    requires multiset(r) <= multiset(rows)
    requires forall i, j :: 0 <= i < j < |rows| ==> rows[i] != rows[j]
    ensures forall i, j :: 0 <= i < j < |r| ==> r[i] != r[j]
  {
    forall i, j | 0 <= i < j < |r|
      ensures r[i] != r[j]
    {
      DistinctCount(rows, r[i]);
      RepeatCount(r, i, j);
    }
  }

  /** A row found at two positions occurs at least twice. */
  lemma RepeatCount<T>(r: seq<T>, i: int, j: int)
    requires 0 <= i < j < |r|
    ensures r[i] == r[j] ==> multiset(r)[r[i]] >= 2
  {
    assert r == r[..j] + [r[j]] + r[j + 1..];
    assert r[i] == r[..j][i];
  }
}
