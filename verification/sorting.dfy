/** A stable insertion sort by descending integer key: the model of an SQL
    `ORDER BY key DESC`. The database leaves the order of equal keys
    unspecified; this sort keeps them in input order, which is one of the
    orders the database may return. */
module Sorting {
  import Seqs

  /** Non-increasing by `key`. */
  ghost predicate SortedDesc<T>(s: seq<T>, key: T -> int) {
    forall i, j :: 0 <= i < j < |s| ==> key(s[i]) >= key(s[j])
  }

  /** No two elements share a tag. */
  ghost predicate DistinctBy<T, L>(s: seq<T>, tag: T -> L) {
    forall i, j :: 0 <= i < j < |s| ==> tag(s[i]) != tag(s[j])
  }

  /** Inserts `x` before the first element whose key is not larger. */
  function InsertDesc<T>(x: T, s: seq<T>, key: T -> int): (r: seq<T>)
    requires SortedDesc(s, key)
    ensures SortedDesc(r, key)
    ensures multiset(r) == multiset(s) + multiset{x}
    ensures |r| == |s| + 1
  {
    if |s| == 0 then [x]
    else if key(x) >= key(s[0]) then [x] + s
    else
      var rest := InsertDesc(x, s[1..], key);
      assert s == [s[0]] + s[1..];
      assert forall y :: y in multiset(rest) ==> key(s[0]) >= key(y) by {
        forall y | y in multiset(rest)
          ensures key(s[0]) >= key(y)
        {
          if y != x {
            assert y in s[1..];
          }
        }
      }
      [s[0]] + rest
  }

  /** Sorts by descending key; elements with equal keys keep their order. */
  function SortDesc<T>(s: seq<T>, key: T -> int): (r: seq<T>)
    ensures SortedDesc(r, key)
    ensures multiset(r) == multiset(s)
    ensures |r| == |s|
  {
    if |s| == 0 then []
    else
      assert s == [s[0]] + s[1..];
      InsertDesc(s[0], SortDesc(s[1..], key), key)
  }

  /** Insertion keeps tags distinct when the new tag is fresh. */
  lemma {:induction false} InsertKeepsDistinct<T, L>(x: T, s: seq<T>, key: T -> int, tag: T -> L)
    requires SortedDesc(s, key)
    requires DistinctBy(s, tag)
    requires forall i :: 0 <= i < |s| ==> tag(s[i]) != tag(x)
    ensures DistinctBy(InsertDesc(x, s, key), tag)
  {
    if |s| > 0 && key(x) < key(s[0]) {
      var rest := InsertDesc(x, s[1..], key);
      InsertKeepsDistinct(x, s[1..], key, tag);
      forall y | y in rest
        ensures tag(y) != tag(s[0])
      {
        assert y in multiset(rest);
        if y != x {
          assert y in s[1..];
          var k :| 0 <= k < |s[1..]| && s[1..][k] == y;
          assert s[k + 1] == y;
        }
      }
    }
  }

  /** Sorting keeps tags distinct. */
  lemma {:induction false} SortKeepsDistinct<T, L>(s: seq<T>, key: T -> int, tag: T -> L)
    requires DistinctBy(s, tag)
    ensures DistinctBy(SortDesc(s, key), tag)
  {
    if |s| > 0 {
      var sorted := SortDesc(s[1..], key);
      SortKeepsDistinct(s[1..], key, tag);
      forall i | 0 <= i < |sorted|
        ensures tag(sorted[i]) != tag(s[0])
      {
        assert sorted[i] in multiset(s[1..]);
        var k :| 0 <= k < |s[1..]| && s[1..][k] == sorted[i];
        assert s[k + 1] == sorted[i];
      }
      InsertKeepsDistinct(s[0], sorted, key, tag);
    }
  }

  /** Insertion adds the new element's term to any sum. */
  lemma {:induction false} InsertKeepsSum<T>(x: T, s: seq<T>, key: T -> int, f: T -> int)
    requires SortedDesc(s, key)
    ensures Seqs.SumOf(InsertDesc(x, s, key), f) == f(x) + Seqs.SumOf(s, f)
  {
    if |s| > 0 && key(x) < key(s[0]) {
      var r := InsertDesc(x, s, key);
      assert r[1..] == InsertDesc(x, s[1..], key);
      InsertKeepsSum(x, s[1..], key, f);
    }
  }

  /** Sorting keeps any sum. */
  lemma {:induction false} SortKeepsSum<T>(s: seq<T>, key: T -> int, f: T -> int)
    ensures Seqs.SumOf(SortDesc(s, key), f) == Seqs.SumOf(s, f)
  {
    if |s| > 0 {
      SortKeepsSum(s[1..], key, f);
      InsertKeepsSum(s[0], SortDesc(s[1..], key), key, f);
    }
  }
}
