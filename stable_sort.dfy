/**
 * Python's `sorted(xs, key=...)` and `list.sort(key=...)`: a stable sort by a key. Keys here are
 * pairs compared lexicographically (an integer rank, then a real), which covers both sort keys
 * of the modelled code: `(tier_rank, -total)` and a position's index.
 */
module StableSort {

  datatype Rank = Rank(major: int, minor: real)

  /** Lexicographic order on ranks, as Python compares tuples. */
  predicate RankLe(a: Rank, b: Rank) {
    a.major < b.major || (a.major == b.major && a.minor <= b.minor)
  }

  predicate Sorted<T>(s: seq<T>, key: T -> Rank) {
    forall i, j :: 0 <= i < j < |s| ==> RankLe(key(s[i]), key(s[j]))
  }

  /** The elements of `s` whose key is `k`, in their order in `s`. */
  function WithRank<T>(s: seq<T>, key: T -> Rank, k: Rank): seq<T> {
    if s == [] then [] else (if key(s[0]) == k then [s[0]] else []) + WithRank(s[1..], key, k)
  }

  /** Inserts `x` before the first element whose key is not smaller than its own. */
  function Insert<T>(x: T, s: seq<T>, key: T -> Rank): (r: seq<T>)
    ensures multiset(r) == multiset(s) + multiset{x}
    ensures forall i :: 0 <= i < |r| ==> r[i] == x || r[i] in s
  {
    if s == [] || RankLe(key(x), key(s[0])) then [x] + s
    else
      var rest := Insert(x, s[1..], key);
      assert s == [s[0]] + s[1..];
      assert forall i :: 0 <= i < |rest| ==> rest[i] == x || rest[i] in s[1..];
      [s[0]] + rest
  }

  /** `sorted(s, key=key)`. */
  function Sort<T>(s: seq<T>, key: T -> Rank): (r: seq<T>)
    ensures Sorted(r, key)
    ensures multiset(r) == multiset(s)
  {
    if s == [] then []
    else
      assert s == [s[0]] + s[1..];
      InsertSorted(s[0], Sort(s[1..], key), key);
      Insert(s[0], Sort(s[1..], key), key)
  }

  lemma {:induction false} InsertSorted<T>(x: T, s: seq<T>, key: T -> Rank)
    requires Sorted(s, key)
    ensures Sorted(Insert(x, s, key), key)
  {
    if s != [] && !RankLe(key(x), key(s[0])) {
      var rest := Insert(x, s[1..], key);
      InsertSorted(x, s[1..], key);
      assert forall i :: 0 <= i < |rest| ==> RankLe(key(s[0]), key(rest[i])) by {
        forall i | 0 <= i < |rest|
          ensures RankLe(key(s[0]), key(rest[i]))
        {
          if rest[i] != x {
            assert rest[i] in s[1..];
            var j :| 0 <= j < |s[1..]| && s[1..][j] == rest[i];
            assert s[j + 1] == rest[i];
          }
        }
      }
      var r := [s[0]] + rest;
      assert Insert(x, s, key) == r;
      forall i, j | 0 <= i < j < |r|
        ensures RankLe(key(r[i]), key(r[j]))
      {
        if i == 0 {
          assert r[j] == rest[j - 1];
        } else {
          assert r[i] == rest[i - 1] && r[j] == rest[j - 1];
        }
      }
    }
  }

  lemma WithRankCons<T>(x: T, s: seq<T>, key: T -> Rank, k: Rank)
    ensures WithRank([x] + s, key, k) == (if key(x) == k then [x] else []) + WithRank(s, key, k)
  {
    assert ([x] + s)[1..] == s;
  }

  lemma {:induction false} InsertWithRank<T>(x: T, s: seq<T>, key: T -> Rank, k: Rank)
    requires Sorted(s, key)
    ensures WithRank(Insert(x, s, key), key, k) == (if key(x) == k then [x] else []) + WithRank(s, key, k)
  {
    if s == [] || RankLe(key(x), key(s[0])) {
      WithRankCons(x, s, key, k);
    } else {
      InsertWithRank(x, s[1..], key, k);
      WithRankCons(s[0], Insert(x, s[1..], key), key, k);
      WithRankCons(s[0], s[1..], key, k);
      assert [s[0]] + s[1..] == s;
    }
  }

  /** Elements with equal keys keep their relative order. */
  lemma {:induction false} SortStable<T>(s: seq<T>, key: T -> Rank, k: Rank)
    ensures WithRank(Sort(s, key), key, k) == WithRank(s, key, k)
  {
    if s != [] {
      SortStable(s[1..], key, k);
      InsertWithRank(s[0], Sort(s[1..], key), key, k);
    }
  }

  /** A sequence that is already sorted is left as it is. */
  lemma {:induction false} SortSorted<T>(s: seq<T>, key: T -> Rank)
    requires Sorted(s, key)
    ensures Sort(s, key) == s
  {
    if s != [] {
      SortSorted(s[1..], key);
      assert Sort(s[1..], key) == s[1..];
      if |s| > 1 {
        assert RankLe(key(s[0]), key(s[1..][0]));
      }
      assert [s[0]] + s[1..] == s;
    }
  }
}
