/** What the backend's SQL queries mean as operations on the rows of a table:
    WHERE keeps the matching rows in table order, ORDER BY returns a sorted
    permutation of them, LIMIT keeps a prefix. */
module Query {

  /** WHERE: the rows satisfying `p`, in their original order. */
  function Filter<T(!new)>(s: seq<T>, p: T -> bool): (r: seq<T>)
    ensures |r| <= |s|
    ensures forall x :: x in r <==> x in s && p(x)
    ensures multiset(r) <= multiset(s)
    ensures forall i :: 0 <= i < |r| ==> p(r[i])
  {
    if s == [] then []
    else
      var init, last := s[..|s| - 1], s[|s| - 1];
      assert s == init + [last];
      Filter(init, p) + (if p(last) then [last] else [])
  }

  /** A prefix one row longer is the prefix with that row appended. */
  lemma PrefixSnoc<T>(s: seq<T>, i: nat)
    requires i < |s|
    ensures s[..i + 1] == s[..i] + [s[i]]
  {
  }

  /** WHERE over a table with one more row at the end. */
  lemma FilterSnoc<T(!new)>(s: seq<T>, x: T, p: T -> bool)
    ensures Filter(s + [x], p) == Filter(s, p) + (if p(x) then [x] else [])
  {
    assert (s + [x])[..|s|] == s;
  }

  /** Two predicates that no row satisfies together select, between them,
      at most as many rows as the table holds. */
  lemma {:induction false} DisjointFilters<T(!new)>(s: seq<T>, p: T -> bool, q: T -> bool)
    requires forall x :: !(p(x) && q(x))
    ensures |Filter(s, p)| + |Filter(s, q)| <= |s|
  {
    if s != [] {
      DisjointFilters(s[..|s| - 1], p, q);
    }
  }

  /** WHERE keeps every copy of a matching row and no copy of any other. */
  lemma {:induction false} FilterCount<T(!new)>(s: seq<T>, p: T -> bool, x: T)
    ensures multiset(Filter(s, p))[x] == if p(x) then multiset(s)[x] else 0
  {
    if s != [] {
      var init, last := s[..|s| - 1], s[|s| - 1];
      assert s == init + [last];
      FilterCount(init, p, x);
    }
  }

  /** WHERE over two orderings of the same rows selects the same rows. */
  lemma FilterPermutation<T(!new)>(a: seq<T>, b: seq<T>, p: T -> bool)
    requires multiset(a) == multiset(b)
    ensures multiset(Filter(a, p)) == multiset(Filter(b, p))
  {
    forall x ensures multiset(Filter(a, p))[x] == multiset(Filter(b, p))[x] {
      FilterCount(a, p, x);
      FilterCount(b, p, x);
    }
  }

  /** `le` orders rows the way an ORDER BY clause does: every two rows are
      comparable and the order is transitive (ties are allowed). */
  ghost predicate TotalPreorder<T(!new)>(le: (T, T) -> bool) {
    && (forall a, b :: le(a, b) || le(b, a))
    && (forall a, b, c :: le(a, b) && le(b, c) ==> le(a, c))
  }

  ghost predicate Sorted<T>(s: seq<T>, le: (T, T) -> bool) {
    forall i, j :: 0 <= i < j < |s| ==> le(s[i], s[j])
  }

  function Insert<T(!new)>(x: T, s: seq<T>, le: (T, T) -> bool): (r: seq<T>)
    ensures multiset(r) == multiset(s) + multiset{x}
    ensures forall y :: y in r <==> y == x || y in s
  {
    if s == [] then [x]
    else if le(x, s[0]) then [x] + s
    else
      assert s == [s[0]] + s[1..];
      [s[0]] + Insert(x, s[1..], le)
  }

  /** ORDER BY: the same rows, rearranged. */
  function SortBy<T(!new)>(s: seq<T>, le: (T, T) -> bool): (r: seq<T>)
    ensures multiset(r) == multiset(s)
    ensures |r| == |s|
    ensures forall x :: x in r <==> x in s
  {
    if s == [] then []
    else
      assert s == [s[0]] + s[1..];
      Insert(s[0], SortBy(s[1..], le), le)
  }

  lemma {:induction false} InsertSorted<T(!new)>(x: T, s: seq<T>, le: (T, T) -> bool)
    requires TotalPreorder(le)
    requires Sorted(s, le)
    ensures Sorted(Insert(x, s, le), le)
  {
    if s == [] {
    } else if le(x, s[0]) {
      var r := [x] + s;
      forall i, j | 0 <= i < j < |r| ensures le(r[i], r[j]) {
        if i == 0 && j > 1 {
          assert le(s[0], s[j - 1]);
        }
      }
    } else {
      var tail := s[1..];
      assert Sorted(tail, le);
      InsertSorted(x, tail, le);
      var t := Insert(x, tail, le);
      assert le(s[0], x);
      forall j | 0 <= j < |t| ensures le(s[0], t[j]) {
        var y := t[j];
        assert y in multiset(t);
        if y != x {
          assert y in multiset(tail);
          var k :| 0 <= k < |tail| && tail[k] == y;
          assert s[k + 1] == y;
        }
      }
      var r := [s[0]] + t;
      forall i, j | 0 <= i < j < |r| ensures le(r[i], r[j]) {
        if i > 0 {
          assert r[i] == t[i - 1] && r[j] == t[j - 1];
        } else {
          assert r[j] == t[j - 1];
        }
      }
    }
  }

  /** The ORDER BY result is sorted. */
  lemma {:induction false} SortBySorted<T(!new)>(s: seq<T>, le: (T, T) -> bool)
    requires TotalPreorder(le)
    ensures Sorted(SortBy(s, le), le)
  {
    if s != [] {
      SortBySorted(s[1..], le);
      InsertSorted(s[0], SortBy(s[1..], le), le);
    }
  }

  /** WHERE applied to an ordered result keeps it ordered. */
  lemma {:induction false} FilterSorted<T(!new)>(s: seq<T>, p: T -> bool, le: (T, T) -> bool)
    requires Sorted(s, le)
    ensures Sorted(Filter(s, p), le)
  {
    if s != [] {
      var init, last := s[..|s| - 1], s[|s| - 1];
      assert Sorted(init, le);
      FilterSorted(init, p, le);
      var f := Filter(init, p);
      forall i | 0 <= i < |f| ensures le(f[i], last) {
        assert f[i] in init;
        var k :| 0 <= k < |init| && init[k] == f[i];
        assert s[k] == f[i];
      }
      if p(last) {
        var r := f + [last];
        forall i, j | 0 <= i < j < |r| ensures le(r[i], r[j]) {
          if j < |f| {
            assert r[i] == f[i] && r[j] == f[j];
          } else {
            assert r[i] == f[i];
          }
        }
      }
    }
  }

  /** LIMIT n: the first `n` rows. SQLite reads a negative limit as
      "no limit". */
  function Limit<T>(s: seq<T>, n: int): (r: seq<T>)
    ensures |r| <= |s| && r == s[..|r|]
    ensures 0 <= n ==> |r| == if n < |s| then n else |s|
    ensures n < 0 ==> r == s
  {
    if n < 0 || |s| <= n then s else s[..n]
  }

  /** `WHERE p ORDER BY le LIMIT n`: at most `n` of the rows satisfying
      `p` (all of them for a negative `n`), in order, and every matching row
      left out is ordered after every row returned. */
  function TopBy<T(!new)>(s: seq<T>, p: T -> bool, le: (T, T) -> bool, n: int): (r: seq<T>)
    requires TotalPreorder(le)
    ensures |r| == if 0 <= n < |Filter(s, p)| then n else |Filter(s, p)|
    ensures forall x :: x in r ==> x in s && p(x)
    ensures multiset(r) <= multiset(Filter(s, p))
    ensures n < 0 ==> multiset(r) == multiset(Filter(s, p))
    ensures Sorted(r, le)
    ensures forall x :: x in s && p(x) && x !in r ==> forall i :: 0 <= i < |r| ==> le(r[i], x)
  {
    var sorted := SortBy(Filter(s, p), le);
    SortBySorted(Filter(s, p), le);
    LimitOfSorted(sorted, le, n);
    var r := Limit(sorted, n);
    assert sorted == r + sorted[|r|..];
    r
  }

  lemma LimitOfSorted<T>(s: seq<T>, le: (T, T) -> bool, n: int)
    requires Sorted(s, le)
    ensures Sorted(Limit(s, n), le)
    ensures forall x :: x in s && x !in Limit(s, n) ==> forall i :: 0 <= i < |Limit(s, n)| ==> le(Limit(s, n)[i], x)
  {
    var r := Limit(s, n);
    forall x, i | x in s && x !in r && 0 <= i < |r| ensures le(r[i], x) {
      var k :| 0 <= k < |s| && s[k] == x;
      assert r[i] == s[i];
    }
  }

  /** A LIMIT the matching rows fit under returns all of them. */
  lemma TopByKeepsAll<T(!new)>(s: seq<T>, p: T -> bool, le: (T, T) -> bool, n: int)
    requires TotalPreorder(le)
    requires n < 0 || |Filter(s, p)| <= n
    ensures forall x :: x in s && p(x) ==> x in TopBy(s, p, le, n)
  {
    assert TopBy(s, p, le, n) == SortBy(Filter(s, p), le);
  }
}
