/**
 * Python's ordering of strings (by code point, a proper prefix first) and the
 * sort the monitor applies with a `(rank, text)` key, for the `list.sort` calls
 * of `_ordered_m3u8_lists` and `_rank_recursive_candidates`.
 */
module Ordering {
  /** `a < b` on Python strings. */
  predicate StrLess(a: string, b: string) {
    if a == [] then b != []
    else if b == [] then false
    else if a[0] != b[0] then a[0] < b[0]
    else StrLess(a[1..], b[1..])
  }

  lemma {:induction false} StrLessIrreflexive(a: string)
    ensures !StrLess(a, a)
  {
    if a != [] {
      StrLessIrreflexive(a[1..]);
    }
  }

  lemma {:induction false} StrLessTransitive(a: string, b: string, c: string)
    requires StrLess(a, b) && StrLess(b, c)
    ensures StrLess(a, c)
  {
    if a != [] && b != [] && c != [] && a[0] == b[0] && b[0] == c[0] {
      StrLessTransitive(a[1..], b[1..], c[1..]);
    }
  }

  lemma {:induction false} StrLessTotal(a: string, b: string)
    requires a != b
    ensures StrLess(a, b) || StrLess(b, a)
  {
    if a != [] && b != [] && a[0] == b[0] {
      assert a == [a[0]] + a[1..] && b == [b[0]] + b[1..];
      StrLessTotal(a[1..], b[1..]);
    }
  }

  /** The sort key order: smaller rank first, then the smaller string. */
  predicate Before(rank: string -> int, a: string, b: string) {
    rank(a) < rank(b) || (rank(a) == rank(b) && StrLess(a, b))
  }

  lemma BeforeTransitive(rank: string -> int, a: string, b: string, c: string)
    requires Before(rank, a, b) && Before(rank, b, c)
    ensures Before(rank, a, c)
  {
    if rank(a) == rank(b) && rank(b) == rank(c) {
      StrLessTransitive(a, b, c);
    }
  }

  lemma BeforeTotal(rank: string -> int, a: string, b: string)
    requires a != b
    ensures Before(rank, a, b) || Before(rank, b, a)
  {
    StrLessTotal(a, b);
  }

  lemma BeforeIrreflexive(rank: string -> int, a: string)
    ensures !Before(rank, a, a)
  {
    StrLessIrreflexive(a);
  }

  /** Strictly ascending under the key; hence without duplicates. */
  predicate SortedBy(rank: string -> int, xs: seq<string>) {
    forall i, j :: 0 <= i < j < |xs| ==> Before(rank, xs[i], xs[j])
  }

  /** Inserts `x` at its place in an ascending sequence. */
  function Insert(rank: string -> int, x: string, xs: seq<string>): (r: seq<string>)
    ensures |r| == |xs| + 1
    ensures forall y :: y in r <==> y == x || y in xs
  {
    if xs == [] then [x]
    else if Before(rank, x, xs[0]) then [x] + xs
    else [xs[0]] + Insert(rank, x, xs[1..])
  }

  lemma {:induction false} InsertSorted(rank: string -> int, x: string, xs: seq<string>)
    requires SortedBy(rank, xs) && x !in xs
    ensures SortedBy(rank, Insert(rank, x, xs))
  {
    if xs != [] {
      if Before(rank, x, xs[0]) {
        forall j | 0 <= j < |xs|
          ensures Before(rank, x, xs[j])
        {
          if j > 0 {
            BeforeTransitive(rank, x, xs[0], xs[j]);
          }
        }
      } else {
        BeforeTotal(rank, x, xs[0]);
        InsertSorted(rank, x, xs[1..]);
        var tail := Insert(rank, x, xs[1..]);
        forall y | y in tail
          ensures Before(rank, xs[0], y)
        {
          if y != x {
            var j :| 0 <= j < |xs[1..]| && xs[1..][j] == y;
            assert xs[j + 1] == y;
          }
        }
      }
    }
  }

  /**
   * `sorted(list(s), key=...)`: the elements of the set, each once, ascending
   * under the key. The set is drained in whatever order it yields elements.
   */
  method SortSet(s: set<string>, rank: string -> int) returns (r: seq<string>)
    ensures SortedBy(rank, r)
    ensures forall u :: u in r <==> u in s
    ensures |r| == |s|
  {
    r := [];
    var rest := s;
    while rest != {}
      invariant SortedBy(rank, r)
      invariant forall u :: u in r <==> u in s && u !in rest
      invariant rest <= s
      invariant |r| + |rest| == |s|
      decreases |rest|
    {
      var x :| x in rest;
      InsertSorted(rank, x, r);
      r := Insert(rank, x, r);
      rest := rest - {x};
    }
  }

  /** Two ascending sequences with the same elements are the same sequence. */
  lemma {:induction false} SortedUnique(rank: string -> int, a: seq<string>, b: seq<string>)
    requires SortedBy(rank, a) && SortedBy(rank, b)
    requires forall u :: u in a <==> u in b
    ensures a == b
    decreases |a|
  {
    if a != [] {
      assert a[0] in a;
    }
    if b != [] {
      assert b[0] in b;
    }
    if a != [] && b != [] {
      if a[0] != b[0] {
        var i :| 0 <= i < |b| && b[i] == a[0];
        var j :| 0 <= j < |a| && a[j] == b[0];
        assert Before(rank, b[0], a[0]) && Before(rank, a[0], b[0]);
        BeforeTransitive(rank, a[0], b[0], a[0]);
        BeforeIrreflexive(rank, a[0]);
      } else {
        assert a == [a[0]] + a[1..] && b == [b[0]] + b[1..];
        forall u
          ensures u in a[1..] <==> u in b[1..]
        {
          BeforeIrreflexive(rank, a[0]);
          if u in a[1..] {
            var i :| 0 <= i < |a[1..]| && a[1..][i] == u;
            assert Before(rank, a[0], a[i + 1]);
            assert u in a;
            var k :| 0 <= k < |b| && b[k] == u;
            assert k != 0 && b[1..][k - 1] == u;
          }
          if u in b[1..] {
            var i :| 0 <= i < |b[1..]| && b[1..][i] == u;
            assert Before(rank, b[0], b[i + 1]);
            assert u in b;
            var k :| 0 <= k < |a| && a[k] == u;
            assert k != 0 && a[1..][k - 1] == u;
          }
        }
        SortedUnique(rank, a[1..], b[1..]);
      }
    }
  }
}
