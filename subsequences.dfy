/**
 * Order-preserving selection from a sequence: the list comprehension
 * `[x for x in xs if keep(x)]` as a function, and the facts about it that
 * the device filters and the action builder rely on.
 */
module Subsequences {

  /** The elements of `s` for which `keep` holds, in their original order. */
  function Filter<T>(s: seq<T>, keep: T -> bool): (r: seq<T>)
    ensures |r| <= |s|
  {
    if s == [] then [] else (if keep(s[0]) then [s[0]] else []) + Filter(s[1..], keep)
  }

  /** `r` can be obtained from `s` by deleting elements (order kept, nothing added). */
  predicate IsSubseq<T(==)>(r: seq<T>, s: seq<T>)
    decreases |s|
  {
    r == [] || (s != [] && ((r[0] == s[0] && IsSubseq(r[1..], s[1..])) || IsSubseq(r, s[1..])))
  }

  /** Every element of `s` ranks strictly below every later one. */
  predicate Ascending<T>(s: seq<T>, rank: T -> int)
  {
    forall i, j :: 0 <= i < j < |s| ==> rank(s[i]) < rank(s[j])
  }

  lemma {:induction false} FilterIsSubseq<T>(s: seq<T>, keep: T -> bool)
    ensures IsSubseq(Filter(s, keep), s)
  {
    if s != [] {
      FilterIsSubseq(s[1..], keep);
      var r := Filter(s, keep);
      if keep(s[0]) {
        assert r[0] == s[0] && r[1..] == Filter(s[1..], keep);
      } else {
        assert r == Filter(s[1..], keep);
      }
    }
  }

  /** An element is kept exactly when it occurs in `s` and satisfies `keep`. */
  lemma {:induction false} FilterMembers<T>(s: seq<T>, keep: T -> bool)
    ensures forall x :: x in Filter(s, keep) <==> x in s && keep(x)
  {
    if s != [] {
      FilterMembers(s[1..], keep);
      assert s == [s[0]] + s[1..];
    }
  }

  /** A kept element keeps all its occurrences; a dropped one keeps none. */
  lemma {:induction false} FilterCount<T>(s: seq<T>, keep: T -> bool)
    ensures forall x :: multiset(Filter(s, keep))[x] == if keep(x) then multiset(s)[x] else 0
  {
    if s != [] {
      FilterCount(s[1..], keep);
      assert s == [s[0]] + s[1..];
    }
  }

  /** Filtering a suffix takes its first element or drops it, then filters the rest. */
  lemma FilterStep<T>(s: seq<T>, k: nat, keep: T -> bool)
    requires k < |s|
    ensures Filter(s[k..], keep) == (if keep(s[k]) then [s[k]] else []) + Filter(s[k + 1..], keep)
  {
    assert s[k..][0] == s[k] && s[k..][1..] == s[k + 1..];
  }

  lemma {:induction false} SubseqRefl<T>(s: seq<T>)
    ensures IsSubseq(s, s)
  {
    if s != [] {
      SubseqRefl(s[1..]);
    }
  }

  lemma {:induction false} SubseqTrans<T>(a: seq<T>, b: seq<T>, c: seq<T>)
    requires IsSubseq(a, b) && IsSubseq(b, c)
    ensures IsSubseq(a, c)
    decreases |c|
  {
    if a != [] {
      if b[0] == c[0] && IsSubseq(b[1..], c[1..]) {
        if a[0] == b[0] && IsSubseq(a[1..], b[1..]) {
          SubseqTrans(a[1..], b[1..], c[1..]);
        } else {
          SubseqTrans(a, b[1..], c[1..]);
        }
      } else {
        SubseqTrans(a, b, c[1..]);
      }
    }
  }

  lemma {:induction false} SubseqMembers<T>(r: seq<T>, s: seq<T>)
    requires IsSubseq(r, s)
    ensures forall x :: x in r ==> x in s
    decreases |s|
  {
    if r != [] {
      if r[0] == s[0] && IsSubseq(r[1..], s[1..]) {
        SubseqMembers(r[1..], s[1..]);
        assert r == [r[0]] + r[1..];
      } else {
        SubseqMembers(r, s[1..]);
      }
    }
  }

  lemma {:induction false} SubseqCount<T>(r: seq<T>, s: seq<T>)
    requires IsSubseq(r, s)
    ensures multiset(r) <= multiset(s)
    decreases |s|
  {
    if r != [] {
      assert s == [s[0]] + s[1..];
      if r[0] == s[0] && IsSubseq(r[1..], s[1..]) {
        SubseqCount(r[1..], s[1..]);
        assert r == [r[0]] + r[1..];
      } else {
        SubseqCount(r, s[1..]);
      }
    }
  }

  /**
   * The filter is the only subsequence of `s` that keeps every occurrence of
   * the wanted elements and none of the others.
   */
  lemma {:induction false} FilterUnique<T>(r: seq<T>, s: seq<T>, keep: T -> bool)
    requires IsSubseq(r, s)
    requires forall x :: multiset(r)[x] == if keep(x) then multiset(s)[x] else 0
    ensures r == Filter(s, keep)
    decreases |s|
  {
    if s == [] {
      assert multiset(r) == multiset{};
    } else {
      var x, t := s[0], s[1..];
      assert s == [x] + t;
      if r != [] && r[0] == x && IsSubseq(r[1..], t) {
        assert r == [x] + r[1..];
        assert keep(x) by {
          assert multiset(r)[x] > 0;
        }
        FilterUnique(r[1..], t, keep);
      } else {
        assert IsSubseq(r, t);
        if keep(x) {
          SubseqCount(r, t);
          assert false;
        }
        forall y ensures multiset(r)[y] == if keep(y) then multiset(t)[y] else 0 {
          if y == x {
            assert multiset(r)[y] == 0;
            assert !keep(y);
          }
        }
        FilterUnique(r, t, keep);
      }
    }
  }

  /** Deleting elements from an ascending sequence leaves it ascending. */
  lemma {:induction false} SubseqAscending<T>(r: seq<T>, s: seq<T>, rank: T -> int)
    requires IsSubseq(r, s) && Ascending(s, rank)
    ensures Ascending(r, rank)
    decreases |s|
  {
    if r != [] {
      assert Ascending(s[1..], rank) by {
        forall i, j | 0 <= i < j < |s[1..]| ensures rank(s[1..][i]) < rank(s[1..][j]) {
          assert s[1..][i] == s[i + 1] && s[1..][j] == s[j + 1];
        }
      }
      if r[0] == s[0] && IsSubseq(r[1..], s[1..]) {
        SubseqAscending(r[1..], s[1..], rank);
        SubseqMembers(r[1..], s[1..]);
        forall i, j | 0 <= i < j < |r| ensures rank(r[i]) < rank(r[j]) {
          assert r[j] == r[1..][j - 1];
          if i == 0 {
            assert r[j] in s[1..];
            var k :| 0 <= k < |s[1..]| && s[1..][k] == r[j];
            assert s[k + 1] == r[j];
          } else {
            assert r[i] == r[1..][i - 1];
          }
        }
      } else {
        SubseqAscending(r, s[1..], rank);
      }
    }
  }

  /**
   * An ascending sequence is determined by its elements alone: two ascending
   * sequences with the same members are equal.
   */
  lemma {:induction false} AscendingUnique<T>(a: seq<T>, b: seq<T>, rank: T -> int)
    requires Ascending(a, rank) && Ascending(b, rank)
    requires forall x :: x in a <==> x in b
    ensures a == b
    decreases |a|
  {
    if a != [] || b != [] {
      assert a != [] && b != [] by {
        assert (a != [] ==> a[0] in a) && (b != [] ==> b[0] in b);
      }
      assert a[0] in b;
      var k :| 0 <= k < |b| && b[k] == a[0];
      assert b[0] in a;
      var m :| 0 <= m < |a| && a[m] == b[0];
      if k != 0 {
        assert false;
      }
      assert a[0] == b[0];
      forall x ensures x in a[1..] <==> x in b[1..] {
        if x in a[1..] {
          var i :| 0 <= i < |a[1..]| && a[1..][i] == x;
          assert rank(a[0]) < rank(x);
          assert x in b;
        }
        if x in b[1..] {
          var i :| 0 <= i < |b[1..]| && b[1..][i] == x;
          assert rank(b[0]) < rank(x);
          assert x in a;
        }
        assert a == [a[0]] + a[1..] && b == [b[0]] + b[1..];
      }
      assert Ascending(a[1..], rank) by {
        forall i, j | 0 <= i < j < |a[1..]| ensures rank(a[1..][i]) < rank(a[1..][j]) {
          assert a[1..][i] == a[i + 1] && a[1..][j] == a[j + 1];
        }
      }
      assert Ascending(b[1..], rank) by {
        forall i, j | 0 <= i < j < |b[1..]| ensures rank(b[1..][i]) < rank(b[1..][j]) {
          assert b[1..][i] == b[i + 1] && b[1..][j] == b[j + 1];
        }
      }
      AscendingUnique(a[1..], b[1..], rank);
      assert a == [a[0]] + a[1..] && b == [b[0]] + b[1..];
    }
  }
}
