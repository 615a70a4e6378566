/**
 The order in which backends hand tasks out: by due time, then by a tie-breaker.
 The in-memory backend breaks ties by insertion sequence, Redis by member name.
 */
module Ordering {
  import opened Tasks

  datatype Rank = Rank(due: Timestamp, seqNo: nat, id: TaskId)

  /** Lexicographic order on names, a proper prefix coming first. */
  predicate Before(a: string, b: string) {
    b != [] && (a == [] || a[0] < b[0] || (a[0] == b[0] && Before(a[1..], b[1..])))
  }

  /** They agree up to position `k`, where `a` ends or has the smaller letter. */
  predicate Departs(a: string, b: string, k: nat) {
    && k <= |a| && k < |b| && a[..k] == b[..k]
    && (k == |a| || a[k] < b[k])
  }

  lemma {:induction false} BeforeIsLexicographic(a: string, b: string)
    ensures Before(a, b) <==> exists k: nat :: Departs(a, b, k)
  {
    if Before(a, b) {
      if a == [] || a[0] < b[0] {
        assert Departs(a, b, 0);
      } else {
        BeforeIsLexicographic(a[1..], b[1..]);
        var k: nat :| Departs(a[1..], b[1..], k);
        assert a[..k + 1] == [a[0]] + a[1..][..k] && b[..k + 1] == [b[0]] + b[1..][..k];
        assert Departs(a, b, k + 1);
      }
    }
    if k: nat :| Departs(a, b, k) {
      if k > 0 {
        assert a[..k][0] == b[..k][0];
        assert a[1..][..k - 1] == a[..k][1..] && b[1..][..k - 1] == b[..k][1..];
        assert Departs(a[1..], b[1..], k - 1);
        BeforeIsLexicographic(a[1..], b[1..]);
      }
    }
  }

  predicate Less(a: Rank, b: Rank) {
    || a.due < b.due
    || (a.due == b.due && a.seqNo < b.seqNo)
    || (a.due == b.due && a.seqNo == b.seqNo && Before(a.id, b.id))
  }

  lemma {:induction false} BeforeTotal(a: string, b: string)
    ensures Before(a, b) || Before(b, a) || a == b
    ensures !(Before(a, b) && Before(b, a))
    ensures !Before(a, a)
  {
    if a != [] {
      BeforeTotal(a[1..], a[1..]);
    }
    if a != [] && b != [] {
      BeforeTotal(a[1..], b[1..]);
      assert a == [a[0]] + a[1..] && b == [b[0]] + b[1..];
    }
  }

  lemma {:induction false} BeforeTransitive(a: string, b: string, c: string)
    requires Before(a, b) && Before(b, c)
    ensures Before(a, c)
  {
    if a != [] && a[0] == b[0] == c[0] {
      BeforeTransitive(a[1..], b[1..], c[1..]);
    }
  }

  lemma LessTotal(a: Rank, b: Rank)
    ensures Less(a, b) || Less(b, a) || a == b
    ensures !(Less(a, b) && Less(b, a))
    ensures !Less(a, a)
  {
    BeforeTotal(a.id, b.id);
    BeforeTotal(a.id, a.id);
  }

  lemma LessTransitive(a: Rank, b: Rank, c: Rank)
    requires Less(a, b) && Less(b, c)
    ensures Less(a, c)
  {
    if Before(a.id, b.id) && Before(b.id, c.id) {
      BeforeTransitive(a.id, b.id, c.id);
    }
  }

  ghost predicate Ascending(xs: seq<Rank>) {
    forall i, j | 0 <= i < j < |xs| :: Less(xs[i], xs[j])
  }

  predicate IsMinimum(m: Rank, s: set<Rank>) {
    m in s && forall y | y in s :: y == m || Less(m, y)
  }

  lemma {:induction false} MinimumExists(s: set<Rank>)
    requires s != {}
    ensures exists m :: IsMinimum(m, s)
  {
    var x :| x in s;
    var rest := s - {x};
    if rest == {} {
      assert s == {x};
      assert IsMinimum(x, s);
    } else {
      MinimumExists(rest);
      var m :| IsMinimum(m, rest);
      LessTotal(x, m);
      if Less(x, m) {
        forall y | y in s ensures y == x || Less(x, y) {
          if y != x && y != m {
            LessTransitive(x, m, y);
          }
        }
        assert IsMinimum(x, s);
      } else {
        assert IsMinimum(m, s);
      }
    }
  }

  lemma MinimumUnique(a: Rank, b: Rank, s: set<Rank>)
    requires IsMinimum(a, s) && IsMinimum(b, s)
    ensures a == b
  {
    LessTotal(a, b);
  }

  function Minimum(s: set<Rank>): (m: Rank)
    requires s != {}
    ensures IsMinimum(m, s)
  {
    MinimumExists(s);
    assert forall a, b | IsMinimum(a, s) && IsMinimum(b, s) :: a == b by {
      forall a, b | IsMinimum(a, s) && IsMinimum(b, s) ensures a == b {
        MinimumUnique(a, b, s);
      }
    }
    var m :| m in s && IsMinimum(m, s);
    m
  }

  /** All ranks of `s`, smallest first. */
  function Sort(s: set<Rank>): (xs: seq<Rank>)
    ensures Ascending(xs)
    ensures forall x :: x in xs <==> x in s
    ensures |xs| == |s|
  {
    if s == {} then [] else
      var m := Minimum(s);
      var rest := Sort(s - {m});
      assert forall j | 0 <= j < |rest| :: Less(m, rest[j]) by {
        forall j | 0 <= j < |rest| ensures Less(m, rest[j]) {
          assert rest[j] in rest;
        }
      }
      [m] + rest
  }

  function Take<T>(xs: seq<T>, k: nat): seq<T> {
    xs[..Min(k, |xs|)]
  }

  /** `xs` lists the `k` least members of `s` (or all of them) in order. */
  ghost predicate IsLeast(xs: seq<Rank>, s: set<Rank>, k: nat) {
    && Ascending(xs)
    && (forall x | x in xs :: x in s)
    && |xs| == Min(k, |s|)
    && (forall x, y | x in s && x !in xs && y in xs :: Less(y, x))
  }

  lemma AscendingDistinct(xs: seq<Rank>, i: nat, j: nat)
    requires Ascending(xs) && i < j < |xs|
    ensures xs[i] != xs[j]
  {
    LessTotal(xs[i], xs[j]);
  }

  lemma {:induction false} AscendingCount(xs: seq<Rank>)
    requires Ascending(xs)
    ensures |set x | x in xs| == |xs|
  {
    if xs != [] {
      var n := |xs| - 1;
      AscendingCount(xs[..n]);
      var before := set x | x in xs[..n];
      assert xs[n] !in before by {
        forall i | 0 <= i < n ensures xs[..n][i] != xs[n] {
          AscendingDistinct(xs, i, n);
        }
      }
      assert (set x | x in xs) == before + {xs[n]};
    }
  }

  lemma SubsetSize<T>(a: set<T>, b: set<T>)
    requires a <= b
    ensures |a| <= |b|
  {
    assert b == a + (b - a);
  }

  lemma PrefixFirst(all: seq<Rank>, n: nat, x: Rank, y: Rank)
    requires Ascending(all) && n <= |all| && x in all && x !in all[..n] && y in all[..n]
    ensures Less(y, x)
  {
    var i :| 0 <= i < n && all[..n][i] == y;
    var j :| 0 <= j < |all| && all[j] == x;
    forall m | 0 <= m < n ensures all[m] != x {
      assert all[m] == all[..n][m];
    }
  }

  lemma SortedPrefixIsLeast(s: set<Rank>, k: nat)
    ensures IsLeast(Take(Sort(s), k), s, k)
  {
    var all := Sort(s);
    var n := Min(k, |all|);
    assert Ascending(all[..n]);
    forall x | x in all[..n] ensures x in s {
      assert x in all;
    }
    forall x, y | x in s && x !in all[..n] && y in all[..n] ensures Less(y, x) {
      PrefixFirst(all, n, x, y);
    }
  }

  /** There is only one way to list the `k` least members. */
  lemma {:induction false} LeastUnique(xs: seq<Rank>, ys: seq<Rank>, s: set<Rank>, k: nat)
    requires IsLeast(xs, s, k) && IsLeast(ys, s, k)
    ensures xs == ys
    decreases k
  {
    if xs != [] {
      var x, y := xs[0], ys[0];
      HeadIsMinimum(xs, s, k);
      HeadIsMinimum(ys, s, k);
      MinimumUnique(x, y, s);
      var rest := s - {x};
      RestIsLeast(xs, s, k);
      RestIsLeast(ys, s, k);
      LeastUnique(xs[1..], ys[1..], rest, k - 1);
      assert xs == [x] + xs[1..] && ys == [y] + ys[1..];
    }
  }

  lemma HeadIsMinimum(xs: seq<Rank>, s: set<Rank>, k: nat)
    requires IsLeast(xs, s, k) && xs != []
    ensures IsMinimum(xs[0], s)
  {
    forall y | y in s ensures y == xs[0] || Less(xs[0], y) {
      if y in xs {
        var i :| 0 <= i < |xs| && xs[i] == y;
      }
    }
  }

  lemma RestIsLeast(xs: seq<Rank>, s: set<Rank>, k: nat)
    requires IsLeast(xs, s, k) && xs != []
    ensures k > 0 && IsLeast(xs[1..], s - {xs[0]}, k - 1)
  {
    var rest := xs[1..];
    forall r | r in rest ensures r in s - {xs[0]} {
      var i :| 0 <= i < |rest| && rest[i] == r;
      AscendingDistinct(xs, 0, i + 1);
      assert r == xs[i + 1];
    }
    forall r, y | r in s - {xs[0]} && r !in rest && y in rest ensures Less(y, r) {
      assert r !in xs;
      assert y in xs;
    }
  }
}
