/** Sorting ids by descending score and then by name, as Python's `sorted` does with key (-score, id). */
module Ranking {
  import opened Common

  /** Lexicographic order on code points. */
  predicate Less(a: string, b: string)
    decreases |a|
  {
    b != "" && (a == "" || a[0] < b[0] || (a[0] == b[0] && Less(a[1..], b[1..])))
  }

  /** `a` and `b` agree on their first `n` characters, and then `a` ends or has the smaller one. */
  predicate SplitsAt(a: string, b: string, n: nat) {
    n <= |a| && n <= |b| && a[..n] == b[..n] && n < |b| && (n == |a| || a[n] < b[n])
  }

  lemma SplitsLater(a: string, b: string, n: nat)
    requires SplitsAt(a, b, n) && n > 0
    ensures a != "" && b != "" && a[0] == b[0]
  {
    assert a[..n][0] == b[..n][0];
  }

  lemma {:induction false} LessIsCodePoints(a: string, b: string)
    ensures Less(a, b) <==> exists n: nat :: SplitsAt(a, b, n)
    decreases |a|
  {
    if a != "" && b != "" && a[0] == b[0] {
      LessIsCodePoints(a[1..], b[1..]);
      assert a == [a[0]] + a[1..] && b == [b[0]] + b[1..];
      if n: nat :| SplitsAt(a[1..], b[1..], n) {
        assert a[..n + 1] == [a[0]] + a[1..][..n] && b[..n + 1] == [b[0]] + b[1..][..n];
        assert SplitsAt(a, b, n + 1);
      }
      if n: nat :| SplitsAt(a, b, n) {
        assert n > 0;
        assert a[1..][..n - 1] == a[..n][1..] && b[1..][..n - 1] == b[..n][1..];
        assert SplitsAt(a[1..], b[1..], n - 1);
      }
    } else {
      if Less(a, b) { assert SplitsAt(a, b, 0); }
      if n: nat :| SplitsAt(a, b, n) {
        if n > 0 { SplitsLater(a, b, n); }
      }
    }
  }

  predicate Better(score: map<string, int>, a: string, b: string)
    requires a in score && b in score
  {
    score[a] > score[b] || (score[a] == score[b] && Less(a, b))
  }

  lemma {:induction false} LessIrreflexive(a: string)
    ensures !Less(a, a)
    decreases |a|
  {
    if a != "" {
      LessIrreflexive(a[1..]);
    }
  }

  lemma {:induction false} LessTotal(a: string, b: string)
    ensures a == b || Less(a, b) || Less(b, a)
    ensures !(Less(a, b) && Less(b, a))
    decreases |a|
  {
    if a != "" && b != "" {
      LessTotal(a[1..], b[1..]);
      if a[0] == b[0] && a[1..] == b[1..] {
        assert a == [a[0]] + a[1..] && b == [b[0]] + b[1..];
      }
    }
  }

  lemma {:induction false} LessTrans(a: string, b: string, c: string)
    requires Less(a, b) && Less(b, c)
    ensures Less(a, c)
    decreases |a|
  {
    if a != "" && a[0] == b[0] && b[0] == c[0] {
      LessTrans(a[1..], b[1..], c[1..]);
    }
  }

  lemma BetterOrder(score: map<string, int>, a: string, b: string, c: string)
    requires a in score && b in score && c in score
    ensures a == b || Better(score, a, b) || Better(score, b, a)
    ensures !(Better(score, a, b) && Better(score, b, a))
    ensures Better(score, a, b) && Better(score, b, c) ==> Better(score, a, c)
  {
    LessTotal(a, b);
    if a == b { LessIrreflexive(a); }
    if Less(a, b) && Less(b, c) { LessTrans(a, b, c); }
  }

  predicate IsBest(b: string, ids: set<string>, score: map<string, int>)
    requires ids <= score.Keys
  {
    b in ids && forall x <- ids :: x == b || Better(score, b, x)
  }

  lemma {:induction false} BestExists(ids: set<string>, score: map<string, int>)
    requires ids != {} && ids <= score.Keys
    ensures exists b :: IsBest(b, ids, score)
    decreases |ids|
  {
    var x :| x in ids;
    var rest := ids - {x};
    if rest == {} {
      assert ids == {x};
      assert IsBest(x, ids, score);
    } else {
      BestExists(rest, score);
      var y :| IsBest(y, rest, score);
      BetterOrder(score, x, y, y);
      var b := if Better(score, x, y) then x else y;
      forall z <- ids ensures z == b || Better(score, b, z) {
        BetterOrder(score, x, y, z);
      }
      assert IsBest(b, ids, score);
    }
  }

  lemma BestUnique(b: string, c: string, ids: set<string>, score: map<string, int>)
    requires ids <= score.Keys && IsBest(b, ids, score) && IsBest(c, ids, score)
    ensures b == c
  {
    BetterOrder(score, b, c, c);
  }

  /** The ids, best first. */
  ghost function Ranked(ids: set<string>, score: map<string, int>): (r: seq<string>)
    requires ids <= score.Keys
    ensures |r| == |ids| && forall x :: x in r <==> x in ids
    decreases |ids|
  {
    if ids == {} then []
    else
      BestExists(ids, score);
      var b :| IsBest(b, ids, score);
      [b] + Ranked(ids - {b}, score)
  }

  ghost function Zeros(ids: set<string>): map<string, int> {
    map x <- ids :: 0
  }

  /** The ids in order. */
  ghost function Sorted(ids: set<string>): seq<string> {
    Ranked(ids, Zeros(ids))
  }

  lemma {:induction false} RankedIsSorted(ids: set<string>, score: map<string, int>)
    requires ids <= score.Keys
    ensures forall i, j :: 0 <= i < j < |ids| ==> Better(score, Ranked(ids, score)[i], Ranked(ids, score)[j])
    decreases |ids|
  {
    if ids != {} {
      var r := Ranked(ids, score);
      RankedIsSorted(ids - {r[0]}, score);
      assert forall j :: 1 <= j < |r| ==> r[j] in ids - {r[0]};
    }
  }

  /** A list of exactly these ids in strictly descending order. */
  predicate IsRanking(r: seq<string>, ids: set<string>, score: map<string, int>) {
    && ids <= score.Keys
    && (forall x <- r :: x in ids) && (forall x <- ids :: x in r)
    && forall i, j :: 0 <= i < j < |r| ==> Better(score, r[i], r[j])
  }

  lemma FirstIsBest(r: seq<string>, ids: set<string>, score: map<string, int>)
    requires IsRanking(r, ids, score) && r != []
    ensures IsBest(r[0], ids, score)
  {
    assert r[0] in r;
    forall x <- ids ensures x == r[0] || Better(score, r[0], x) {
      assert x in r;
      var j :| 0 <= j < |r| && r[j] == x;
    }
  }

  lemma TailIsRanking(r: seq<string>, ids: set<string>, score: map<string, int>)
    requires IsRanking(r, ids, score) && r != []
    ensures IsRanking(r[1..], ids - {r[0]}, score)
  {
    var tail := r[1..];
    forall x <- tail ensures x in ids - {r[0]} {
      var j :| 0 <= j < |tail| && tail[j] == x;
      assert r[j + 1] == x && Better(score, r[0], r[j + 1]);
      BetterOrder(score, x, x, x);
    }
    forall x <- ids - {r[0]} ensures x in tail {
      assert x in r;
      var j :| 0 <= j < |r| && r[j] == x;
      assert tail[j - 1] == x;
    }
  }

  lemma RankedStarts(b: string, ids: set<string>, score: map<string, int>)
    requires ids <= score.Keys && IsBest(b, ids, score)
    ensures Ranked(ids, score) == [b] + Ranked(ids - {b}, score)
  {
    BestUnique(b, Ranked(ids, score)[0], ids, score);
  }

  lemma EmptyTogether(r: seq<string>, ids: set<string>, score: map<string, int>)
    requires IsRanking(r, ids, score)
    ensures r == [] <==> ids == {}
  {
    if r != [] { assert r[0] in ids; }
    if ids != {} {
      var x :| x in ids;
      assert x in r;
    }
  }

  lemma {:induction false} RankingsEqual(r: seq<string>, q: seq<string>, ids: set<string>, score: map<string, int>)
    requires IsRanking(r, ids, score) && IsRanking(q, ids, score)
    ensures r == q
    decreases |r|
  {
    EmptyTogether(r, ids, score);
    EmptyTogether(q, ids, score);
    if ids != {} {
      FirstIsBest(r, ids, score);
      FirstIsBest(q, ids, score);
      BestUnique(r[0], q[0], ids, score);
      TailIsRanking(r, ids, score);
      TailIsRanking(q, ids, score);
      RankingsEqual(r[1..], q[1..], ids - {r[0]}, score);
      assert r == [r[0]] + r[1..] && q == [q[0]] + q[1..];
    }
  }

  /** Such a list is the ranking. */
  lemma RankingUnique(r: seq<string>, ids: set<string>, score: map<string, int>)
    requires IsRanking(r, ids, score)
    ensures r == Ranked(ids, score)
  {
    RankedIsSorted(ids, score);
    RankingsEqual(r, Ranked(ids, score), ids, score);
  }

  lemma RankedNext(r: seq<string>, b: string, rest: set<string>, score: map<string, int>)
    requires rest <= score.Keys && IsBest(b, rest, score)
    ensures r + Ranked(rest, score) == (r + [b]) + Ranked(rest - {b}, score)
  {
    RankedStarts(b, rest, score);
  }

  method PickBest(ids: set<string>, score: map<string, int>) returns (b: string)
    requires ids != {} && ids <= score.Keys
    ensures IsBest(b, ids, score)
  {
    b :| b in ids;
    var todo := ids - {b};
    while todo != {}
      invariant todo <= ids && b in ids
      invariant forall x <- ids - todo :: x == b || Better(score, b, x)
      decreases |todo|
    {
      var x :| x in todo;
      ghost var was := b;
      if Better(score, x, b) {
        b := x;
      }
      forall y <- ids - (todo - {x}) ensures y == b || Better(score, b, y) {
        BetterOrder(score, x, was, y);
      }
      todo := todo - {x};
    }
  }

  method Sort(ids: set<string>, score: map<string, int>) returns (r: seq<string>)
    requires ids <= score.Keys
    ensures r == Ranked(ids, score)
  {
    var rest := ids;
    r := [];
    while rest != {}
      invariant rest <= ids && r + Ranked(rest, score) == Ranked(ids, score)
      decreases |rest|
    {
      var b := PickBest(rest, score);
      RankedNext(r, b, rest, score);
      r := r + [b];
      rest := rest - {b};
    }
  }

  method SortStrings(ids: set<string>) returns (r: seq<string>)
    ensures r == Sorted(ids)
  {
    r := Sort(ids, map x <- ids :: 0);
  }

  /** Python's `xs[:n]`. */
  function Take<T>(xs: seq<T>, n: nat): seq<T> {
    if n < |xs| then xs[..n] else xs
  }

  /** The best of the ids: in order, no more than the bound and no fewer than it allows, and nothing better left out. */
  predicate AreBest(r: seq<string>, ids: set<string>, score: map<string, int>, bound: nat)
    requires ids <= score.Keys
  {
    && |r| == Min(bound, |ids|)
    && (forall x <- r :: x in ids)
    && (forall i, j :: 0 <= i < j < |r| ==> Better(score, r[i], r[j]))
    && (forall x <- ids, y <- r :: x in r || Better(score, y, x))
  }

  /** Cutting the ranking leaves the best. */
  lemma CutIsBest(ids: set<string>, score: map<string, int>, bound: nat)
    requires ids <= score.Keys
    ensures AreBest(Take(Ranked(ids, score), bound), ids, score, bound)
  {
    var all, r := Ranked(ids, score), Take(Ranked(ids, score), bound);
    RankedIsSorted(ids, score);
    forall x <- r ensures x in ids {
      var i :| 0 <= i < |r| && r[i] == x;
      assert all[i] == x;
    }
    forall x <- ids, y <- r ensures x in r || Better(score, y, x) {
      assert x in all;
      var i :| 0 <= i < |all| && all[i] == x;
      var j :| 0 <= j < |r| && r[j] == y;
      if i < |r| { assert r[i] == x; }
    }
  }
}
