/**
 * Ranking of recommendation results by descending eligibility score with a
 * stable sort: `Array.prototype.sort` (stable since ECMAScript 2019,
 * section 22.1.3.27) and Python's `list.sort(reverse=True)` both keep
 * equal-score results in the order they were produced.
 */
module Ranking {
  import opened Types
  import Sequences

  predicate SortedByScore(rs: seq<RecommendationResult>)
  {
    forall i, j :: 0 <= i < j < |rs| ==> rs[i].eligibilityScore >= rs[j].eligibilityScore
  }

  /** The results scoring exactly `k`, in their order in `rs`. */
  function WithScore(rs: seq<RecommendationResult>, k: int): (tied: seq<RecommendationResult>)
    ensures |tied| <= |rs|
  {
    if rs == [] then []
    else (if rs[0].eligibilityScore == k then [rs[0]] else []) + WithScore(rs[1..], k)
  }

  /** Puts `r` ahead of the first result scoring no more than it. */
  function Insert(r: RecommendationResult, rs: seq<RecommendationResult>): (out: seq<RecommendationResult>)
    requires SortedByScore(rs)
    ensures SortedByScore(out)
    ensures multiset(out) == multiset(rs) + multiset{r}
  {
    if rs == [] || rs[0].eligibilityScore <= r.eligibilityScore then
      var out := [r] + rs;
      assert out[1..] == rs;
      out
    else
      var rest := Insert(r, rs[1..]);
      ConsSorted(rs[0], rest, r, rs);
      var out := [rs[0]] + rest;
      assert rs == [rs[0]] + rs[1..];
      assert multiset(out) == multiset{rs[0]} + multiset(rest);
      assert multiset(rs) == multiset{rs[0]} + multiset(rs[1..]);
      out
  }

  /** Inserting keeps the order among equal scores: `r` goes ahead of the results that tie with it. */
  lemma {:induction false} InsertWithScore(r: RecommendationResult, rs: seq<RecommendationResult>, k: int)
    requires SortedByScore(rs)
    ensures WithScore(Insert(r, rs), k) == (if r.eligibilityScore == k then [r] else []) + WithScore(rs, k)
  {
    var out := Insert(r, rs);
    if rs == [] || rs[0].eligibilityScore <= r.eligibilityScore {
      assert out == [r] + rs;
      assert out[1..] == rs;
    } else {
      var rest := Insert(r, rs[1..]);
      InsertWithScore(r, rs[1..], k);
      assert out == [rs[0]] + rest;
      assert out[1..] == rest;
      assert WithScore(out, k) == (if rs[0].eligibilityScore == k then [rs[0]] else []) + WithScore(rest, k);
      assert WithScore(rs, k) == (if rs[0].eligibilityScore == k then [rs[0]] else []) + WithScore(rs[1..], k);
      if rs[0].eligibilityScore == k {
        assert r.eligibilityScore != k;
      }
    }
  }

  /** Putting back the head of a sorted list in front of a result built from its tail and `r`. */
  lemma ConsSorted(h: RecommendationResult, rest: seq<RecommendationResult>, r: RecommendationResult, rs: seq<RecommendationResult>)
    requires SortedByScore(rs) && SortedByScore(rest) && rs != [] && h == rs[0]
    requires r.eligibilityScore < h.eligibilityScore
    requires multiset(rest) == multiset(rs[1..]) + multiset{r}
    ensures SortedByScore([h] + rest)
  {
    var out := [h] + rest;
    forall i, j | 0 <= i < j < |out| ensures out[i].eligibilityScore >= out[j].eligibilityScore {
      if i == 0 {
        var x := out[j];
        assert x in rest;
        assert x in multiset(rest);
        if x != r {
          assert x in multiset(rs[1..]);
          var m :| 0 <= m < |rs[1..]| && rs[1..][m] == x;
          assert rs[m + 1] == x;
        }
      } else {
        assert out[i] == rest[i - 1] && out[j] == rest[j - 1];
      }
    }
  }

  /**
   * Stable sort by descending score: the output is ordered, is a
   * permutation of the input, and the results of each score keep their
   * relative order.
   */
  function SortByScore(rs: seq<RecommendationResult>): (sorted: seq<RecommendationResult>)
    ensures |sorted| == |rs|
    ensures SortedByScore(sorted)
    ensures multiset(sorted) == multiset(rs)
    ensures forall k :: WithScore(sorted, k) == WithScore(rs, k)
  {
    if rs == [] then []
    else
      assert rs == [rs[0]] + rs[1..];
      assert multiset(rs) == multiset(rs[1..]) + multiset{rs[0]};
      var tail := SortByScore(rs[1..]);
      var sorted := Insert(rs[0], tail);
      assert |sorted| == |multiset(sorted)|;
      assert forall k :: WithScore(sorted, k) == WithScore(rs, k) by {
        forall k ensures WithScore(sorted, k) == WithScore(rs, k) {
          InsertWithScore(rs[0], tail, k);
        }
      }
      sorted
  }

  lemma {:induction false} WithScoreMembers(rs: seq<RecommendationResult>, k: int)
    ensures forall r :: r in WithScore(rs, k) ==> r in rs && r.eligibilityScore == k
    ensures (exists i :: 0 <= i < |rs| && rs[i].eligibilityScore == k) ==> WithScore(rs, k) != []
  {
    if rs != [] {
      WithScoreMembers(rs[1..], k);
      if rs[0].eligibilityScore != k {
        forall i | 0 < i < |rs| && rs[i].eligibilityScore == k ensures WithScore(rs[1..], k) != [] {
          assert rs[1..][i - 1] == rs[i];
        }
      }
    }
  }

  /**
   * The two properties of SortByScore determine it: a score-ordered
   * sequence with the same results per score, in the same order, is that
   * sort's output.
   */
  lemma {:induction false} StableSortIsUnique(rs: seq<RecommendationResult>, other: seq<RecommendationResult>)
    requires SortedByScore(other)
    requires forall k :: WithScore(other, k) == WithScore(rs, k)
    ensures other == SortByScore(rs)
  {
    SortedTiesDetermine(other, SortByScore(rs));
  }

  lemma {:induction false} SortedTiesDetermine(t: seq<RecommendationResult>, u: seq<RecommendationResult>)
    requires SortedByScore(t) && SortedByScore(u)
    requires forall k :: WithScore(t, k) == WithScore(u, k)
    ensures t == u
    decreases |t| + |u|
  {
    if t != [] {
      SharedHeadTie(t, u);
    }
    if u != [] {
      SharedHeadTie(u, t);
    }
    if t == [] {
    } else {
      var m, n := t[0].eligibilityScore, u[0].eligibilityScore;
      WithScoreMembers(t, n);
      WithScoreMembers(u, m);
      assert WithScore(t, m) == [t[0]] + WithScore(t[1..], m);
      assert WithScore(u, n) == [u[0]] + WithScore(u[1..], n);
      // t[0] occurs in u and u[0] in t, so neither head outscores the other.
      assert WithScore(u, m)[0] in u;
      assert WithScore(t, n)[0] in t;
      assert m == n;
      assert t[0] == u[0];
      forall k ensures WithScore(t[1..], k) == WithScore(u[1..], k) {
        assert WithScore(t, k) == (if m == k then [t[0]] else []) + WithScore(t[1..], k);
        assert WithScore(u, k) == (if m == k then [u[0]] else []) + WithScore(u[1..], k);
        assert WithScore(t, k) == WithScore(u, k);
        if m == k {
          assert WithScore(t[1..], k) == WithScore(t, k)[1..];
          assert WithScore(u[1..], k) == WithScore(u, k)[1..];
        } else {
          assert WithScore(t[1..], k) == WithScore(t, k);
          assert WithScore(u[1..], k) == WithScore(u, k);
        }
      }
      SortedTiesDetermine(t[1..], u[1..]);
      assert t == [t[0]] + t[1..] && u == [u[0]] + u[1..];
    }
  }

  /** A non-empty sequence has a non-empty tie class, so the other side is non-empty too. */
  lemma SharedHeadTie(t: seq<RecommendationResult>, u: seq<RecommendationResult>)
    requires t != []
    requires forall k :: WithScore(t, k) == WithScore(u, k)
    ensures u != []
  {
    assert WithScore(t, t[0].eligibilityScore) != [];
    assert WithScore(u, t[0].eligibilityScore) != [];
  }

  lemma {:induction false} WithScoreConcat(a: seq<RecommendationResult>, b: seq<RecommendationResult>, k: int)
    ensures WithScore(a + b, k) == WithScore(a, k) + WithScore(b, k)
  {
    if a == [] {
      assert a + b == b;
    } else {
      var x, rest := a[0], a[1..];
      WithScoreConcat(rest, b, k);
      assert a == [x] + rest;
      assert a + b == [x] + (rest + b);
      WithScoreCons(x, rest + b, k);
      WithScoreCons(x, rest, k);
      var h := if x.eligibilityScore == k then [x] else [];
      Sequences.AppendAssoc(h, WithScore(rest, k), WithScore(b, k));
    }
  }

  lemma WithScoreCons(x: RecommendationResult, rest: seq<RecommendationResult>, k: int)
    ensures WithScore([x] + rest, k) == (if x.eligibilityScore == k then [x] else []) + WithScore(rest, k)
  {
    assert ([x] + rest)[1..] == rest;
  }

  lemma PairTies(x: RecommendationResult, y: RecommendationResult, k: int)
    requires x.eligibilityScore != y.eligibilityScore
    ensures WithScore([x, y], k) == WithScore([y, x], k)
  {
    assert [x, y][1..] == [y] && [y, x][1..] == [x];
    assert [y][1..] == [] && [x][1..] == [];
  }

  /** Exchanging neighbours of different scores leaves every tie class as it was. */
  lemma SwapKeepsTies(s: seq<RecommendationResult>, j: int)
    requires 0 < j < |s| && s[j - 1].eligibilityScore != s[j].eligibilityScore
    ensures forall k :: WithScore(s[j - 1 := s[j]][j := s[j - 1]], k) == WithScore(s, k)
  {
    var t := s[j - 1 := s[j]][j := s[j - 1]];
    var pre, post := s[..j - 1], s[j + 1..];
    var xy, yx := [s[j - 1], s[j]], [s[j], s[j - 1]];
    assert s == pre + xy + post;
    assert t == pre + yx + post;
    forall k ensures WithScore(t, k) == WithScore(s, k) {
      WithScoreConcat(pre + xy, post, k);
      WithScoreConcat(pre, xy, k);
      WithScoreConcat(pre + yx, post, k);
      WithScoreConcat(pre, yx, k);
      PairTies(s[j - 1], s[j], k);
    }
  }

  /**
   * An in-place stable sort by descending score (insertion by adjacent
   * exchanges); it leaves the array holding SortByScore of its old contents.
   */
  method SortInPlace(a: array<RecommendationResult>)
    modifies a
    ensures a[..] == SortByScore(old(a[..]))
  {
    for i := 0 to a.Length
      invariant SortedByScore(a[..i])
      invariant forall k :: WithScore(a[..], k) == WithScore(old(a[..]), k)
    {
      SinkInto(a, i);
    }
    assert a[..a.Length] == a[..];
    StableSortIsUnique(old(a[..]), a[..]);
  }

  /** Moves `a[i]` left past the lower scores, so that `a[..i + 1]` is ordered. */
  method SinkInto(a: array<RecommendationResult>, i: int)
    requires 0 <= i < a.Length && SortedByScore(a[..i])
    modifies a
    ensures SortedByScore(a[..i + 1])
    ensures forall k :: WithScore(a[..], k) == WithScore(old(a[..]), k)
    ensures a[i + 1..] == old(a[i + 1..])
  {
    var j := i;
    SinkStart(a[..], i);
    while j > 0 && a[j - 1].eligibilityScore < a[j].eligibilityScore
      invariant 0 <= j <= i
      invariant Sinking(a[..], i, j)
      invariant forall k :: WithScore(a[..], k) == WithScore(old(a[..]), k)
      invariant a[i + 1..] == old(a[i + 1..])
    {
      ghost var before := a[..];
      SwapKeepsTies(before, j);
      SinkStep(before, i, j);
      a[j - 1], a[j] := a[j], a[j - 1];
      assert a[..] == before[j - 1 := before[j]][j := before[j - 1]];
      j := j - 1;
    }
    SinkDone(a[..], i, j);
  }

  /**
   * The state of SinkInto: `s[..i + 1]` is ordered except for the result at
   * `j`, which outscores everything after it up to `i`.
   */
  predicate Sinking(s: seq<RecommendationResult>, i: int, j: int)
  {
    && 0 <= j <= i < |s|
    && (forall p, q :: 0 <= p < q <= i && p != j && q != j ==> s[p].eligibilityScore >= s[q].eligibilityScore)
    && (forall q :: j < q <= i ==> s[j].eligibilityScore > s[q].eligibilityScore)
  }

  lemma SinkStart(s: seq<RecommendationResult>, i: int)
    requires 0 <= i < |s| && SortedByScore(s[..i])
    ensures Sinking(s, i, i)
  {
    forall p, q | 0 <= p < q <= i && p != i && q != i ensures s[p].eligibilityScore >= s[q].eligibilityScore {
      assert s[p] == s[..i][p] && s[q] == s[..i][q];
    }
  }

  lemma SinkStep(s: seq<RecommendationResult>, i: int, j: int)
    requires Sinking(s, i, j) && 0 < j && s[j - 1].eligibilityScore < s[j].eligibilityScore
    ensures Sinking(s[j - 1 := s[j]][j := s[j - 1]], i, j - 1)
  {
  }

  lemma SinkDone(s: seq<RecommendationResult>, i: int, j: int)
    requires Sinking(s, i, j) && (j == 0 || s[j - 1].eligibilityScore >= s[j].eligibilityScore)
    ensures SortedByScore(s[..i + 1])
  {
    var t := s[..i + 1];
    forall p, q | 0 <= p < q < |t| ensures t[p].eligibilityScore >= t[q].eligibilityScore {
      assert t[p] == s[p] && t[q] == s[q];
      if q == j {
        assert s[p].eligibilityScore >= s[j - 1].eligibilityScore || p == j - 1;
      }
    }
  }
}
