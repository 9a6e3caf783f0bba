/**
 * `getRecommendations` and `generateReport` of src/utils/recommender.ts,
 * over a catalog passed in and a clock reduced to `daysUntil` and the
 * report's timestamp.
 */
module Recommender {
  import opened Types
  import opened Text
  import opened Scoring
  import opened Ranking
  import opened Explanation

  /** The three gates a scheme passes to be recommended: active, state match, score of at least 50. */
  predicate Qualifies(s: Scheme, p: UserProfile)
  {
    s.isActive && StateEligible(s, p) && EligibilityScore(s, p) >= 50
  }

  /** The result recorded for a kept scheme. */
  function ResultFor(s: Scheme, p: UserProfile, daysUntil: string -> int): RecommendationResult
  {
    var score := EligibilityScore(s, p);
    RecommendationResult(s, score, Reasons(s, p, score), Alerts(s, score, daysUntil))
  }

  /** The results in catalog order, before ranking. */
  function Candidates(catalog: seq<Scheme>, p: UserProfile, daysUntil: string -> int): (found: seq<RecommendationResult>)
    ensures |found| <= |catalog|
  {
    if catalog == [] then []
    else
      var rest := Candidates(catalog[..|catalog| - 1], p, daysUntil);
      var s := catalog[|catalog| - 1];
      if Qualifies(s, p) then rest + [ResultFor(s, p, daysUntil)] else rest
  }

  /** The ranked recommendations. */
  function Recommendations(catalog: seq<Scheme>, p: UserProfile, daysUntil: string -> int): seq<RecommendationResult>
  {
    SortByScore(Candidates(catalog, p, daysUntil))
  }

  /**
   * A result is among the candidates exactly when it is the result of a
   * catalog scheme that passes every gate.
   */
  lemma {:induction false} CandidatesMembers(catalog: seq<Scheme>, p: UserProfile, daysUntil: string -> int)
    ensures forall r :: r in Candidates(catalog, p, daysUntil) <==>
      r.scheme in catalog && Qualifies(r.scheme, p) && r == ResultFor(r.scheme, p, daysUntil)
  {
    if catalog != [] {
      var init, s := catalog[..|catalog| - 1], catalog[|catalog| - 1];
      CandidatesMembers(init, p, daysUntil);
      assert catalog == init + [s];
    }
  }

  /** A scheme listed once in the catalog gives at most one result. */
  lemma {:induction false} CandidatesOnce(catalog: seq<Scheme>, p: UserProfile, daysUntil: string -> int)
    requires forall i, j :: 0 <= i < j < |catalog| ==> catalog[i] != catalog[j]
    ensures forall i, j :: 0 <= i < j < |Candidates(catalog, p, daysUntil)| ==>
      Candidates(catalog, p, daysUntil)[i] != Candidates(catalog, p, daysUntil)[j]
  {
    if catalog != [] {
      var init, s := catalog[..|catalog| - 1], catalog[|catalog| - 1];
      CandidatesOnce(init, p, daysUntil);
      CandidatesMembers(init, p, daysUntil);
      var rest := Candidates(init, p, daysUntil);
      if Qualifies(s, p) {
        var found := rest + [ResultFor(s, p, daysUntil)];
        forall i, j | 0 <= i < j < |found| ensures found[i] != found[j] {
          if j == |rest| {
            assert found[i] == rest[i] && rest[i] in rest;
            assert s !in init;
          } else {
            assert found[i] == rest[i] && found[j] == rest[j];
          }
        }
      }
    }
  }

  /** Ranking neither adds nor drops results. */
  lemma RankingKeepsMembers(catalog: seq<Scheme>, p: UserProfile, daysUntil: string -> int)
    ensures forall r :: r in Recommendations(catalog, p, daysUntil) <==> r in Candidates(catalog, p, daysUntil)
  {
    var found := Candidates(catalog, p, daysUntil);
    var recs := Recommendations(catalog, p, daysUntil);
    forall r ensures r in recs <==> r in found {
      assert r in recs <==> r in multiset(recs);
      assert r in found <==> r in multiset(found);
    }
  }

  /**
   * The recommendations are exactly the active, state-matching catalog
   * schemes that score at least 50, each with its score, reasons and
   * alerts.
   */
  lemma RecommendationsMembers(catalog: seq<Scheme>, p: UserProfile, daysUntil: string -> int)
    ensures var recs := Recommendations(catalog, p, daysUntil);
      && (forall s :: ResultFor(s, p, daysUntil) in recs <==> s in catalog && s.isActive && StateEligible(s, p) && EligibilityScore(s, p) >= 50)
      && (forall r :: r in recs ==> r == ResultFor(r.scheme, p, daysUntil) && r.scheme in catalog)
  {
    RankingKeepsMembers(catalog, p, daysUntil);
    CandidatesMembers(catalog, p, daysUntil);
  }

  /** Every recommendation scores at least 50 and gets at least the 20 points of state credit. */
  lemma RecommendationsBounds(catalog: seq<Scheme>, p: UserProfile, daysUntil: string -> int)
    ensures forall r :: r in Recommendations(catalog, p, daysUntil) ==>
      && r.eligibilityScore >= 50 && r.eligibilityScore == EligibilityScore(r.scheme, p)
      && StatePoints(r.scheme, p) >= 20
      && r.reasons == Reasons(r.scheme, p, r.eligibilityScore)
      && r.alerts == Alerts(r.scheme, r.eligibilityScore, daysUntil)
  {
    RankingKeepsMembers(catalog, p, daysUntil);
    CandidatesMembers(catalog, p, daysUntil);
  }

  /** The ranking: scores never increase along the list, and results of equal score keep catalog order. */
  lemma RecommendationsOrder(catalog: seq<Scheme>, p: UserProfile, daysUntil: string -> int)
    ensures var recs := Recommendations(catalog, p, daysUntil);
      && (forall i, j :: 0 <= i < j < |recs| ==> recs[i].eligibilityScore >= recs[j].eligibilityScore)
      && (forall k :: WithScore(recs, k) == WithScore(Candidates(catalog, p, daysUntil), k))
  {
  }

  /** For a catalog without repeated records, no recommendation appears twice. */
  lemma RecommendationsDistinct(catalog: seq<Scheme>, p: UserProfile, daysUntil: string -> int)
    requires forall i, j :: 0 <= i < j < |catalog| ==> catalog[i] != catalog[j]
    ensures var recs := Recommendations(catalog, p, daysUntil);
      forall i, j :: 0 <= i < j < |recs| ==> recs[i] != recs[j]
  {
    var found := Candidates(catalog, p, daysUntil);
    var recs := Recommendations(catalog, p, daysUntil);
    CandidatesOnce(catalog, p, daysUntil);
    forall x ensures multiset(recs)[x] <= 1 {
      DistinctOnce(found, x);
    }
    DistinctFromCounts(recs);
  }

  lemma {:induction false} DistinctOnce(s: seq<RecommendationResult>, x: RecommendationResult)
    requires forall i, j :: 0 <= i < j < |s| ==> s[i] != s[j]
    ensures multiset(s)[x] <= 1
  {
    if s != [] {
      var t := s[1..];
      assert s == [s[0]] + t;
      DistinctOnce(t, x);
      forall m | 0 <= m < |t| ensures t[m] != s[0] {
        assert t[m] == s[m + 1];
      }
      assert s[0] !in t;
    }
  }

  /** A sequence in which nothing occurs twice has no repeated entry. */
  lemma DistinctFromCounts(s: seq<RecommendationResult>)
    requires forall x :: multiset(s)[x] <= 1
    ensures forall i, j :: 0 <= i < j < |s| ==> s[i] != s[j]
  {
    forall i, j | 0 <= i < j < |s| ensures s[i] != s[j] {
      var mid := s[i + 1..j];
      assert s == s[..i] + [s[i]] + mid + [s[j]] + s[j + 1..];
      assert multiset(s)[s[i]] >= multiset([s[i]] + mid + [s[j]])[s[i]];
    }
  }

  /**
   * The source's procedure: one pass over the catalog pushing a result for
   * every active, state-matching scheme scoring at least 50, then an
   * in-place stable sort by descending score.
   */
  method GetRecommendations(catalog: seq<Scheme>, profile: UserProfile, daysUntil: string -> int)
    returns (recommendations: seq<RecommendationResult>)
    ensures recommendations == Recommendations(catalog, profile, daysUntil)
  {
    var found: seq<RecommendationResult> := [];
    for i := 0 to |catalog|
      invariant found == Candidates(catalog[..i], profile, daysUntil)
    {
      var scheme := catalog[i];
      assert catalog[..i + 1][..i] == catalog[..i];
      if !scheme.isActive {
        continue;
      }
      var stateMatch := scheme.state == "All" || scheme.state == profile.state || profile.state == "All India";
      if !stateMatch {
        continue;
      }
      var score := CalculateEligibilityScore(scheme, profile);
      if score >= 50 {
        var reasons := GenerateReasons(scheme, profile, score);
        var alerts := GenerateAlerts(scheme, score, daysUntil);
        found := found + [RecommendationResult(scheme, score, reasons, alerts)];
      }
    }
    assert catalog[..|catalog|] == catalog;
    var ranked := new RecommendationResult[|found|](k requires 0 <= k < |found| => found[k]);
    assert ranked[..] == found;
    SortInPlace(ranked);
    recommendations := ranked[..];
  }

  /** How many results score at least 80. */
  function HighScoreCount(recs: seq<RecommendationResult>): (count: nat)
    ensures count <= |recs|
  {
    if recs == [] then 0
    else (if recs[0].eligibilityScore >= 80 then 1 else 0) + HighScoreCount(recs[1..])
  }

  lemma {:induction false} HighScoreCountPositive(recs: seq<RecommendationResult>)
    ensures HighScoreCount(recs) > 0 <==> exists i :: 0 <= i < |recs| && recs[i].eligibilityScore >= 80
  {
    if recs != [] {
      HighScoreCountPositive(recs[1..]);
      if HighScoreCount(recs[1..]) > 0 {
        var i :| 0 <= i < |recs[1..]| && recs[1..][i].eligibilityScore >= 80;
        assert recs[i + 1] == recs[1..][i];
      }
      forall i | 1 <= i < |recs| && recs[i].eligibilityScore >= 80
        ensures HighScoreCount(recs[1..]) > 0
      {
        assert recs[1..][i - 1] == recs[i];
      }
    }
  }

  const NoMatchOpening := "No schemes match" + " your current profile. Try adjusting your criteria or explore different" + " categories."
  const FewPrefix := "Found "
  const FewEnding := " scheme(s) matching your profile. Review each recommendation carefully."
  const SomePrefix := "Great news! You are eligible for "
  const SomeEnding := " government schemes. Top recommendations are shown first."
  const ManyPrefix := "Excellent! You are eligible for "
  const ManyEnding := " schemes across multiple categories. Focus on high-scoring schemes first."
  const HighEligibilityEnding := " scheme(s) show high eligibility (80%+)."

  /** The opening sentence, chosen by the bucket of the count: 0, 1-5, 6-15, more. */
  function SummaryOpening(n: nat): (opening: string)
    ensures |opening| >= 2
    ensures opening[0] == (if n == 0 then 'N' else if n <= 5 then 'F' else if n <= 15 then 'G' else 'E')
    ensures opening[|opening| - 2] != ')'
  {
    if n == 0 then NoMatchOpening
    else if n <= 5 then FewPrefix + NatToString(n) + FewEnding
    else if n <= 15 then SomePrefix + NatToString(n) + SomeEnding
    else ManyPrefix + NatToString(n) + ManyEnding
  }

  /** The report's summary: the opening, then the high-eligibility sentence when some score reaches 80. */
  function Summary(recs: seq<RecommendationResult>): string
  {
    var high := HighScoreCount(recs);
    SummaryOpening(|recs|) + (if high > 0 then " " + NatToString(high) + HighEligibilityEnding else "")
  }

  /** The opening identifies the bucket of the number of recommendations. */
  lemma SummaryBucket(recs: seq<RecommendationResult>)
    ensures var summary, n := Summary(recs), |recs|;
      && (StartsWith(summary, "No schemes match") <==> n == 0)
      && (StartsWith(summary, "Found ") <==> 1 <= n <= 5)
      && (StartsWith(summary, "Great news!") <==> 6 <= n <= 15)
      && (StartsWith(summary, "Excellent!") <==> n > 15)
  {
    var n := |recs|;
    var opening := SummaryOpening(n);
    var summary := Summary(recs);
    var tail := if HighScoreCount(recs) > 0 then " " + NatToString(HighScoreCount(recs)) + HighEligibilityEnding else "";
    assert summary == opening + tail;
    OpeningStartsWithWord(n);
    assert summary[..|OpeningWord(n)|] == opening[..|OpeningWord(n)|];
    assert summary[0] == opening[0];
    assert "No schemes match"[0] == 'N' && "Found "[0] == 'F' && "Great news!"[0] == 'G' && "Excellent!"[0] == 'E';
  }

  /** The opening sentence writes the number of recommendations between its bucket's fixed words. */
  lemma SummaryCount(recs: seq<RecommendationResult>)
    ensures var summary, n := Summary(recs), |recs|;
      && (1 <= n <= 5 ==> StartsWith(summary, FewPrefix + NatToString(n) + FewEnding))
      && (6 <= n <= 15 ==> StartsWith(summary, SomePrefix + NatToString(n) + SomeEnding))
      && (n > 15 ==> StartsWith(summary, ManyPrefix + NatToString(n) + ManyEnding))
  {
    var n := |recs|;
    var opening := SummaryOpening(n);
    var summary := Summary(recs);
    var tail := if HighScoreCount(recs) > 0 then " " + NatToString(HighScoreCount(recs)) + HighEligibilityEnding else "";
    assert summary == opening + tail;
    assert summary[..|opening|] == opening;
  }

  /** The closing sentence writes the number of results scoring 80 or more. */
  lemma SummaryHighCount(recs: seq<RecommendationResult>)
    ensures var high := HighScoreCount(recs);
      high > 0 ==> EndsWith(Summary(recs), " " + NatToString(high) + HighEligibilityEnding)
  {
    var high := HighScoreCount(recs);
    if high > 0 {
      var summary, closing := Summary(recs), " " + NatToString(high) + HighEligibilityEnding;
      assert summary == SummaryOpening(|recs|) + closing;
      assert summary[|summary| - |closing|..] == closing;
    }
  }

  /** The words that open the summary for `n` recommendations. */
  function OpeningWord(n: nat): string
  {
    if n == 0 then "No schemes match" else if n <= 5 then "Found " else if n <= 15 then "Great news!" else "Excellent!"
  }

  lemma OpeningStartsWithWord(n: nat)
    ensures StartsWith(SummaryOpening(n), OpeningWord(n))
  {
    var opening, word := SummaryOpening(n), OpeningWord(n);
    if n == 0 {
      assert opening[..|word|] == word;
    } else if n <= 5 {
      assert opening[..|word|] == word;
    } else if n <= 15 {
      assert opening[..|word|] == word;
    } else {
      assert opening[..|word|] == word;
    }
  }

  /** The high-eligibility sentence closes the summary exactly when some result scores 80 or more. */
  lemma SummaryHighEligibility(recs: seq<RecommendationResult>)
    ensures EndsWith(Summary(recs), HighEligibilityEnding) <==> exists i :: 0 <= i < |recs| && recs[i].eligibilityScore >= 80
  {
    HighScoreCountPositive(recs);
    var opening := SummaryOpening(|recs|);
    var summary := Summary(recs);
    var e := HighEligibilityEnding;
    if HighScoreCount(recs) > 0 {
      var head := opening + " " + NatToString(HighScoreCount(recs));
      assert summary == head + e;
      assert summary[|summary| - |e|..] == e;
    } else {
      assert summary == opening;
      assert e[|e| - 2] == ')';
      assert summary[|summary| - 2] != e[|e| - 2];
    }
  }

  /**
   * The source's report: the ranked recommendations, the number of active
   * catalog schemes, the number of recommendations and the summary.
   */
  method GenerateReport(catalog: seq<Scheme>, profile: UserProfile, daysUntil: string -> int, generatedAt: string)
    returns (report: RecommendationReport)
    ensures report.generatedAt == generatedAt && report.userProfile == profile
    ensures report.recommendations == Recommendations(catalog, profile, daysUntil)
    ensures report.totalSchemesAnalyzed == |ActiveSchemes(catalog)|
    ensures report.eligibleSchemesCount == |report.recommendations|
    ensures report.summary == Summary(report.recommendations)
  {
    var recommendations := GetRecommendations(catalog, profile, daysUntil);
    var totalSchemes := |ActiveSchemes(catalog)|;
    report := RecommendationReport(generatedAt, profile, totalSchemes, |recommendations|, recommendations, Summary(recommendations));
  }
}
