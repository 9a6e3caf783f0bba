/**
 * The Python engine of backend/app.py: `calculate_eligibility_score`,
 * `generate_reasons` and `generate_report`, with the catalog passed in
 * instead of read from disk and the timestamp passed in instead of read
 * from the clock. It shares the age, income and state parts of the score
 * with the TypeScript engine and differs in the rest: floor instead of
 * round, a smaller related-category table, no state pre-gate, a threshold
 * of 30, no headline or target-group reason, and its own alerts.
 */
module Backend {
  import opened Types
  import opened Text
  import opened Scoring
  import opened Ranking
  import opened Explanation
  import opened Sequences
  import Recommender

  /** The dictionary of related categories; it has no "Disability" key, and Health's list has no Disability. */
  const RelatedTable: map<string, seq<string>> := map[
    "Agriculture" := ["Business", "Skill Development"],
    "Education" := ["Skill Development", "Women Welfare"],
    "Health" := ["Women Welfare", "Senior Citizen"],
    "Housing" := ["Social Security"],
    "Business" := ["Agriculture", "Skill Development"],
    "Women Welfare" := ["Education", "Health", "Housing"],
    "Senior Citizen" := ["Health", "Social Security"],
    "Skill Development" := ["Education", "Business"],
    "Social Security" := ["Senior Citizen", "Housing"],
    "Food Security" := ["Health", "Social Security"]]

  /** 25 on an exact match, otherwise 10 when the profile's category is a key whose list holds the scheme's. */
  function BackendCategoryPoints(s: Scheme, p: UserProfile): (points: int)
    ensures points == 25 <==> s.category == p.category
    ensures points == 10 <==> s.category != p.category && p.category in RelatedTable && s.category in RelatedTable[p.category]
    ensures points == 0 <==> s.category != p.category && !(p.category in RelatedTable && s.category in RelatedTable[p.category])
  {
    if s.category == p.category then 25
    else if p.category in RelatedTable && s.category in RelatedTable[p.category] then 10
    else 0
  }

  /** The unnormalised sum of the four parts; age, income and state are scored as in the TypeScript engine. */
  function BackendRawScore(s: Scheme, p: UserProfile): (raw: real)
    ensures 0.0 <= raw <= 120.0
  {
    AgePoints(s, p) + IncomePoints(s, p) + StatePoints(s, p) as real + BackendCategoryPoints(s, p) as real
  }

  /** `min(100, floor(score / 100 * 100))`: an integer in [0, 100], the raw score rounded down. */
  function BackendScore(s: Scheme, p: UserProfile): (score: int)
    ensures 0 <= score <= 100
    ensures score as real <= BackendRawScore(s, p)
    ensures score < 100 ==> BackendRawScore(s, p) < score as real + 1.0
    ensures FullMatch(s, p) ==> score == 100
  {
    Min(100, BackendRawScore(s, p).Floor)
  }

  /** The source's procedure: accumulate `score` and `max_possible_score`, normalise and round down. */
  method CalculateEligibilityScore(scheme: Scheme, profile: UserProfile) returns (normalizedScore: int)
    ensures normalizedScore == BackendScore(scheme, profile)
  {
    var score: real := 0.0;
    var maxPossibleScore: int := 0;

    maxPossibleScore := maxPossibleScore + 25;
    if profile.age >= scheme.minAge && profile.age <= scheme.maxAge {
      score := score + 25.0;
      var ageRange := scheme.maxAge - scheme.minAge;
      var agePosition := profile.age - scheme.minAge;
      if ageRange > 0 {
        var ageMiddleness := 1.0 - Abs(agePosition as real / ageRange as real - 0.5) * 2.0;
        score := score + ageMiddleness * 5.0;
      }
    }
    assert score == AgePoints(scheme, profile);

    maxPossibleScore := maxPossibleScore + 30;
    if profile.annualIncome >= scheme.minIncome && profile.annualIncome <= scheme.maxIncome {
      score := score + 30.0;
      var incomeRange := scheme.maxIncome - scheme.minIncome;
      if incomeRange > 0 {
        var incomeBuffer := (scheme.maxIncome - profile.annualIncome) as real / incomeRange as real;
        score := score + incomeBuffer * 10.0;
      }
    }
    assert score == AgePoints(scheme, profile) + IncomePoints(scheme, profile);

    maxPossibleScore := maxPossibleScore + 20;
    if scheme.state == "All" || scheme.state == profile.state || profile.state == "All India" {
      score := score + 20.0;
      if scheme.state == profile.state && scheme.level == State {
        score := score + 5.0;
      }
    }
    assert score == AgePoints(scheme, profile) + IncomePoints(scheme, profile) + StatePoints(scheme, profile) as real;

    maxPossibleScore := maxPossibleScore + 25;
    if scheme.category == profile.category {
      score := score + 25.0;
    } else {
      if profile.category in RelatedTable {
        if scheme.category in RelatedTable[profile.category] {
          score := score + 10.0;
        }
      }
    }
    assert score == BackendRawScore(scheme, profile);

    var percentage := score / maxPossibleScore as real * 100.0;
    assert percentage == BackendRawScore(scheme, profile) by {
      assert maxPossibleScore == 100 && score / 100.0 * 100.0 == score;
    }
    normalizedScore := Min(100, percentage.Floor);
  }

  /**
   * The backend's table is the TypeScript table less three pairs: a
   * Disability applicant loses Health and Education, a Health applicant
   * loses Disability.
   */
  lemma RelatedTablesDiffer(category: string, other: string)
    ensures (category in RelatedTable && other in RelatedTable[category])
      <==> other in RelatedCategories(category)
           && !(category == "Disability" && (other == "Health" || other == "Education"))
           && !(category == "Health" && other == "Disability")
  {
    if category == "Health" {
      assert RelatedTable[category] == ["Women Welfare", "Senior Citizen"];
    }
  }

  /** A Disability applicant never gets the backend's 10-point partial credit. */
  lemma DisabilityNoPartialCredit(s: Scheme, p: UserProfile)
    requires p.category == "Disability"
    ensures BackendCategoryPoints(s, p) == (if s.category == "Disability" then 25 else 0)
  {
    assert "Disability" !in RelatedTable;
  }

  /**
   * The backend never scores above the TypeScript engine, and where the
   * two category tables agree it scores at most one point below.
   */
  lemma BackendScoreVersusFrontend(s: Scheme, p: UserProfile)
    ensures BackendScore(s, p) <= EligibilityScore(s, p)
    ensures BackendCategoryPoints(s, p) == CategoryPoints(s, p) ==> EligibilityScore(s, p) - 1 <= BackendScore(s, p)
  {
    RelatedTablesDiffer(p.category, s.category);
    assert BackendCategoryPoints(s, p) <= CategoryPoints(s, p);
    var raw, back := RawScore(s, p), BackendRawScore(s, p);
    assert back <= raw;
    assert back.Floor <= raw.Floor;
  }

  /**
   * Half points separate the engines: an age of 1 in a 0-4 range is worth
   * 27.5 points alone, which the TypeScript engine rounds to 28 and the
   * backend floors to 27.
   */
  lemma HalfPointExample(s: Scheme, p: UserProfile)
    requires s.minAge == 0 && s.maxAge == 4 && p.age == 1
    requires p.annualIncome > s.maxIncome
    requires s.state != "All" && s.state != p.state && p.state != "All India"
    requires s.category == "Housing" && p.category == "Agriculture"
    ensures EligibilityScore(s, p) == 28
    ensures BackendScore(s, p) == 27
  {
    assert RelatedCategories("Agriculture") == ["Business", "Skill Development"];
    assert RelatedTable["Agriculture"] == ["Business", "Skill Development"];
    assert AgeBonus(s, p) == 2.5;
    assert RawScore(s, p) == 27.5;
    assert BackendRawScore(s, p) == 27.5;
  }

  /** The source's procedure: append a sentence for each criterion met; the score is not consulted. */
  method GenerateReasons(scheme: Scheme, profile: UserProfile, score: int) returns (reasons: seq<Reason>)
    ensures reasons == CriteriaReasons(scheme, profile)
  {
    reasons := [];
    if profile.age >= scheme.minAge && profile.age <= scheme.maxAge {
      reasons := reasons + [AgeWithin(profile.age, scheme.minAge, scheme.maxAge)];
    }
    if profile.annualIncome >= scheme.minIncome && profile.annualIncome <= scheme.maxIncome {
      reasons := reasons + [IncomeWithin(profile.annualIncome, scheme.maxIncome)];
    }
    assert reasons == AgeReason(scheme, profile) + IncomeReason(scheme, profile);
    if scheme.state == "All" {
      reasons := reasons + [AvailableEverywhere];
    } else if scheme.state == profile.state {
      reasons := reasons + [StateSpecific(profile.state)];
    }
    assert reasons == AgeReason(scheme, profile) + IncomeReason(scheme, profile) + StateReason(scheme, profile);
    if scheme.category == profile.category {
      reasons := reasons + [CategoryMatches(profile.category)];
    }
  }

  /** The backend's reasons are empty exactly when no criterion is met. */
  lemma BackendReasonsEmpty(s: Scheme, p: UserProfile)
    ensures CriteriaReasons(s, p) == [] <==>
      !AgeEligible(s, p) && !IncomeEligible(s, p) && s.state != "All" && s.state != p.state && s.category != p.category
  {
    var age, income, state, category := AgeReason(s, p), IncomeReason(s, p), StateReason(s, p), CategoryReason(s, p);
    assert |CriteriaReasons(s, p)| == |age| + |income| + |state| + |category|;
  }

  /**
   * Rendering helper: the sentence the backend shows for a reason. Only the
   * state and category sentences differ from the TypeScript wording.
   */
  function BackendReasonText(r: Reason, lakhs: int -> string): string
  {
    match r
    case StateSpecific(state) => "This scheme is specifically available in " + state
    case CategoryMatches(category) => "This scheme is specifically designed for " + category
    case _ => ReasonText(r, lakhs)
  }

  const BackendPerfectMatchMessage := "You are highly eligible for this scheme"
  const BackendNewSchemeMessage := "This is a newly launched scheme"

  function BackendDeadlineMessage(deadline: string): string
  {
    "Deadline: " + deadline
  }

  /** Position of each kind of alert in the backend's list: perfect match, newness, deadline. */
  function BackendAlertRank(k: AlertType): int
  {
    match k
    case PerfectMatch => 0
    case HighEligibility => 0
    case NewScheme => 1
    case DeadlineApproaching => 2
  }

  function PerfectAlert(score: int): (a: seq<Alert>)
    ensures |a| <= 1 && (a != [] <==> score >= 90)
    ensures a != [] ==> a[0].kind == PerfectMatch && a[0].priority == High && a[0].message == BackendPerfectMatchMessage
  {
    if score >= 90 then [Alert(PerfectMatch, BackendPerfectMatchMessage, High)] else []
  }

  function NewnessAlert(s: Scheme): (a: seq<Alert>)
    ensures |a| <= 1 && (a != [] <==> IsNew(s))
    ensures a != [] ==> a[0].kind == NewScheme && a[0].priority == Medium && a[0].message == BackendNewSchemeMessage
  {
    if IsNew(s) then [Alert(NewScheme, BackendNewSchemeMessage, Medium)] else []
  }

  function DeadlineNotice(s: Scheme): (a: seq<Alert>)
    ensures |a| <= 1 && (a != [] <==> HasDeadline(s))
    ensures a != [] ==> a[0] == Alert(DeadlineApproaching, BackendDeadlineMessage(s.deadline.value), High)
  {
    if HasDeadline(s) then [Alert(DeadlineApproaching, BackendDeadlineMessage(s.deadline.value), High)] else []
  }

  /** The alerts of a kept scheme: perfect match, newness, deadline. */
  function BackendAlerts(s: Scheme, score: int): seq<Alert>
  {
    PerfectAlert(score) + NewnessAlert(s) + DeadlineNotice(s)
  }

  lemma AlertAt(a: seq<Alert>, b: seq<Alert>, c: seq<Alert>, i: int)
    requires 0 <= i < |a + b + c|
    ensures i < |a| ==> (a + b + c)[i] == a[i]
    ensures |a| <= i < |a| + |b| ==> (a + b + c)[i] == b[i - |a|]
    ensures |a| + |b| <= i ==> (a + b + c)[i] == c[i - |a| - |b|]
  {
  }

  /**
   * At most three alerts in the order perfect match, newness, deadline;
   * perfect match (high) exactly at 90 and above, never a high-eligibility
   * alert, newness (medium) exactly for new schemes, and a high-priority
   * deadline notice whenever the scheme has a deadline, however far off.
   */
  lemma BackendAlertsShape(s: Scheme, score: int)
    ensures var a := BackendAlerts(s, score);
      && |a| <= 3
      && Ascending(a, (x: Alert) => BackendAlertRank(x.kind))
      && (HasKind(a, PerfectMatch) <==> score >= 90)
      && !HasKind(a, HighEligibility)
      && (HasKind(a, NewScheme) <==> IsNew(s))
      && (HasKind(a, DeadlineApproaching) <==> HasDeadline(s))
      && (forall i :: 0 <= i < |a| ==> (a[i].priority == High <==> a[i].kind != NewScheme))
      && (forall i :: 0 <= i < |a| && a[i].kind == DeadlineApproaching ==> a[i].message == BackendDeadlineMessage(s.deadline.value))
  {
    var m, n, d := PerfectAlert(score), NewnessAlert(s), DeadlineNotice(s);
    var a := BackendAlerts(s, score);
    forall i | 0 <= i < |a|
      ensures (i < |m| ==> a[i] == m[0])
      ensures (|m| <= i < |m| + |n| ==> a[i] == n[0])
      ensures (|m| + |n| <= i ==> a[i] == d[0])
    {
      AlertAt(m, n, d, i);
    }
    if score >= 90 {
      assert a[0].kind == PerfectMatch;
    }
    if IsNew(s) {
      assert a[|m|].kind == NewScheme;
    }
    if HasDeadline(s) {
      assert a[|m| + |n|].kind == DeadlineApproaching;
    }
  }

  /**
   * The engines disagree on far deadlines: one 91 or more days away gets a
   * backend notice and no TypeScript alert.
   */
  lemma FarDeadlineAlerts(s: Scheme, score: int, daysUntil: string -> int)
    requires HasDeadline(s) && DaysLeft(s, daysUntil) > 90
    ensures HasKind(BackendAlerts(s, score), DeadlineApproaching)
    ensures !HasKind(Alerts(s, score, daysUntil), DeadlineApproaching)
  {
    BackendAlertsShape(s, score);
    AlertsDeadline(s, score, daysUntil);
  }

  /** The two gates of the backend: active and a score of at least 30; there is no state gate. */
  predicate BackendQualifies(s: Scheme, p: UserProfile)
  {
    s.isActive && BackendScore(s, p) >= 30
  }

  function BackendResultFor(s: Scheme, p: UserProfile): RecommendationResult
  {
    var score := BackendScore(s, p);
    RecommendationResult(s, score, CriteriaReasons(s, p), BackendAlerts(s, score))
  }

  /** The results in catalog order, before sorting. */
  function BackendCandidates(catalog: seq<Scheme>, p: UserProfile): (found: seq<RecommendationResult>)
    ensures |found| <= |catalog|
  {
    if catalog == [] then []
    else
      var rest := BackendCandidates(catalog[..|catalog| - 1], p);
      var s := catalog[|catalog| - 1];
      if BackendQualifies(s, p) then rest + [BackendResultFor(s, p)] else rest
  }

  function BackendRecommendations(catalog: seq<Scheme>, p: UserProfile): seq<RecommendationResult>
  {
    SortByScore(BackendCandidates(catalog, p))
  }

  lemma {:induction false} BackendCandidatesMembers(catalog: seq<Scheme>, p: UserProfile)
    ensures forall r :: r in BackendCandidates(catalog, p) <==>
      r.scheme in catalog && BackendQualifies(r.scheme, p) && r == BackendResultFor(r.scheme, p)
  {
    if catalog != [] {
      var init, s := catalog[..|catalog| - 1], catalog[|catalog| - 1];
      BackendCandidatesMembers(init, p);
      assert catalog == init + [s];
    }
  }

  lemma {:induction false} BackendCandidatesOnce(catalog: seq<Scheme>, p: UserProfile)
    requires forall i, j :: 0 <= i < j < |catalog| ==> catalog[i] != catalog[j]
    ensures forall i, j :: 0 <= i < j < |BackendCandidates(catalog, p)| ==>
      BackendCandidates(catalog, p)[i] != BackendCandidates(catalog, p)[j]
  {
    if catalog != [] {
      var init, s := catalog[..|catalog| - 1], catalog[|catalog| - 1];
      BackendCandidatesOnce(init, p);
      BackendCandidatesMembers(init, p);
      var rest := BackendCandidates(init, p);
      if BackendQualifies(s, p) {
        var found := rest + [BackendResultFor(s, p)];
        forall i, j | 0 <= i < j < |found| ensures found[i] != found[j] {
          if j == |rest| {
            assert found[i] == rest[i] && rest[i] in rest;
            assert s !in init;
          } else {
            assert found[i] == rest[i] && found[j] == rest[j];
          }
        }
      }
    }
  }

  /**
   * The backend's recommendations are exactly the active catalog schemes
   * scoring at least 30, whatever their state; an inactive scheme is never
   * among them.
   */
  lemma BackendRecommendationsMembers(catalog: seq<Scheme>, p: UserProfile)
    ensures var recs := BackendRecommendations(catalog, p);
      && (forall s :: BackendResultFor(s, p) in recs <==> s in catalog && s.isActive && BackendScore(s, p) >= 30)
      && (forall r :: r in recs ==> r == BackendResultFor(r.scheme, p) && r.scheme in catalog)
  {
    BackendRankingKeepsMembers(catalog, p);
    BackendCandidatesMembers(catalog, p);
  }

  /** Every backend recommendation is active and scores at least 30, with its score recorded. */
  lemma BackendRecommendationsBounds(catalog: seq<Scheme>, p: UserProfile)
    ensures forall r :: r in BackendRecommendations(catalog, p) ==>
      && r.scheme.isActive && r.eligibilityScore >= 30 && r.eligibilityScore == BackendScore(r.scheme, p)
  {
    BackendRankingKeepsMembers(catalog, p);
    BackendCandidatesMembers(catalog, p);
  }

  /** Sorting the candidates neither drops nor adds a result. */
  lemma BackendRankingKeepsMembers(catalog: seq<Scheme>, p: UserProfile)
    ensures forall r :: r in BackendRecommendations(catalog, p) <==> r in BackendCandidates(catalog, p)
  {
    var found, recs := BackendCandidates(catalog, p), BackendRecommendations(catalog, p);
    forall r ensures r in recs <==> r in found {
      assert r in recs <==> r in multiset(recs);
      assert r in found <==> r in multiset(found);
    }
  }

  /** Scores never increase along the list, and equal scores keep catalog order. */
  lemma BackendRecommendationsOrder(catalog: seq<Scheme>, p: UserProfile)
    ensures var recs := BackendRecommendations(catalog, p);
      && (forall i, j :: 0 <= i < j < |recs| ==> recs[i].eligibilityScore >= recs[j].eligibilityScore)
      && (forall k :: WithScore(recs, k) == WithScore(BackendCandidates(catalog, p), k))
  {
  }

  /** For a catalog without repeated records, no recommendation appears twice. */
  lemma BackendRecommendationsDistinct(catalog: seq<Scheme>, p: UserProfile)
    requires forall i, j :: 0 <= i < j < |catalog| ==> catalog[i] != catalog[j]
    ensures var recs := BackendRecommendations(catalog, p);
      forall i, j :: 0 <= i < j < |recs| ==> recs[i] != recs[j]
  {
    var found := BackendCandidates(catalog, p);
    var recs := BackendRecommendations(catalog, p);
    BackendCandidatesOnce(catalog, p);
    forall x ensures multiset(recs)[x] <= 1 {
      Recommender.DistinctOnce(found, x);
    }
    Recommender.DistinctFromCounts(recs);
  }

  /**
   * Without the state gate, an active scheme of another state that scores
   * 30 or more is recommended by the backend and not by the TypeScript
   * engine.
   */
  lemma NoStateGate(s: Scheme, p: UserProfile, daysUntil: string -> int)
    requires s.isActive && !StateEligible(s, p) && BackendScore(s, p) >= 30
    ensures BackendResultFor(s, p) in BackendRecommendations([s], p)
    ensures Recommender.Recommendations([s], p, daysUntil) == []
  {
    BackendRecommendationsMembers([s], p);
    assert [s][..0] == [];
    assert Recommender.Candidates([s], p, daysUntil) == [];
  }

  const SummaryStart := "Found "
  const SummaryEnd := " government schemes" + " matching your profile"

  /** The backend's one summary sentence, whatever the count. */
  function BackendSummary(n: nat): string
  {
    SummaryStart + NatToString(n) + SummaryEnd
  }

  /** The count can be read back from the summary. */
  lemma BackendSummaryCount(n: nat)
    ensures var t := BackendSummary(n);
      && StartsWith(t, SummaryStart) && EndsWith(t, SummaryEnd)
      && ParseNat(t[|SummaryStart|..|t| - |SummaryEnd|]) == n
  {
    var t, digits := BackendSummary(n), NatToString(n);
    assert t == SummaryStart + (digits + SummaryEnd);
    assert t[..|SummaryStart|] == SummaryStart;
    assert t[|t| - |SummaryEnd|..] == SummaryEnd;
    assert t[|SummaryStart|..|t| - |SummaryEnd|] == digits;
    ParseNatToString(n);
  }

  /**
   * The backend counts every catalog scheme as analysed while the
   * TypeScript engine counts only active ones: the counts differ exactly
   * when the catalog holds an inactive scheme.
   */
  lemma {:induction false} AnalysedCountsDiffer(catalog: seq<Scheme>)
    ensures |ActiveSchemes(catalog)| < |catalog| <==> exists s :: s in catalog && !s.isActive
  {
    if catalog != [] {
      var init, s := catalog[..|catalog| - 1], catalog[|catalog| - 1];
      AnalysedCountsDiffer(init);
      assert catalog == init + [s];
      if !s.isActive {
        assert s in catalog;
      }
    }
  }

  /** The alert block of the report loop: append perfect match, newness and deadline alerts in turn. */
  method GenerateAlerts(scheme: Scheme, score: int) returns (alerts: seq<Alert>)
    ensures alerts == BackendAlerts(scheme, score)
  {
    alerts := [];
    if score >= 90 {
      alerts := alerts + [Alert(PerfectMatch, BackendPerfectMatchMessage, High)];
    }
    if scheme.isNew == Some(true) {
      alerts := alerts + [Alert(NewScheme, BackendNewSchemeMessage, Medium)];
    }
    if scheme.deadline.Some? && scheme.deadline.value != "" {
      alerts := alerts + [Alert(DeadlineApproaching, BackendDeadlineMessage(scheme.deadline.value), High)];
    }
  }

  /**
   * The source's procedure: one pass over the catalog skipping inactive
   * schemes and keeping those scoring at least 30 with their reasons and
   * alerts, then an in-place stable sort by descending score.
   */
  method GenerateReport(catalog: seq<Scheme>, profile: UserProfile, generatedAt: string)
    returns (report: RecommendationReport)
    ensures report.generatedAt == generatedAt && report.userProfile == profile
    ensures report.recommendations == BackendRecommendations(catalog, profile)
    ensures report.totalSchemesAnalyzed == |catalog|
    ensures report.eligibleSchemesCount == |report.recommendations|
    ensures report.summary == BackendSummary(|report.recommendations|)
  {
    var found: seq<RecommendationResult> := [];
    for i := 0 to |catalog|
      invariant found == BackendCandidates(catalog[..i], profile)
    {
      var scheme := catalog[i];
      assert catalog[..i + 1][..i] == catalog[..i];
      if !scheme.isActive {
        continue;
      }
      var score := CalculateEligibilityScore(scheme, profile);
      if score >= 30 {
        var reasons := GenerateReasons(scheme, profile, score);
        var alerts := GenerateAlerts(scheme, score);
        found := found + [RecommendationResult(scheme, score, reasons, alerts)];
      }
    }
    assert catalog[..|catalog|] == catalog;
    var ranked := new RecommendationResult[|found|](k requires 0 <= k < |found| => found[k]);
    assert ranked[..] == found;
    SortInPlace(ranked);
    var recommendations := ranked[..];
    report := RecommendationReport(generatedAt, profile, |catalog|, |recommendations|, recommendations,
                                   BackendSummary(|recommendations|));
  }
}
