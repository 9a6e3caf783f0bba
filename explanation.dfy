/**
 * `generateReasons` and `generateAlerts` of src/utils/recommender.ts: the
 * ordered explanation of a kept scheme and its contextual alerts.
 */
module Explanation {
  import opened Types
  import opened Text
  import opened Scoring
  import opened Sequences

  /** Position of each kind of reason in the list; both state sentences share one slot. */
  function ReasonRank(r: Reason): int
  {
    match r
    case Headline(_) => 0
    case AgeWithin(_, _, _) => 1
    case IncomeWithin(_, _) => 2
    case AvailableEverywhere => 3
    case StateSpecific(_) => 3
    case CategoryMatches(_) => 4
    case TargetGroup(_) => 5
  }

  /** The headline chosen by score: 90+, 75+ and 60+; none below 60. */
  function HeadlineFor(score: int): (h: seq<Reason>)
    ensures |h| <= 1
    ensures h != [] <==> score >= 60
    ensures h != [] ==> h[0].Headline?
    ensures h != [] ==> (h[0].tier == PerfectTier <==> score >= 90)
    ensures h != [] ==> (h[0].tier == HighlyEligibleTier <==> score < 90 && score >= 75)
  {
    if score >= 90 then [Headline(PerfectTier)]
    else if score >= 75 then [Headline(HighlyEligibleTier)]
    else if score >= 60 then [Headline(EligibleTier)]
    else []
  }

  /** The explanation of a scheme, headline first and target group last. */
  function Reasons(s: Scheme, p: UserProfile, score: int): seq<Reason>
  {
    HeadlineFor(score) + (CriteriaReasons(s, p) + [TargetGroup(s.targetGroup)])
  }

  function AgeReason(s: Scheme, p: UserProfile): seq<Reason>
  {
    if AgeEligible(s, p) then [AgeWithin(p.age, s.minAge, s.maxAge)] else []
  }

  function IncomeReason(s: Scheme, p: UserProfile): seq<Reason>
  {
    if IncomeEligible(s, p) then [IncomeWithin(p.annualIncome, s.maxIncome)] else []
  }

  function StateReason(s: Scheme, p: UserProfile): seq<Reason>
  {
    if s.state == "All" then [AvailableEverywhere]
    else if s.state == p.state then [StateSpecific(p.state)]
    else []
  }

  function CategoryReason(s: Scheme, p: UserProfile): seq<Reason>
  {
    if s.category == p.category then [CategoryMatches(s.category)] else []
  }

  /** The sentences for the criteria met: age, income, state, exact category. */
  function CriteriaReasons(s: Scheme, p: UserProfile): seq<Reason>
  {
    AgeReason(s, p) + IncomeReason(s, p) + StateReason(s, p) + CategoryReason(s, p)
  }

  lemma SingleAscending(r: seq<Reason>, rank: nat)
    requires |r| <= 1 && (r != [] ==> ReasonRank(r[0]) == rank)
    ensures Ascending(r, ReasonRank) && RanksWithin(r, ReasonRank, rank, rank)
  {
  }

  /**
   * At most four criteria sentences, in the order age, income, state,
   * category, with neither a headline nor a target group among them.
   */
  lemma CriteriaReasonsShape(s: Scheme, p: UserProfile)
    ensures var r := CriteriaReasons(s, p);
      && |r| <= 4
      && Ascending(r, ReasonRank) && RanksWithin(r, ReasonRank, 1, 4)
  {
    var age, income, state, category := AgeReason(s, p), IncomeReason(s, p), StateReason(s, p), CategoryReason(s, p);
    SingleAscending(age, 1);
    SingleAscending(income, 2);
    SingleAscending(state, 3);
    SingleAscending(category, 4);
    AscendingConcat(age, income, ReasonRank, 1, 1, 2);
    AscendingConcat(age + income, state, ReasonRank, 1, 2, 3);
    AscendingConcat(age + income + state, category, ReasonRank, 1, 3, 4);
  }

  /**
   * The explanation is never empty and ends with the target group; its
   * kinds come in fixed order with at most one of each, so at most one
   * headline (and only in front) and at most one state sentence.
   */
  lemma ReasonsShape(s: Scheme, p: UserProfile, score: int)
    ensures var r := Reasons(s, p, score);
      && |r| >= 1 && r[|r| - 1] == TargetGroup(s.targetGroup)
      && Ascending(r, ReasonRank)
  {
    var h, c, t := HeadlineFor(score), CriteriaReasons(s, p), [TargetGroup(s.targetGroup)];
    CriteriaReasonsShape(s, p);
    SingleAscending(h, 0);
    SingleAscending(t, 5);
    AscendingConcat(c, t, ReasonRank, 1, 4, 5);
    AscendingConcat(h, c + t, ReasonRank, 0, 0, 5);
  }

  /** The headline tier follows the score thresholds 90, 75 and 60. */
  lemma ReasonsHeadline(s: Scheme, p: UserProfile, score: int)
    ensures var r := Reasons(s, p, score);
      && (r[0].Headline? <==> score >= 60)
      && (r[0] == Headline(PerfectTier) <==> score >= 90)
      && (r[0] == Headline(HighlyEligibleTier) <==> 75 <= score < 90)
      && (r[0] == Headline(EligibleTier) <==> 60 <= score < 75)
  {
    var rest := CriteriaReasons(s, p) + [TargetGroup(s.targetGroup)];
    ReasonsShape(s, p, score);
    if score < 60 {
      assert Reasons(s, p, score) == rest;
      assert ReasonRank(rest[0]) >= 1;
    }
  }

  /**
   * Each criteria sentence appears exactly when its criterion holds; the
   * category sentence needs an exact match, a related category gives none.
   */
  lemma ReasonsContent(s: Scheme, p: UserProfile, score: int)
    ensures var r := Reasons(s, p, score);
      && (AgeWithin(p.age, s.minAge, s.maxAge) in r <==> AgeEligible(s, p))
      && (IncomeWithin(p.annualIncome, s.maxIncome) in r <==> IncomeEligible(s, p))
      && (AvailableEverywhere in r <==> s.state == "All")
      && (StateSpecific(p.state) in r <==> s.state != "All" && s.state == p.state)
      && (CategoryMatches(s.category) in r <==> s.category == p.category)
  {
    ReasonsPieces(s, p, score);
  }

  /**
   * No other sentence of a criterion's kind appears: an age, income, state
   * or category sentence is the one for this scheme and profile, and only
   * when its criterion holds. A related category thus gives no category
   * sentence at all.
   */
  lemma ReasonsKinds(s: Scheme, p: UserProfile, score: int)
    ensures var r := Reasons(s, p, score);
      && (forall x :: x in r && x.AgeWithin? ==> x == AgeWithin(p.age, s.minAge, s.maxAge) && AgeEligible(s, p))
      && (forall x :: x in r && x.IncomeWithin? ==> x == IncomeWithin(p.annualIncome, s.maxIncome) && IncomeEligible(s, p))
      && (forall x :: x in r && x.StateSpecific? ==> x == StateSpecific(p.state) && s.state != "All" && s.state == p.state)
      && (forall x :: x in r && x.CategoryMatches? ==> x == CategoryMatches(s.category) && s.category == p.category)
  {
    ReasonsPieces(s, p, score);
  }

  /** A sentence is among the reasons when it is the headline, one of the four criteria sentences or the target group. */
  lemma ReasonsPieces(s: Scheme, p: UserProfile, score: int)
    ensures forall x :: x in Reasons(s, p, score) <==>
      x in HeadlineFor(score) || x in AgeReason(s, p) || x in IncomeReason(s, p)
      || x in StateReason(s, p) || x in CategoryReason(s, p) || x == TargetGroup(s.targetGroup)
  {
  }

  /** The source's procedure: push the criteria sentences, then unshift the headline. */
  method GenerateReasons(scheme: Scheme, profile: UserProfile, score: int) returns (reasons: seq<Reason>)
    ensures reasons == Reasons(scheme, profile, score)
  {
    reasons := [];
    if profile.age >= scheme.minAge && profile.age <= scheme.maxAge {
      reasons := reasons + [AgeWithin(profile.age, scheme.minAge, scheme.maxAge)];
    }
    assert reasons == AgeReason(scheme, profile);
    if profile.annualIncome >= scheme.minIncome && profile.annualIncome <= scheme.maxIncome {
      reasons := reasons + [IncomeWithin(profile.annualIncome, scheme.maxIncome)];
    }
    assert reasons == AgeReason(scheme, profile) + IncomeReason(scheme, profile);
    if scheme.state == "All" {
      reasons := reasons + [AvailableEverywhere];
    } else if scheme.state == profile.state {
      reasons := reasons + [StateSpecific(profile.state)];
    }
    assert reasons == AgeReason(scheme, profile) + IncomeReason(scheme, profile) + StateReason(scheme, profile);
    if scheme.category == profile.category {
      reasons := reasons + [CategoryMatches(scheme.category)];
    }
    assert reasons == CriteriaReasons(scheme, profile);
    reasons := reasons + [TargetGroup(scheme.targetGroup)];
    if score >= 90 {
      reasons := [Headline(PerfectTier)] + reasons;
    } else if score >= 75 {
      reasons := [Headline(HighlyEligibleTier)] + reasons;
    } else if score >= 60 {
      reasons := [Headline(EligibleTier)] + reasons;
    }
  }

  /** The sentence shown for a reason; `lakhs` formats an amount in lakh rupees. */
  function ReasonText(r: Reason, lakhs: int -> string): string
  {
    match r
    case Headline(PerfectTier) => "⭐ Perfect Match: You meet all eligibility criteria"
    case Headline(HighlyEligibleTier) => "✅ Highly Eligible: You meet most eligibility criteria"
    case Headline(EligibleTier) => "\U{1F4CB} Eligible: You meet basic eligibility requirements"
    case AgeWithin(age, lo, hi) =>
      "Your age (" + IntToString(age) + ") meets the eligibility criteria ("
      + IntToString(lo) + "-" + IntToString(hi) + " years)"
    case IncomeWithin(income, limit) =>
      "Your annual income (₹" + lakhs(income) + "L) is within the limit (up to ₹"
      + lakhs(limit) + "L)"
    case AvailableEverywhere => "This Central Government scheme is available across all states"
    case StateSpecific(state) => "This scheme is specifically designed for residents of " + state
    case CategoryMatches(category) => "Scheme category (" + category + ") matches your area of interest"
    case TargetGroup(group) => "Target beneficiaries: " + group
  }

  /** Position of each kind of alert: match alert, then deadline, then newness. */
  function AlertRank(k: AlertType): nat
  {
    match k
    case PerfectMatch => 0
    case HighEligibility => 0
    case DeadlineApproaching => 1
    case NewScheme => 2
  }

  const PerfectMatchMessage := "Perfect Match! You meet all eligibility criteria for this scheme."
  const HighEligibilityMessage := "You are highly eligible for this scheme. Apply soon!"
  const NewSchemeMessage := "This is a newly launched scheme - be among the first applicants!"

  function DeadlineSoonMessage(deadline: string, days: int): string
  {
    "Application deadline in " + IntToString(days) + " days (" + deadline + ")"
  }

  function DeadlineLaterMessage(deadline: string): string
  {
    "Application deadline: " + deadline
  }

  /** The deadline message: days and date up to 30 days ahead, the date alone beyond. */
  function DeadlineMessage(s: Scheme, daysUntil: string -> int): string
    requires HasDeadline(s)
  {
    var days := DaysLeft(s, daysUntil);
    if days <= 30 then DeadlineSoonMessage(s.deadline.value, days) else DeadlineLaterMessage(s.deadline.value)
  }

  /** The deadline window: 1-7 days high, 8-30 medium, 31-90 low, otherwise none. */
  function DeadlineAlert(deadline: string, days: int): (a: seq<Alert>)
    ensures |a| <= 1
    ensures a != [] <==> 1 <= days <= 90
    ensures a != [] ==> a[0].kind == DeadlineApproaching
    ensures a != [] ==> (a[0].priority == High <==> days <= 7)
    ensures a != [] ==> (a[0].priority == Medium <==> 8 <= days <= 30)
    ensures a != [] ==> (a[0].priority == Low <==> 31 <= days)
  {
    if 0 < days <= 30 then
      [Alert(DeadlineApproaching,
             DeadlineSoonMessage(deadline, days),
             if days <= 7 then High else Medium)]
    else if 30 < days <= 90 then
      [Alert(DeadlineApproaching, DeadlineLaterMessage(deadline), Low)]
    else []
  }

  /** Whole days from the clock's today to the scheme's deadline, as `Math.ceil` gives them. */
  function DaysLeft(s: Scheme, daysUntil: string -> int): int
    requires HasDeadline(s)
  {
    daysUntil(s.deadline.value)
  }

  /** The match alert: perfect at 90 and above, high eligibility from 80 to 89, both high priority. */
  function MatchAlert(score: int): (a: seq<Alert>)
    ensures |a| <= 1
    ensures a != [] <==> score >= 80
    ensures a != [] ==> a[0].priority == High && AlertRank(a[0].kind) == 0
    ensures a != [] ==> (a[0].kind == PerfectMatch <==> score >= 90)
  {
    if score >= 90 then
      [Alert(PerfectMatch, PerfectMatchMessage, High)]
    else if score >= 80 then
      [Alert(HighEligibility, HighEligibilityMessage, High)]
    else []
  }

  /** The deadline alert of a scheme; a scheme without a deadline gets none. */
  function DeadlineAlerts(s: Scheme, daysUntil: string -> int): (a: seq<Alert>)
    ensures |a| <= 1
    ensures a != [] <==> HasDeadline(s) && 1 <= DaysLeft(s, daysUntil) <= 90
    ensures a != [] ==> a[0].kind == DeadlineApproaching
    ensures a != [] ==> (a[0].priority == High <==> DaysLeft(s, daysUntil) <= 7)
    ensures a != [] ==> (a[0].priority == Medium <==> 8 <= DaysLeft(s, daysUntil) <= 30)
    ensures a != [] ==> (a[0].priority == Low <==> 31 <= DaysLeft(s, daysUntil))
  {
    if HasDeadline(s) then DeadlineAlert(s.deadline.value, DaysLeft(s, daysUntil)) else []
  }

  /** The newness alert, medium priority, exactly for new schemes. */
  function NewAlert(s: Scheme): (a: seq<Alert>)
    ensures |a| <= 1
    ensures a != [] <==> IsNew(s)
    ensures a != [] ==> a[0].kind == NewScheme && a[0].priority == Medium
  {
    if IsNew(s) then
      [Alert(NewScheme, NewSchemeMessage, Medium)]
    else []
  }

  /** The alerts of a kept scheme: match alert, deadline alert, newness alert. */
  function Alerts(s: Scheme, score: int, daysUntil: string -> int): seq<Alert>
  {
    MatchAlert(score) + DeadlineAlerts(s, daysUntil) + NewAlert(s)
  }

  predicate HasKind(a: seq<Alert>, k: AlertType)
  {
    exists i :: 0 <= i < |a| && a[i].kind == k
  }

  /** Where the three parts of Alerts sit in the whole list. */
  lemma AlertsLayout(s: Scheme, score: int, daysUntil: string -> int)
    ensures var m, d, n := MatchAlert(score), DeadlineAlerts(s, daysUntil), NewAlert(s);
      var a := Alerts(s, score, daysUntil);
      && |a| == |m| + |d| + |n|
      && (forall i :: 0 <= i < |m| ==> a[i] == m[i])
      && (forall i :: 0 <= i < |d| ==> a[|m| + i] == d[i])
      && (forall i :: 0 <= i < |n| ==> a[|m| + |d| + i] == n[i])
  {
  }

  /** At most three alerts, in the order match alert, deadline, newness; the match alert is high priority. */
  lemma AlertsShape(s: Scheme, score: int, daysUntil: string -> int)
    ensures var a := Alerts(s, score, daysUntil);
      && |a| <= 3
      && (forall i, j :: 0 <= i < j < |a| ==> AlertRank(a[i].kind) < AlertRank(a[j].kind))
      && (forall i :: 0 <= i < |a| && AlertRank(a[i].kind) == 0 ==> a[i].priority == High)
  {
    var a, m, d := Alerts(s, score, daysUntil), MatchAlert(score), DeadlineAlerts(s, daysUntil);
    AlertRankAt(s, score, daysUntil);
    forall i | 0 <= i < |a| && AlertRank(a[i].kind) == 0 ensures a[i].priority == High {
      AlertsLayout(s, score, daysUntil);
    }
  }

  /** The rank of each alert follows from the part of the list it sits in. */
  lemma AlertRankAt(s: Scheme, score: int, daysUntil: string -> int)
    ensures var a, m, d := Alerts(s, score, daysUntil), MatchAlert(score), DeadlineAlerts(s, daysUntil);
      forall i :: 0 <= i < |a| ==> AlertRank(a[i].kind) == (if i < |m| then 0 else if i < |m| + |d| then 1 else 2)
  {
    AlertsLayout(s, score, daysUntil);
  }

  /** Perfect match exactly at 90 and above, high eligibility exactly from 80 to 89. */
  lemma AlertsMatch(s: Scheme, score: int, daysUntil: string -> int)
    ensures var a := Alerts(s, score, daysUntil);
      && (HasKind(a, PerfectMatch) <==> score >= 90)
      && (HasKind(a, HighEligibility) <==> 80 <= score < 90)
  {
    AlertsLayout(s, score, daysUntil);
    var a, m := Alerts(s, score, daysUntil), MatchAlert(score);
    assert forall i :: |m| <= i < |a| ==> a[i].kind == DeadlineApproaching || a[i].kind == NewScheme;
    if score >= 80 {
      assert a[0] == m[0];
    }
  }

  /** The deadline alert carries the days and the date up to 30 days ahead, the date alone beyond. */
  lemma DeadlineAlertMessage(deadline: string, days: int)
    ensures var a := DeadlineAlert(deadline, days);
      a != [] ==> a[0].message == (if days <= 30 then DeadlineSoonMessage(deadline, days) else DeadlineLaterMessage(deadline))
  {
  }

  /** A scheme's deadline alert carries the message of its days left. */
  lemma DeadlineAlertsMessage(s: Scheme, daysUntil: string -> int)
    ensures var a := DeadlineAlerts(s, daysUntil);
      a != [] ==> a[0].message == DeadlineMessage(s, daysUntil)
  {
    if HasDeadline(s) {
      DeadlineAlertMessage(s.deadline.value, DaysLeft(s, daysUntil));
    }
  }

  /** The match alert carries the perfect-match message from 90 and the high-eligibility message from 80 to 89. */
  lemma MatchAlertMessage(score: int)
    ensures var a := MatchAlert(score);
      a != [] ==> a[0].message == (if score >= 90 then PerfectMatchMessage else HighEligibilityMessage)
  { }

  /** The newness alert carries the newly-launched message. */
  lemma NewAlertMessage(s: Scheme)
    ensures var a := NewAlert(s);
      a != [] ==> a[0].message == NewSchemeMessage
  { }

  /** The newness alert appears exactly for new schemes, with medium priority. */
  lemma AlertsNewness(s: Scheme, score: int, daysUntil: string -> int)
    ensures var a := Alerts(s, score, daysUntil);
      && (HasKind(a, NewScheme) <==> IsNew(s))
      && (forall i :: 0 <= i < |a| && a[i].kind == NewScheme ==> a[i].priority == Medium)
  {
    AlertsLayout(s, score, daysUntil);
    var m, d, n := MatchAlert(score), DeadlineAlerts(s, daysUntil), NewAlert(s);
    if IsNew(s) {
      assert Alerts(s, score, daysUntil)[|m| + |d|] == n[0];
    }
  }

  /**
   * The deadline alert appears exactly for a deadline 1 to 90 days away:
   * high priority up to 7 days, medium from 8 to 30, low from 31 to 90;
   * its message gives the days and the date up to 30 days, the date alone beyond.
   */
  lemma AlertsDeadline(s: Scheme, score: int, daysUntil: string -> int)
    ensures var a := Alerts(s, score, daysUntil);
      && (HasKind(a, DeadlineApproaching) <==> HasDeadline(s) && 1 <= DaysLeft(s, daysUntil) <= 90)
      && (forall i :: 0 <= i < |a| && a[i].kind == DeadlineApproaching ==>
            && HasDeadline(s)
            && (a[i].priority == High <==> DaysLeft(s, daysUntil) <= 7)
            && (a[i].priority == Medium <==> 8 <= DaysLeft(s, daysUntil) <= 30)
            && (a[i].priority == Low <==> 31 <= DaysLeft(s, daysUntil))
            && a[i].message == DeadlineMessage(s, daysUntil))
  {
    var d := DeadlineAlerts(s, daysUntil);
    DeadlineAlertPosition(s, score, daysUntil);
    DeadlineAlertsMessage(s, daysUntil);
    if d != [] {
      assert Alerts(s, score, daysUntil)[|MatchAlert(score)|] == d[0];
    }
  }

  /** Any deadline alert in the list is the one DeadlineAlerts produced. */
  lemma DeadlineAlertPosition(s: Scheme, score: int, daysUntil: string -> int)
    ensures var a, d := Alerts(s, score, daysUntil), DeadlineAlerts(s, daysUntil);
      && (d != [] ==> |MatchAlert(score)| < |a| && a[|MatchAlert(score)|] == d[0])
      && (forall i :: 0 <= i < |a| && a[i].kind == DeadlineApproaching ==> d != [] && a[i] == d[0])
  {
    AlertsLayout(s, score, daysUntil);
    var m, d := MatchAlert(score), DeadlineAlerts(s, daysUntil);
    var a := Alerts(s, score, daysUntil);
    forall i | 0 <= i < |a|
      ensures a[i].kind == DeadlineApproaching <==> |m| <= i < |m| + |d|
    {
      DeadlineKindAt(s, score, daysUntil, i);
    }
    if d != [] {
      assert a[|m| + 0] == d[0];
    }
  }

  lemma DeadlineKindAt(s: Scheme, score: int, daysUntil: string -> int, i: int)
    requires 0 <= i < |Alerts(s, score, daysUntil)|
    ensures var m, d := MatchAlert(score), DeadlineAlerts(s, daysUntil);
      Alerts(s, score, daysUntil)[i].kind == DeadlineApproaching <==> |m| <= i < |m| + |d|
  {
    AlertsLayout(s, score, daysUntil);
    var m, d, n := MatchAlert(score), DeadlineAlerts(s, daysUntil), NewAlert(s);
    var a := Alerts(s, score, daysUntil);
    if i < |m| {
      assert a[i] == m[i];
    } else if i < |m| + |d| {
      assert a[i] == d[i - |m|];
    } else {
      assert a[i] == n[i - |m| - |d|];
    }
  }

  /** The source's procedure: push the match alert, the deadline alert, the newness alert. */
  method GenerateAlerts(scheme: Scheme, score: int, daysUntil: string -> int) returns (alerts: seq<Alert>)
    ensures alerts == Alerts(scheme, score, daysUntil)
  {
    alerts := [];
    if score >= 90 {
      alerts := alerts + [Alert(PerfectMatch, PerfectMatchMessage, High)];
    } else if score >= 80 {
      alerts := alerts + [Alert(HighEligibility, HighEligibilityMessage, High)];
    }
    assert alerts == MatchAlert(score);
    if scheme.deadline.Some? && scheme.deadline.value != "" {
      var daysUntilDeadline := daysUntil(scheme.deadline.value);
      if daysUntilDeadline > 0 && daysUntilDeadline <= 30 {
        alerts := alerts + [Alert(DeadlineApproaching,
                                  DeadlineSoonMessage(scheme.deadline.value, daysUntilDeadline),
                                  if daysUntilDeadline <= 7 then High else Medium)];
      } else if daysUntilDeadline > 30 && daysUntilDeadline <= 90 {
        alerts := alerts + [Alert(DeadlineApproaching, DeadlineLaterMessage(scheme.deadline.value), Low)];
      }
    }
    assert alerts == MatchAlert(score) + DeadlineAlerts(scheme, daysUntil);
    if scheme.isNew == Some(true) {
      alerts := alerts + [Alert(NewScheme, NewSchemeMessage, Medium)];
    }
  }
}
