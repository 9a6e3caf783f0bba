/**
 * Data model of the scheme recommender: applicant profiles, catalog
 * schemes, alerts, explanation entries, recommendation results and reports.
 * Field names follow the TypeScript interfaces in camel case.
 */
module Types {

  datatype Option<+T> = None | Some(value: T)

  /** `level: 'Central' | 'State'` */
  datatype Level = Central | State

  datatype Gender = Male | Female | Other

  /** The applicant profile handed to the engine (already validated). */
  datatype UserProfile = UserProfile(
    state: string,
    age: int,
    annualIncome: int,
    category: string,
    gender: Option<Gender>)

  /** One catalog record; `deadline` and `isNew` are the optional fields. */
  datatype Scheme = Scheme(
    schemeId: string,
    schemeName: string,
    level: Level,
    state: string,
    category: string,
    minAge: int,
    maxAge: int,
    minIncome: int,
    maxIncome: int,
    targetGroup: string,
    benefits: string,
    isActive: bool,
    lastUpdated: string,
    deadline: Option<string>,
    isNew: Option<bool>)

  /** `if (scheme.deadline)`: absent and the empty string are both falsy. */
  predicate HasDeadline(s: Scheme)
  {
    s.deadline.Some? && s.deadline.value != ""
  }

  /** `if (scheme.is_new)`: only an explicit `true` counts. */
  predicate IsNew(s: Scheme)
  {
    s.isNew == Some(true)
  }

  datatype AlertType = HighEligibility | DeadlineApproaching | NewScheme | PerfectMatch

  datatype Priority = High | Medium | Low

  datatype Alert = Alert(kind: AlertType, message: string, priority: Priority)

  /** The three qualitative headlines that may open the list of reasons. */
  datatype Tier = PerfectTier | HighlyEligibleTier | EligibleTier

  /**
   * One entry of a scheme's explanation. The engines build these sentences
   * from the same facts; the rendering to text differs per engine.
   */
  datatype Reason =
    | Headline(tier: Tier)
    | AgeWithin(age: int, minAge: int, maxAge: int)
    | IncomeWithin(income: int, maxIncome: int)
    | AvailableEverywhere
    | StateSpecific(state: string)
    | CategoryMatches(category: string)
    | TargetGroup(group: string)

  datatype RecommendationResult = RecommendationResult(
    scheme: Scheme,
    eligibilityScore: int,
    reasons: seq<Reason>,
    alerts: seq<Alert>)

  datatype RecommendationReport = RecommendationReport(
    generatedAt: string,
    userProfile: UserProfile,
    totalSchemesAnalyzed: nat,
    eligibleSchemesCount: nat,
    recommendations: seq<RecommendationResult>,
    summary: string)

  /**
   * Locale-dependent formatting the engines delegate to the runtime:
   * `lakhs(x)` is `(x / 100000).toFixed(1)`, `grouped(x)` is
   * `x.toLocaleString()`, `dateTime(t)` is `new Date(t).toLocaleString()`.
   */
  datatype Formats = Formats(
    lakhs: int -> string,
    grouped: int -> string,
    dateTime: string -> string)

  /** Active schemes of a catalog, in catalog order. */
  function ActiveSchemes(catalog: seq<Scheme>): (active: seq<Scheme>)
    ensures |active| <= |catalog|
    ensures forall s :: s in active <==> s in catalog && s.isActive
    ensures forall s :: multiset(active)[s] == if s.isActive then multiset(catalog)[s] else 0
  {
    if catalog == [] then []
    else
      var rest := ActiveSchemes(catalog[..|catalog| - 1]);
      var s := catalog[|catalog| - 1];
      assert catalog == catalog[..|catalog| - 1] + [s];
      assert multiset(catalog) == multiset(catalog[..|catalog| - 1]) + multiset{s};
      assert multiset(rest + [s]) == multiset(rest) + multiset{s};
      if s.isActive then rest + [s] else rest
  }

  function Min(a: int, b: int): int
  {
    if a <= b then a else b
  }
}
