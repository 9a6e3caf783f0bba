/**
 * `calculateEligibilityScore` of src/utils/recommender.ts: four weighted
 * parts (age 25 + 5, income 30 + 10, state 20 + 5, category 25 or 10),
 * normalised by a denominator that is always 100, rounded with
 * `Math.round` and capped at 100. Arithmetic is over exact reals.
 */
module Scoring {
  import opened Types

  function Abs(x: real): real
  {
    if x < 0.0 then -x else x
  }

  /** `Math.round`: halves go up. */
  function RoundHalfUp(x: real): (n: int)
    ensures n as real - 0.5 <= x < n as real + 0.5
  {
    (x + 0.5).Floor
  }

  predicate AgeEligible(s: Scheme, p: UserProfile)
  {
    p.age >= s.minAge && p.age <= s.maxAge
  }

  predicate IncomeEligible(s: Scheme, p: UserProfile)
  {
    p.annualIncome >= s.minIncome && p.annualIncome <= s.maxIncome
  }

  /** The geographic condition, used both by the score and by the pre-filter. */
  predicate StateEligible(s: Scheme, p: UserProfile)
  {
    s.state == "All" || s.state == p.state || p.state == "All India"
  }

  lemma QuotientInUnit(a: real, b: real)
    requires 0.0 <= a <= b && b > 0.0
    ensures 0.0 <= a / b <= 1.0
    ensures a / b == 0.0 <==> a == 0.0
    ensures a / b == 1.0 <==> a == b
    ensures a / b == 0.5 <==> 2.0 * a == b
  {
    var q := a / b;
    assert q * b == a;
  }

  /**
   * The middle-of-range bonus: 5 at the midpoint of the age range, falling
   * linearly to 0 at either bound.
   */
  function AgeBonus(s: Scheme, p: UserProfile): (bonus: real)
    requires AgeEligible(s, p) && s.maxAge > s.minAge
    ensures 0.0 <= bonus <= 5.0
    ensures bonus == 5.0 <==> 2 * (p.age - s.minAge) == s.maxAge - s.minAge
    ensures bonus == 0.0 <==> p.age == s.minAge || p.age == s.maxAge
  {
    var position := (p.age - s.minAge) as real;
    var range := (s.maxAge - s.minAge) as real;
    QuotientInUnit(position, range);
    (1.0 - Abs(position / range - 0.5) * 2.0) * 5.0
  }

  /** The need bonus: 10 at the lowest eligible income, 0 at the highest. */
  function IncomeBonus(s: Scheme, p: UserProfile): (bonus: real)
    requires IncomeEligible(s, p) && s.maxIncome > s.minIncome
    ensures 0.0 <= bonus <= 10.0
    ensures bonus == 10.0 <==> p.annualIncome == s.minIncome
    ensures bonus == 0.0 <==> p.annualIncome == s.maxIncome
  {
    var buffer := (s.maxIncome - p.annualIncome) as real;
    var range := (s.maxIncome - s.minIncome) as real;
    QuotientInUnit(buffer, range);
    buffer / range * 10.0
  }

  function AgePoints(s: Scheme, p: UserProfile): (points: real)
    ensures points == 0.0 <==> !AgeEligible(s, p)
    ensures AgeEligible(s, p) ==> 25.0 <= points <= 30.0
    ensures AgeEligible(s, p) && s.maxAge == s.minAge ==> points == 25.0
    ensures points == 30.0 <==> AgeEligible(s, p) && s.maxAge > s.minAge && 2 * p.age == s.minAge + s.maxAge
  {
    if AgeEligible(s, p) then
      25.0 + (if s.maxAge - s.minAge > 0 then AgeBonus(s, p) else 0.0)
    else 0.0
  }

  function IncomePoints(s: Scheme, p: UserProfile): (points: real)
    ensures points == 0.0 <==> !IncomeEligible(s, p)
    ensures IncomeEligible(s, p) ==> 30.0 <= points <= 40.0
    ensures IncomeEligible(s, p) && s.maxIncome == s.minIncome ==> points == 30.0
    ensures points == 40.0 <==> IncomeEligible(s, p) && s.maxIncome > s.minIncome && p.annualIncome == s.minIncome
  {
    if IncomeEligible(s, p) then
      30.0 + (if s.maxIncome - s.minIncome > 0 then IncomeBonus(s, p) else 0.0)
    else 0.0
  }

  /** 20 for a geographic match, 25 when a State-level scheme names the profile's state. */
  function StatePoints(s: Scheme, p: UserProfile): (points: int)
    ensures points == 25 <==> s.level == State && s.state == p.state
    ensures points == 20 <==> StateEligible(s, p) && !(s.level == State && s.state == p.state)
    ensures points == 0 <==> !StateEligible(s, p)
  {
    if StateEligible(s, p) then
      20 + (if s.state == p.state && s.level == State then 5 else 0)
    else 0
  }

  /**
   * The related-category table, keyed by the profile's category; a key
   * that is not in the table relates to nothing.
   */
  function RelatedCategories(category: string): seq<string>
  {
    if category == "Agriculture" then ["Business", "Skill Development"]
    else if category == "Education" then ["Skill Development", "Women Welfare"]
    else if category == "Health" then ["Women Welfare", "Senior Citizen", "Disability"]
    else if category == "Housing" then ["Social Security"]
    else if category == "Business" then ["Agriculture", "Skill Development"]
    else if category == "Women Welfare" then ["Education", "Health", "Housing"]
    else if category == "Senior Citizen" then ["Health", "Social Security"]
    else if category == "Disability" then ["Health", "Education"]
    else if category == "Skill Development" then ["Education", "Business"]
    else if category == "Social Security" then ["Senior Citizen", "Housing"]
    else if category == "Food Security" then ["Health", "Social Security"]
    else []
  }

  /** 25 on an exact match, otherwise 10 when the scheme's category is related to the profile's. */
  function CategoryPoints(s: Scheme, p: UserProfile): (points: int)
    ensures points == 25 <==> s.category == p.category
    ensures points == 10 <==> s.category != p.category && s.category in RelatedCategories(p.category)
    ensures points == 0 <==> s.category != p.category && s.category !in RelatedCategories(p.category)
  {
    if s.category == p.category then 25
    else if s.category in RelatedCategories(p.category) then 10
    else 0
  }

  /** The unnormalised sum of the four parts. */
  function RawScore(s: Scheme, p: UserProfile): (raw: real)
    ensures 0.0 <= raw <= 120.0
  {
    AgePoints(s, p) + IncomePoints(s, p) + StatePoints(s, p) as real + CategoryPoints(s, p) as real
  }

  /** Meeting all four conditions exactly, before any bonus. */
  predicate FullMatch(s: Scheme, p: UserProfile)
  {
    AgeEligible(s, p) && IncomeEligible(s, p) && StateEligible(s, p) && s.category == p.category
  }

  /**
   * The eligibility score: an integer in [0, 100]; the base weights alone
   * sum to 100, so meeting every condition gives the full score.
   */
  function EligibilityScore(s: Scheme, p: UserProfile): (score: int)
    ensures 0 <= score <= 100
    ensures score as real - 0.5 <= RawScore(s, p)
    ensures score < 100 ==> RawScore(s, p) < score as real + 0.5
    ensures FullMatch(s, p) ==> score == 100
  {
    Min(100, RoundHalfUp(RawScore(s, p)))
  }

  /**
   * The source's procedure: accumulate `score` and `maxPossibleScore`, then
   * normalise `score / maxPossibleScore * 100`.
   */
  method CalculateEligibilityScore(scheme: Scheme, profile: UserProfile) returns (normalizedScore: int)
    ensures normalizedScore == EligibilityScore(scheme, profile)
  {
    var score: real := 0.0;
    var maxPossibleScore: int := 0;

    maxPossibleScore := maxPossibleScore + 25;
    if profile.age >= scheme.minAge && profile.age <= scheme.maxAge {
      score := score + 25.0;
      var ageRange := scheme.maxAge - scheme.minAge;
      var agePosition := profile.age - scheme.minAge;
      if ageRange > 0 {
        var ageMiddleness := 1.0 - Abs(agePosition as real / ageRange as real - 0.5) * 2.0;
        score := score + ageMiddleness * 5.0;
      }
    }
    assert score == AgePoints(scheme, profile);

    maxPossibleScore := maxPossibleScore + 30;
    if profile.annualIncome >= scheme.minIncome && profile.annualIncome <= scheme.maxIncome {
      score := score + 30.0;
      var incomeRange := scheme.maxIncome - scheme.minIncome;
      if incomeRange > 0 {
        var incomeBuffer := (scheme.maxIncome - profile.annualIncome) as real / incomeRange as real;
        score := score + incomeBuffer * 10.0;
      }
    }
    assert score == AgePoints(scheme, profile) + IncomePoints(scheme, profile);

    maxPossibleScore := maxPossibleScore + 20;
    if scheme.state == "All" || scheme.state == profile.state || profile.state == "All India" {
      score := score + 20.0;
      if scheme.state == profile.state && scheme.level == State {
        score := score + 5.0;
      }
    }
    assert score == AgePoints(scheme, profile) + IncomePoints(scheme, profile) + StatePoints(scheme, profile) as real;

    maxPossibleScore := maxPossibleScore + 25;
    if scheme.category == profile.category {
      score := score + 25.0;
    } else {
      if scheme.category in RelatedCategories(profile.category) {
        score := score + 10.0;
      }
    }
    assert score == RawScore(scheme, profile);

    var percentage := score / maxPossibleScore as real * 100.0;
    assert percentage == RawScore(scheme, profile) by {
      assert maxPossibleScore == 100 && score / 100.0 * 100.0 == score;
    }
    normalizedScore := Min(100, RoundHalfUp(percentage));
  }

  /**
   * The table is consulted under the profile's category only: a Food
   * Security applicant gets partial credit from a Health scheme, but not
   * the other way round.
   */
  lemma RelatedCreditIsAsymmetric(health: Scheme, food: Scheme, healthApplicant: UserProfile, foodApplicant: UserProfile)
    requires health.category == "Health" && healthApplicant.category == "Health"
    requires food.category == "Food Security" && foodApplicant.category == "Food Security"
    ensures CategoryPoints(health, foodApplicant) == 10
    ensures CategoryPoints(food, healthApplicant) == 0
  {
    assert RelatedCategories("Food Security") == ["Health", "Social Security"];
    assert RelatedCategories("Health") == ["Women Welfare", "Senior Citizen", "Disability"];
  }

  /** An Agriculture applicant gets partial credit from Business and Skill Development schemes only. */
  lemma AgricultureRelatedCategories(s: Scheme, p: UserProfile)
    requires p.category == "Agriculture"
    ensures CategoryPoints(s, p) == 10 <==> s.category == "Business" || s.category == "Skill Development"
  {
    assert RelatedCategories("Agriculture") == ["Business", "Skill Development"];
  }
}
