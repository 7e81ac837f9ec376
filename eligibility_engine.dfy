/**
 * The scheme-eligibility evaluator: ten fixed-order criterion checks, a
 * rounded percentage score and a verdict.
 *
 * `CalculateEligibility` is the imperative procedure (counters and lists
 * updated block by block). `Evaluation` is its specification: the outcome of
 * each criterion (`Check`), folded over the fixed criterion order.
 */
module EligibilityEngine {
  import opened Wrappers
  import opened Database

  const DefaultMinAge: int := 0
  const DefaultMaxAge: int := 150

  /** The number of criteria. */
  const CriteriaCount: nat := 10

  /** The criterion checked in position `i`. */
  function CriterionAt(i: nat): Criterion
    requires i < CriteriaCount
  {
    match i
    case 0 => Age
    case 1 => Gender
    case 2 => Category
    case 3 => Occupation
    case 4 => Education
    case 5 => Disability
    case 6 => Income
    case 7 => State
    case 8 => Bpl
    case _ => Minority
  }

  /** The position at which criterion `c` is checked: each criterion is checked exactly once. */
  function Index(c: Criterion): (i: nat)
    ensures i < CriteriaCount && CriterionAt(i) == c
  {
    match c
    case Age => 0
    case Gender => 1
    case Category => 2
    case Occupation => 3
    case Education => 4
    case Disability => 5
    case Income => 6
    case State => 7
    case Bpl => 8
    case Minority => 9
  }

  /** What one criterion contributes: nothing, an affirming sentence, or a gap. */
  datatype Outcome = Skipped | Met(reason: Reason) | Unmet(missing: Missing)

  /** A list constraint is in force when it is present and non-empty. */
  predicate NonEmpty<T>(xs: Option<seq<T>>) {
    xs.Some? && |xs.value| > 0
  }

  /** JavaScript truthiness of an optional flag: only `true` counts. */
  predicate Truthy(b: Option<bool>) {
    b == Some(true)
  }

  function MinAge(s: Scheme): int { s.minAge.GetOr(DefaultMinAge) }
  function MaxAge(s: Scheme): int { s.maxAge.GetOr(DefaultMaxAge) }

  /** Whether the scheme defines criterion `c`. */
  predicate Active(c: Criterion, s: Scheme) {
    match c
    case Age => s.minAge.Some? || s.maxAge.Some?
    case Gender => NonEmpty(s.genders)
    case Category => NonEmpty(s.categories)
    case Occupation => NonEmpty(s.occupations)
    case Education => NonEmpty(s.educationLevels)
    case Disability => NonEmpty(s.disabilities)
    case Income => s.maxIncome.Some?
    case State => NonEmpty(s.states)
    case Bpl => Truthy(s.bplOnly)
    case Minority => Truthy(s.minorityOnly)
  }

  /**
   * Whether profile `p` meets criterion `c` of scheme `s`: the attribute is
   * present and satisfies the constraint. A disability of "none" never meets
   * the disability criterion, and an empty state name counts as absent.
   */
  predicate Satisfied(c: Criterion, p: Profile, s: Scheme) {
    match c
    case Age => p.age.Some? && MinAge(s) <= p.age.value <= MaxAge(s)
    case Gender => p.gender.Some? && s.genders.Some? && p.gender.value in s.genders.value
    case Category => p.category.Some? && s.categories.Some? && p.category.value in s.categories.value
    case Occupation => p.occupation.Some? && s.occupations.Some? && p.occupation.value in s.occupations.value
    case Education => p.education.Some? && s.educationLevels.Some? && p.education.value in s.educationLevels.value
    case Disability =>
      p.disability.Some? && p.disability.value != DisabilityNone
      && s.disabilities.Some? && p.disability.value in s.disabilities.value
    case Income => p.annualIncome.Some? && s.maxIncome.Some? && p.annualIncome.value <= s.maxIncome.value
    case State => p.state.Some? && p.state.value != "" && s.states.Some? && p.state.value in s.states.value
    case Bpl => Truthy(p.isBpl)
    case Minority => Truthy(p.isMinority)
  }

  function AgeOutcome(p: Profile, s: Scheme): Outcome {
    if !(s.minAge.Some? || s.maxAge.Some?) then Skipped
    else if p.age.None? then Unmet(AgeRequired)
    else if MinAge(s) <= p.age.value <= MaxAge(s) then Met(AgeWithinRange(p.age.value, MinAge(s), MaxAge(s)))
    else Unmet(AgeOutOfRange(MinAge(s), MaxAge(s)))
  }

  function GenderOutcome(p: Profile, s: Scheme): Outcome {
    if !NonEmpty(s.genders) then Skipped
    else if p.gender.None? then Unmet(GenderRequired)
    else if p.gender.value in s.genders.value then Met(GenderEligible(p.gender.value))
    else Unmet(GenderRestricted(s.genders.value))
  }

  function CategoryOutcome(p: Profile, s: Scheme): Outcome {
    if !NonEmpty(s.categories) then Skipped
    else if p.category.None? then Unmet(CategoryRequired)
    else if p.category.value in s.categories.value then Met(CategoryEligible(p.category.value))
    else Unmet(CategoryRestricted(s.categories.value))
  }

  function OccupationOutcome(p: Profile, s: Scheme): Outcome {
    if !NonEmpty(s.occupations) then Skipped
    else if p.occupation.None? then Unmet(OccupationRequired)
    else if p.occupation.value in s.occupations.value then Met(OccupationEligible(p.occupation.value))
    else Unmet(OccupationRestricted(s.occupations.value))
  }

  function EducationOutcome(p: Profile, s: Scheme): Outcome {
    if !NonEmpty(s.educationLevels) then Skipped
    else if p.education.None? then Unmet(EducationRequired)
    else if p.education.value in s.educationLevels.value then Met(EducationEligible(p.education.value))
    else Unmet(EducationRestricted(s.educationLevels.value))
  }

  /** A disability of "none" is handled like an absent one. */
  function DisabilityOutcome(p: Profile, s: Scheme): Outcome {
    if !NonEmpty(s.disabilities) then Skipped
    else if p.disability.None? || p.disability.value == DisabilityNone then Unmet(DisabilityRequired)
    else if p.disability.value in s.disabilities.value then Met(DisabilityQualifies)
    else Unmet(DisabilityRestricted(s.disabilities.value))
  }

  function IncomeOutcome(p: Profile, s: Scheme): Outcome {
    if s.maxIncome.None? then Skipped
    else if p.annualIncome.None? then Unmet(IncomeRequired)
    else if p.annualIncome.value <= s.maxIncome.value then Met(IncomeWithinLimit(p.annualIncome.value, s.maxIncome.value))
    else Unmet(IncomeAboveLimit(s.maxIncome.value))
  }

  /** An empty state name is falsy and handled like an absent one. */
  function StateOutcome(p: Profile, s: Scheme): Outcome {
    if !NonEmpty(s.states) then Skipped
    else if p.state.None? || p.state.value == "" then Unmet(StateRequired)
    else if p.state.value in s.states.value then Met(StateEligible(p.state.value))
    else Unmet(StateRestricted(s.states.value))
  }

  function BplOutcome(p: Profile, s: Scheme): Outcome {
    if !Truthy(s.bplOnly) then Skipped
    else if Truthy(p.isBpl) then Met(BplQualifies)
    else Unmet(BplOnly)
  }

  function MinorityOutcome(p: Profile, s: Scheme): Outcome {
    if !Truthy(s.minorityOnly) then Skipped
    else if Truthy(p.isMinority) then Met(MinorityQualifies)
    else Unmet(MinorityOnly)
  }

  /** The outcome of criterion `c`. */
  function Check(c: Criterion, p: Profile, s: Scheme): Outcome {
    match c
    case Age => AgeOutcome(p, s)
    case Gender => GenderOutcome(p, s)
    case Category => CategoryOutcome(p, s)
    case Occupation => OccupationOutcome(p, s)
    case Education => EducationOutcome(p, s)
    case Disability => DisabilityOutcome(p, s)
    case Income => IncomeOutcome(p, s)
    case State => StateOutcome(p, s)
    case Bpl => BplOutcome(p, s)
    case Minority => MinorityOutcome(p, s)
  }

  /**
   * Each check is skipped exactly when the scheme does not define its
   * criterion, is met exactly when the profile satisfies it, and explains
   * itself with a sentence about that criterion.
   */
  lemma CheckMeaning(c: Criterion, p: Profile, s: Scheme)
    ensures Check(c, p, s).Skipped? <==> !Active(c, s)
    ensures Check(c, p, s).Met? <==> Active(c, s) && Satisfied(c, p, s)
    ensures Check(c, p, s).Unmet? <==> Active(c, s) && !Satisfied(c, p, s)
    ensures Check(c, p, s).Met? ==> Check(c, p, s).reason.Criterion() == c
    ensures Check(c, p, s).Unmet? ==> Check(c, p, s).missing.Criterion() == c
  {
  }

  /** The outcomes of the first `n` checks, in checking order. */
  function OutcomesUpTo(p: Profile, s: Scheme, n: nat): (os: seq<Outcome>)
    requires n <= CriteriaCount
    ensures |os| == n
  {
    if n == 0 then [] else OutcomesUpTo(p, s, n - 1) + [Check(CriterionAt(n - 1), p, s)]
  }

  /** The outcomes of all ten checks. */
  function Outcomes(p: Profile, s: Scheme): (os: seq<Outcome>)
    ensures |os| == CriteriaCount
  {
    OutcomesUpTo(p, s, CriteriaCount)
  }

  /** Outcome `i` is the check of the `i`-th criterion. */
  lemma {:induction false} OutcomeAt(p: Profile, s: Scheme, n: nat, i: nat)
    requires i < n <= CriteriaCount
    ensures OutcomesUpTo(p, s, n)[i] == Check(CriterionAt(i), p, s)
  {
    if i < n - 1 {
      OutcomeAt(p, s, n - 1, i);
    }
  }

  /**
   * The four locals of `calculateEligibility`: the affirming sentences, the
   * gaps, the number of met criteria and the number of checked criteria.
   */
  datatype Tally = Tally(reasons: seq<Reason>, missingCriteria: seq<Missing>, matchScore: nat, totalCriteria: nat) {

    /** The tally after one more criterion check with outcome `o`. */
    function Add(o: Outcome): Tally {
      match o
      case Skipped => this
      case Met(r) => Tally(reasons + [r], missingCriteria, matchScore + 1, totalCriteria + 1)
      case Unmet(m) => Tally(reasons, missingCriteria + [m], matchScore, totalCriteria + 1)
    }
  }

  const EmptyTally: Tally := Tally([], [], 0, 0)

  /**
   * The tally after the first `n` outcomes. Every checked criterion adds
   * exactly one sentence, to one of the two lists, and the met ones are
   * counted by `matchScore`.
   */
  function TallyOf(os: seq<Outcome>, n: nat): (t: Tally)
    requires n <= |os|
    ensures |t.reasons| == t.matchScore
    ensures |t.reasons| + |t.missingCriteria| == t.totalCriteria <= n
  {
    if n == 0 then EmptyTally else TallyOf(os, n - 1).Add(os[n - 1])
  }

  /** The tally after check `k` is the tally before it plus that check's outcome. */
  lemma TallyStep(p: Profile, s: Scheme, k: nat)
    requires k < CriteriaCount
    ensures TallyOf(Outcomes(p, s), k + 1) == TallyOf(Outcomes(p, s), k).Add(Check(CriterionAt(k), p, s))
  {
    OutcomeAt(p, s, CriteriaCount, k);
  }

  function Ind(b: bool): nat {
    if b then 1 else 0
  }

  /** The number of criteria the scheme defines, one field test per criterion. */
  function ActiveCount(s: Scheme): nat {
    Ind(Active(Age, s)) + Ind(Active(Gender, s)) + Ind(Active(Category, s)) + Ind(Active(Occupation, s))
    + Ind(Active(Education, s)) + Ind(Active(Disability, s)) + Ind(Active(Income, s)) + Ind(Active(State, s))
    + Ind(Active(Bpl, s)) + Ind(Active(Minority, s))
  }

  /** How many of the first `n` criteria the scheme defines. */
  function ActiveUpTo(s: Scheme, n: nat): nat
    requires n <= CriteriaCount
  {
    if n == 0 then 0 else ActiveUpTo(s, n - 1) + Ind(Active(CriterionAt(n - 1), s))
  }

  lemma {:induction false} TotalUpTo(p: Profile, s: Scheme, n: nat)
    requires n <= CriteriaCount
    ensures TallyOf(Outcomes(p, s), n).totalCriteria == ActiveUpTo(s, n)
  {
    if n > 0 {
      TotalUpTo(p, s, n - 1);
      OutcomeAt(p, s, CriteriaCount, n - 1);
      CheckMeaning(CriterionAt(n - 1), p, s);
    }
  }

  /** The engine's `totalCriteria` equals the number of criteria the scheme defines. */
  lemma TotalIsActiveCount(p: Profile, s: Scheme)
    ensures TallyOf(Outcomes(p, s), CriteriaCount).totalCriteria == ActiveCount(s)
  {
    TotalUpTo(p, s, CriteriaCount);
    assert ActiveUpTo(s, 1) == ActiveUpTo(s, 0) + Ind(Active(Age, s));
    assert ActiveUpTo(s, 2) == ActiveUpTo(s, 1) + Ind(Active(Gender, s));
    assert ActiveUpTo(s, 3) == ActiveUpTo(s, 2) + Ind(Active(Category, s));
    assert ActiveUpTo(s, 4) == ActiveUpTo(s, 3) + Ind(Active(Occupation, s));
    assert ActiveUpTo(s, 5) == ActiveUpTo(s, 4) + Ind(Active(Education, s));
    assert ActiveUpTo(s, 6) == ActiveUpTo(s, 5) + Ind(Active(Disability, s));
    assert ActiveUpTo(s, 7) == ActiveUpTo(s, 6) + Ind(Active(Income, s));
    assert ActiveUpTo(s, 8) == ActiveUpTo(s, 7) + Ind(Active(State, s));
    assert ActiveUpTo(s, 9) == ActiveUpTo(s, 8) + Ind(Active(Bpl, s));
    assert ActiveUpTo(s, 10) == ActiveUpTo(s, 9) + Ind(Active(Minority, s));
  }

  /**
   * `Math.round(matched / total * 100)` for `total > 0`: the integer nearest
   * to 100 * matched / total, halves rounded up, between 0 and 100.
   */
  function RoundedPercent(matched: nat, total: nat): (r: nat)
    requires 0 < total && matched <= total
    ensures r <= 100
    ensures 2 * total * r <= 200 * matched + total < 2 * total * (r + 1)
  {
    var x, d := 200 * matched + total, 2 * total;
    var r := x / d;
    assert x == d * r + x % d && 0 <= x % d < d;
    assert d * (r + 1) == d * r + d;
    MulMonotone(d, 101, r);
    r
  }

  /** The confidence score: the rounded percentage, or 100 when the scheme defines no criterion. */
  function Score(matched: nat, total: nat): (r: nat)
    requires matched <= total
    ensures r <= 100
    ensures total == 0 ==> r == 100
  {
    if total > 0 then RoundedPercent(matched, total) else 100
  }

  /** Multiplying by a positive factor keeps the order. */
  lemma MulMonotone(a: int, x: int, y: int)
    requires a > 0
    ensures x <= y ==> a * x <= a * y
  {
    if x <= y {
      assert a * y == a * x + a * (y - x);
    }
  }

  /** With fewer than 200 criteria a score of 100 means every criterion was met. */
  lemma ScoreFull(matched: nat, total: nat)
    requires matched <= total < 200
    ensures Score(matched, total) == 100 <==> matched == total
  {
    if 0 < total {
      var r := RoundedPercent(matched, total);
      MulMonotone(2 * total, 100, r);
      MulMonotone(2 * total, r + 1, 100);
      if matched < total {
        assert 200 * matched + total < 200 * total;
      }
    }
  }

  /** The specification of `calculateEligibility`: the tally of all ten outcomes, scored and judged. */
  function Evaluation(p: Profile, s: Scheme): EligibilityResult {
    var t := TallyOf(Outcomes(p, s), CriteriaCount);
    var score := Score(t.matchScore, t.totalCriteria);
    EligibilityResult(s, t.missingCriteria == [] && score >= 50, score, t.reasons, t.missingCriteria)
  }

  /**
   * The verdict is exactly "nothing missing"; equivalently the score is 100.
   * The `confidenceScore >= 50` clause never changes the outcome.
   */
  lemma EligibleIffNothingMissing(p: Profile, s: Scheme)
    ensures Evaluation(p, s).isEligible <==> Evaluation(p, s).missingCriteria == []
    ensures Evaluation(p, s).isEligible <==> Evaluation(p, s).confidenceScore == 100
  {
    var t := TallyOf(Outcomes(p, s), CriteriaCount);
    ScoreFull(t.matchScore, t.totalCriteria);
  }

  /** The age block: both bounds default when absent; an absent age is a gap. */
  method AgeStep(profile: Profile, scheme: Scheme, before: Tally) returns (after: Tally)
    ensures after == before.Add(AgeOutcome(profile, scheme))
    ensures before == TallyOf(Outcomes(profile, scheme), 0) ==> after == TallyOf(Outcomes(profile, scheme), 1)
  {
    var reasons, missingCriteria, matchScore, totalCriteria :=
      before.reasons, before.missingCriteria, before.matchScore, before.totalCriteria;
    if scheme.minAge.Some? || scheme.maxAge.Some? {
      totalCriteria := totalCriteria + 1;
      if profile.age.Some? {
        var minAge := scheme.minAge.GetOr(DefaultMinAge);
        var maxAge := scheme.maxAge.GetOr(DefaultMaxAge);
        if minAge <= profile.age.value && profile.age.value <= maxAge {
          matchScore := matchScore + 1;
          reasons := reasons + [AgeWithinRange(profile.age.value, minAge, maxAge)];
        } else {
          missingCriteria := missingCriteria + [AgeOutOfRange(minAge, maxAge)];
        }
      } else {
        missingCriteria := missingCriteria + [AgeRequired];
      }
    }
    after := Tally(reasons, missingCriteria, matchScore, totalCriteria);
    TallyStep(profile, scheme, 0);
  }

  /** The gender block. */
  method GenderStep(profile: Profile, scheme: Scheme, before: Tally) returns (after: Tally)
    ensures after == before.Add(GenderOutcome(profile, scheme))
    ensures before == TallyOf(Outcomes(profile, scheme), 1) ==> after == TallyOf(Outcomes(profile, scheme), 2)
  {
    var reasons, missingCriteria, matchScore, totalCriteria :=
      before.reasons, before.missingCriteria, before.matchScore, before.totalCriteria;
    if scheme.genders.Some? && |scheme.genders.value| > 0 {
      totalCriteria := totalCriteria + 1;
      if profile.gender.Some? {
        if profile.gender.value in scheme.genders.value {
          matchScore := matchScore + 1;
          reasons := reasons + [GenderEligible(profile.gender.value)];
        } else {
          missingCriteria := missingCriteria + [GenderRestricted(scheme.genders.value)];
        }
      } else {
        missingCriteria := missingCriteria + [GenderRequired];
      }
    }
    after := Tally(reasons, missingCriteria, matchScore, totalCriteria);
    TallyStep(profile, scheme, 1);
  }

  /** The category block. */
  method CategoryStep(profile: Profile, scheme: Scheme, before: Tally) returns (after: Tally)
    ensures after == before.Add(CategoryOutcome(profile, scheme))
    ensures before == TallyOf(Outcomes(profile, scheme), 2) ==> after == TallyOf(Outcomes(profile, scheme), 3)
  {
    var reasons, missingCriteria, matchScore, totalCriteria :=
      before.reasons, before.missingCriteria, before.matchScore, before.totalCriteria;
    if scheme.categories.Some? && |scheme.categories.value| > 0 {
      totalCriteria := totalCriteria + 1;
      if profile.category.Some? {
        if profile.category.value in scheme.categories.value {
          matchScore := matchScore + 1;
          reasons := reasons + [CategoryEligible(profile.category.value)];
        } else {
          missingCriteria := missingCriteria + [CategoryRestricted(scheme.categories.value)];
        }
      } else {
        missingCriteria := missingCriteria + [CategoryRequired];
      }
    }
    after := Tally(reasons, missingCriteria, matchScore, totalCriteria);
    TallyStep(profile, scheme, 2);
  }

  /** The occupation block. */
  method OccupationStep(profile: Profile, scheme: Scheme, before: Tally) returns (after: Tally)
    ensures after == before.Add(OccupationOutcome(profile, scheme))
    ensures before == TallyOf(Outcomes(profile, scheme), 3) ==> after == TallyOf(Outcomes(profile, scheme), 4)
  {
    var reasons, missingCriteria, matchScore, totalCriteria :=
      before.reasons, before.missingCriteria, before.matchScore, before.totalCriteria;
    if scheme.occupations.Some? && |scheme.occupations.value| > 0 {
      totalCriteria := totalCriteria + 1;
      if profile.occupation.Some? {
        if profile.occupation.value in scheme.occupations.value {
          matchScore := matchScore + 1;
          reasons := reasons + [OccupationEligible(profile.occupation.value)];
        } else {
          missingCriteria := missingCriteria + [OccupationRestricted(scheme.occupations.value)];
        }
      } else {
        missingCriteria := missingCriteria + [OccupationRequired];
      }
    }
    after := Tally(reasons, missingCriteria, matchScore, totalCriteria);
    TallyStep(profile, scheme, 3);
  }

  /** The education block. */
  method EducationStep(profile: Profile, scheme: Scheme, before: Tally) returns (after: Tally)
    ensures after == before.Add(EducationOutcome(profile, scheme))
    ensures before == TallyOf(Outcomes(profile, scheme), 4) ==> after == TallyOf(Outcomes(profile, scheme), 5)
  {
    var reasons, missingCriteria, matchScore, totalCriteria :=
      before.reasons, before.missingCriteria, before.matchScore, before.totalCriteria;
    if scheme.educationLevels.Some? && |scheme.educationLevels.value| > 0 {
      totalCriteria := totalCriteria + 1;
      if profile.education.Some? {
        if profile.education.value in scheme.educationLevels.value {
          matchScore := matchScore + 1;
          reasons := reasons + [EducationEligible(profile.education.value)];
        } else {
          missingCriteria := missingCriteria + [EducationRestricted(scheme.educationLevels.value)];
        }
      } else {
        missingCriteria := missingCriteria + [EducationRequired];
      }
    }
    after := Tally(reasons, missingCriteria, matchScore, totalCriteria);
    TallyStep(profile, scheme, 4);
  }

  /** The disability block: a disability of "none" counts as no disability. */
  method DisabilityStep(profile: Profile, scheme: Scheme, before: Tally) returns (after: Tally)
    ensures after == before.Add(DisabilityOutcome(profile, scheme))
    ensures before == TallyOf(Outcomes(profile, scheme), 5) ==> after == TallyOf(Outcomes(profile, scheme), 6)
  {
    var reasons, missingCriteria, matchScore, totalCriteria :=
      before.reasons, before.missingCriteria, before.matchScore, before.totalCriteria;
    if scheme.disabilities.Some? && |scheme.disabilities.value| > 0 {
      totalCriteria := totalCriteria + 1;
      if profile.disability.Some? && profile.disability.value != DisabilityNone {
        if profile.disability.value in scheme.disabilities.value {
          matchScore := matchScore + 1;
          reasons := reasons + [DisabilityQualifies];
        } else {
          missingCriteria := missingCriteria + [DisabilityRestricted(scheme.disabilities.value)];
        }
      } else {
        missingCriteria := missingCriteria + [DisabilityRequired];
      }
    }
    after := Tally(reasons, missingCriteria, matchScore, totalCriteria);
    TallyStep(profile, scheme, 5);
  }

  /** The income block. */
  method IncomeStep(profile: Profile, scheme: Scheme, before: Tally) returns (after: Tally)
    ensures after == before.Add(IncomeOutcome(profile, scheme))
    ensures before == TallyOf(Outcomes(profile, scheme), 6) ==> after == TallyOf(Outcomes(profile, scheme), 7)
  {
    var reasons, missingCriteria, matchScore, totalCriteria :=
      before.reasons, before.missingCriteria, before.matchScore, before.totalCriteria;
    if scheme.maxIncome.Some? {
      totalCriteria := totalCriteria + 1;
      if profile.annualIncome.Some? {
        if profile.annualIncome.value <= scheme.maxIncome.value {
          matchScore := matchScore + 1;
          reasons := reasons + [IncomeWithinLimit(profile.annualIncome.value, scheme.maxIncome.value)];
        } else {
          missingCriteria := missingCriteria + [IncomeAboveLimit(scheme.maxIncome.value)];
        }
      } else {
        missingCriteria := missingCriteria + [IncomeRequired];
      }
    }
    after := Tally(reasons, missingCriteria, matchScore, totalCriteria);
    TallyStep(profile, scheme, 6);
  }

  /** The state block: an empty state name counts as no state. */
  method StateStep(profile: Profile, scheme: Scheme, before: Tally) returns (after: Tally)
    ensures after == before.Add(StateOutcome(profile, scheme))
    ensures before == TallyOf(Outcomes(profile, scheme), 7) ==> after == TallyOf(Outcomes(profile, scheme), 8)
  {
    var reasons, missingCriteria, matchScore, totalCriteria :=
      before.reasons, before.missingCriteria, before.matchScore, before.totalCriteria;
    if scheme.states.Some? && |scheme.states.value| > 0 {
      totalCriteria := totalCriteria + 1;
      if profile.state.Some? && profile.state.value != "" {
        if profile.state.value in scheme.states.value {
          matchScore := matchScore + 1;
          reasons := reasons + [StateEligible(profile.state.value)];
        } else {
          missingCriteria := missingCriteria + [StateRestricted(scheme.states.value)];
        }
      } else {
        missingCriteria := missingCriteria + [StateRequired];
      }
    }
    after := Tally(reasons, missingCriteria, matchScore, totalCriteria);
    TallyStep(profile, scheme, 7);
  }

  /** The below-poverty-line block. */
  method BplStep(profile: Profile, scheme: Scheme, before: Tally) returns (after: Tally)
    ensures after == before.Add(BplOutcome(profile, scheme))
    ensures before == TallyOf(Outcomes(profile, scheme), 8) ==> after == TallyOf(Outcomes(profile, scheme), 9)
  {
    var reasons, missingCriteria, matchScore, totalCriteria :=
      before.reasons, before.missingCriteria, before.matchScore, before.totalCriteria;
    if scheme.bplOnly == Some(true) {
      totalCriteria := totalCriteria + 1;
      if profile.isBpl == Some(true) {
        matchScore := matchScore + 1;
        reasons := reasons + [BplQualifies];
      } else {
        missingCriteria := missingCriteria + [BplOnly];
      }
    }
    after := Tally(reasons, missingCriteria, matchScore, totalCriteria);
    TallyStep(profile, scheme, 8);
  }

  /** The minority block. */
  method MinorityStep(profile: Profile, scheme: Scheme, before: Tally) returns (after: Tally)
    ensures after == before.Add(MinorityOutcome(profile, scheme))
    ensures before == TallyOf(Outcomes(profile, scheme), 9) ==> after == TallyOf(Outcomes(profile, scheme), 10)
  {
    var reasons, missingCriteria, matchScore, totalCriteria :=
      before.reasons, before.missingCriteria, before.matchScore, before.totalCriteria;
    if scheme.minorityOnly == Some(true) {
      totalCriteria := totalCriteria + 1;
      if profile.isMinority == Some(true) {
        matchScore := matchScore + 1;
        reasons := reasons + [MinorityQualifies];
      } else {
        missingCriteria := missingCriteria + [MinorityOnly];
      }
    }
    after := Tally(reasons, missingCriteria, matchScore, totalCriteria);
    TallyStep(profile, scheme, 9);
  }

  /**
   * `calculateEligibility`: the ten guarded blocks run in order over the four
   * locals, then the score and the verdict. Each block's second postcondition
   * places it at its position in the fold, so after the last block the locals
   * are the tally of all ten outcomes.
   */
  method CalculateEligibility(profile: Profile, scheme: Scheme) returns (result: EligibilityResult)
    ensures result == Evaluation(profile, scheme)
    ensures result.scheme == scheme
    ensures |result.reasons| + |result.missingCriteria| == ActiveCount(scheme)
    ensures 0 <= result.confidenceScore <= 100
    ensures result.isEligible <==> result.missingCriteria == []
  {
    var tally := EmptyTally;
    tally := AgeStep(profile, scheme, tally);
    tally := GenderStep(profile, scheme, tally);
    tally := CategoryStep(profile, scheme, tally);
    tally := OccupationStep(profile, scheme, tally);
    tally := EducationStep(profile, scheme, tally);
    tally := DisabilityStep(profile, scheme, tally);
    tally := IncomeStep(profile, scheme, tally);
    tally := StateStep(profile, scheme, tally);
    tally := BplStep(profile, scheme, tally);
    tally := MinorityStep(profile, scheme, tally);

    var confidenceScore := if tally.totalCriteria > 0 then RoundedPercent(tally.matchScore, tally.totalCriteria) else 100;
    var isEligible := |tally.missingCriteria| == 0 && confidenceScore >= 50;
    result := EligibilityResult(scheme, isEligible, confidenceScore, tally.reasons, tally.missingCriteria);

    TotalIsActiveCount(profile, scheme);
    EligibleIffNothingMissing(profile, scheme);
  }
}
