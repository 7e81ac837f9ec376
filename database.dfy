/**
 * The data shapes the eligibility engine reads and produces: the closed
 * vocabularies of a citizen profile, the profile itself (every field may be
 * absent, since the engine accepts a partial profile), a scheme's eligibility
 * constraints, and the result with its explanations.
 */
module Database {
  import opened Wrappers

  datatype GenderType = Male | Female | Other
  datatype CategoryType = General | Obc | Sc | St | Ews
  datatype OccupationType = Student | Employed | SelfEmployed | Unemployed | Farmer | Retired | Homemaker
  datatype EducationType = EducationNone | Primary | Secondary | HigherSecondary | Graduate | Postgraduate | Doctorate
  datatype DisabilityType = DisabilityNone | Visual | Hearing | Locomotor | Mental | Multiple

  /** The citizen attributes the engine looks at; identifiers, name and district are not used. */
  datatype Profile = Profile(
    age: Option<int>,
    gender: Option<GenderType>,
    category: Option<CategoryType>,
    occupation: Option<OccupationType>,
    education: Option<EducationType>,
    disability: Option<DisabilityType>,
    annualIncome: Option<int>,
    state: Option<string>,
    isBpl: Option<bool>,
    isMinority: Option<bool>)

  /**
   * A scheme: its identity, its deadline text and its eligibility constraints.
   * A null list and an empty list both leave their criterion out; the two flags
   * may be null in the database, which counts as false.
   */
  datatype Scheme = Scheme(
    id: string,
    name: string,
    applicationDeadline: Option<string>,
    minAge: Option<int>,
    maxAge: Option<int>,
    genders: Option<seq<GenderType>>,
    categories: Option<seq<CategoryType>>,
    occupations: Option<seq<OccupationType>>,
    educationLevels: Option<seq<EducationType>>,
    disabilities: Option<seq<DisabilityType>>,
    maxIncome: Option<int>,
    states: Option<seq<string>>,
    bplOnly: Option<bool>,
    minorityOnly: Option<bool>)

  /** The ten criteria, in the order the engine checks them. */
  datatype Criterion = Age | Gender | Category | Occupation | Education | Disability | Income | State | Bpl | Minority

  /** An affirming sentence, by its content rather than its wording. */
  datatype Reason =
    | AgeWithinRange(age: int, minAge: int, maxAge: int)
    | GenderEligible(gender: GenderType)
    | CategoryEligible(category: CategoryType)
    | OccupationEligible(occupation: OccupationType)
    | EducationEligible(education: EducationType)
    | DisabilityQualifies
    | IncomeWithinLimit(income: int, maxIncome: int)
    | StateEligible(state: string)
    | BplQualifies
    | MinorityQualifies
  {
    /** The criterion this sentence affirms. */
    function Criterion(): Criterion {
      match this
      case AgeWithinRange(_, _, _) => Age
      case GenderEligible(_) => Gender
      case CategoryEligible(_) => Category
      case OccupationEligible(_) => Occupation
      case EducationEligible(_) => Education
      case DisabilityQualifies => Disability
      case IncomeWithinLimit(_, _) => Income
      case StateEligible(_) => State
      case BplQualifies => Bpl
      case MinorityQualifies => Minority
    }
  }

  /** A sentence describing an unmet criterion: the value is absent, or it violates the constraint. */
  datatype Missing =
    | AgeOutOfRange(minAge: int, maxAge: int)
    | AgeRequired
    | GenderRestricted(allowedGenders: seq<GenderType>)
    | GenderRequired
    | CategoryRestricted(allowedCategories: seq<CategoryType>)
    | CategoryRequired
    | OccupationRestricted(allowedOccupations: seq<OccupationType>)
    | OccupationRequired
    | EducationRestricted(allowedLevels: seq<EducationType>)
    | EducationRequired
    | DisabilityRestricted(allowedDisabilities: seq<DisabilityType>)
    | DisabilityRequired
    | IncomeAboveLimit(limit: int)
    | IncomeRequired
    | StateRestricted(allowedStates: seq<string>)
    | StateRequired
    | BplOnly
    | MinorityOnly
  {
    /** The criterion this sentence reports as unmet. */
    function Criterion(): Criterion {
      match this
      case AgeOutOfRange(_, _) | AgeRequired => Age
      case GenderRestricted(_) | GenderRequired => Gender
      case CategoryRestricted(_) | CategoryRequired => Category
      case OccupationRestricted(_) | OccupationRequired => Occupation
      case EducationRestricted(_) | EducationRequired => Education
      case DisabilityRestricted(_) | DisabilityRequired => Disability
      case IncomeAboveLimit(_) | IncomeRequired => Income
      case StateRestricted(_) | StateRequired => State
      case BplOnly => Bpl
      case MinorityOnly => Minority
    }
  }

  datatype EligibilityResult = EligibilityResult(
    scheme: Scheme,
    isEligible: bool,
    confidenceScore: int,
    reasons: seq<Reason>,
    missingCriteria: seq<Missing>)
}
