# Scheme eligibility engine — a Dafny model

This project models the eligibility engine of a government-welfare-scheme
finder. The engine takes a citizen profile and one scheme. It checks up to
ten criteria in a fixed order: age, gender, category, occupation,
education, disability, income, state, below-poverty-line (BPL) status and
minority status. For each criterion the scheme defines, it records either
an affirming sentence (a *reason*) or a gap (a *missing criterion*). It
then computes a confidence score and an eligibility verdict. Two small
helpers classify a scheme's application deadline by how many days are
left.

The files:

- `wrappers.dfy`: the `Option` type.
- `database.dfy`: the closed vocabularies (gender, category, occupation,
  education, disability), the profile, the scheme, and the result
  (src/types/database.ts:1-5, 8-50, 72-78). Each explanation sentence is
  modelled by its content, as a `Reason` or `Missing` value, not by its
  wording. Every profile field is optional, because the engine accepts a
  partial profile.
- `eligibility_engine.dfy`: `CalculateEligibility` is the imperative
  procedure. Its ten guarded blocks update four locals: the two lists and
  the two counters. Each block is a step method proved against one
  criterion's outcome function. The method as a whole is proved equal to
  `Evaluation`, the specification function: the checks' outcomes folded in checking
  order, then scored and judged.
- `eligibility_properties.dfy`: what the result means, independently of
  the fold.
  - which criteria are reported, and in which list;
  - the order of both lists;
  - the score as a function of two counts;
  - monotonicity when a criterion is added;
  - the edge cases of individual criteria;
  - two worked cases: a profile meeting all four criteria of a scheme, and the same
    scheme restricted to families below the poverty line.
- `expiry.dfy`: the day count until a deadline and its urgency tier.

## Model

| member | source | states |
|---|---|---|
| EligibilityEngine.CalculateEligibility | src/lib/eligibility-engine.ts:3-163 | The procedure's result equals the specification function `Evaluation`. It returns the scheme unchanged. It lists exactly one sentence per criterion the scheme defines (`ActiveCount`, counted field by field). The score lies in 0..100. The verdict holds exactly when nothing is missing. |
| EligibilityEngine.AgeStep | src/lib/eligibility-engine.ts:9-24 | The age block adds exactly the age check's outcome to the tally. It is skipped when both bounds are null. An absent age is a gap. Otherwise the bounds default to 0 and 150 and are inclusive. |
| EligibilityEngine.GenderStep | src/lib/eligibility-engine.ts:26-39 | The gender block adds exactly the gender check's outcome. It applies only for a non-empty list. An absent gender is a gap. Otherwise membership decides. |
| EligibilityEngine.CategoryStep | src/lib/eligibility-engine.ts:41-54 | The same, for the category list. |
| EligibilityEngine.OccupationStep | src/lib/eligibility-engine.ts:56-69 | The same, for the occupation list. |
| EligibilityEngine.EducationStep | src/lib/eligibility-engine.ts:71-84 | The same, for the education list. |
| EligibilityEngine.DisabilityStep | src/lib/eligibility-engine.ts:86-99 | The disability block adds exactly the disability check's outcome. An absent disability, or one of "none", is the "requires disability status" gap. |
| EligibilityEngine.IncomeStep | src/lib/eligibility-engine.ts:101-114 | The income block adds exactly the income check's outcome. It applies when a limit exists. An absent income is a gap. The limit is inclusive. |
| EligibilityEngine.StateStep | src/lib/eligibility-engine.ts:116-129 | The state block adds exactly the state check's outcome. An absent or empty state name is a gap. |
| EligibilityEngine.BplStep | src/lib/eligibility-engine.ts:131-140 | The BPL block applies only when the scheme's flag is true. Only a true profile flag meets it. |
| EligibilityEngine.MinorityStep | src/lib/eligibility-engine.ts:142-151 | The minority block applies only when the scheme's flag is true. Only a true profile flag meets it. |
| EligibilityEngine.CheckMeaning | src/lib/eligibility-engine.ts:9-151 | Each check is skipped iff the scheme does not define its criterion (`Active`). It is met iff the profile satisfies the criterion (`Satisfied`). The sentence it produces is about that criterion. |
| EligibilityEngine.TallyOf | src/lib/eligibility-engine.ts:4-151 | Over any sequence of outcomes, `matchScore` is the number of reasons. The reasons plus the gaps number `totalCriteria`, which never exceeds the number of checks. |
| EligibilityEngine.TotalIsActiveCount | src/lib/eligibility-engine.ts:9-151 | The engine's `totalCriteria` equals the number of criteria the scheme defines. |
| EligibilityEngine.RoundedPercent | src/lib/eligibility-engine.ts:153 | `Math.round(100 * matched / total)`: the nearest integer, with halves rounded up, lying in 0..100. |
| EligibilityEngine.Score | src/lib/eligibility-engine.ts:153 | The score is at most 100. It is exactly 100 when no criterion is counted. |
| EligibilityEngine.ScoreFull | src/lib/eligibility-engine.ts:153 | With fewer than 200 criteria, the score is 100 iff every counted criterion was met. |
| EligibilityEngine.EligibleIffNothingMissing | src/lib/eligibility-engine.ts:154 | The verdict holds iff the gap list is empty, and iff the score is 100. So the `>= 50` clause never changes the verdict. |
| EligibilityProperties.ReasonsListed | src/lib/eligibility-engine.ts:9-151 | A sentence is among the reasons iff its criterion's check was met with exactly that sentence. The reasons are strictly in checking order, so no criterion appears twice. |
| EligibilityProperties.GapsListed | src/lib/eligibility-engine.ts:9-151 | A gap is among the missing criteria iff its criterion's check was unmet with exactly that gap. The gaps are strictly in checking order, so no criterion appears twice. |
| EligibilityProperties.CriterionReported | src/lib/eligibility-engine.ts:9-151 | A criterion has a reason iff the scheme defines it and the profile satisfies it. It has a gap iff the scheme defines it and the profile does not. |
| EligibilityProperties.ScoreByCounts | src/lib/eligibility-engine.ts:153-154 | The score is `Score(met, defined)`, with both counts taken over the criteria. The verdict holds iff the two counts are equal. |
| EligibilityProperties.ScoreFormula | src/lib/eligibility-engine.ts:153 | One reason per satisfied criterion, and one entry per defined criterion. The score is `(200·met + defined) div (2·defined)`, or 100 when the scheme defines nothing. |
| EligibilityProperties.NoCriteria | src/lib/eligibility-engine.ts:153-154 | A scheme that defines no criterion gives empty lists, a score of 100, and eligible. |
| EligibilityProperties.ScoreGrowsWithMet | src/lib/eligibility-engine.ts:153 | One more met criterion never lowers the score. |
| EligibilityProperties.ScoreShrinksWithUnmet | src/lib/eligibility-engine.ts:153 | One more unmet criterion never raises the score. |
| EligibilityProperties.AddSatisfiedCriterion | src/lib/eligibility-engine.ts:9-154 | Suppose the scheme gains one criterion the profile satisfies, and every other criterion is unchanged. Then the score never drops and the verdict is kept. |
| EligibilityProperties.AddUnsatisfiedCriterion | src/lib/eligibility-engine.ts:9-154 | Suppose the scheme gains one criterion the profile fails, and every other criterion is unchanged. Then the score never rises and the profile is ineligible. |
| EligibilityProperties.AgeCriterion | src/lib/eligibility-engine.ts:9-24 | "Age required" is a gap iff the scheme has an age bound and the age is absent. Otherwise, with the bounds defaulting to 0 and 150, the in-range sentence or the out-of-range gap appears exactly as the inclusive range test says. |
| EligibilityProperties.IncomeCriterion | src/lib/eligibility-engine.ts:101-114 | Under an income limit, "income required" is a gap iff the income is absent. Otherwise the within-limit sentence appears iff income <= limit, and the above-limit gap iff income > limit. |
| EligibilityProperties.DisabilityNoneNeverQualifies | src/lib/eligibility-engine.ts:86-99 | A disability that is absent or "none" never qualifies, even when the scheme lists "none". It is a gap whenever the scheme lists any disability. |
| EligibilityProperties.EmptyStateNeverQualifies | src/lib/eligibility-engine.ts:116-129 | A state name that is absent or empty never qualifies. It is a gap whenever the scheme lists states. |
| EligibilityProperties.FlagCriteria | src/lib/eligibility-engine.ts:131-151 | The BPL sentence appears iff both flags are true. The BPL gap appears iff the scheme's flag is true and the profile's is not (false or absent). The same holds for minority status. |
| EligibilityProperties.OneUnmetFlag | src/lib/eligibility-engine.ts:131-154 | Suppose exactly one defined criterion fails and it is the BPL one. Then the gap list is exactly that gap and the profile is ineligible, whatever the score. |
| EligibilityProperties.SampleFullMatch | src/lib/eligibility-engine.ts:3-163 | A 22-year-old woman in Kerala earning 150000 is checked against an 18–35, women-only, Kerala or Tamil Nadu scheme with a 200000 limit. All four criteria are met: score 100, eligible, nothing missing. |
| EligibilityProperties.SamplePartialMatch | src/lib/eligibility-engine.ts:3-163 | The same scheme restricted to BPL families: score 80, the single BPL gap, not eligible. |
| Expiry.CeilDays | src/lib/eligibility-engine.ts:170 | `Math.ceil(diff / 86400000)`: the least whole number of days whose span covers the difference. |
| Expiry.DaysUntilExpiry | src/lib/eligibility-engine.ts:165-172 | The result is null iff the deadline is null or empty. It is NaN iff the date text does not parse. Otherwise it is the time left rounded up to whole days. |
| Expiry.ExpiryStatus | src/lib/eligibility-engine.ts:174-180 | The tier is no-deadline iff null; expired iff below 0; urgent for 0..3; warning for 4..7; safe above 7, and also for NaN. |
| Expiry.TierBoundaries | src/lib/eligibility-engine.ts:174-180 | Day 3 is urgent, day 4 a warning, day 7 a warning, day 8 safe, day -1 expired, null no-deadline, NaN safe. |
| Expiry.TierMonotone | src/lib/eligibility-engine.ts:174-180 | More days left never moves the tier backwards along expired, urgent, warning, safe. |
| Expiry.CeilDaysMonotone | src/lib/eligibility-engine.ts:170 | A later deadline never has fewer days left. |
| Expiry.WithinADay | src/lib/eligibility-engine.ts:170 | A deadline passed less than a day ago counts as 0 days. One up to a day ahead counts as 1. |
| Expiry.DeadlineTier | src/lib/eligibility-engine.ts:165-180 | By the milliseconds left: expired once a whole day has passed; urgent up to 3 days ahead; a warning up to 7; safe beyond that, and safe for unparseable text. |

## Left out

- Message wording is not modelled. This covers interpolation, `toUpperCase`, `replace('_', ' ')`, `join`, and `toLocaleString` number formatting. Each sentence is a datatype value carrying the data it would print.
- Floating point is not modelled. Ages, incomes and limits are whole numbers. The score uses exact rational arithmetic. For at most ten criteria, this agrees with `Math.round((m / t) * 100)`: the only half-way cases are eighths, and those are exact in binary.
- The date parser (`new Date(text)`) and the clock (`new Date()`) are parameters of `Expiry.DaysUntilExpiry`. They are a parse function returning a millisecond timestamp, or nothing for invalid text, and the current time in milliseconds.
- A `null` annual income is not modelled: an income is either present (`Some`) or undefined (`None`). The callers pass database rows unchanged (src/pages/Dashboard.tsx:61, src/pages/SchemeDetails.tsx:77), and the row type allows `annual_income: number | null` (src/integrations/supabase/types.ts:61). A `null` passes the `!== undefined` test (src/lib/eligibility-engine.ts:104) and compares as 0. So when `max_income >= 0` the engine takes the within-limit branch and `toLocaleString` on `null` throws. When `max_income < 0` it records the above-limit gap.
- Profile and scheme fields the engine never reads are left out: the profile's identifiers, name, district and timestamps, and the scheme's description, ministry, benefits, documents, URL, `is_active` and timestamps. The scheme keeps its id and name only so that the result can return the scheme. Its `applicationDeadline` is what the callers pass to `getDaysUntilExpiry` (src/pages/SchemeDetails.tsx:75); `Expiry.DaysUntilExpiry` takes that value as its own argument. Also left out: the application and notification records of src/types/database.ts, the fetching of schemes, and the user interface.

## Behaviour worth knowing

- **Absent category.** The engine has no default for the category. An absent category under a category list produces the "category information required" gap (src/lib/eligibility-engine.ts:44-53). This is so even though the profile form pre-fills 'general' (src/pages/Profile.tsx:28, 186).
- **Rounding of the day count.** The day count is the ceiling of the millisecond difference (src/lib/eligibility-engine.ts:170). A deadline that passed within the last 24 hours counts as 0 days: urgent, not expired. One up to 24 hours ahead counts as 1 (`Expiry.WithinADay`). The function that fetches schemes asks for date-only deadlines (supabase/functions/fetch-schemes/index.ts:41, 63) and stores the returned value unchanged (line 134). The date parser reads a date-only deadline as midnight UTC at the start of that date. Such a deadline counts as 1 day during the 24 hours before that instant, and as 0 days (urgent) during the 24 hours after it. In Indian Standard Time (UTC+5:30) that instant is 05:30 on the deadline date.
- **Malformed deadlines.** Deadline text that does not parse makes the day count NaN. The status function classifies NaN as "safe", because every comparison with it fails (`Expiry.DeadlineTier`).
