# Visa eligibility scoring engine, modelled in Dafny

This project models the scoring engine of a visa-eligibility backend. The engine has four per-program
scorers (UK Global Talent, US EB-1/EB-2, Canada Express Entry and the Dubai Golden Visa), plus a second
administrator-side pipeline over the UK rubric. Every scorer does the same thing. It maps a free-text
profile to rubric keys, looks the keys up in an administrator-authored rubric, and combines the
looked-up points as a weighted sum. Besides the per-request scorer, `uk.ts` exports two functions that
nothing in the code calls: `calculateFinalScore`, a 25/30/25/20 aggregate followed by a multiplicative
adjustment pass, and `estimateSuccessProbability`, a success probability capped at 100.

Modules, one per source file, plus two shared ones:

- `JsSemantics` holds the JavaScript behaviour the scorers rely on:
  - ASCII `toLowerCase`
  - `replace(/\s+/g, '')`
  - `x || y` on numbers
  - `table[key] || fallback`
- `Factors` holds the `if (flag) score *= factor` adjustment pass. It is modelled as a fold over step
  factors and related to the product of those factors.
- `UKGlobalTalent`, `USEB1EB2`, `CanadaExpressEntry`, `DubaiGoldenVisa` and `AdminHelpers` model the
  five source files.

Each rubric is a record of `real` values. Its fields are named after the rubric keys: `'3-5Years'`
becomes `Years3To5` and `'2Items'` becomes `Items2`. Years and counts are `int`. An absent optional
boolean is modelled as `false`, and an absent optional number as `None`.

Two uses of `||` as a numeric fallback deserve a note:

- **Dubai.** The `||` fallbacks in `dubai.ts` are not inert:
  - `lookup || 0 * 0.5` is the lookup, not half of it.
  - `salary || 0 + position || 0` reads the position only when the salary lookup is 0.

  The scorer is modelled as written. The intended formula is defined next to it, and the difference
  is proved (see Findings).
- **US.** The `(a + b) || 0` fallbacks in `us.ts` never change a value. The model keeps them and
  proves them inert.

## Model

| member | source | states |
|---|---|---|
| JsSemantics.ToLowerCase | src/app/modules/admin/visa_scores/uk.ts:58 | lower-casing keeps the length and lower-cases each character in place |
| JsSemantics.ToLowerCaseCharacterizesCase | src/app/modules/admin/visa_scores/uk.ts:58 | lower-casing is idempotent; two inputs lower-case alike exactly when they are equal up to letter case |
| JsSemantics.RemoveWhitespace | src/app/modules/admin/visa_scores/dubai.ts:73 | a single character is kept exactly when it is not whitespace; the result is no longer than the input, contains no whitespace, and equals the input when it had none; with RemoveWhitespaceAppend this fixes the result for every input |
| JsSemantics.RemoveWhitespaceAppend | src/app/modules/admin/visa_scores/dubai.ts:73 | removing whitespace distributes over concatenation |
| JsSemantics.LowerWithoutWhitespaceIgnoresWhitespace | src/app/modules/admin/visa_scores/dubai.ts:72-73 | a run of whitespace inserted anywhere in the input does not change the normalised key |
| JsSemantics.OrZeroIsInert | src/app/modules/admin/visa_scores/us.ts:116 | a `\|\| 0` fallback never changes a number |
| Factors.ApplyInOrderIsProduct | src/app/modules/admin/visa_scores/uk.ts:135-158 | applying the `score *= f` steps in order multiplies the score by the product of the steps |
| Factors.ApplyInOrderReplaceOne | src/app/modules/admin/visa_scores/uk.ts:135-158 | turning one identity step into factor x multiplies the pass's result by x, wherever the step is |
| Factors.ProductBetween | src/app/modules/admin/admin.helpers.ts:82-105 | non-negative step factors squeezed elementwise between two sequences have their product squeezed between those sequences' products |
| Factors.ProductMonotone | src/app/modules/admin/admin.helpers.ts:82-105 | a product of non-negative factors does not decrease when every factor grows, and stays non-negative |
| UKGlobalTalent.MapEducation | src/app/modules/admin/visa_scores/uk.ts:50-59 | each level is returned exactly when the lower-cased input is its key; 'Other' for every other input |
| UKGlobalTalent.MapField | src/app/modules/admin/visa_scores/uk.ts:61-68 | 'stem' and 'economics' select their fields exactly; every other input is 'OtherFields' |
| UKGlobalTalent.MappersIgnoreCase | src/app/modules/admin/visa_scores/uk.ts:58-67 | inputs equal up to letter case map to the same education and field keys |
| UKGlobalTalent.ExperienceCategory | src/app/modules/admin/visa_scores/uk.ts:73-79 | 3-5Years exactly for at most 5 years (so below-minimum inputs land there too), 5-8Years exactly for 6..8, 8+Years exactly from 9 |
| UKGlobalTalent.ExperienceCategoryMonotone | src/app/modules/admin/visa_scores/uk.ts:73-79 | more years never give a lower bracket |
| UKGlobalTalent.AchievementCategory | src/app/modules/admin/visa_scores/uk.ts:107-113 | no bracket exactly below 2 achievements; 2Items exactly at 2, 3Items exactly at 3, 4PlusItems exactly from 4 |
| UKGlobalTalent.CalculateUKGlobalTalentScore | src/app/modules/admin/visa_scores/uk.ts:81-130 | education, experience and achievement sub-scores as 25/30/25 weighted sums of their lookups; the achievement bracket points apply only from 2 achievements; the final score is the sum |
| UKGlobalTalent.AchievementsBelowTwoAreImpactOnly | src/app/modules/admin/visa_scores/uk.ts:106-116 | with fewer than 2 achievements only the impact multiplier is scored |
| UKGlobalTalent.UnreadRubricEntries | src/app/modules/admin/visa_scores/uk.ts:87-93 | the ranking is fixed to OtherAccredited, so the Top100Global and Top500Global entries and both minimum requirements never change the result |
| UKGlobalTalent.ZeroRubricScoresZero | src/app/modules/admin/visa_scores/uk.ts:81-130 | an all-zero rubric scores every profile 0 |
| UKGlobalTalent.WorkedExample | src/app/modules/admin/visa_scores/uk.ts:81-130 | a PhD in STEM, in any letter case, with 9 senior years and 5 international achievements scores 30 + 33 + 17.5 = 80.5 |
| UKGlobalTalent.CalculateFinalScore | src/app/modules/admin/visa_scores/uk.ts:132-159 | the 25/30/25/20 aggregate times the product of the seven adjustment steps |
| UKGlobalTalent.FinalScoreWithoutAdjustments | src/app/modules/admin/visa_scores/uk.ts:132-159 | with no adjustment set the result is the plain weighted aggregate |
| UKGlobalTalent.ZeroBonusIsAbsent | src/app/modules/admin/visa_scores/uk.ts:141-146 | a bonus of 0 is falsy and behaves exactly like an absent bonus |
| UKGlobalTalent.EachFlagScalesByItsFactor | src/app/modules/admin/visa_scores/uk.ts:135-156 | setting any one boolean adjustment multiplies the final score by its fixed factor (1.1, 1.05, 0.9, 0.95, 0.9), whatever the other adjustments are |
| UKGlobalTalent.EstimateSuccessProbability | src/app/modules/admin/visa_scores/uk.ts:166-171 | never above 100; equal to the four-way product when that is at most 100, and 100 otherwise |
| USEB1EB2.MapUSEducation | src/app/modules/admin/visa_scores/us.ts:80-87 | 'phd' and 'masters' select their levels exactly; every other input is BachelorsExceptional |
| USEB1EB2.MapUSField | src/app/modules/admin/visa_scores/us.ts:89-96 | 'stem' and 'economics' select their fields exactly; every other input is ArtsCulture |
| USEB1EB2.MappersIgnoreCase | src/app/modules/admin/visa_scores/us.ts:86-95 | inputs equal up to letter case map to the same keys |
| USEB1EB2.USExperienceCategory | src/app/modules/admin/visa_scores/us.ts:101-107 | 5-7Years exactly for at most 7 years, 8-10Years exactly for 8..10, 10+Years exactly above 10 |
| USEB1EB2.USExperienceCategoryMonotone | src/app/modules/admin/visa_scores/us.ts:101-107 | more years never give a lower bracket |
| USEB1EB2.CalculateUSEB1EB2Score | src/app/modules/admin/visa_scores/us.ts:109-148 | despite the `\|\| 0` fallbacks, each sub-score is the plain 25/30/25 weighted sum of its lookups, and the final score is their sum |
| USEB1EB2.AchievementCountHasNoEffect | src/app/modules/admin/visa_scores/us.ts:125-137 | the achievement count, the per-count table and both minimum requirements never change the result |
| USEB1EB2.ZeroRubricScoresZero | src/app/modules/admin/visa_scores/us.ts:109-148 | an all-zero rubric scores every profile 0 |
| CanadaExpressEntry.MapCanadaEducation | src/app/modules/admin/visa_scores/canada.ts:57-68 | each level exactly for its keys (two spellings per diploma); every other input is OneTwoYearDiploma |
| CanadaExpressEntry.MapCanadaLanguage | src/app/modules/admin/visa_scores/canada.ts:70-79 | each CLB level exactly for its key, 'below clb6' exactly for BelowCLB6; every other input is CLB6 |
| CanadaExpressEntry.MappersIgnoreCase | src/app/modules/admin/visa_scores/canada.ts:67-78 | inputs equal up to letter case map to the same keys |
| CanadaExpressEntry.WorkExperienceCategory | src/app/modules/admin/visa_scores/canada.ts:84-91 | 1Year exactly for at most 1 year, 2-3Years exactly for 2..3, 4-5Years exactly for 4..5, 6+Years exactly from 6 |
| CanadaExpressEntry.ForeignExperienceCategory | src/app/modules/admin/visa_scores/canada.ts:96-101 | no bracket exactly below 1 foreign year; then [1,3), [3,5) and 5 and more |
| CanadaExpressEntry.ForeignExperienceBoundaries | src/app/modules/admin/visa_scores/canada.ts:96-101 | 0 foreign years give no bonus; 1, 3 and 5 years each open a new bracket |
| CanadaExpressEntry.CalculateCanadaExpressEntryScore | src/app/modules/admin/visa_scores/canada.ts:113-146 | education is always 25% of its lookup; below CLB6 the language, work and final scores are 0; otherwise 25/25/50 with the foreign bonus added to the work lookup |
| CanadaExpressEntry.BelowCLB6IsIneligible | src/app/modules/admin/visa_scores/canada.ts:120-124 | 'below clb6' in any letter case scores education only, and the experience and the language and work tables have no effect |
| CanadaExpressEntry.WeightsSumToOne | src/app/modules/admin/visa_scores/canada.ts:113-146 | with one common lookup value v and no foreign bonus, an eligible candidate scores exactly v |
| CanadaExpressEntry.ZeroRubricScoresZero | src/app/modules/admin/visa_scores/canada.ts:113-146 | an all-zero rubric scores every profile 0 |
| DubaiGoldenVisa.MapDubaiFinancial | src/app/modules/admin/visa_scores/dubai.ts:39-49 | each category exactly for its lower-cased key; every other input is PropertyInvestment1To2M |
| DubaiGoldenVisa.MapDubaiSalary | src/app/modules/admin/visa_scores/dubai.ts:54-61 | always a salary key; Salary30KPlus and Salary20To30K exactly for their keys, Salary15To20K otherwise |
| DubaiGoldenVisa.MapDubaiPosition | src/app/modules/admin/visa_scores/dubai.ts:66-75 | always a position key, chosen by the lower-cased input with all whitespace removed; PositionDepartmentHead otherwise |
| DubaiGoldenVisa.PositionMapperIgnoresCase | src/app/modules/admin/visa_scores/dubai.ts:73 | inputs equal up to letter case map to the same position |
| DubaiGoldenVisa.PositionMapperIgnoresWhitespace | src/app/modules/admin/visa_scores/dubai.ts:72-74 | whitespace inserted anywhere in the position input does not change the position |
| DubaiGoldenVisa.SpacedFinancialKeyFallsBack | src/app/modules/admin/visa_scores/dubai.ts:48 | the financial mapper keeps spaces, so a spaced-out key, in any letter case, falls back to the default |
| DubaiGoldenVisa.FinancialScore | src/app/modules/admin/visa_scores/dubai.ts:83 | `lookup \|\| 0 * 0.5` is the full lookup, not half of it |
| DubaiGoldenVisa.ProfessionalBase | src/app/modules/admin/visa_scores/dubai.ts:88-89 | the salary lookup when it is nonzero, otherwise the position lookup |
| DubaiGoldenVisa.CalculateDubaiGoldenVisaScore | src/app/modules/admin/visa_scores/dubai.ts:77-100 | financial is the full financial lookup; professional is half of the salary lookup, or of the position lookup when the salary lookup is 0; the final score is the sum |
| DubaiGoldenVisa.PositionIgnoredWhenSalaryScores | src/app/modules/admin/visa_scores/dubai.ts:88-89 | when the salary lookup is nonzero, the position input has no effect on the result |
| DubaiGoldenVisa.ZeroRubricScoresZero | src/app/modules/admin/visa_scores/dubai.ts:77-100 | an all-zero rubric scores every profile 0 |
| DubaiGoldenVisa.IntendedDubaiScore | src/app/modules/admin/visa_scores/dubai.ts:81-93 | the evidently intended formula: half the financial lookup plus half the sum of the salary and position lookups |
| DubaiGoldenVisa.AsWrittenVersusIntended | src/app/modules/admin/visa_scores/dubai.ts:83-90 | the code exceeds the intended score by half the financial lookup, less half the position lookup when the salary lookup is nonzero; each part agrees exactly when the corresponding lookup is 0 |
| DubaiGoldenVisa.PrecedenceCounterexample | src/app/modules/admin/visa_scores/dubai.ts:83-93 | the public-investment-over-10M, salary-over-30K and CEO/MD keys, in any letter case, looked up as 100, 100 and 60, give 150 as written and 130 as intended |
| AdminHelpers.CalculateEducationScore | src/app/modules/admin/admin.helpers.ts:10-24 | level score times field multiplier, scaled by 1 + the ranking entry for a top-100 or top-500 institution and left unscaled otherwise |
| AdminHelpers.RankingBonusNeverLowers | src/app/modules/admin/admin.helpers.ts:18-22 | with non-negative entries, a ranked institution never scores below an unranked one |
| AdminHelpers.AdminExperienceBracket | src/app/modules/admin/admin.helpers.ts:33-39 | 8+Years exactly from 8, 5-8Years exactly for 5..7, 3-5Years exactly for 3..4; no bracket below 3 |
| AdminHelpers.CalculateExperienceScore | src/app/modules/admin/admin.helpers.ts:27-42 | the bracket points times the position multiplier; 0 below 3 years |
| AdminHelpers.BracketsAgreeExceptAtBoundaries | src/app/modules/admin/admin.helpers.ts:33-39 | this pipeline and uk.ts's `getExperienceCategory` choose the same bracket exactly for 3 or more years other than 5 and 8 |
| AdminHelpers.CalculateAchievementsScore | src/app/modules/admin/admin.helpers.ts:45-60 | the bracket points for exactly 2, exactly 3, or 4 and more achievements times the impact multiplier; 0 below 2 |
| AdminHelpers.AchievementsScoreMonotone | src/app/modules/admin/admin.helpers.ts:44-59 | when the 2, 3 and 4-plus bracket points are non-negative and increasing and the impact multiplier is non-negative, more achievements never score less |
| AdminHelpers.CalculateProgramCriteriaScore | src/app/modules/admin/admin.helpers.ts:63-65 | the program-criteria score passes through unchanged |
| AdminHelpers.ApplyAdjustments | src/app/modules/admin/admin.helpers.ts:68-108 | the base times the product of the seven adjustment steps, applied in order |
| AdminHelpers.NoAdjustmentsIsIdentity | src/app/modules/admin/admin.helpers.ts:68-108 | with every flag unset and the proficiency bonus absent or 0, the base is returned unchanged |
| AdminHelpers.ZeroProficiencyIsAbsent | src/app/modules/admin/admin.helpers.ts:89-91 | a proficiency bonus of 0 is falsy and behaves exactly like an absent one, whatever the other adjustments are |
| AdminHelpers.AdjustmentBounds | src/app/modules/admin/admin.helpers.ts:73-105 | with the proficiency bonus absent, 0, or within 5..15, a non-negative base ends between 0.7695 and 1.3946625 times itself |
| AdminHelpers.AdjustmentsKeepSign | src/app/modules/admin/admin.helpers.ts:68-108 | with the proficiency bonus absent, 0, or within 5..15, a positive, zero or negative base keeps its sign |
| AdminHelpers.AgreesWithUKFinalScore | src/app/modules/admin/admin.helpers.ts:68-108 | on the same aggregate, this adjustment pass equals uk.ts's `calculateFinalScore` with a 5% regional bonus standing for the regional-priority flag |
| AdminHelpers.CalculateBaseScore | src/app/modules/admin/admin.helpers.ts:111-118 | the same 25/30/25/20 aggregate uk.ts's `calculateFinalScore` starts from |
| AdminHelpers.BaseScoreIsAnAverage | src/app/modules/admin/admin.helpers.ts:111-118 | the weights sum to 1: the base lies within any common bounds of the four sub-scores, and equal sub-scores give that score back |
| AdminHelpers.CappedAgreesBelowHundred | src/app/modules/admin/admin.helpers.ts:121-128 | the uncapped product equals uk.ts's capped `estimateSuccessProbability` whenever it is at most 100, and the capped one is 100 above that |
| AdminHelpers.SuccessProbabilityIsNonNegative | src/app/modules/admin/admin.helpers.ts:121-128 | a non-negative base and non-negative difficulty, historical-success and acceptance rates give a non-negative probability |
| AdminHelpers.ProbabilityIsNotCapped | src/app/modules/admin/admin.helpers.ts:121-176 | the pipeline's result is not capped: with no adjustments and unit rates, an aggregate above 100 is returned unchanged, where uk.ts's `estimateSuccessProbability` gives 100 |
| AdminHelpers.AdjustedProbability | src/app/modules/admin/admin.helpers.ts:166-175 | the adjusted aggregate times the three rates is the aggregate times the product of the steps times the rates |
| AdminHelpers.PlainPipelineIsTheAggregate | src/app/modules/admin/admin.helpers.ts:131-176 | with no adjustments and unit rates, the pipeline returns the plain aggregate of the sub-scores |
| AdminHelpers.UnreadRubricEntries | src/app/modules/admin/admin.helpers.ts:131-176 | the OtherAccredited ranking entry, the BusinessEconomics multiplier and both minimum requirements never change the result |
| AdminHelpers.FinalVisaScoreIsNonNegative | src/app/modules/admin/admin.helpers.ts:131-176 | non-negative rubric entries, program criteria and rates, with the proficiency bonus absent, 0, or within 5..15, give a non-negative result |
| AdminHelpers.ExperienceScoreIsNonNegative | src/app/modules/admin/admin.helpers.ts:26-41 | non-negative bracket points and position multiplier give a non-negative experience score, for every number of years |
| AdminHelpers.AchievementsScoreIsNonNegative | src/app/modules/admin/admin.helpers.ts:44-59 | non-negative bracket points and impact multiplier give a non-negative achievements score, for every count |

## Left out

- Everything around the engine is outside the model: HTTP handlers, the hosted database and storage, authentication, email, and the schema validation of rubrics (`validateVisaData`).
- Numbers are unbounded reals and integers. IEEE rounding, `NaN`, `Infinity` and `undefined` arithmetic are not modelled. An absent `programCriteria` in uk.ts's `calculateFinalScore`, which gives `NaN` in the code, is therefore not modelled.
- Years and achievement counts are integers. A fractional number of years, which the code accepts, is not modelled.
- `toLowerCase` and `\s` are modelled over ASCII only. Unicode case mapping and non-ASCII whitespace are left out.
- Table lookups treat only the table's own keys as present. Inherited object keys such as `constructor` are not modelled.
- The Canada rubric's `BelowCLB6: 'Ineligible'` entry is a constant string that the scorer never reads, so the rubric record has no field for it.
- Rubric keys given as typed values are modelled as enumerations. An out-of-range position or impact key from an untyped caller would give `undefined` in the code; that case is not modelled.
- AdminHelpers.CalculateFinalVisaScore: no contract of its own. What it computes is stated by AdminHelpers.AdjustedProbability together with the lemmas listed above.
- AdminHelpers.CalculateSuccessProbability: no contract of its own. It is the plain four-way product. AdminHelpers.CappedAgreesBelowHundred relates it to the capped estimate, and AdminHelpers.SuccessProbabilityIsNonNegative bounds it below.

## Findings

| source | as written | input that shows it | evidently intended | confidence | as-written member | corrected member |
|---|---|---|---|---|---|---|
| src/app/modules/admin/visa_scores/dubai.ts:83 | `lookup \|\| 0 * 0.5` parses as `lookup \|\| (0 * 0.5)`, so the financial score is the full lookup | financial lookup 100: financial score 100 instead of 50 | `(lookup \|\| 0) * 0.5`, half the financial lookup | high, not executed | DubaiGoldenVisa.PrecedenceCounterexample | DubaiGoldenVisa.IntendedDubaiScore |
| src/app/modules/admin/visa_scores/dubai.ts:88-89 | `salary \|\| 0 + position \|\| 0` parses as `salary \|\| (0 + position) \|\| 0`, so the position counts only when the salary lookup is 0 | salary 100, position 60: professional score 50 instead of 80 | half the sum of the salary and position lookups | high, not executed | DubaiGoldenVisa.PositionIgnoredWhenSalaryScores | DubaiGoldenVisa.IntendedDubaiScore |
