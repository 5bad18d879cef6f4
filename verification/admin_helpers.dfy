/**
 The administrator-side scoring pipeline over a UK Global Talent rubric.
 It is a separate composition of the same rubric tables: here the field
 multiplier and the position and impact multipliers really multiply, the
 institution ranking adds a percentage bonus, the experience brackets have
 their own boundaries, and the adjusted aggregate is multiplied by three
 success factors without a cap.
 */
module AdminHelpers {
  import opened JsSemantics
  import opened Factors
  import UK = UKGlobalTalent

  /** The fields this pipeline accepts: the rubric's fields without
      'BusinessEconomics'. */
  type AdminField = f: UK.Field | f != UK.BusinessEconomics witness UK.STEMDigitalArts

  // ---------------------------------------------------------------------
  // 1. Education
  // ---------------------------------------------------------------------

  /** Level score times field multiplier; a top-100 or top-500 institution
      then scales the result by 1 + its ranking entry, any other institution
      leaves it as it is. */
  function CalculateEducationScore(education: UK.EducationCriteria, level: UK.EducationLevel,
                                   field: AdminField, ranking: UK.InstitutionRanking): (score: real)
    ensures var plain := education.scoring.At(level) * education.fieldMultipliers.At(field);
      && (ranking == UK.Top100Global ==> score == plain * (1.0 + education.institutionRankings.Top100Global))
      && (ranking == UK.Top500Global ==> score == plain * (1.0 + education.institutionRankings.Top500Global))
      && (ranking == UK.OtherAccredited ==> score == plain)
  {
    var score := education.scoring.At(level) * education.fieldMultipliers.At(field);
    if ranking == UK.Top100Global then score * (1.0 + education.institutionRankings.Top100Global)
    else if ranking == UK.Top500Global then score * (1.0 + education.institutionRankings.Top500Global)
    else score
  }

  /** With a non-negative level score, field multiplier and ranking bonus, a
      ranked institution never scores below an unranked one. */
  lemma RankingBonusNeverLowers(education: UK.EducationCriteria, level: UK.EducationLevel,
                                field: AdminField, ranking: UK.InstitutionRanking)
    requires education.scoring.At(level) >= 0.0 && education.fieldMultipliers.At(field) >= 0.0
    requires education.institutionRankings.Top100Global >= 0.0
    requires education.institutionRankings.Top500Global >= 0.0
    ensures CalculateEducationScore(education, level, field, ranking)
         >= CalculateEducationScore(education, level, field, UK.OtherAccredited)
  {
    var plain := education.scoring.At(level) * education.fieldMultipliers.At(field);
    assert plain >= 0.0;
  }

  // ---------------------------------------------------------------------
  // 2. Experience
  // ---------------------------------------------------------------------

  /** This pipeline's own brackets: 8 years and more, 5..7, 3..4; fewer than
      3 years have no bracket. */
  function AdminExperienceBracket(years: int): (bracket: Option<UK.ExperienceBracket>)
    ensures bracket == Some(UK.Years8Plus) <==> years >= 8
    ensures bracket == Some(UK.Years5To8) <==> 5 <= years < 8
    ensures bracket == Some(UK.Years3To5) <==> 3 <= years < 5
    ensures bracket == None <==> years < 3
  {
    if years >= 8 then Some(UK.Years8Plus)
    else if years >= 5 then Some(UK.Years5To8)
    else if years >= 3 then Some(UK.Years3To5)
    else None
  }

  /** The bracket points times the position multiplier; no bracket is 0
      points. */
  function CalculateExperienceScore(experience: UK.ExperienceCriteria, years: int,
                                    position: UK.PositionLevel): (score: real)
    ensures var m := experience.positionMultipliers.At(position);
      var points := experience.experiencePoints;
      && (years >= 8 ==> score == points.Years8Plus * m)
      && (5 <= years < 8 ==> score == points.Years5To8 * m)
      && (3 <= years < 5 ==> score == points.Years3To5 * m)
      && (years < 3 ==> score == 0.0)
  {
    var points := match AdminExperienceBracket(years)
      case None => 0.0
      case Some(bracket) => experience.experiencePoints.At(bracket);
    points * experience.positionMultipliers.At(position)
  }

  /** This pipeline and the UK scorer's `getExperienceCategory` put a number
      of years in the same bracket exactly when it is at least 3 and neither
      5 nor 8: at 5 and 8 this pipeline already moves up, and below 3 it has
      no bracket. */
  lemma BracketsAgreeExceptAtBoundaries(years: int)
    ensures AdminExperienceBracket(years) == Some(UK.ExperienceCategory(years))
        <==> years >= 3 && years != 5 && years != 8
  {
  }

  // ---------------------------------------------------------------------
  // 3. Achievements
  // ---------------------------------------------------------------------

  /** The bracket points for exactly 2, exactly 3, or 4 and more
      achievements, times the impact multiplier; fewer than 2 score 0. */
  function CalculateAchievementsScore(achievements: UK.AchievementCriteria, count: int,
                                      impact: UK.ImpactLevel): (score: real)
    ensures var m := achievements.impactMultipliers.At(impact);
      var scoring := achievements.scoring;
      && (count < 2 ==> score == 0.0)
      && (count == 2 ==> score == scoring.Items2 * m)
      && (count == 3 ==> score == scoring.Items3 * m)
      && (count >= 4 ==> score == scoring.Items4Plus * m)
  {
    UK.AchievementPoints(achievements.scoring, count) * achievements.impactMultipliers.At(impact)
  }

  /** With bracket points that grow with the bracket and a non-negative
      impact multiplier, more achievements never score less. */
  lemma AchievementsScoreMonotone(achievements: UK.AchievementCriteria, count: int, more: int,
                                  impact: UK.ImpactLevel)
    requires 0.0 <= achievements.scoring.Items2 <= achievements.scoring.Items3 <= achievements.scoring.Items4Plus
    requires achievements.impactMultipliers.At(impact) >= 0.0
    requires count <= more
    ensures CalculateAchievementsScore(achievements, count, impact)
         <= CalculateAchievementsScore(achievements, more, impact)
  {
    ScaleRight(UK.AchievementPoints(achievements.scoring, count), UK.AchievementPoints(achievements.scoring, more),
               achievements.impactMultipliers.At(impact));
  }

  // ---------------------------------------------------------------------
  // 4. Program criteria
  // ---------------------------------------------------------------------

  /** The program-criteria score is passed through unchanged. */
  function CalculateProgramCriteriaScore(programCriteria: real): (score: real)
    ensures score == programCriteria
  {
    programCriteria
  }

  // ---------------------------------------------------------------------
  // 5. Adjustments
  // ---------------------------------------------------------------------

  /** Absent flags are modelled as `false`, an absent proficiency as `None`. */
  datatype PositiveAdjustments = PositiveAdjustments(
    inDemandSkills: bool,
    multipleQualifications: bool,
    languageProficiency: Option<real>,
    regionalPriority: bool)

  datatype NegativeAdjustments = NegativeAdjustments(
    incompleteDocumentation: bool,
    employmentGaps: bool,
    nonRelevantExperience: bool)

  const NoPositiveAdjustments := PositiveAdjustments(false, false, None, false)
  const NoNegativeAdjustments := NegativeAdjustments(false, false, false)

  /** The adjustment steps in the order they are applied. */
  function AdminSteps(positive: PositiveAdjustments, negative: NegativeAdjustments): (steps: seq<real>)
    ensures |steps| == 7
  {
    [ FlagFactor(positive.inDemandSkills, 1.1),
      FlagFactor(positive.multipleQualifications, 1.05),
      BonusFactor(positive.languageProficiency),
      FlagFactor(positive.regionalPriority, 1.05),
      FlagFactor(negative.incompleteDocumentation, 0.9),
      FlagFactor(negative.employmentGaps, 0.95),
      FlagFactor(negative.nonRelevantExperience, 0.9) ]
  }

  /** `if (flag) score *= factor` for each adjustment in turn: the base
      times the product of the steps. */
  function ApplyAdjustments(base: real, positive: PositiveAdjustments, negative: NegativeAdjustments): (score: real)
    ensures score == base * Product(AdminSteps(positive, negative))
  {
    ApplyInOrderIsProduct(base, AdminSteps(positive, negative));
    ApplyInOrder(base, AdminSteps(positive, negative))
  }

  /** Without adjustments the base is returned unchanged; a proficiency
      bonus of 0 counts as no adjustment. */
  lemma NoAdjustmentsIsIdentity(base: real)
    ensures ApplyAdjustments(base, NoPositiveAdjustments, NoNegativeAdjustments) == base
    ensures ApplyAdjustments(base, NoPositiveAdjustments.(languageProficiency := Some(0.0)), NoNegativeAdjustments)
         == base
  {
    var zero := NoPositiveAdjustments.(languageProficiency := Some(0.0));
    calc {
      ApplyAdjustments(base, NoPositiveAdjustments, NoNegativeAdjustments);
    ==
      base * Product(AdminSteps(NoPositiveAdjustments, NoNegativeAdjustments));
    == { ProductOfOnes(AdminSteps(NoPositiveAdjustments, NoNegativeAdjustments)); }
      base;
    }
    calc {
      ApplyAdjustments(base, zero, NoNegativeAdjustments);
    ==
      base * Product(AdminSteps(zero, NoNegativeAdjustments));
    == { ProductOfOnes(AdminSteps(zero, NoNegativeAdjustments)); }
      base;
    }
  }

  /** A proficiency bonus of 0 is falsy and behaves exactly like an absent
      one, whatever the other adjustments are. */
  lemma ZeroProficiencyIsAbsent(base: real, positive: PositiveAdjustments, negative: NegativeAdjustments)
    ensures ApplyAdjustments(base, positive.(languageProficiency := Some(0.0)), negative)
         == ApplyAdjustments(base, positive.(languageProficiency := None), negative)
  {
  }

  /** A proficiency bonus that is absent, 0, or in the documented 5..15
      range. */
  predicate ProficiencyInRange(positive: PositiveAdjustments) {
    || positive.languageProficiency.None?
    || positive.languageProficiency.value == 0.0
    || 5.0 <= positive.languageProficiency.value <= 15.0
  }

  /** With the proficiency bonus absent, 0, or between 5 and 15, the
      adjustments keep a non-negative base between 0.9 * 0.95 * 0.9 of it
      (all three penalties) and 1.1 * 1.05 * 1.15 * 1.05 of it (every bonus
      at its largest). */
  lemma AdjustmentBounds(base: real, positive: PositiveAdjustments, negative: NegativeAdjustments)
    requires base >= 0.0
    requires ProficiencyInRange(positive)
    ensures base * 0.7695 <= ApplyAdjustments(base, positive, negative)
    ensures ApplyAdjustments(base, positive, negative) <= base * 1.3946625
  {
    var steps := AdminSteps(positive, negative);
    AdminStepProductBounds(positive, negative);
    ApplyInOrderBetween(base, steps, 0.7695, 1.3946625);
    assert ApplyAdjustments(base, positive, negative) == ApplyInOrder(base, steps);
  }

  lemma AdminStepProductBounds(positive: PositiveAdjustments, negative: NegativeAdjustments)
    requires ProficiencyInRange(positive)
    ensures 0.7695 <= Product(AdminSteps(positive, negative)) <= 1.3946625
  {
    AdminStepsInRange(positive, negative);
    StepProductBounds(AdminSteps(positive, negative));
  }

  lemma AdminStepsInRange(positive: PositiveAdjustments, negative: NegativeAdjustments)
    requires ProficiencyInRange(positive)
    ensures forall i :: 0 <= i < 7 ==> StepLow(i) <= AdminSteps(positive, negative)[i] <= StepHigh(i)
  {
  }

  /** The smallest and the largest value of each step when the proficiency
      bonus is absent, 0, or in range. */
  function StepLow(i: int): real {
    if i == 4 || i == 6 then 0.9 else if i == 5 then 0.95 else 1.0
  }

  function StepHigh(i: int): real {
    if i == 0 then 1.1 else if i == 1 || i == 3 then 1.05 else if i == 2 then 1.15 else 1.0
  }

  /** Seven steps within their ranges multiply to between 0.7695 and
      1.3946625. */
  lemma StepProductBounds(steps: seq<real>)
    requires |steps| == 7
    requires forall i :: 0 <= i < 7 ==> StepLow(i) <= steps[i] <= StepHigh(i)
    ensures 0.7695 <= Product(steps) <= 1.3946625
  {
    var lo := [1.0, 1.0, 1.0, 1.0, 0.9, 0.95, 0.9];
    var hi := [1.1, 1.05, 1.15, 1.05, 1.0, 1.0, 1.0];
    assert forall i :: 0 <= i < 7 ==> lo[i] == StepLow(i) && hi[i] == StepHigh(i);
    ProductBetween(lo, steps, hi);
    ProductOfLowest();
    ProductOfHighest();
  }

  lemma ProductOfLowest()
    ensures Product([1.0, 1.0, 1.0, 1.0, 0.9, 0.95, 0.9]) == 0.7695
  {
  }

  lemma ProductOfHighest()
    ensures Product([1.1, 1.05, 1.15, 1.05, 1.0, 1.0, 1.0]) == 1.3946625
  {
  }

  /** The adjustments never flip the sign of the score while the proficiency
      bonus is absent, 0, or in range: a positive base stays positive, a zero
      base stays zero and a negative base stays negative. */
  lemma AdjustmentsKeepSign(base: real, positive: PositiveAdjustments, negative: NegativeAdjustments)
    requires ProficiencyInRange(positive)
    ensures base > 0.0 ==> ApplyAdjustments(base, positive, negative) > 0.0
    ensures base == 0.0 ==> ApplyAdjustments(base, positive, negative) == 0.0
    ensures base < 0.0 ==> ApplyAdjustments(base, positive, negative) < 0.0
  {
    AdminStepsInRange(positive, negative);
    ApplyInOrderKeepsSign(base, AdminSteps(positive, negative));
  }

  /** The adjustment pass of this pipeline is the pass of the UK
      `calculateFinalScore`, with the boolean regional priority in the role
      of a 5% regional bonus: on the same aggregate the two give the same
      score. */
  lemma AgreesWithUKFinalScore(base: UK.BaseScores, positive: PositiveAdjustments, negative: NegativeAdjustments)
    ensures var adj := UK.Adjustments(
        positive.inDemandSkills, positive.multipleQualifications, positive.languageProficiency,
        if positive.regionalPriority then Some(5.0) else None,
        negative.incompleteDocumentation, negative.employmentGaps, negative.nonRelevantExperience);
      ApplyAdjustments(UK.WeightedAggregate(base), positive, negative) == UK.CalculateFinalScore(base, adj)
  {
    var adj := UK.Adjustments(
      positive.inDemandSkills, positive.multipleQualifications, positive.languageProficiency,
      if positive.regionalPriority then Some(5.0) else None,
      negative.incompleteDocumentation, negative.employmentGaps, negative.nonRelevantExperience);
    assert AdminSteps(positive, negative) == UK.AdjustmentSteps(adj);
  }

  // ---------------------------------------------------------------------
  // 6. Base score
  // ---------------------------------------------------------------------

  /** The 25/30/25/20 aggregate of the four sub-scores; it is the same
      aggregate the UK `calculateFinalScore` starts from. */
  function CalculateBaseScore(education: real, experience: real, achievements: real, programCriteria: real): (score: real)
    ensures score == UK.WeightedAggregate(UK.BaseScores(education, experience, achievements, programCriteria))
  {
    education * 0.25 + experience * 0.3 + achievements * 0.25 + programCriteria * 0.2
  }

  /** The weights sum to 1, so the base score is an average: it lies between
      any common bounds of the four sub-scores, and equal sub-scores give that
      score back. */
  lemma BaseScoreIsAnAverage(education: real, experience: real, achievements: real, programCriteria: real,
                             lo: real, hi: real)
    requires lo <= education <= hi && lo <= experience <= hi
    requires lo <= achievements <= hi && lo <= programCriteria <= hi
    ensures lo <= CalculateBaseScore(education, experience, achievements, programCriteria) <= hi
    ensures education == experience == achievements == programCriteria ==>
      CalculateBaseScore(education, experience, achievements, programCriteria) == education
  {
  }

  // ---------------------------------------------------------------------
  // 7. Success probability
  // ---------------------------------------------------------------------

  /** The four-way product, not capped. */
  function CalculateSuccessProbability(base: real, programDifficulty: real, historicalSuccessRate: real,
                                       currentAcceptanceRate: real): real
  {
    base * programDifficulty * historicalSuccessRate * currentAcceptanceRate
  }

  /** The UK `estimateSuccessProbability` caps the same product at 100:
      wherever this probability is at most 100 the two agree, and above 100
      the capped one is 100. */
  lemma CappedAgreesBelowHundred(base: real, programDifficulty: real, historicalSuccessRate: real,
                                 currentAcceptanceRate: real)
    ensures var p := CalculateSuccessProbability(base, programDifficulty, historicalSuccessRate, currentAcceptanceRate);
      var capped := UK.EstimateSuccessProbability(base,
        UK.SuccessFactors(programDifficulty, historicalSuccessRate, currentAcceptanceRate));
      && (p <= 100.0 ==> capped == p)
      && (p > 100.0 ==> capped == 100.0)
  {
  }


  /** Non-negative inputs give a non-negative probability. */
  lemma SuccessProbabilityIsNonNegative(base: real, programDifficulty: real, historicalSuccessRate: real,
                                        currentAcceptanceRate: real)
    requires base >= 0.0 && programDifficulty >= 0.0
    requires historicalSuccessRate >= 0.0 && currentAcceptanceRate >= 0.0
    ensures CalculateSuccessProbability(base, programDifficulty, historicalSuccessRate, currentAcceptanceRate) >= 0.0
  {
    ScaleRight(0.0, base, programDifficulty);
    ScaleRight(0.0, base * programDifficulty, historicalSuccessRate);
    ScaleRight(0.0, base * programDifficulty * historicalSuccessRate, currentAcceptanceRate);
  }

  // ---------------------------------------------------------------------
  // The whole pipeline
  // ---------------------------------------------------------------------

  /** A candidate profile as this pipeline receives it, already in rubric
      keys. */
  datatype Profile = Profile(
    level: UK.EducationLevel,
    field: AdminField,
    ranking: UK.InstitutionRanking,
    years: int,
    position: UK.PositionLevel,
    achievementCount: int,
    impact: UK.ImpactLevel,
    programCriteria: real)

  datatype SuccessRates = SuccessRates(programDifficulty: real, historicalSuccessRate: real, currentAcceptanceRate: real)

  /** The aggregate of the three rubric sub-scores and the program criteria,
      before adjustments. */
  function ProfileBase(visaData: UK.UKGlobalTalentVisa, profile: Profile): real {
    CalculateBaseScore(
      CalculateEducationScore(visaData.education, profile.level, profile.field, profile.ranking),
      CalculateExperienceScore(visaData.experience, profile.years, profile.position),
      CalculateAchievementsScore(visaData.achievements, profile.achievementCount, profile.impact),
      CalculateProgramCriteriaScore(profile.programCriteria))
  }

  /** Sub-scores, aggregate, adjustments, then the success factors. */
  function CalculateFinalVisaScore(visaData: UK.UKGlobalTalentVisa, profile: Profile,
                                   positive: PositiveAdjustments, negative: NegativeAdjustments,
                                   rates: SuccessRates): real
  {
    AdjustedProbability(ProfileBase(visaData, profile), positive, negative, rates)
  }

  /** The last two stages of the pipeline: the aggregate, adjusted, times the
      three rates; that is the aggregate times the product of the adjustment
      steps times the rates. */
  function AdjustedProbability(base: real, positive: PositiveAdjustments, negative: NegativeAdjustments,
                               rates: SuccessRates): (p: real)
    ensures p == base * Product(AdminSteps(positive, negative))
            * rates.programDifficulty * rates.historicalSuccessRate * rates.currentAcceptanceRate
  {
    var adjusted := ApplyAdjustments(base, positive, negative);
    ScaleByRates(adjusted, base * Product(AdminSteps(positive, negative)), rates);
    CalculateSuccessProbability(adjusted, rates.programDifficulty,
                                rates.historicalSuccessRate, rates.currentAcceptanceRate)
  }

  lemma ScaleByRates(adjusted: real, product: real, rates: SuccessRates)
    requires adjusted == product
    ensures CalculateSuccessProbability(adjusted, rates.programDifficulty, rates.historicalSuccessRate,
                                        rates.currentAcceptanceRate)
         == product * rates.programDifficulty * rates.historicalSuccessRate * rates.currentAcceptanceRate
  {
  }

  /** Without adjustments and with all three rates 1, the pipeline returns
      the plain aggregate. */
  lemma PlainPipelineIsTheAggregate(visaData: UK.UKGlobalTalentVisa, profile: Profile)
    ensures CalculateFinalVisaScore(visaData, profile, NoPositiveAdjustments, NoNegativeAdjustments,
                                    SuccessRates(1.0, 1.0, 1.0))
         == ProfileBase(visaData, profile)
  {
    NoAdjustmentsIsIdentity(ProfileBase(visaData, profile));
  }

  /** The pipeline's result is not capped: with no adjustments and unit
      rates an aggregate above 100 comes out unchanged, above 100, where
      the UK `estimateSuccessProbability` would give 100. */
  lemma ProbabilityIsNotCapped(visaData: UK.UKGlobalTalentVisa, profile: Profile)
    requires ProfileBase(visaData, profile) > 100.0
    ensures var p := CalculateFinalVisaScore(visaData, profile, NoPositiveAdjustments, NoNegativeAdjustments,
                                             SuccessRates(1.0, 1.0, 1.0));
      && p == ProfileBase(visaData, profile)
      && p > 100.0
      && UK.EstimateSuccessProbability(p, UK.SuccessFactors(1.0, 1.0, 1.0)) == 100.0
  {
    PlainPipelineIsTheAggregate(visaData, profile);
  }

  /** The rubric entries this pipeline never reads: the 'OtherAccredited'
      ranking entry, the 'BusinessEconomics' field multiplier and the two
      minimum requirements. */
  lemma UnreadRubricEntries(visaData: UK.UKGlobalTalentVisa, profile: Profile,
                            positive: PositiveAdjustments, negative: NegativeAdjustments, rates: SuccessRates,
                            otherAccredited: real, businessEconomics: real, minimumYears: real, required: real)
    ensures var other := visaData.(
        education := visaData.education.(
          institutionRankings := visaData.education.institutionRankings.(OtherAccredited := otherAccredited),
          fieldMultipliers := visaData.education.fieldMultipliers.(BusinessEconomics := businessEconomics)),
        experience := visaData.experience.(minimumYearsRequired := minimumYears),
        achievements := visaData.achievements.(required := required));
      CalculateFinalVisaScore(other, profile, positive, negative, rates)
        == CalculateFinalVisaScore(visaData, profile, positive, negative, rates)
  {
    var other := visaData.(
        education := visaData.education.(
          institutionRankings := visaData.education.institutionRankings.(OtherAccredited := otherAccredited),
          fieldMultipliers := visaData.education.fieldMultipliers.(BusinessEconomics := businessEconomics)),
        experience := visaData.experience.(minimumYearsRequired := minimumYears),
        achievements := visaData.achievements.(required := required));
    assert CalculateEducationScore(other.education, profile.level, profile.field, profile.ranking)
        == CalculateEducationScore(visaData.education, profile.level, profile.field, profile.ranking);
    assert CalculateExperienceScore(other.experience, profile.years, profile.position)
        == CalculateExperienceScore(visaData.experience, profile.years, profile.position);
    assert CalculateAchievementsScore(other.achievements, profile.achievementCount, profile.impact)
        == CalculateAchievementsScore(visaData.achievements, profile.achievementCount, profile.impact);
    assert ProfileBase(other, profile) == ProfileBase(visaData, profile);
  }

  /** A rubric with no negative entries, a non-negative program criteria
      score, a proficiency bonus in range and non-negative rates give a
      non-negative result. */
  lemma FinalVisaScoreIsNonNegative(visaData: UK.UKGlobalTalentVisa, profile: Profile,
                                    positive: PositiveAdjustments, negative: NegativeAdjustments,
                                    rates: SuccessRates)
    requires visaData.education.scoring.At(profile.level) >= 0.0
    requires visaData.education.fieldMultipliers.At(profile.field) >= 0.0
    requires visaData.education.institutionRankings.Top100Global >= 0.0
    requires visaData.education.institutionRankings.Top500Global >= 0.0
    requires visaData.experience.experiencePoints.Years3To5 >= 0.0
    requires visaData.experience.experiencePoints.Years5To8 >= 0.0
    requires visaData.experience.experiencePoints.Years8Plus >= 0.0
    requires visaData.experience.positionMultipliers.At(profile.position) >= 0.0
    requires visaData.achievements.scoring.Items2 >= 0.0
    requires visaData.achievements.scoring.Items3 >= 0.0
    requires visaData.achievements.scoring.Items4Plus >= 0.0
    requires visaData.achievements.impactMultipliers.At(profile.impact) >= 0.0
    requires profile.programCriteria >= 0.0
    requires ProficiencyInRange(positive)
    requires rates.programDifficulty >= 0.0 && rates.historicalSuccessRate >= 0.0
    requires rates.currentAcceptanceRate >= 0.0
    ensures CalculateFinalVisaScore(visaData, profile, positive, negative, rates) >= 0.0
  {
    var base := ProfileBase(visaData, profile);
    assert base >= 0.0 by { ProfileBaseIsNonNegative(visaData, profile); }
    AdjustmentsKeepSign(base, positive, negative);
    var adjusted := ApplyAdjustments(base, positive, negative);
    assert adjusted >= 0.0;
    var d, h, c := rates.programDifficulty, rates.historicalSuccessRate, rates.currentAcceptanceRate;
    SuccessProbabilityIsNonNegative(adjusted, d, h, c);
    calc {
      CalculateFinalVisaScore(visaData, profile, positive, negative, rates);
    ==
      AdjustedProbability(base, positive, negative, rates);
    ==
      CalculateSuccessProbability(adjusted, d, h, c);
    }
  }

  lemma ProfileBaseIsNonNegative(visaData: UK.UKGlobalTalentVisa, profile: Profile)
    requires visaData.education.scoring.At(profile.level) >= 0.0
    requires visaData.education.fieldMultipliers.At(profile.field) >= 0.0
    requires visaData.education.institutionRankings.Top100Global >= 0.0
    requires visaData.education.institutionRankings.Top500Global >= 0.0
    requires visaData.experience.experiencePoints.Years3To5 >= 0.0
    requires visaData.experience.experiencePoints.Years5To8 >= 0.0
    requires visaData.experience.experiencePoints.Years8Plus >= 0.0
    requires visaData.experience.positionMultipliers.At(profile.position) >= 0.0
    requires visaData.achievements.scoring.Items2 >= 0.0
    requires visaData.achievements.scoring.Items3 >= 0.0
    requires visaData.achievements.scoring.Items4Plus >= 0.0
    requires visaData.achievements.impactMultipliers.At(profile.impact) >= 0.0
    requires profile.programCriteria >= 0.0
    ensures ProfileBase(visaData, profile) >= 0.0
  {
    var e := visaData.education;
    RankingBonusNeverLowers(e, profile.level, profile.field, profile.ranking);
    ScaleMonotone(e.scoring.At(profile.level), 0.0, e.fieldMultipliers.At(profile.field));
    var edu := CalculateEducationScore(e, profile.level, profile.field, profile.ranking);
    var exp := CalculateExperienceScore(visaData.experience, profile.years, profile.position);
    ExperienceScoreIsNonNegative(visaData.experience, profile.years, profile.position);
    var ach := CalculateAchievementsScore(visaData.achievements, profile.achievementCount, profile.impact);
    AchievementsScoreIsNonNegative(visaData.achievements, profile.achievementCount, profile.impact);
    BaseScoreIsAnAverage(edu, exp, ach, profile.programCriteria, 0.0,
                         edu + exp + ach + profile.programCriteria);
  }

  lemma ExperienceScoreIsNonNegative(experience: UK.ExperienceCriteria, years: int, position: UK.PositionLevel)
    requires experience.experiencePoints.Years3To5 >= 0.0
    requires experience.experiencePoints.Years5To8 >= 0.0
    requires experience.experiencePoints.Years8Plus >= 0.0
    requires experience.positionMultipliers.At(position) >= 0.0
    ensures CalculateExperienceScore(experience, years, position) >= 0.0
  {
    var m := experience.positionMultipliers.At(position);
    var points := experience.experiencePoints;
    if years >= 8 {
      ScaleRight(0.0, points.Years8Plus, m);
    } else if years >= 5 {
      ScaleRight(0.0, points.Years5To8, m);
    } else if years >= 3 {
      ScaleRight(0.0, points.Years3To5, m);
    }
  }

  lemma AchievementsScoreIsNonNegative(achievements: UK.AchievementCriteria, count: int, impact: UK.ImpactLevel)
    requires achievements.scoring.Items2 >= 0.0
    requires achievements.scoring.Items3 >= 0.0
    requires achievements.scoring.Items4Plus >= 0.0
    requires achievements.impactMultipliers.At(impact) >= 0.0
    ensures CalculateAchievementsScore(achievements, count, impact) >= 0.0
  {
    var m := achievements.impactMultipliers.At(impact);
    var scoring := achievements.scoring;
    if count >= 4 {
      ScaleRight(0.0, scoring.Items4Plus, m);
    } else if count == 3 {
      ScaleRight(0.0, scoring.Items3, m);
    } else if count == 2 {
      ScaleRight(0.0, scoring.Items2, m);
    }
  }
}
