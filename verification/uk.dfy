/**
 The UK Global Talent scorer: free-text education and field are mapped to
 rubric keys, years of experience and achievement counts to brackets, and the
 looked-up points are combined as a weighted sum (education 25%, experience
 30%, achievements 25%). The file also exports two functions that no caller
 uses: the 25/30/25/20 aggregate with multiplicative adjustments
 (`calculateFinalScore`), and the success probability capped at 100
 (`estimateSuccessProbability`).
 */
module UKGlobalTalent {
  import opened JsSemantics
  import opened Factors

  // ---------------------------------------------------------------------
  // Rubric keys
  // ---------------------------------------------------------------------

  datatype EducationLevel = PhD | Masters | Bachelors | Diploma | Other
  datatype Field = STEMDigitalArts | BusinessEconomics | OtherFields
  datatype InstitutionRanking = Top100Global | Top500Global | OtherAccredited
  /** The keys '3-5Years', '5-8Years' and '8+Years'. */
  datatype ExperienceBracket = Years3To5 | Years5To8 | Years8Plus
  datatype PositionLevel = SeniorLevel | MidLevel | JuniorLevel
  /** The keys '2Items', '3Items' and '4PlusItems'. */
  datatype AchievementBracket = Items2 | Items3 | Items4Plus
  datatype ImpactLevel = International | National | Regional

  // ---------------------------------------------------------------------
  // Rubric tables (an admin-authored IUKGlobalTalentVisa)
  // ---------------------------------------------------------------------

  datatype EducationScoring = EducationScoring(PhD: real, Masters: real, Bachelors: real, Diploma: real, Other: real)
  {
    function At(level: EducationLevel): real {
      match level
      case PhD => this.PhD
      case Masters => this.Masters
      case Bachelors => this.Bachelors
      case Diploma => this.Diploma
      case Other => this.Other
    }
  }

  datatype FieldMultipliers = FieldMultipliers(STEMDigitalArts: real, BusinessEconomics: real, OtherFields: real)
  {
    function At(field: Field): real {
      match field
      case STEMDigitalArts => this.STEMDigitalArts
      case BusinessEconomics => this.BusinessEconomics
      case OtherFields => this.OtherFields
    }
  }

  datatype InstitutionRankings = InstitutionRankings(Top100Global: real, Top500Global: real, OtherAccredited: real)

  datatype ExperiencePoints = ExperiencePoints(Years3To5: real, Years5To8: real, Years8Plus: real)
  {
    function At(bracket: ExperienceBracket): real {
      match bracket
      case Years3To5 => this.Years3To5
      case Years5To8 => this.Years5To8
      case Years8Plus => this.Years8Plus
    }
  }

  datatype PositionMultipliers = PositionMultipliers(SeniorLevel: real, MidLevel: real, JuniorLevel: real)
  {
    function At(position: PositionLevel): real {
      match position
      case SeniorLevel => this.SeniorLevel
      case MidLevel => this.MidLevel
      case JuniorLevel => this.JuniorLevel
    }
  }

  datatype AchievementScoring = AchievementScoring(Items2: real, Items3: real, Items4Plus: real)
  {
    function At(bracket: AchievementBracket): real {
      match bracket
      case Items2 => this.Items2
      case Items3 => this.Items3
      case Items4Plus => this.Items4Plus
    }
  }

  datatype ImpactMultipliers = ImpactMultipliers(International: real, National: real, Regional: real)
  {
    function At(impact: ImpactLevel): real {
      match impact
      case International => this.International
      case National => this.National
      case Regional => this.Regional
    }
  }

  datatype EducationCriteria = EducationCriteria(
    scoring: EducationScoring,
    fieldMultipliers: FieldMultipliers,
    institutionRankings: InstitutionRankings)

  datatype ExperienceCriteria = ExperienceCriteria(
    minimumYearsRequired: real,
    experiencePoints: ExperiencePoints,
    positionMultipliers: PositionMultipliers)

  datatype AchievementCriteria = AchievementCriteria(
    required: real,
    scoring: AchievementScoring,
    impactMultipliers: ImpactMultipliers)

  datatype UKGlobalTalentVisa = UKGlobalTalentVisa(
    education: EducationCriteria,
    experience: ExperienceCriteria,
    achievements: AchievementCriteria)

  /** Every point value and multiplier of the rubric is 0 (the two minimum
      requirements are free: the scorer does not read them). */
  predicate AllScoresZero(c: UKGlobalTalentVisa) {
    && c.education.scoring == EducationScoring(0.0, 0.0, 0.0, 0.0, 0.0)
    && c.education.fieldMultipliers == FieldMultipliers(0.0, 0.0, 0.0)
    && c.education.institutionRankings == InstitutionRankings(0.0, 0.0, 0.0)
    && c.experience.experiencePoints == ExperiencePoints(0.0, 0.0, 0.0)
    && c.experience.positionMultipliers == PositionMultipliers(0.0, 0.0, 0.0)
    && c.achievements.scoring == AchievementScoring(0.0, 0.0, 0.0)
    && c.achievements.impactMultipliers == ImpactMultipliers(0.0, 0.0, 0.0)
  }

  // ---------------------------------------------------------------------
  // User input and result
  // ---------------------------------------------------------------------

  datatype Experience = Experience(years: int, position: PositionLevel)
  datatype Achievement = Achievement(achievementCount: int, achievementImpact: ImpactLevel)
  datatype UserInput = UserInput(education: string, field: string, experience: Experience, achievement: Achievement)

  datatype Scores = Scores(education: real, experience: real, achievements: real, finalScore: real)

  // ---------------------------------------------------------------------
  // String-to-key mappers
  // ---------------------------------------------------------------------

  const EducationTable: map<string, EducationLevel> :=
    map["phd" := PhD, "masters" := Masters, "bachelors" := Bachelors, "diploma" := Diploma, "other" := Other]

  /** Case-insensitive education lookup; anything outside the table is `Other`. */
  function MapEducation(input: string): (level: EducationLevel)
    ensures level == PhD <==> ToLowerCase(input) == "phd"
    ensures level == Masters <==> ToLowerCase(input) == "masters"
    ensures level == Bachelors <==> ToLowerCase(input) == "bachelors"
    ensures level == Diploma <==> ToLowerCase(input) == "diploma"
    ensures level == Other <==> ToLowerCase(input) !in {"phd", "masters", "bachelors", "diploma"}
  {
    LookupOr(EducationTable, ToLowerCase(input), Other)
  }

  const FieldTable: map<string, Field> :=
    map["stem" := STEMDigitalArts, "economics" := BusinessEconomics, "arts" := OtherFields]

  /** Case-insensitive field lookup; "arts" and anything outside the table
      are `OtherFields`. */
  function MapField(input: string): (field: Field)
    ensures field == STEMDigitalArts <==> ToLowerCase(input) == "stem"
    ensures field == BusinessEconomics <==> ToLowerCase(input) == "economics"
    ensures field == OtherFields <==> ToLowerCase(input) !in {"stem", "economics"}
  {
    LookupOr(FieldTable, ToLowerCase(input), OtherFields)
  }

  /** Inputs that differ only in letter case map to the same keys. */
  lemma MappersIgnoreCase(s: string, t: string)
    requires EqualIgnoringCase(s, t)
    ensures MapEducation(s) == MapEducation(t)
    ensures MapField(s) == MapField(t)
  {
    ToLowerCaseCharacterizesCase(s, t);
  }

  // ---------------------------------------------------------------------
  // Bracket classifiers
  // ---------------------------------------------------------------------

  function BracketRank(b: ExperienceBracket): nat {
    match b
    case Years3To5 => 0
    case Years5To8 => 1
    case Years8Plus => 2
  }

  /** Years of experience to bracket: 3..5, 6..8, 9 and more; anything below
      the minimum of 3 also lands in the lowest bracket. */
  function ExperienceCategory(years: int): (bracket: ExperienceBracket)
    ensures bracket == Years3To5 <==> years <= 5
    ensures bracket == Years5To8 <==> 6 <= years <= 8
    ensures bracket == Years8Plus <==> 9 <= years
  {
    if 3 <= years <= 5 then Years3To5
    else if 6 <= years <= 8 then Years5To8
    else if years >= 9 then Years8Plus
    else Years3To5
  }

  /** More experience never lands in a lower bracket. */
  lemma ExperienceCategoryMonotone(y1: int, y2: int)
    requires y1 <= y2
    ensures BracketRank(ExperienceCategory(y1)) <= BracketRank(ExperienceCategory(y2))
  {
  }

  /** Achievement count to bracket: exactly 2, exactly 3, 4 and more; fewer
      than 2 achievements have no bracket. */
  function AchievementCategory(count: int): (bracket: Option<AchievementBracket>)
    ensures bracket == None <==> count < 2
    ensures bracket == Some(Items2) <==> count == 2
    ensures bracket == Some(Items3) <==> count == 3
    ensures bracket == Some(Items4Plus) <==> count >= 4
  {
    if count == 2 then Some(Items2)
    else if count == 3 then Some(Items3)
    else if count >= 4 then Some(Items4Plus)
    else None
  }

  /** The bracket points for a count, 0 when there is no bracket. */
  function AchievementPoints(scoring: AchievementScoring, count: int): real {
    match AchievementCategory(count)
    case None => 0.0
    case Some(bracket) => scoring.At(bracket)
  }

  // ---------------------------------------------------------------------
  // The per-request scorer
  // ---------------------------------------------------------------------

  function CalculateUKGlobalTalentScore(user: UserInput, criteria: UKGlobalTalentVisa): (s: Scores)
    ensures s.education ==
      (criteria.education.scoring.At(MapEducation(user.education))
       + criteria.education.fieldMultipliers.At(MapField(user.field))
       + criteria.education.institutionRankings.OtherAccredited) * 0.25
    ensures s.experience ==
      (criteria.experience.experiencePoints.At(ExperienceCategory(user.experience.years))
       + criteria.experience.positionMultipliers.At(user.experience.position)) * 0.3
    ensures var impact := criteria.achievements.impactMultipliers.At(user.achievement.achievementImpact);
      var scoring := criteria.achievements.scoring;
      var count := user.achievement.achievementCount;
      && (count < 2 ==> s.achievements == impact * 0.25)
      && (count == 2 ==> s.achievements == (scoring.Items2 + impact) * 0.25)
      && (count == 3 ==> s.achievements == (scoring.Items3 + impact) * 0.25)
      && (count >= 4 ==> s.achievements == (scoring.Items4Plus + impact) * 0.25)
    ensures s.finalScore == s.education + s.experience + s.achievements
  {
    var eduKey := MapEducation(user.education);
    var fieldKey := MapField(user.field);
    var eduBase := criteria.education.scoring.At(eduKey)
      + criteria.education.fieldMultipliers.At(fieldKey)
      + criteria.education.institutionRankings.OtherAccredited;
    var educationScore := eduBase * 0.25;

    var expCategory := ExperienceCategory(user.experience.years);
    var experienceBase := criteria.experience.experiencePoints.At(expCategory)
      + criteria.experience.positionMultipliers.At(user.experience.position);
    var experienceScore := experienceBase * 0.3;

    var achBase := AchievementPoints(criteria.achievements.scoring, user.achievement.achievementCount)
      + criteria.achievements.impactMultipliers.At(user.achievement.achievementImpact);
    var achievementsScore := achBase * 0.25;

    Scores(educationScore, experienceScore, achievementsScore, educationScore + experienceScore + achievementsScore)
  }

  /** With fewer than two achievements only the impact multiplier counts. */
  lemma AchievementsBelowTwoAreImpactOnly(user: UserInput, criteria: UKGlobalTalentVisa)
    requires user.achievement.achievementCount < 2
    ensures CalculateUKGlobalTalentScore(user, criteria).achievements
         == criteria.achievements.impactMultipliers.At(user.achievement.achievementImpact) * 0.25
  {
  }

  /** An all-zero rubric scores every profile 0. */
  lemma ZeroRubricScoresZero(user: UserInput, criteria: UKGlobalTalentVisa)
    requires AllScoresZero(criteria)
    ensures CalculateUKGlobalTalentScore(user, criteria) == Scores(0.0, 0.0, 0.0, 0.0)
  {
  }

  /** The institution ranking is fixed to 'OtherAccredited': the Top100Global
      and Top500Global bonuses, and the two minimum requirements, are never read. */
  lemma UnreadRubricEntries(user: UserInput, criteria: UKGlobalTalentVisa, top100: real, top500: real,
                            minimumYears: real, required: real)
    ensures var other := criteria.(
        education := criteria.education.(institutionRankings :=
          criteria.education.institutionRankings.(Top100Global := top100, Top500Global := top500)),
        experience := criteria.experience.(minimumYearsRequired := minimumYears),
        achievements := criteria.achievements.(required := required));
      CalculateUKGlobalTalentScore(user, other) == CalculateUKGlobalTalentScore(user, criteria)
  {
  }

  /** The worked example: a PhD in STEM (in any letter case) with 9 years at
      senior level and 5 international achievements scores
      30 + 33 + 17.5 = 80.5. */
  lemma WorkedExample(user: UserInput, criteria: UKGlobalTalentVisa)
    requires EqualIgnoringCase(user.education, "phd") && EqualIgnoringCase(user.field, "stem")
    requires user.experience == Experience(9, SeniorLevel)
    requires user.achievement == Achievement(5, International)
    requires criteria.education.scoring.PhD == 100.0
    requires criteria.education.fieldMultipliers.STEMDigitalArts == 20.0
    requires criteria.education.institutionRankings.OtherAccredited == 0.0
    requires criteria.experience.experiencePoints.Years8Plus == 100.0
    requires criteria.experience.positionMultipliers.SeniorLevel == 10.0
    requires criteria.achievements.scoring.Items4Plus == 50.0
    requires criteria.achievements.impactMultipliers.International == 20.0
    ensures CalculateUKGlobalTalentScore(user, criteria) == Scores(30.0, 33.0, 17.5, 80.5)
  {
    LowerCaseOfEqualIgnoringCase(user.education, "phd");
    LowerCaseOfEqualIgnoringCase(user.field, "stem");
  }

  // ---------------------------------------------------------------------
  // calculateFinalScore: weighted aggregate with adjustments
  // ---------------------------------------------------------------------

  datatype BaseScores = BaseScores(education: real, experience: real, achievements: real, programCriteria: real)

  /** Absent boolean flags are modelled as `false`; absent bonuses as `None`. */
  datatype Adjustments = Adjustments(
    inDemandSkills: bool,
    multipleQualifications: bool,
    languageProficiencyBonus: Option<real>,
    regionalPriorityBonus: Option<real>,
    incompleteDocumentation: bool,
    employmentGaps: bool,
    nonRelevantExperience: bool)

  const NoAdjustments := Adjustments(false, false, None, None, false, false, false)

  /** The adjustment steps in the order they are applied: the four positive
      adjustments, then the three negative ones. */
  function AdjustmentSteps(adj: Adjustments): (steps: seq<real>)
    ensures |steps| == 7
  {
    [ FlagFactor(adj.inDemandSkills, 1.1),
      FlagFactor(adj.multipleQualifications, 1.05),
      BonusFactor(adj.languageProficiencyBonus),
      BonusFactor(adj.regionalPriorityBonus),
      FlagFactor(adj.incompleteDocumentation, 0.9),
      FlagFactor(adj.employmentGaps, 0.95),
      FlagFactor(adj.nonRelevantExperience, 0.9) ]
  }

  /** The 25/30/25/20 aggregate, then the adjustments applied one after the
      other; the result is the aggregate times the product of the steps. */
  function WeightedAggregate(base: BaseScores): real {
    base.education * 0.25 + base.experience * 0.3 + base.achievements * 0.25 + base.programCriteria * 0.2
  }

  function CalculateFinalScore(base: BaseScores, adj: Adjustments): (score: real)
    ensures score == WeightedAggregate(base) * Product(AdjustmentSteps(adj))
  {
    ApplyInOrderIsProduct(WeightedAggregate(base), AdjustmentSteps(adj));
    ApplyInOrder(WeightedAggregate(base), AdjustmentSteps(adj))
  }

  /** Without adjustments the result is the plain weighted aggregate. */
  lemma FinalScoreWithoutAdjustments(base: BaseScores)
    ensures CalculateFinalScore(base, NoAdjustments)
         == base.education * 0.25 + base.experience * 0.3 + base.achievements * 0.25 + base.programCriteria * 0.2
  {
    calc {
      CalculateFinalScore(base, NoAdjustments);
    ==
      WeightedAggregate(base) * Product(AdjustmentSteps(NoAdjustments));
    == { ProductOfOnes(AdjustmentSteps(NoAdjustments)); }
      WeightedAggregate(base);
    }
  }

  /** A bonus of 0 behaves exactly like an absent bonus. */
  lemma ZeroBonusIsAbsent(base: BaseScores, adj: Adjustments)
    ensures CalculateFinalScore(base, adj.(languageProficiencyBonus := Some(0.0)))
         == CalculateFinalScore(base, adj.(languageProficiencyBonus := None))
    ensures CalculateFinalScore(base, adj.(regionalPriorityBonus := Some(0.0)))
         == CalculateFinalScore(base, adj.(regionalPriorityBonus := None))
  {
  }

  /** The five boolean adjustments. */
  datatype Flag = InDemandSkills | MultipleQualifications | IncompleteDocumentation | EmploymentGaps | NonRelevantExperience

  /** The fixed factor of each boolean adjustment. */
  function FixedFactor(flag: Flag): real {
    match flag
    case InDemandSkills => 1.1
    case MultipleQualifications => 1.05
    case IncompleteDocumentation => 0.9
    case EmploymentGaps => 0.95
    case NonRelevantExperience => 0.9
  }

  function WithFlag(adj: Adjustments, flag: Flag, value: bool): Adjustments {
    match flag
    case InDemandSkills => adj.(inDemandSkills := value)
    case MultipleQualifications => adj.(multipleQualifications := value)
    case IncompleteDocumentation => adj.(incompleteDocumentation := value)
    case EmploymentGaps => adj.(employmentGaps := value)
    case NonRelevantExperience => adj.(nonRelevantExperience := value)
  }

  /** The position of a flag's step in the adjustment pass. */
  function StepIndex(flag: Flag): (i: nat)
    ensures i < 7
  {
    match flag
    case InDemandSkills => 0
    case MultipleQualifications => 1
    case IncompleteDocumentation => 4
    case EmploymentGaps => 5
    case NonRelevantExperience => 6
  }

  /** Setting one flag multiplies the result by that flag's fixed factor,
      whatever the other adjustments are. */
  lemma EachFlagScalesByItsFactor(base: BaseScores, adj: Adjustments, flag: Flag)
    ensures CalculateFinalScore(base, WithFlag(adj, flag, true))
         == FixedFactor(flag) * CalculateFinalScore(base, WithFlag(adj, flag, false))
  {
    FlagChangesOneStep(adj, flag);
    StepScales(base, WithFlag(adj, flag, true), WithFlag(adj, flag, false), StepIndex(flag), FixedFactor(flag));
  }

  /** Setting a flag turns exactly its own step from 1 into its fixed factor. */
  lemma FlagChangesOneStep(adj: Adjustments, flag: Flag)
    ensures AdjustmentSteps(WithFlag(adj, flag, false))[StepIndex(flag)] == 1.0
    ensures AdjustmentSteps(WithFlag(adj, flag, true))
         == AdjustmentSteps(WithFlag(adj, flag, false))[StepIndex(flag) := FixedFactor(flag)]
  {
    match flag
    case InDemandSkills =>
    case MultipleQualifications =>
    case IncompleteDocumentation =>
    case EmploymentGaps =>
    case NonRelevantExperience =>
  }

  /** Two adjustment sets whose steps differ in one place, identity versus `x`,
      give results that differ by the factor `x`. */
  lemma StepScales(base: BaseScores, withStep: Adjustments, without: Adjustments, i: nat, x: real)
    requires i < 7 && AdjustmentSteps(without)[i] == 1.0
    requires AdjustmentSteps(withStep) == AdjustmentSteps(without)[i := x]
    ensures CalculateFinalScore(base, withStep) == x * CalculateFinalScore(base, without)
  {
    var aggregate, steps := WeightedAggregate(base), AdjustmentSteps(without);
    calc {
      CalculateFinalScore(base, withStep);
    ==
      ApplyInOrder(aggregate, steps[i := x]);
    == { ApplyInOrderReplaceOne(aggregate, steps, i, x); }
      x * ApplyInOrder(aggregate, steps);
    ==
      x * CalculateFinalScore(base, without);
    }
  }

  // ---------------------------------------------------------------------
  // Success probability
  // ---------------------------------------------------------------------

  datatype SuccessFactors = SuccessFactors(programDifficulty: real, historicalSuccessRate: real, currentAcceptanceRate: real)

  /** The four-way product, capped at 100. */
  function EstimateSuccessProbability(finalScore: real, factors: SuccessFactors): (p: real)
    ensures p <= 100.0
    ensures var product := finalScore * factors.programDifficulty * factors.historicalSuccessRate
                           * factors.currentAcceptanceRate;
      && (product <= 100.0 ==> p == product)
      && (product > 100.0 ==> p == 100.0)
  {
    var probability := finalScore * factors.programDifficulty * factors.historicalSuccessRate * factors.currentAcceptanceRate;
    if probability <= 100.0 then probability else 100.0
  }
}
