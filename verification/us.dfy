/**
 The US EB-1/EB-2 scorer: education 25%, experience 30%, achievements 25%.
 The achievement sub-score reads only the recognition level; the achievement
 count and the per-count table are part of the input and of the rubric but
 are never read.
 */
module USEB1EB2 {
  import opened JsSemantics

  // ---------------------------------------------------------------------
  // Rubric keys
  // ---------------------------------------------------------------------

  datatype EducationLevel = PhD | Masters | BachelorsExceptional
  datatype Field = STEM | BusinessEconomics | ArtsCulture
  /** The keys '5-7Years', '8-10Years' and '10+Years'. */
  datatype ExperienceBracket = Years5To7 | Years8To10 | Years10Plus
  datatype Position = Executive | SeniorManagement | Expert | Other
  datatype RecognitionLevel = International | National | Industry

  // ---------------------------------------------------------------------
  // Rubric tables (an admin-authored IUSEB1EB2Visa)
  // ---------------------------------------------------------------------

  datatype EducationScoring = EducationScoring(PhD: real, Masters: real, BachelorsExceptional: real)
  {
    function At(level: EducationLevel): real {
      match level
      case PhD => this.PhD
      case Masters => this.Masters
      case BachelorsExceptional => this.BachelorsExceptional
    }
  }

  datatype FieldMultipliers = FieldMultipliers(STEM: real, BusinessEconomics: real, ArtsCulture: real)
  {
    function At(field: Field): real {
      match field
      case STEM => this.STEM
      case BusinessEconomics => this.BusinessEconomics
      case ArtsCulture => this.ArtsCulture
    }
  }

  datatype ExperiencePoints = ExperiencePoints(Years5To7: real, Years8To10: real, Years10Plus: real)
  {
    function At(bracket: ExperienceBracket): real {
      match bracket
      case Years5To7 => this.Years5To7
      case Years8To10 => this.Years8To10
      case Years10Plus => this.Years10Plus
    }
  }

  datatype Positions = Positions(Executive: real, SeniorManagement: real, Expert: real, Other: real)
  {
    function At(position: Position): real {
      match position
      case Executive => this.Executive
      case SeniorManagement => this.SeniorManagement
      case Expert => this.Expert
      case Other => this.Other
    }
  }

  /** The per-count table ('2Items', '3Items', '4PlusItems'). */
  datatype AchievementScoring = AchievementScoring(Items2: real, Items3: real, Items4Plus: real)

  datatype RecognitionLevels = RecognitionLevels(International: real, National: real, Industry: real)
  {
    function At(level: RecognitionLevel): real {
      match level
      case International => this.International
      case National => this.National
      case Industry => this.Industry
    }
  }

  datatype EducationCriteria = EducationCriteria(scoring: EducationScoring, fieldMultipliers: FieldMultipliers)
  datatype ExperienceCriteria = ExperienceCriteria(minimumYearsRequired: real, experiencePoints: ExperiencePoints)
  datatype AchievementCriteria = AchievementCriteria(
    required: real,
    scoring: AchievementScoring,
    recognitionLevels: RecognitionLevels)

  datatype USEB1EB2Visa = USEB1EB2Visa(
    education: EducationCriteria,
    experience: ExperienceCriteria,
    positions: Positions,
    achievements: AchievementCriteria)

  /** Every point value the scorer can read is 0. */
  predicate AllScoresZero(c: USEB1EB2Visa) {
    && c.education.scoring == EducationScoring(0.0, 0.0, 0.0)
    && c.education.fieldMultipliers == FieldMultipliers(0.0, 0.0, 0.0)
    && c.experience.experiencePoints == ExperiencePoints(0.0, 0.0, 0.0)
    && c.positions == Positions(0.0, 0.0, 0.0, 0.0)
    && c.achievements.recognitionLevels == RecognitionLevels(0.0, 0.0, 0.0)
  }

  // ---------------------------------------------------------------------
  // User input and result
  // ---------------------------------------------------------------------

  datatype Experience = Experience(years: int, position: Position)
  datatype Achievement = Achievement(achievementCount: int, achievementImpact: RecognitionLevel)
  datatype UserInput = UserInput(education: string, field: string, experience: Experience, achievement: Achievement)

  datatype Scores = Scores(education: real, experience: real, achievements: real, finalScore: real)

  // ---------------------------------------------------------------------
  // String-to-key mappers
  // ---------------------------------------------------------------------

  const EducationTable: map<string, EducationLevel> :=
    map["phd" := PhD, "masters" := Masters, "bachelors" := BachelorsExceptional]

  /** Case-insensitive education lookup; "bachelors" and anything outside the
      table are `BachelorsExceptional`. */
  function MapUSEducation(input: string): (level: EducationLevel)
    ensures level == PhD <==> ToLowerCase(input) == "phd"
    ensures level == Masters <==> ToLowerCase(input) == "masters"
    ensures level == BachelorsExceptional <==> ToLowerCase(input) !in {"phd", "masters"}
  {
    LookupOr(EducationTable, ToLowerCase(input), BachelorsExceptional)
  }

  const FieldTable: map<string, Field> :=
    map["stem" := STEM, "economics" := BusinessEconomics, "arts" := ArtsCulture]

  /** Case-insensitive field lookup; "arts" and anything outside the table
      are `ArtsCulture`. */
  function MapUSField(input: string): (field: Field)
    ensures field == STEM <==> ToLowerCase(input) == "stem"
    ensures field == BusinessEconomics <==> ToLowerCase(input) == "economics"
    ensures field == ArtsCulture <==> ToLowerCase(input) !in {"stem", "economics"}
  {
    LookupOr(FieldTable, ToLowerCase(input), ArtsCulture)
  }

  /** Inputs that differ only in letter case map to the same keys. */
  lemma MappersIgnoreCase(s: string, t: string)
    requires EqualIgnoringCase(s, t)
    ensures MapUSEducation(s) == MapUSEducation(t)
    ensures MapUSField(s) == MapUSField(t)
  {
    ToLowerCaseCharacterizesCase(s, t);
  }

  // ---------------------------------------------------------------------
  // Bracket classifier
  // ---------------------------------------------------------------------

  function BracketRank(b: ExperienceBracket): nat {
    match b
    case Years5To7 => 0
    case Years8To10 => 1
    case Years10Plus => 2
  }

  /** Years of experience to bracket: 5..7, 8..10, more than 10; anything
      below the minimum of 5 also lands in the lowest bracket. */
  function USExperienceCategory(years: int): (bracket: ExperienceBracket)
    ensures bracket == Years5To7 <==> years <= 7
    ensures bracket == Years8To10 <==> 8 <= years <= 10
    ensures bracket == Years10Plus <==> 10 < years
  {
    if 5 <= years <= 7 then Years5To7
    else if 8 <= years <= 10 then Years8To10
    else if years > 10 then Years10Plus
    else Years5To7
  }

  /** More experience never lands in a lower bracket. */
  lemma USExperienceCategoryMonotone(y1: int, y2: int)
    requires y1 <= y2
    ensures BracketRank(USExperienceCategory(y1)) <= BracketRank(USExperienceCategory(y2))
  {
  }

  // ---------------------------------------------------------------------
  // The scorer
  // ---------------------------------------------------------------------

  /** The scorer as written, including its `(a + b) || 0` fallbacks: since a
      sum that is 0 falls back to 0, they never change a value, and each
      sub-score is the plain weighted sum of its lookups. */
  function CalculateUSEB1EB2Score(user: UserInput, criteria: USEB1EB2Visa): (s: Scores)
    ensures s.education ==
      (criteria.education.scoring.At(MapUSEducation(user.education))
       + criteria.education.fieldMultipliers.At(MapUSField(user.field))) * 0.25
    ensures s.experience ==
      (criteria.experience.experiencePoints.At(USExperienceCategory(user.experience.years))
       + criteria.positions.At(user.experience.position)) * 0.3
    ensures s.achievements == criteria.achievements.recognitionLevels.At(user.achievement.achievementImpact) * 0.25
    ensures s.finalScore == s.education + s.experience + s.achievements
  {
    var eduKey := MapUSEducation(user.education);
    var fieldKey := MapUSField(user.field);
    var eduBase := Or(criteria.education.scoring.At(eduKey) + criteria.education.fieldMultipliers.At(fieldKey), 0.0);
    var educationScore := eduBase * 0.25;

    var expCategory := USExperienceCategory(user.experience.years);
    var experienceBase := Or(criteria.experience.experiencePoints.At(expCategory)
                             + criteria.positions.At(user.experience.position), 0.0);
    var experienceScore := experienceBase * 0.3;

    var achBase := 0.0 + Or(criteria.achievements.recognitionLevels.At(user.achievement.achievementImpact), 0.0);
    var achievementsScore := achBase * 0.25;

    Scores(educationScore, experienceScore, achievementsScore, educationScore + experienceScore + achievementsScore)
  }

  /** The achievement count has no effect on any part of the result, and
      neither has the per-count table nor the two minimum requirements. */
  lemma AchievementCountHasNoEffect(user: UserInput, criteria: USEB1EB2Visa, count: int,
                                    scoring: AchievementScoring, minimumYears: real, required: real)
    ensures var user' := user.(achievement := user.achievement.(achievementCount := count));
      var criteria' := criteria.(
        experience := criteria.experience.(minimumYearsRequired := minimumYears),
        achievements := criteria.achievements.(scoring := scoring, required := required));
      CalculateUSEB1EB2Score(user', criteria') == CalculateUSEB1EB2Score(user, criteria)
  {
  }

  /** An all-zero rubric scores every profile 0. */
  lemma ZeroRubricScoresZero(user: UserInput, criteria: USEB1EB2Visa)
    requires AllScoresZero(criteria)
    ensures CalculateUSEB1EB2Score(user, criteria) == Scores(0.0, 0.0, 0.0, 0.0)
  {
  }
}
