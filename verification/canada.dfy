/**
 The Canada Express Entry scorer: education 25%, language 25%, work
 experience (with a foreign-experience bonus) 50%. A language level below
 CLB 6 makes the candidate ineligible and zeroes everything but education.
 */
module CanadaExpressEntry {
  import opened JsSemantics

  // ---------------------------------------------------------------------
  // Rubric keys
  // ---------------------------------------------------------------------

  datatype EducationLevel = PhD | Masters | Bachelors | ThreeYearDiploma | OneTwoYearDiploma
  datatype LanguageLevel = CLB9Plus | CLB8 | CLB7 | CLB6 | BelowCLB6
  /** The keys '1Year', '2-3Years', '4-5Years' and '6+Years'. */
  datatype WorkExperienceBracket = Year1 | Years2To3 | Years4To5 | Years6Plus
  /** The keys '1-2Years', '3-4Years' and '5+Years'. */
  datatype ForeignExperienceBracket = Years1To2 | Years3To4 | Years5Plus

  // ---------------------------------------------------------------------
  // Rubric tables (an admin-authored ICanadaExpressEntry)
  // ---------------------------------------------------------------------

  datatype EducationScoring = EducationScoring(
    PhD: real, Masters: real, Bachelors: real, ThreeYearDiploma: real, OneTwoYearDiploma: real)
  {
    function At(level: EducationLevel): real {
      match level
      case PhD => this.PhD
      case Masters => this.Masters
      case Bachelors => this.Bachelors
      case ThreeYearDiploma => this.ThreeYearDiploma
      case OneTwoYearDiploma => this.OneTwoYearDiploma
    }
  }

  /** The numeric language entries. The rubric's fifth entry, `BelowCLB6`,
      is the constant 'Ineligible' and has no field here: `At` cannot be
      asked for it. */
  datatype CLBScoring = CLBScoring(CLB9Plus: real, CLB8: real, CLB7: real, CLB6: real)
  {
    function At(level: LanguageLevel): real
      requires level != BelowCLB6
    {
      match level
      case CLB9Plus => this.CLB9Plus
      case CLB8 => this.CLB8
      case CLB7 => this.CLB7
      case CLB6 => this.CLB6
    }
  }

  datatype WorkExperienceScoring = WorkExperienceScoring(Year1: real, Years2To3: real, Years4To5: real, Years6Plus: real)
  {
    function At(bracket: WorkExperienceBracket): real {
      match bracket
      case Year1 => this.Year1
      case Years2To3 => this.Years2To3
      case Years4To5 => this.Years4To5
      case Years6Plus => this.Years6Plus
    }
  }

  datatype ForeignExperienceBonus = ForeignExperienceBonus(Years1To2: real, Years3To4: real, Years5Plus: real)
  {
    function At(bracket: ForeignExperienceBracket): real {
      match bracket
      case Years1To2 => this.Years1To2
      case Years3To4 => this.Years3To4
      case Years5Plus => this.Years5Plus
    }
  }

  datatype WorkExperienceCriteria = WorkExperienceCriteria(scoring: WorkExperienceScoring, foreignBonus: ForeignExperienceBonus)

  datatype CanadaExpressEntry = CanadaExpressEntry(
    education: EducationScoring,
    languageProficiency: CLBScoring,
    workExperience: WorkExperienceCriteria)

  predicate AllScoresZero(c: CanadaExpressEntry) {
    && c.education == EducationScoring(0.0, 0.0, 0.0, 0.0, 0.0)
    && c.languageProficiency == CLBScoring(0.0, 0.0, 0.0, 0.0)
    && c.workExperience.scoring == WorkExperienceScoring(0.0, 0.0, 0.0, 0.0)
    && c.workExperience.foreignBonus == ForeignExperienceBonus(0.0, 0.0, 0.0)
  }

  // ---------------------------------------------------------------------
  // User input and result
  // ---------------------------------------------------------------------

  /** `years` is Canadian work experience, `foreignYears` foreign work experience. */
  datatype Experience = Experience(years: int, foreignYears: int)
  datatype UserInput = UserInput(education: string, language: string, experience: Experience)

  datatype Scores = Scores(education: real, language: real, workExperience: real, finalScore: real)

  // ---------------------------------------------------------------------
  // String-to-key mappers
  // ---------------------------------------------------------------------

  const EducationTable: map<string, EducationLevel> :=
    map["phd" := PhD, "masters" := Masters, "bachelors" := Bachelors,
        "three-year diploma" := ThreeYearDiploma, "3-year diploma" := ThreeYearDiploma,
        "one-two year diploma" := OneTwoYearDiploma, "1-2 year diploma" := OneTwoYearDiploma]

  /** Case-insensitive education lookup with two spellings per diploma;
      anything outside the table is `OneTwoYearDiploma`. */
  function MapCanadaEducation(input: string): (level: EducationLevel)
    ensures level == PhD <==> ToLowerCase(input) == "phd"
    ensures level == Masters <==> ToLowerCase(input) == "masters"
    ensures level == Bachelors <==> ToLowerCase(input) == "bachelors"
    ensures level == ThreeYearDiploma <==> ToLowerCase(input) in {"three-year diploma", "3-year diploma"}
    ensures level == OneTwoYearDiploma <==>
      ToLowerCase(input) !in {"phd", "masters", "bachelors", "three-year diploma", "3-year diploma"}
  {
    LookupOr(EducationTable, ToLowerCase(input), OneTwoYearDiploma)
  }

  const LanguageTable: map<string, LanguageLevel> :=
    map["clb9plus" := CLB9Plus, "clb8" := CLB8, "clb7" := CLB7, "clb6" := CLB6, "below clb6" := BelowCLB6]

  /** Case-insensitive language lookup; anything outside the table is `CLB6`. */
  function MapCanadaLanguage(input: string): (level: LanguageLevel)
    ensures level == CLB9Plus <==> ToLowerCase(input) == "clb9plus"
    ensures level == CLB8 <==> ToLowerCase(input) == "clb8"
    ensures level == CLB7 <==> ToLowerCase(input) == "clb7"
    ensures level == BelowCLB6 <==> ToLowerCase(input) == "below clb6"
    ensures level == CLB6 <==> ToLowerCase(input) !in {"clb9plus", "clb8", "clb7", "below clb6"}
  {
    LookupOr(LanguageTable, ToLowerCase(input), CLB6)
  }

  /** Inputs that differ only in letter case map to the same keys. */
  lemma MappersIgnoreCase(s: string, t: string)
    requires EqualIgnoringCase(s, t)
    ensures MapCanadaEducation(s) == MapCanadaEducation(t)
    ensures MapCanadaLanguage(s) == MapCanadaLanguage(t)
  {
    ToLowerCaseCharacterizesCase(s, t);
  }

  // ---------------------------------------------------------------------
  // Bracket classifiers
  // ---------------------------------------------------------------------

  /** Canadian years to bracket: 1, 2..3, 4..5, 6 and more; anything below 1
      also lands in '1Year'. */
  function WorkExperienceCategory(years: int): (bracket: WorkExperienceBracket)
    ensures bracket == Year1 <==> years <= 1
    ensures bracket == Years2To3 <==> 2 <= years <= 3
    ensures bracket == Years4To5 <==> 4 <= years <= 5
    ensures bracket == Years6Plus <==> 6 <= years
  {
    if years == 1 then Year1
    else if 2 <= years <= 3 then Years2To3
    else if 4 <= years <= 5 then Years4To5
    else if years >= 6 then Years6Plus
    else Year1
  }

  /** Foreign years to bonus bracket: [1, 3), [3, 5), 5 and more; below 1
      there is no bracket. */
  function ForeignExperienceCategory(years: int): (bracket: Option<ForeignExperienceBracket>)
    ensures bracket == None <==> years < 1
    ensures bracket == Some(Years1To2) <==> 1 <= years < 3
    ensures bracket == Some(Years3To4) <==> 3 <= years < 5
    ensures bracket == Some(Years5Plus) <==> 5 <= years
  {
    if 1 <= years < 3 then Some(Years1To2)
    else if 3 <= years < 5 then Some(Years3To4)
    else if years >= 5 then Some(Years5Plus)
    else None
  }

  /** The bonus points for foreign years, 0 when there is no bracket. */
  function ForeignBonus(bonus: ForeignExperienceBonus, foreignYears: int): real {
    match ForeignExperienceCategory(foreignYears)
    case None => 0.0
    case Some(bracket) => bonus.At(bracket)
  }

  /** The bracket boundaries: 0 foreign years give no bonus, and 1, 3 and 5
      years each open a new bracket. */
  lemma ForeignExperienceBoundaries(bonus: ForeignExperienceBonus)
    ensures ForeignBonus(bonus, 0) == 0.0
    ensures ForeignExperienceCategory(1) == Some(Years1To2) && ForeignExperienceCategory(2) == Some(Years1To2)
    ensures ForeignExperienceCategory(3) == Some(Years3To4) && ForeignExperienceCategory(4) == Some(Years3To4)
    ensures ForeignExperienceCategory(5) == Some(Years5Plus)
  {
  }

  // ---------------------------------------------------------------------
  // The scorer
  // ---------------------------------------------------------------------

  function CalculateCanadaExpressEntryScore(user: UserInput, criteria: CanadaExpressEntry): (s: Scores)
    ensures s.education == criteria.education.At(MapCanadaEducation(user.education)) * 0.25
    ensures MapCanadaLanguage(user.language) == BelowCLB6 ==>
      s.language == 0.0 && s.workExperience == 0.0 && s.finalScore == 0.0
    ensures var level := MapCanadaLanguage(user.language);
      level != BelowCLB6 ==>
        && s.language == criteria.languageProficiency.At(level) * 0.25
        && s.workExperience ==
             (criteria.workExperience.scoring.At(WorkExperienceCategory(user.experience.years))
              + ForeignBonus(criteria.workExperience.foreignBonus, user.experience.foreignYears)) * 0.5
        && s.finalScore == s.education + s.language + s.workExperience
  {
    var eduKey := MapCanadaEducation(user.education);
    var educationScore := criteria.education.At(eduKey) * 0.25;

    var languageKey := MapCanadaLanguage(user.language);
    if languageKey == BelowCLB6 then
      Scores(educationScore, 0.0, 0.0, 0.0)
    else
      var languageScore := criteria.languageProficiency.At(languageKey) * 0.25;
      var baseWorkScore := criteria.workExperience.scoring.At(WorkExperienceCategory(user.experience.years));
      var bonusWorkScore := ForeignBonus(criteria.workExperience.foreignBonus, user.experience.foreignYears);
      var workExperienceScore := (baseWorkScore + bonusWorkScore) * 0.5;
      Scores(educationScore, languageScore, workExperienceScore, educationScore + languageScore + workExperienceScore)
  }

  /** "below clb6" in any letter case makes the candidate ineligible: only
      education is scored, and nothing else about the profile or the
      language and work-experience tables matters. */
  lemma BelowCLB6IsIneligible(user: UserInput, criteria: CanadaExpressEntry,
                              experience: Experience, work: WorkExperienceCriteria, language: CLBScoring)
    requires EqualIgnoringCase(user.language, "below clb6")
    ensures var s := CalculateCanadaExpressEntryScore(user, criteria);
      s == Scores(criteria.education.At(MapCanadaEducation(user.education)) * 0.25, 0.0, 0.0, 0.0)
    ensures CalculateCanadaExpressEntryScore(user.(experience := experience),
                                             criteria.(workExperience := work, languageProficiency := language))
         == CalculateCanadaExpressEntryScore(user, criteria)
  {
    BelowClb6Key(user.language);
    IneligibleScoresEducationOnly(user, criteria, experience, work, language);
  }

  lemma BelowClb6Key(input: string)
    requires EqualIgnoringCase(input, "below clb6")
    ensures MapCanadaLanguage(input) == BelowCLB6
  {
    LowerCaseOfEqualIgnoringCase(input, "below clb6");
  }

  lemma IneligibleScoresEducationOnly(user: UserInput, criteria: CanadaExpressEntry,
                                      experience: Experience, work: WorkExperienceCriteria, language: CLBScoring)
    requires MapCanadaLanguage(user.language) == BelowCLB6
    ensures var s := CalculateCanadaExpressEntryScore(user, criteria);
      s == Scores(criteria.education.At(MapCanadaEducation(user.education)) * 0.25, 0.0, 0.0, 0.0)
    ensures CalculateCanadaExpressEntryScore(user.(experience := experience),
                                             criteria.(workExperience := work, languageProficiency := language))
         == CalculateCanadaExpressEntryScore(user, criteria)
  {
  }

  /** An all-zero rubric scores every profile 0. */
  lemma ZeroRubricScoresZero(user: UserInput, criteria: CanadaExpressEntry)
    requires AllScoresZero(criteria)
    ensures CalculateCanadaExpressEntryScore(user, criteria) == Scores(0.0, 0.0, 0.0, 0.0)
  {
  }

  /** The weights 25/25/50 add up to 100%: when education, language and
      work experience all look up the same value `v` and there is no foreign
      bonus, an eligible candidate scores exactly `v`. */
  lemma WeightsSumToOne(user: UserInput, criteria: CanadaExpressEntry, v: real)
    requires MapCanadaLanguage(user.language) != BelowCLB6
    requires criteria.education.At(MapCanadaEducation(user.education)) == v
    requires criteria.languageProficiency.At(MapCanadaLanguage(user.language)) == v
    requires criteria.workExperience.scoring.At(WorkExperienceCategory(user.experience.years)) == v
    requires user.experience.foreignYears < 1
    ensures CalculateCanadaExpressEntryScore(user, criteria).finalScore == v
  {
  }
}
