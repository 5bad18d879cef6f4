/**
 The Dubai Golden Visa scorer, as the code computes it. Its two sub-scores
 are written with `||` in places where `||` binds differently from what the
 layout suggests:
   financial    = lookup || 0 * 0.5            which is  lookup || 0
   professional = (salary || 0 + position || 0) * 0.5
                                               which is  (salary || position || 0) * 0.5
 so the financial lookup is not halved, and the position is only read when
 the salary lookup is 0. The evidently intended weighted sum is defined
 beside it and the difference between the two is proved.
 */
module DubaiGoldenVisa {
  import opened JsSemantics

  // ---------------------------------------------------------------------
  // Rubric keys
  // ---------------------------------------------------------------------

  datatype FinancialCategory =
    | PublicInvestment10MPlus | PublicInvestment5To10M
    | PrivateCompany5MPlus | PrivateCompany3To5M
    | PropertyInvestment2MPlus | PropertyInvestment1To2M

  /** The keys of the professional table: three salary keys and three
      position keys share one table. */
  datatype ProfessionalCategory =
    | Salary30KPlus | Salary20To30K | Salary15To20K
    | PositionCEOMD | PositionSeniorManagement | PositionDepartmentHead
  {
    predicate IsSalary() {
      Salary30KPlus? || Salary20To30K? || Salary15To20K?
    }
  }

  // ---------------------------------------------------------------------
  // Rubric tables (an admin-authored IDubaiGoldenVisa)
  // ---------------------------------------------------------------------

  datatype FinancialScoring = FinancialScoring(
    PublicInvestment10MPlus: real, PublicInvestment5To10M: real,
    PrivateCompany5MPlus: real, PrivateCompany3To5M: real,
    PropertyInvestment2MPlus: real, PropertyInvestment1To2M: real)
  {
    function At(category: FinancialCategory): real {
      match category
      case PublicInvestment10MPlus => this.PublicInvestment10MPlus
      case PublicInvestment5To10M => this.PublicInvestment5To10M
      case PrivateCompany5MPlus => this.PrivateCompany5MPlus
      case PrivateCompany3To5M => this.PrivateCompany3To5M
      case PropertyInvestment2MPlus => this.PropertyInvestment2MPlus
      case PropertyInvestment1To2M => this.PropertyInvestment1To2M
    }
  }

  datatype ProfessionalScoring = ProfessionalScoring(
    Salary30KPlus: real, Salary20To30K: real, Salary15To20K: real,
    PositionCEOMD: real, PositionSeniorManagement: real, PositionDepartmentHead: real)
  {
    function At(category: ProfessionalCategory): real {
      match category
      case Salary30KPlus => this.Salary30KPlus
      case Salary20To30K => this.Salary20To30K
      case Salary15To20K => this.Salary15To20K
      case PositionCEOMD => this.PositionCEOMD
      case PositionSeniorManagement => this.PositionSeniorManagement
      case PositionDepartmentHead => this.PositionDepartmentHead
    }
  }

  datatype DubaiGoldenVisa = DubaiGoldenVisa(financialCriteria: FinancialScoring, professionalCriteria: ProfessionalScoring)

  predicate AllScoresZero(c: DubaiGoldenVisa) {
    && c.financialCriteria == FinancialScoring(0.0, 0.0, 0.0, 0.0, 0.0, 0.0)
    && c.professionalCriteria == ProfessionalScoring(0.0, 0.0, 0.0, 0.0, 0.0, 0.0)
  }

  // ---------------------------------------------------------------------
  // User input and result
  // ---------------------------------------------------------------------

  datatype UserInput = UserInput(financialCategory: string, salaryCategory: string, positionCategory: string)

  datatype Scores = Scores(financial: real, professional: real, finalScore: real)

  // ---------------------------------------------------------------------
  // String-to-key mappers
  // ---------------------------------------------------------------------

  const FinancialTable: map<string, FinancialCategory> :=
    map["publicinvestment10mplus" := PublicInvestment10MPlus,
        "publicinvestment5to10m" := PublicInvestment5To10M,
        "privatecompany5mplus" := PrivateCompany5MPlus,
        "privatecompany3to5m" := PrivateCompany3To5M,
        "propertyinvestment2mplus" := PropertyInvestment2MPlus,
        "propertyinvestment1to2m" := PropertyInvestment1To2M]

  /** Exact match of the lower-cased input (whitespace is not removed);
      anything outside the table is `PropertyInvestment1To2M`. */
  function MapDubaiFinancial(input: string): (category: FinancialCategory)
    ensures category == PublicInvestment10MPlus <==> ToLowerCase(input) == "publicinvestment10mplus"
    ensures category == PublicInvestment5To10M <==> ToLowerCase(input) == "publicinvestment5to10m"
    ensures category == PrivateCompany5MPlus <==> ToLowerCase(input) == "privatecompany5mplus"
    ensures category == PrivateCompany3To5M <==> ToLowerCase(input) == "privatecompany3to5m"
    ensures category == PropertyInvestment2MPlus <==> ToLowerCase(input) == "propertyinvestment2mplus"
    ensures category == PropertyInvestment1To2M <==>
      ToLowerCase(input) !in {"publicinvestment10mplus", "publicinvestment5to10m", "privatecompany5mplus",
                              "privatecompany3to5m", "propertyinvestment2mplus"}
  {
    LookupOr(FinancialTable, ToLowerCase(input), PropertyInvestment1To2M)
  }

  const SalaryTable: map<string, ProfessionalCategory> :=
    map["salary30kplus" := Salary30KPlus, "salary20to30k" := Salary20To30K, "salary15to20k" := Salary15To20K]

  /** Case-insensitive salary lookup; always a salary key, and anything
      outside the table is `Salary15To20K`. */
  function MapDubaiSalary(input: string): (category: ProfessionalCategory)
    ensures category.IsSalary()
    ensures category == Salary30KPlus <==> ToLowerCase(input) == "salary30kplus"
    ensures category == Salary20To30K <==> ToLowerCase(input) == "salary20to30k"
    ensures category == Salary15To20K <==> ToLowerCase(input) !in {"salary30kplus", "salary20to30k"}
  {
    LookupOr(SalaryTable, ToLowerCase(input), Salary15To20K)
  }

  const PositionTable: map<string, ProfessionalCategory> :=
    map["ceo/md" := PositionCEOMD, "seniormanagement" := PositionSeniorManagement,
        "departmenthead" := PositionDepartmentHead]

  /** Lower-cases the input and removes all whitespace before the lookup;
      always a position key, and anything outside the table is
      `PositionDepartmentHead`. */
  function MapDubaiPosition(input: string): (category: ProfessionalCategory)
    ensures !category.IsSalary()
    ensures category == PositionCEOMD <==> RemoveWhitespace(ToLowerCase(input)) == "ceo/md"
    ensures category == PositionSeniorManagement <==> RemoveWhitespace(ToLowerCase(input)) == "seniormanagement"
    ensures category == PositionDepartmentHead <==>
      RemoveWhitespace(ToLowerCase(input)) !in {"ceo/md", "seniormanagement"}
  {
    LookupOr(PositionTable, RemoveWhitespace(ToLowerCase(input)), PositionDepartmentHead)
  }

  /** Letter case does not matter to the position mapper. */
  lemma PositionMapperIgnoresCase(s: string, t: string)
    requires EqualIgnoringCase(s, t)
    ensures MapDubaiPosition(s) == MapDubaiPosition(t)
  {
    ToLowerCaseCharacterizesCase(s, t);
  }

  /** Whitespace anywhere in the input does not matter to the position
      mapper: "Senior  Management" maps like "SeniorManagement". */
  lemma PositionMapperIgnoresWhitespace(a: string, w: string, b: string)
    requires forall i :: 0 <= i < |w| ==> IsWhitespace(w[i])
    ensures MapDubaiPosition(a + w + b) == MapDubaiPosition(a + b)
  {
    LowerWithoutWhitespaceIgnoresWhitespace(a, w, b);
  }

  /** "CEO/MD", in any letter case, maps to `PositionCEOMD`. */
  lemma CeoMdExample(input: string)
    requires EqualIgnoringCase(input, "CEO/MD")
    ensures MapDubaiPosition(input) == PositionCEOMD
  {
    var key := "ceo/md";
    assert EqualIgnoringCase(input, key);
    LowerCaseOfEqualIgnoringCase(input, key);
    assert forall i :: 0 <= i < |key| ==> !IsWhitespace(key[i]);
    assert RemoveWhitespace(key) == key;
  }

  /** Spaces matter to the financial mapper: a spaced-out key, in any letter
      case, is not found. */
  lemma SpacedFinancialKeyFallsBack(input: string)
    requires EqualIgnoringCase(input, "public investment 10m plus")
    ensures MapDubaiFinancial(input) == PropertyInvestment1To2M
  {
    var key := "public investment 10m plus";
    LowerCaseOfEqualIgnoringCase(input, key);
    assert |key| == 26;
  }

  // ---------------------------------------------------------------------
  // The scorer as written
  // ---------------------------------------------------------------------

  /** `lookup || 0 * 0.5`: the full lookup, not halved. */
  function FinancialScore(criteria: DubaiGoldenVisa, category: FinancialCategory): (score: real)
    ensures score == criteria.financialCriteria.At(category)
  {
    Or(criteria.financialCriteria.At(category), 0.0 * 0.5)
  }

  /** `salary || 0 + position || 0`: the salary lookup when it is nonzero,
      otherwise the position lookup. */
  function ProfessionalBase(criteria: DubaiGoldenVisa, salary: ProfessionalCategory, position: ProfessionalCategory): (base: real)
    ensures criteria.professionalCriteria.At(salary) != 0.0 ==> base == criteria.professionalCriteria.At(salary)
    ensures criteria.professionalCriteria.At(salary) == 0.0 ==> base == criteria.professionalCriteria.At(position)
  {
    Or(Or(criteria.professionalCriteria.At(salary), 0.0 + criteria.professionalCriteria.At(position)), 0.0)
  }

  function CalculateDubaiGoldenVisaScore(user: UserInput, criteria: DubaiGoldenVisa): (s: Scores)
    ensures s.financial == criteria.financialCriteria.At(MapDubaiFinancial(user.financialCategory))
    ensures var salary := criteria.professionalCriteria.At(MapDubaiSalary(user.salaryCategory));
      var position := criteria.professionalCriteria.At(MapDubaiPosition(user.positionCategory));
      s.professional == (if salary != 0.0 then salary else position) * 0.5
    ensures s.finalScore == s.financial + s.professional
  {
    var financialKey := MapDubaiFinancial(user.financialCategory);
    var financialScore := FinancialScore(criteria, financialKey);
    var salaryKey := MapDubaiSalary(user.salaryCategory);
    var positionKey := MapDubaiPosition(user.positionCategory);
    var professionalScore := ProfessionalBase(criteria, salaryKey, positionKey) * 0.5;
    Scores(financialScore, professionalScore, financialScore + professionalScore)
  }

  /** Whenever the salary lookup is nonzero the position has no effect. */
  lemma PositionIgnoredWhenSalaryScores(user: UserInput, criteria: DubaiGoldenVisa, position: string)
    requires criteria.professionalCriteria.At(MapDubaiSalary(user.salaryCategory)) != 0.0
    ensures CalculateDubaiGoldenVisaScore(user.(positionCategory := position), criteria)
         == CalculateDubaiGoldenVisaScore(user, criteria)
  {
  }

  /** An all-zero rubric scores every profile 0. */
  lemma ZeroRubricScoresZero(user: UserInput, criteria: DubaiGoldenVisa)
    requires AllScoresZero(criteria)
    ensures CalculateDubaiGoldenVisaScore(user, criteria) == Scores(0.0, 0.0, 0.0)
  {
  }

  // ---------------------------------------------------------------------
  // The evidently intended scorer, and where the two differ
  // ---------------------------------------------------------------------

  /** Financial 50%, salary plus position 50%. */
  function IntendedDubaiScore(user: UserInput, criteria: DubaiGoldenVisa): (s: Scores)
    ensures s.financial == 0.5 * criteria.financialCriteria.At(MapDubaiFinancial(user.financialCategory))
    ensures s.professional == 0.5 * (criteria.professionalCriteria.At(MapDubaiSalary(user.salaryCategory))
                                     + criteria.professionalCriteria.At(MapDubaiPosition(user.positionCategory)))
    ensures s.finalScore == s.financial + s.professional
  {
    var financialScore := criteria.financialCriteria.At(MapDubaiFinancial(user.financialCategory)) * 0.5;
    var professionalBase := criteria.professionalCriteria.At(MapDubaiSalary(user.salaryCategory))
      + criteria.professionalCriteria.At(MapDubaiPosition(user.positionCategory));
    var professionalScore := professionalBase * 0.5;
    Scores(financialScore, professionalScore, financialScore + professionalScore)
  }

  /** The code's result exceeds the intended one by half the financial
      lookup, less half the position lookup when the salary lookup is
      nonzero; the two agree on the financial part exactly when the lookup is
      0, and on the professional part exactly when the salary or the position
      lookup is 0. */
  lemma AsWrittenVersusIntended(user: UserInput, criteria: DubaiGoldenVisa)
    ensures var f := criteria.financialCriteria.At(MapDubaiFinancial(user.financialCategory));
      var salary := criteria.professionalCriteria.At(MapDubaiSalary(user.salaryCategory));
      var position := criteria.professionalCriteria.At(MapDubaiPosition(user.positionCategory));
      var w := CalculateDubaiGoldenVisaScore(user, criteria);
      var i := IntendedDubaiScore(user, criteria);
      && w.finalScore - i.finalScore == 0.5 * f - (if salary != 0.0 then 0.5 * position else 0.0)
      && (w.financial == i.financial <==> f == 0.0)
      && (w.professional == i.professional <==> salary == 0.0 || position == 0.0)
  {
  }

  /** The worked case: the keys for public investment over 10M, salary over
      30K and CEO/MD, in any letter case, looked up as 100, 100 and 60. The
      code gives 100 + 50 = 150; the intended formula gives 50 + 80 = 130. */
  lemma PrecedenceCounterexample(user: UserInput, criteria: DubaiGoldenVisa)
    requires EqualIgnoringCase(user.financialCategory, "publicinvestment10mplus")
    requires EqualIgnoringCase(user.salaryCategory, "salary30kplus")
    requires EqualIgnoringCase(user.positionCategory, "CEO/MD")
    requires criteria.financialCriteria.PublicInvestment10MPlus == 100.0
    requires criteria.professionalCriteria.Salary30KPlus == 100.0
    requires criteria.professionalCriteria.PositionCEOMD == 60.0
    ensures CalculateDubaiGoldenVisaScore(user, criteria) == Scores(100.0, 50.0, 150.0)
    ensures IntendedDubaiScore(user, criteria) == Scores(50.0, 80.0, 130.0)
  {
    FinancialKeyExample(user.financialCategory);
    SalaryKeyExample(user.salaryCategory);
    CeoMdExample(user.positionCategory);
  }

  /** The financial key, in any letter case, maps to its category. */
  lemma FinancialKeyExample(input: string)
    requires EqualIgnoringCase(input, "publicinvestment10mplus")
    ensures MapDubaiFinancial(input) == PublicInvestment10MPlus
  {
    LowerCaseOfEqualIgnoringCase(input, "publicinvestment10mplus");
  }

  /** The salary key, in any letter case, maps to its category. */
  lemma SalaryKeyExample(input: string)
    requires EqualIgnoringCase(input, "salary30kplus")
    ensures MapDubaiSalary(input) == Salary30KPlus
  {
    LowerCaseOfEqualIgnoringCase(input, "salary30kplus");
  }
}
