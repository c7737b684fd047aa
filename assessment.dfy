/**
 * The collected answers, the required-field gate and the nested assessment
 * record that the submission builds from them.
 */
module Assessment {
  import opened Wrappers
  import opened Catalogs

  /**
   * Every answer the page collects, as the flat set of variables the form
   * leaves behind. `selectedUseCase` comes from the path radio and is `None`
   * when nothing is chosen; the rest are text inputs, selectbox and slider
   * choices (strings) and multiselect choices (lists of strings).
   */
  datatype Answers = Answers(
    selectedUseCase: Option<string>,
    name: string,
    email: string,
    linkedin: string,
    location: string,
    engineeringDiscipline: string,
    yearsExperience: string,
    previousTitle: string,
    companyIndustry: string,
    layoffDate: string,
    financialRunway: string,
    employmentStatus: string,
    jobTimeline: string,
    urgencyLevel: string,
    geographicFlexibility: string,
    industryPivot: string,
    programmingExp: string,
    programmingLanguages: seq<string>,
    pythonLevel: string,
    dataAnalysisExp: string,
    mathComfort: string,
    learningPreference: string,
    aiUnderstanding: string,
    aiToolsUsed: seq<string>,
    aiInterests: seq<string>,
    biggestConcern: string,
    studyTime: string,
    learningFormats: seq<string>,
    timelinePreference: string,
    audioContext: seq<string>,
    videoPreference: string,
    handsOnStyle: string,
    pivotMotivation: string,
    targetRoles: seq<string>,
    incomeExpectations: string,
    industryTarget: string,
    rolePreference: string,
    learningBudget: string,
    equipmentStatus: string,
    homeEnvironment: string,
    familySupport: string,
    pythonAiInterest: string,
    py4aiCourseInterest: string,
    biggestChallenge: string,
    mostExciting: string,
    idealOutcome: string)

  // The sections of the record, one datatype per nested dictionary.

  datatype PersonalInfo = PersonalInfo(
    name: string,
    email: string,
    linkedin: string,
    location: string,
    engineeringDiscipline: string,
    yearsExperience: string,
    previousTitle: string,
    companyIndustry: string,
    layoffDate: string,
    financialRunway: string)

  datatype Situation = Situation(
    employmentStatus: string,
    jobTimeline: string,
    urgencyLevel: string,
    geographicFlexibility: string,
    industryPivot: string)

  /** The chosen path and a snapshot of its catalog entry (`None` when unchosen). */
  datatype UseCase = UseCase(
    selected: Option<string>,
    details: Option<CareerPath>)

  datatype TechnicalBackground = TechnicalBackground(
    programmingExp: string,
    programmingLanguages: seq<string>,
    pythonLevel: string,
    dataAnalysisExp: string,
    mathComfort: string,
    learningPreference: string)

  datatype AiKnowledge = AiKnowledge(
    aiUnderstanding: string,
    aiToolsUsed: seq<string>,
    aiInterests: seq<string>,
    biggestConcern: string)

  datatype LearningPreferences = LearningPreferences(
    studyTime: string,
    learningFormats: seq<string>,
    timelinePreference: string,
    audioContext: seq<string>,
    videoPreference: string,
    handsOnStyle: string)

  datatype CareerGoals = CareerGoals(
    pivotMotivation: string,
    targetRoles: seq<string>,
    incomeExpectations: string,
    industryTarget: string,
    rolePreference: string)

  datatype Resources = Resources(
    learningBudget: string,
    equipmentStatus: string,
    homeEnvironment: string,
    familySupport: string)

  datatype Py4aiInterest = Py4aiInterest(
    pythonAiInterest: string,
    py4aiCourseInterest: string)

  datatype OpenResponses = OpenResponses(
    biggestChallenge: string,
    mostExciting: string,
    idealOutcome: string)

  /** One submitted assessment. */
  datatype Record = Record(
    timestamp: string,
    personalInfo: PersonalInfo,
    situation: Situation,
    useCase: UseCase,
    technicalBackground: TechnicalBackground,
    aiKnowledge: AiKnowledge,
    learningPreferences: LearningPreferences,
    careerGoals: CareerGoals,
    resources: Resources,
    py4aiInterest: Py4aiInterest,
    openResponses: OpenResponses)

  /** Python truthiness of the radio's answer: `None` and `""` are false. */
  predicate Chosen(selected: Option<string>) {
    selected.Some? && selected.value != ""
  }

  /**
   * What the path radio can hand over: nothing, or a catalog name. Looking up
   * any other name raises `KeyError`, which the page does not catch.
   */
  predicate ChoiceInCatalog(selected: Option<string>) {
    !Chosen(selected) || selected.value in UseCases
  }

  /** The five answers the gate tests, in the order it tests them. */
  function RequiredAnswers(a: Answers): seq<string> {
    [a.name, a.email, a.engineeringDiscipline, a.yearsExperience, a.previousTitle]
  }

  /**
   * The submission gate: a chain of `and` over five strings, each truthy
   * exactly when it is non-empty.
   */
  function RequiredFilled(a: Answers): (filled: bool)
    ensures filled <==> "" !in RequiredAnswers(a)
    ensures filled <==> forall i :: 0 <= i < 5 ==> |RequiredAnswers(a)[i]| > 0
  {
    a.name != "" && a.email != "" && a.engineeringDiscipline != ""
    && a.yearsExperience != "" && a.previousTitle != ""
  }

  /**
   * Of the two required selectboxes, the blank first option is the only one
   * the gate rejects: any other discipline and experience band passes once
   * the three text answers are given.
   */
  lemma BlankIsTheOnlyRejectedChoice(a: Answers, discipline: string, years: string)
    requires discipline in DisciplineOptions && years in YearsOptions
    requires a.name != "" && a.email != "" && a.previousTitle != ""
    ensures DisciplineOptions[0] == "" && YearsOptions[0] == ""
    ensures RequiredFilled(a.(engineeringDiscipline := discipline, yearsExperience := years))
        <==> discipline != DisciplineOptions[0] && years != YearsOptions[0]
  {
  }

  /** The catalog snapshot stored under `use_case.details`. */
  function Details(selected: Option<string>): (d: Option<CareerPath>)
    requires ChoiceInCatalog(selected)
    ensures d.Some? <==> selected.Some? && selected.value in UseCases
    ensures d.Some? ==> d.value == UseCases[selected.value]
  {
    if Chosen(selected) then Some(UseCases[selected.value]) else None
  }

  /** The nested record of one submission, stamped with `timestamp`. */
  function BuildRecord(a: Answers, timestamp: string): (r: Record)
    requires ChoiceInCatalog(a.selectedUseCase)
    ensures r.timestamp == timestamp
    ensures Flatten(r) == a
    ensures r.useCase.details.Some? <==> a.selectedUseCase.Some? && a.selectedUseCase.value in UseCases
    ensures r.useCase.details.Some? ==> r.useCase.details.value == UseCases[a.selectedUseCase.value]
  {
    Record(
      timestamp,
      PersonalInfo(a.name, a.email, a.linkedin, a.location, a.engineeringDiscipline,
        a.yearsExperience, a.previousTitle, a.companyIndustry, a.layoffDate, a.financialRunway),
      Situation(a.employmentStatus, a.jobTimeline, a.urgencyLevel, a.geographicFlexibility,
        a.industryPivot),
      UseCase(a.selectedUseCase, Details(a.selectedUseCase)),
      TechnicalBackground(a.programmingExp, a.programmingLanguages, a.pythonLevel,
        a.dataAnalysisExp, a.mathComfort, a.learningPreference),
      AiKnowledge(a.aiUnderstanding, a.aiToolsUsed, a.aiInterests, a.biggestConcern),
      LearningPreferences(a.studyTime, a.learningFormats, a.timelinePreference, a.audioContext,
        a.videoPreference, a.handsOnStyle),
      CareerGoals(a.pivotMotivation, a.targetRoles, a.incomeExpectations, a.industryTarget,
        a.rolePreference),
      Resources(a.learningBudget, a.equipmentStatus, a.homeEnvironment, a.familySupport),
      Py4aiInterest(a.pythonAiInterest, a.py4aiCourseInterest),
      OpenResponses(a.biggestChallenge, a.mostExciting, a.idealOutcome))
  }

  /** The answers a record was built from: every field but the timestamp and the snapshot. */
  function Flatten(r: Record): Answers {
    var p := r.personalInfo;
    var s := r.situation;
    var t := r.technicalBackground;
    var k := r.aiKnowledge;
    var l := r.learningPreferences;
    var g := r.careerGoals;
    var z := r.resources;
    var y := r.py4aiInterest;
    var o := r.openResponses;
    Answers(
      r.useCase.selected,
      p.name, p.email, p.linkedin, p.location, p.engineeringDiscipline, p.yearsExperience,
      p.previousTitle, p.companyIndustry, p.layoffDate, p.financialRunway,
      s.employmentStatus, s.jobTimeline, s.urgencyLevel, s.geographicFlexibility, s.industryPivot,
      t.programmingExp, t.programmingLanguages, t.pythonLevel, t.dataAnalysisExp, t.mathComfort,
      t.learningPreference,
      k.aiUnderstanding, k.aiToolsUsed, k.aiInterests, k.biggestConcern,
      l.studyTime, l.learningFormats, l.timelinePreference, l.audioContext, l.videoPreference,
      l.handsOnStyle,
      g.pivotMotivation, g.targetRoles, g.incomeExpectations, g.industryTarget, g.rolePreference,
      z.learningBudget, z.equipmentStatus, z.homeEnvironment, z.familySupport,
      y.pythonAiInterest, y.py4aiCourseInterest,
      o.biggestChallenge, o.mostExciting, o.idealOutcome)
  }

  /** A record whose snapshot agrees with the catalog, as every built record does. */
  predicate SnapshotConsistent(r: Record) {
    ChoiceInCatalog(r.useCase.selected) && r.useCase.details == Details(r.useCase.selected)
  }

  /**
   * Building is the inverse of flattening: a record with a consistent snapshot
   * is exactly the record built from its own answers and timestamp, so the
   * builder copies every answer and adds nothing but the stamp and the snapshot.
   */
  lemma BuildRecordOfFlatten(r: Record)
    requires SnapshotConsistent(r)
    ensures BuildRecord(Flatten(r), r.timestamp) == r
  {
  }

  /** Distinct answers (or stamps) never yield the same record. */
  lemma BuildRecordInjective(a: Answers, b: Answers, t: string, u: string)
    requires ChoiceInCatalog(a.selectedUseCase) && ChoiceInCatalog(b.selectedUseCase)
    requires BuildRecord(a, t) == BuildRecord(b, u)
    ensures a == b && t == u
  {
    assert Flatten(BuildRecord(a, t)) == a;
  }
}
