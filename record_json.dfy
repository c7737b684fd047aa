/**
 * The dictionary shape of an assessment record (the value that is appended
 * to the archive and later read back by the sidebar), with a decoder that
 * inverts it: archiving a record loses none of its fields.
 */
module RecordJson {
  import opened Wrappers
  import opened Json
  import opened Catalogs
  import opened Assessment

  function StrList(xs: seq<string>): (j: Json)
    ensures j.JArr? && |j.items| == |xs|
    ensures forall i :: 0 <= i < |xs| ==> j.items[i] == JStr(xs[i])
  {
    JArr(seq(|xs|, i requires 0 <= i < |xs| => JStr(xs[i])))
  }

  /** Reads back a list of strings; `None` when some item is not a string. */
  function StrItems(items: seq<Json>): (r: Option<seq<string>>)
    ensures r.Some? <==> forall i :: 0 <= i < |items| ==> items[i].JStr?
    ensures r.Some? ==> |r.value| == |items| && forall i :: 0 <= i < |items| ==> items[i] == JStr(r.value[i])
  {
    if items == [] then Some([])
    else if !items[0].JStr? then None
    else match StrItems(items[1..])
      case None => None
      case Some(rest) => Some([items[0].s] + rest)
  }

  lemma StrListRoundTrip(xs: seq<string>)
    ensures StrItems(StrList(xs).items) == Some(xs)
  {
    var r := StrItems(StrList(xs).items);
    assert r.Some?;
    assert |r.value| == |xs|;
    forall i | 0 <= i < |xs| ensures r.value[i] == xs[i] {
      assert StrList(xs).items[i] == JStr(xs[i]);
    }
    assert r.value == xs;
  }

  function GetStr(m: map<string, Json>, key: string): Option<string> {
    if key in m && m[key].JStr? then Some(m[key].s) else None
  }

  function GetStrList(m: map<string, Json>, key: string): Option<seq<string>> {
    if key in m && m[key].JArr? then StrItems(m[key].items) else None
  }

  function GetObj(m: map<string, Json>, key: string): Option<map<string, Json>> {
    if key in m && m[key].JObj? then Some(m[key].fields) else None
  }

  function OptStr(s: Option<string>): Json {
    match s
    case None => JNull
    case Some(v) => JStr(v)
  }

  function CareerPathJson(c: CareerPath): Json {
    JObj(map[
      "description" := JStr(c.description),
      "goal" := JStr(c.goal),
      "timeline" := JStr(c.timeline),
      "focus" := JStr(c.focus),
      "example" := JStr(c.example)])
  }

  function PersonalInfoJson(p: PersonalInfo): Json {
    JObj(map[
      "name" := JStr(p.name),
      "email" := JStr(p.email),
      "linkedin" := JStr(p.linkedin),
      "location" := JStr(p.location),
      "engineering_discipline" := JStr(p.engineeringDiscipline),
      "years_experience" := JStr(p.yearsExperience),
      "previous_title" := JStr(p.previousTitle),
      "company_industry" := JStr(p.companyIndustry),
      "layoff_date" := JStr(p.layoffDate),
      "financial_runway" := JStr(p.financialRunway)])
  }

  function SituationJson(s: Situation): Json {
    JObj(map[
      "employment_status" := JStr(s.employmentStatus),
      "job_timeline" := JStr(s.jobTimeline),
      "urgency_level" := JStr(s.urgencyLevel),
      "geographic_flexibility" := JStr(s.geographicFlexibility),
      "industry_pivot" := JStr(s.industryPivot)])
  }

  function UseCaseJson(u: UseCase): Json {
    JObj(map[
      "selected" := OptStr(u.selected),
      "details" := match u.details
        case None => JNull
        case Some(c) => CareerPathJson(c)])
  }

  function TechnicalJson(t: TechnicalBackground): Json {
    JObj(map[
      "programming_exp" := JStr(t.programmingExp),
      "programming_languages" := StrList(t.programmingLanguages),
      "python_level" := JStr(t.pythonLevel),
      "data_analysis_exp" := JStr(t.dataAnalysisExp),
      "math_comfort" := JStr(t.mathComfort),
      "learning_preference" := JStr(t.learningPreference)])
  }

  function AiKnowledgeJson(k: AiKnowledge): Json {
    JObj(map[
      "ai_understanding" := JStr(k.aiUnderstanding),
      "ai_tools_used" := StrList(k.aiToolsUsed),
      "ai_interests" := StrList(k.aiInterests),
      "biggest_concern" := JStr(k.biggestConcern)])
  }

  function LearningJson(l: LearningPreferences): Json {
    JObj(map[
      "study_time" := JStr(l.studyTime),
      "learning_formats" := StrList(l.learningFormats),
      "timeline_preference" := JStr(l.timelinePreference),
      "audio_context" := StrList(l.audioContext),
      "video_preference" := JStr(l.videoPreference),
      "hands_on_style" := JStr(l.handsOnStyle)])
  }

  function CareerGoalsJson(g: CareerGoals): Json {
    JObj(map[
      "pivot_motivation" := JStr(g.pivotMotivation),
      "target_roles" := StrList(g.targetRoles),
      "income_expectations" := JStr(g.incomeExpectations),
      "industry_target" := JStr(g.industryTarget),
      "role_preference" := JStr(g.rolePreference)])
  }

  function ResourcesJson(z: Resources): Json {
    JObj(map[
      "learning_budget" := JStr(z.learningBudget),
      "equipment_status" := JStr(z.equipmentStatus),
      "home_environment" := JStr(z.homeEnvironment),
      "family_support" := JStr(z.familySupport)])
  }

  function Py4aiJson(y: Py4aiInterest): Json {
    JObj(map[
      "python_ai_interest" := JStr(y.pythonAiInterest),
      "py4ai_course_interest" := JStr(y.py4aiCourseInterest)])
  }

  function OpenResponsesJson(o: OpenResponses): Json {
    JObj(map[
      "biggest_challenge" := JStr(o.biggestChallenge),
      "most_exciting" := JStr(o.mostExciting),
      "ideal_outcome" := JStr(o.idealOutcome)])
  }

  /** The dictionary literal the builder writes, one nested dict per section. */
  function ToJson(r: Record): (j: Json)
    ensures j.JObj? && "use_case" in j.fields && j.fields["use_case"].JObj?
    ensures "selected" in j.fields["use_case"].fields
    ensures j.fields["use_case"].fields["selected"] == OptStr(r.useCase.selected)
  {
    JObj(map[
      "timestamp" := JStr(r.timestamp),
      "personal_info" := PersonalInfoJson(r.personalInfo),
      "situation" := SituationJson(r.situation),
      "use_case" := UseCaseJson(r.useCase),
      "technical_background" := TechnicalJson(r.technicalBackground),
      "ai_knowledge" := AiKnowledgeJson(r.aiKnowledge),
      "learning_preferences" := LearningJson(r.learningPreferences),
      "career_goals" := CareerGoalsJson(r.careerGoals),
      "resources" := ResourcesJson(r.resources),
      "py4ai_interest" := Py4aiJson(r.py4aiInterest),
      "open_responses" := OpenResponsesJson(r.openResponses)])
  }

  function CareerPathFromJson(j: Json): Option<CareerPath> {
    if !j.JObj? then None
    else
      var m := j.fields;
      var description :- GetStr(m, "description");
      var goal :- GetStr(m, "goal");
      var timeline :- GetStr(m, "timeline");
      var focus :- GetStr(m, "focus");
      var example :- GetStr(m, "example");
      Some(CareerPath(description, goal, timeline, focus, example))
  }

  function PersonalInfoFromJson(m: map<string, Json>): Option<PersonalInfo> {
    var name :- GetStr(m, "name");
    var email :- GetStr(m, "email");
    var linkedin :- GetStr(m, "linkedin");
    var location :- GetStr(m, "location");
    var discipline :- GetStr(m, "engineering_discipline");
    var years :- GetStr(m, "years_experience");
    var title :- GetStr(m, "previous_title");
    var company :- GetStr(m, "company_industry");
    var layoff :- GetStr(m, "layoff_date");
    var runway :- GetStr(m, "financial_runway");
    Some(PersonalInfo(name, email, linkedin, location, discipline, years, title, company, layoff, runway))
  }

  function SituationFromJson(m: map<string, Json>): Option<Situation> {
    var status :- GetStr(m, "employment_status");
    var timeline :- GetStr(m, "job_timeline");
    var urgency :- GetStr(m, "urgency_level");
    var geo :- GetStr(m, "geographic_flexibility");
    var pivot :- GetStr(m, "industry_pivot");
    Some(Situation(status, timeline, urgency, geo, pivot))
  }

  function UseCaseFromJson(m: map<string, Json>): Option<UseCase> {
    if "selected" !in m || "details" !in m then None
    else
      var sel := m["selected"];
      var det := m["details"];
      var selected: Option<Option<string>> :=
        if sel.JNull? then Some(None) else if sel.JStr? then Some(Some(sel.s)) else None;
      var details: Option<Option<CareerPath>> :=
        if det.JNull? then Some(None)
        else match CareerPathFromJson(det)
          case None => None
          case Some(c) => Some(Some(c));
      var s :- selected;
      var d :- details;
      Some(UseCase(s, d))
  }

  function TechnicalFromJson(m: map<string, Json>): Option<TechnicalBackground> {
    var exp :- GetStr(m, "programming_exp");
    var langs :- GetStrList(m, "programming_languages");
    var python :- GetStr(m, "python_level");
    var data :- GetStr(m, "data_analysis_exp");
    var math :- GetStr(m, "math_comfort");
    var pref :- GetStr(m, "learning_preference");
    Some(TechnicalBackground(exp, langs, python, data, math, pref))
  }

  function AiKnowledgeFromJson(m: map<string, Json>): Option<AiKnowledge> {
    var understanding :- GetStr(m, "ai_understanding");
    var tools :- GetStrList(m, "ai_tools_used");
    var interests :- GetStrList(m, "ai_interests");
    var concern :- GetStr(m, "biggest_concern");
    Some(AiKnowledge(understanding, tools, interests, concern))
  }

  function LearningFromJson(m: map<string, Json>): Option<LearningPreferences> {
    var study :- GetStr(m, "study_time");
    var formats :- GetStrList(m, "learning_formats");
    var timeline :- GetStr(m, "timeline_preference");
    var audio :- GetStrList(m, "audio_context");
    var video :- GetStr(m, "video_preference");
    var style :- GetStr(m, "hands_on_style");
    Some(LearningPreferences(study, formats, timeline, audio, video, style))
  }

  function CareerGoalsFromJson(m: map<string, Json>): Option<CareerGoals> {
    var motivation :- GetStr(m, "pivot_motivation");
    var roles :- GetStrList(m, "target_roles");
    var income :- GetStr(m, "income_expectations");
    var industry :- GetStr(m, "industry_target");
    var role :- GetStr(m, "role_preference");
    Some(CareerGoals(motivation, roles, income, industry, role))
  }

  function ResourcesFromJson(m: map<string, Json>): Option<Resources> {
    var budget :- GetStr(m, "learning_budget");
    var equipment :- GetStr(m, "equipment_status");
    var home :- GetStr(m, "home_environment");
    var family :- GetStr(m, "family_support");
    Some(Resources(budget, equipment, home, family))
  }

  function Py4aiFromJson(m: map<string, Json>): Option<Py4aiInterest> {
    var interest :- GetStr(m, "python_ai_interest");
    var course :- GetStr(m, "py4ai_course_interest");
    Some(Py4aiInterest(interest, course))
  }

  function OpenResponsesFromJson(m: map<string, Json>): Option<OpenResponses> {
    var challenge :- GetStr(m, "biggest_challenge");
    var exciting :- GetStr(m, "most_exciting");
    var outcome :- GetStr(m, "ideal_outcome");
    Some(OpenResponses(challenge, exciting, outcome))
  }

  function PersonalSection(m: map<string, Json>): Option<PersonalInfo> {
    var sm :- GetObj(m, "personal_info");
    PersonalInfoFromJson(sm)
  }

  function SituationSection(m: map<string, Json>): Option<Situation> {
    var sm :- GetObj(m, "situation");
    SituationFromJson(sm)
  }

  function UseCaseSection(m: map<string, Json>): Option<UseCase> {
    var sm :- GetObj(m, "use_case");
    UseCaseFromJson(sm)
  }

  function TechnicalSection(m: map<string, Json>): Option<TechnicalBackground> {
    var sm :- GetObj(m, "technical_background");
    TechnicalFromJson(sm)
  }

  function AiKnowledgeSection(m: map<string, Json>): Option<AiKnowledge> {
    var sm :- GetObj(m, "ai_knowledge");
    AiKnowledgeFromJson(sm)
  }

  function LearningSection(m: map<string, Json>): Option<LearningPreferences> {
    var sm :- GetObj(m, "learning_preferences");
    LearningFromJson(sm)
  }

  function CareerGoalsSection(m: map<string, Json>): Option<CareerGoals> {
    var sm :- GetObj(m, "career_goals");
    CareerGoalsFromJson(sm)
  }

  function ResourcesSection(m: map<string, Json>): Option<Resources> {
    var sm :- GetObj(m, "resources");
    ResourcesFromJson(sm)
  }

  function Py4aiSection(m: map<string, Json>): Option<Py4aiInterest> {
    var sm :- GetObj(m, "py4ai_interest");
    Py4aiFromJson(sm)
  }

  function OpenResponsesSection(m: map<string, Json>): Option<OpenResponses> {
    var sm :- GetObj(m, "open_responses");
    OpenResponsesFromJson(sm)
  }

  /** Reads an archived value back as a record; `None` when it does not have the record's shape. */
  function FromJson(j: Json): Option<Record> {
    if !j.JObj? then None
    else
      var m := j.fields;
      var timestamp :- GetStr(m, "timestamp");
      var p :- PersonalSection(m);
      var s :- SituationSection(m);
      var u :- UseCaseSection(m);
      var t :- TechnicalSection(m);
      var k :- AiKnowledgeSection(m);
      var l :- LearningSection(m);
      var g :- CareerGoalsSection(m);
      var z :- ResourcesSection(m);
      var y :- Py4aiSection(m);
      var o :- OpenResponsesSection(m);
      Some(Record(timestamp, p, s, u, t, k, l, g, z, y, o))
  }

  lemma CareerPathRoundTrip(c: CareerPath)
    ensures CareerPathFromJson(CareerPathJson(c)) == Some(c)
  {
  }

  lemma PersonalInfoRoundTrip(p: PersonalInfo)
    ensures PersonalInfoFromJson(PersonalInfoJson(p).fields) == Some(p)
  {
  }

  lemma SituationRoundTrip(s: Situation)
    ensures SituationFromJson(SituationJson(s).fields) == Some(s)
  {
  }

  lemma UseCaseRoundTrip(u: UseCase)
    ensures UseCaseFromJson(UseCaseJson(u).fields) == Some(u)
  {
    if u.details.Some? {
      CareerPathRoundTrip(u.details.value);
    }
  }

  lemma TechnicalRoundTrip(t: TechnicalBackground)
    ensures TechnicalFromJson(TechnicalJson(t).fields) == Some(t)
  {
    StrListRoundTrip(t.programmingLanguages);
  }

  lemma AiKnowledgeRoundTrip(k: AiKnowledge)
    ensures AiKnowledgeFromJson(AiKnowledgeJson(k).fields) == Some(k)
  {
    StrListRoundTrip(k.aiToolsUsed);
    StrListRoundTrip(k.aiInterests);
  }

  lemma LearningRoundTrip(l: LearningPreferences)
    ensures LearningFromJson(LearningJson(l).fields) == Some(l)
  {
    StrListRoundTrip(l.learningFormats);
    StrListRoundTrip(l.audioContext);
  }

  lemma CareerGoalsRoundTrip(g: CareerGoals)
    ensures CareerGoalsFromJson(CareerGoalsJson(g).fields) == Some(g)
  {
    StrListRoundTrip(g.targetRoles);
  }

  lemma ResourcesRoundTrip(z: Resources)
    ensures ResourcesFromJson(ResourcesJson(z).fields) == Some(z)
  {
  }

  lemma Py4aiRoundTrip(y: Py4aiInterest)
    ensures Py4aiFromJson(Py4aiJson(y).fields) == Some(y)
  {
  }

  lemma OpenResponsesRoundTrip(o: OpenResponses)
    ensures OpenResponsesFromJson(OpenResponsesJson(o).fields) == Some(o)
  {
  }

  // One lemma per section keeps each lookup in the eleven-key record map small.

  lemma PersonalSectionRoundTrip(r: Record)
    ensures PersonalSection(ToJson(r).fields) == Some(r.personalInfo)
  {
    PersonalInfoRoundTrip(r.personalInfo);
  }

  lemma SituationSectionRoundTrip(r: Record)
    ensures SituationSection(ToJson(r).fields) == Some(r.situation)
  {
    SituationRoundTrip(r.situation);
  }

  lemma UseCaseSectionRoundTrip(r: Record)
    ensures UseCaseSection(ToJson(r).fields) == Some(r.useCase)
  {
    UseCaseRoundTrip(r.useCase);
  }

  lemma TechnicalSectionRoundTrip(r: Record)
    ensures TechnicalSection(ToJson(r).fields) == Some(r.technicalBackground)
  {
    TechnicalRoundTrip(r.technicalBackground);
  }

  lemma AiKnowledgeSectionRoundTrip(r: Record)
    ensures AiKnowledgeSection(ToJson(r).fields) == Some(r.aiKnowledge)
  {
    AiKnowledgeRoundTrip(r.aiKnowledge);
  }

  lemma LearningSectionRoundTrip(r: Record)
    ensures LearningSection(ToJson(r).fields) == Some(r.learningPreferences)
  {
    LearningRoundTrip(r.learningPreferences);
  }

  lemma CareerGoalsSectionRoundTrip(r: Record)
    ensures CareerGoalsSection(ToJson(r).fields) == Some(r.careerGoals)
  {
    CareerGoalsRoundTrip(r.careerGoals);
  }

  lemma ResourcesSectionRoundTrip(r: Record)
    ensures ResourcesSection(ToJson(r).fields) == Some(r.resources)
  {
    ResourcesRoundTrip(r.resources);
  }

  lemma Py4aiSectionRoundTrip(r: Record)
    ensures Py4aiSection(ToJson(r).fields) == Some(r.py4aiInterest)
  {
    Py4aiRoundTrip(r.py4aiInterest);
  }

  lemma OpenResponsesSectionRoundTrip(r: Record)
    ensures OpenResponsesSection(ToJson(r).fields) == Some(r.openResponses)
  {
    OpenResponsesRoundTrip(r.openResponses);
  }

  lemma TimestampRoundTrip(r: Record)
    ensures GetStr(ToJson(r).fields, "timestamp") == Some(r.timestamp)
  {
  }

  /** Every field of a record, multi-choice lists included, survives the archive. */
  lemma RecordRoundTrip(r: Record)
    ensures FromJson(ToJson(r)) == Some(r)
  {
    TimestampRoundTrip(r);
    PersonalSectionRoundTrip(r);
    SituationSectionRoundTrip(r);
    UseCaseSectionRoundTrip(r);
    TechnicalSectionRoundTrip(r);
    AiKnowledgeSectionRoundTrip(r);
    LearningSectionRoundTrip(r);
    CareerGoalsSectionRoundTrip(r);
    ResourcesSectionRoundTrip(r);
    Py4aiSectionRoundTrip(r);
    OpenResponsesSectionRoundTrip(r);
  }
}
