/**
 * The rule-based personalized plan shown after a valid submission: the
 * chosen path's summary, the timeline plan with its next steps, the audio,
 * video and text content lists, the Py4AI block and the concern advice.
 * Each list the page builds by appending is given twice: a function that
 * says what it is, and the method that builds it step by step.
 */
module Recommendations {
  import opened Wrappers
  import opened Catalogs
  import opened Assessment

  // Next steps, keyed on the urgency answer.

  const Desperate := "Desperate for any opportunity"
  const Committed := "Committed to pivot"

  const DesperateSteps: seq<string> := [
    " **Priority 1:** Start daily AI news consumption (10 min/day)",
    " **Priority 2:** Begin free Python basics (Codecademy/freeCodeCamp)",
    " **Priority 3:** Update LinkedIn profile with 'AI-curious engineer' messaging"
  ]

  const CommittedSteps: seq<string> := [
    " **Week 1:** Complete AI fundamentals crash course",
    " **Week 2:** Start Py4AI or Python basics",
    " **Week 3:** Join AI engineering communities (LinkedIn/Discord)"
  ]

  const DefaultSteps: seq<string> := [
    " **This week:** Research AI applications in your engineering field",
    " **Next week:** Choose your first AI learning resource",
    " **This month:** Connect with 5 AI professionals on LinkedIn"
  ]

  // Content lists and the answers that gate them.

  const AudioFormat := "Audio (podcasts/audiobooks)"
  const VideoFormat := "Video tutorials"
  const TextFormat := "Text/articles"

  const BeginnerLevels: seq<string> := ["Complete beginner", "Heard buzzwords"]
  const PodcastDisciplines: seq<string> := ["Mechanical", "Civil", "Aerospace"]

  const AudioBeginnerItems: seq<string> := [
    "• AI for Everyone (Andrew Ng course audio)",
    "• Lex Fridman Podcast (AI episodes)",
    "• The AI Podcast by NVIDIA"
  ]
  const EngineeringPodcast := "• Engineering AI Podcast"

  const ShortClips := "Short clips (<10min)"
  const LongerVideoPrefs: seq<string> := ["Medium sessions (10-30min)", "Long-form (30min+)"]

  const ShortVideoItems: seq<string> := [
    "• Two Minute Papers (AI research)",
    "• AI Explained (quick concepts)",
    "• Python in 60 seconds series"
  ]
  const LongerVideoItems: seq<string> := [
    "• 3Blue1Brown (Neural Networks)",
    "• Sentdex Python AI tutorials",
    "• Andrew Ng's AI course videos"
  ]

  const TextBaseItems: seq<string> := [
    "• Towards Data Science (Medium)",
    "• AI research newsletters",
    "• Industry-specific AI blogs"
  ]
  const MechanicalTextItem := "• Machine Design AI articles"
  const ElectricalTextItem := "• IEEE AI publications"

  const Py4aiLevels: seq<string> := ["Definitely want to learn", "Priority skill"]

  /** One advice literal: its two lines, indented as the page's triple-quoted strings are. */
  function Advice(check: string, action: string): string {
    var indent := "                ";
    "\n" + indent + "**Reality Check:** " + check + "\n" + indent + "**Action:** " + action + "\n" + indent
  }

  const ConcernTable: map<string, string> := map[
    "Job displacement fears" := Advice(
      "AI amplifies human capability rather than replacing it entirely. Engineers who understand AI become invaluable.",
      "Focus on becoming the AI-savvy engineer in your field rather than competing against AI."),
    "Too complex to learn" := Advice(
      "You already mastered complex engineering concepts. AI concepts follow similar logical patterns.",
      "Start with applications in your field - you'll see familiar engineering principles in new contexts."),
    "Not sure where to start" := Advice(
      "You've just created a personalized starting plan above!",
      "Follow your 3-month sprint plan, starting with the immediate next steps listed above."),
    "Imposter syndrome" := Advice(
      "Your engineering background gives you problem-solving skills that many AI enthusiasts lack.",
      "Remember you're adding AI to your engineering expertise, not starting from zero."),
    "Keeping up with pace" := Advice(
      "Focus on fundamentals first. The core concepts evolve slowly; applications evolve quickly.",
      "Master the basics thoroughly, then you can adapt to new applications easily.")
  ]

  /** Three steps for every urgency: one list per named bucket, a default for the rest. */
  function NextStepsFor(urgency: string): (steps: seq<string>)
    ensures |steps| == 3
    ensures steps == DesperateSteps <==> urgency == Desperate
    ensures steps == CommittedSteps <==> urgency == Committed
    ensures steps == DefaultSteps <==> urgency != Desperate && urgency != Committed
  {
    if urgency == Desperate then DesperateSteps
    else if urgency == Committed then CommittedSteps
    else DefaultSteps
  }

  method CollectNextSteps(urgency: string) returns (steps: seq<string>)
    ensures steps == NextStepsFor(urgency)
  {
    steps := [];
    if urgency == Desperate {
      steps := steps + DesperateSteps;
    } else if urgency == Committed {
      steps := steps + CommittedSteps;
    } else {
      steps := steps + DefaultSteps;
    }
  }

  /**
   * Audio items, or `None` (the "not preferred" note) when audio is not
   * among the formats: the beginner items iff the understanding is one of the
   * two lowest levels, then the podcast iff the discipline is a listed one.
   */
  function AudioFor(formats: seq<string>, understanding: string, discipline: string): (recs: Option<seq<string>>)
    ensures recs.Some? <==> AudioFormat in formats
    ensures recs.Some? ==>
      |recs.value| == (if understanding in BeginnerLevels then 3 else 0) + (if discipline in PodcastDisciplines then 1 else 0)
    ensures recs.Some? ==>
      (understanding in BeginnerLevels <==> |recs.value| >= 3 && recs.value[..3] == AudioBeginnerItems)
    ensures recs.Some? ==> (discipline in PodcastDisciplines <==> EngineeringPodcast in recs.value)
    ensures recs.Some? && discipline in PodcastDisciplines ==> recs.value[|recs.value| - 1] == EngineeringPodcast
  {
    if AudioFormat !in formats then None
    else
      Some((if understanding in BeginnerLevels then AudioBeginnerItems else [])
        + (if discipline in PodcastDisciplines then [EngineeringPodcast] else []))
  }

  method CollectAudio(formats: seq<string>, understanding: string, discipline: string)
    returns (recs: Option<seq<string>>)
    ensures recs == AudioFor(formats, understanding, discipline)
  {
    if AudioFormat !in formats {
      return None;
    }
    var items: seq<string> := [];
    if understanding in BeginnerLevels {
      items := items + AudioBeginnerItems;
    }
    ghost var beginnerPart := items;
    assert beginnerPart == if understanding in BeginnerLevels then AudioBeginnerItems else [];
    if discipline in PodcastDisciplines {
      items := items + [EngineeringPodcast];
    }
    assert items == beginnerPart + (if discipline in PodcastDisciplines then [EngineeringPodcast] else []);
    recs := Some(items);
  }

  /**
   * Video items, or `None` when video is not among the formats: the short
   * list for short clips, the longer list for medium or long sessions,
   * nothing for any other preference.
   */
  function VideoFor(formats: seq<string>, preference: string): (recs: Option<seq<string>>)
    ensures recs.Some? <==> VideoFormat in formats
    ensures recs.Some? ==> (recs.value == ShortVideoItems <==> preference == ShortClips)
    ensures recs.Some? ==> (recs.value == LongerVideoItems <==> preference in LongerVideoPrefs)
    ensures recs.Some? ==> (recs.value == [] <==> preference != ShortClips && preference !in LongerVideoPrefs)
  {
    if VideoFormat !in formats then None
    else if preference == ShortClips then Some(ShortVideoItems)
    else if preference in LongerVideoPrefs then Some(LongerVideoItems)
    else Some([])
  }

  method CollectVideo(formats: seq<string>, preference: string) returns (recs: Option<seq<string>>)
    ensures recs == VideoFor(formats, preference)
  {
    if VideoFormat !in formats {
      return None;
    }
    var items: seq<string> := [];
    if preference == ShortClips {
      items := items + ShortVideoItems;
      assert items == ShortVideoItems;
    } else if preference in LongerVideoPrefs {
      items := items + LongerVideoItems;
      assert items == LongerVideoItems;
    }
    recs := Some(items);
  }

  /**
   * Text items, or `None` when text is not among the formats: the three base
   * items first, then one discipline-specific item for Mechanical or Electrical.
   */
  function TextFor(formats: seq<string>, discipline: string): (recs: Option<seq<string>>)
    ensures recs.Some? <==> TextFormat in formats
    ensures recs.Some? ==>
      |recs.value| == 3 + (if discipline == "Mechanical" || discipline == "Electrical" then 1 else 0)
    ensures recs.Some? ==> recs.value[..3] == TextBaseItems
    ensures recs.Some? && discipline == "Mechanical" ==> recs.value[3] == MechanicalTextItem
    ensures recs.Some? && discipline == "Electrical" ==> recs.value[3] == ElectricalTextItem
  {
    if TextFormat !in formats then None
    else if discipline == "Mechanical" then Some(TextBaseItems + [MechanicalTextItem])
    else if discipline == "Electrical" then Some(TextBaseItems + [ElectricalTextItem])
    else Some(TextBaseItems)
  }

  method CollectText(formats: seq<string>, discipline: string) returns (recs: Option<seq<string>>)
    ensures recs == TextFor(formats, discipline)
  {
    if TextFormat !in formats {
      return None;
    }
    var items := TextBaseItems;
    if discipline == "Mechanical" {
      items := items + [MechanicalTextItem];
    } else if discipline == "Electrical" {
      items := items + [ElectricalTextItem];
    }
    recs := Some(items);
  }

  /** The Py4AI recommendation, which quotes the study time and the discipline. */
  datatype Py4aiBlock = Py4aiBlock(studyTime: string, discipline: string)

  function Py4aiFor(interest: string, studyTime: string, discipline: string): (b: Option<Py4aiBlock>)
    ensures b.Some? <==> interest == "Definitely want to learn" || interest == "Priority skill"
    ensures b.Some? ==> b.value.studyTime == studyTime && b.value.discipline == discipline
  {
    if interest in Py4aiLevels then Some(Py4aiBlock(studyTime, discipline)) else None
  }

  /** Advice is shown exactly for the table's keys, and it is that key's entry. */
  function ConcernAdviceFor(concern: string): (advice: Option<string>)
    ensures advice.Some? <==> concern in ConcernTable
    ensures advice.Some? ==> advice.value == ConcernTable[concern]
  {
    if concern != "" && concern in ConcernTable then Some(ConcernTable[concern]) else None
  }

  /** Every choice of the concern selectbox has advice, and nothing else does. */
  lemma ConcernTableMatchesOptions()
    ensures forall c :: c in ConcernTable <==> c in ConcernOptions
    ensures forall i :: 0 <= i < |ConcernOptions| ==> ConcernAdviceFor(ConcernOptions[i]).Some?
  {
  }

  /**
   * On the AI-understanding slider, the beginner audio items go exactly to
   * the two lowest levels.
   */
  lemma BeginnerItemsForLowestLevels(i: nat)
    requires i < |AiUnderstandingScale|
    ensures AiUnderstandingScale[i] in BeginnerLevels <==> i < 2
  {
  }

  /** On the Python-for-AI slider, the Py4AI block is shown exactly for the upper half. */
  lemma Py4aiForUpperHalf(i: nat, studyTime: string, discipline: string)
    requires i < |PythonAiInterestScale|
    ensures Py4aiFor(PythonAiInterestScale[i], studyTime, discipline).Some? <==> i >= 2
  {
  }

  /** Of the urgency choices, the two lowest get the default steps. */
  lemma NextStepsByUrgencyOption()
    ensures NextStepsFor(UrgencyOptions[0]) == DefaultSteps
    ensures NextStepsFor(UrgencyOptions[1]) == DefaultSteps
    ensures NextStepsFor(UrgencyOptions[2]) == CommittedSteps
    ensures NextStepsFor(UrgencyOptions[3]) == DesperateSteps
  {
  }

  /**
   * The three content formats the plan reacts to are choices of the format
   * multiselect; the rest of its choices get no list.
   */
  lemma ContentFormatsAreOptions()
    ensures AudioFormat == FormatOptions[0]
    ensures VideoFormat == FormatOptions[1]
    ensures TextFormat == FormatOptions[2]
  {
  }

  /**
   * Once video is a chosen format, the video selectbox splits three ways:
   * its first choice gets the short list, the next two the longer list, and
   * the last two an empty list.
   */
  lemma VideoOptionsSplit(formats: seq<string>, preference: string)
    requires VideoFormat in formats && preference in VideoOptions
    ensures preference == VideoOptions[0] ==> VideoFor(formats, preference) == Some(ShortVideoItems)
    ensures preference in VideoOptions[1..3] ==> VideoFor(formats, preference) == Some(LongerVideoItems)
    ensures preference in VideoOptions[3..] ==> VideoFor(formats, preference) == Some([])
  {
  }

  /** The timeline plan together with the next steps rendered beside it. */
  datatype TimelineSection = TimelineSection(name: string, plan: TimelinePlan, nextSteps: seq<string>)

  /** What the personalized plan shows; each `None` is a section left out or replaced by its note. */
  datatype Plan = Plan(
    path: Option<(string, CareerPath)>,
    timeline: Option<TimelineSection>,
    audio: Option<seq<string>>,
    video: Option<seq<string>>,
    text: Option<seq<string>>,
    py4ai: Option<Py4aiBlock>,
    concernAdvice: Option<string>)

  /** What the timeline selectbox can hand over; any other name raises `KeyError`. */
  predicate TimelineInCatalog(timeline: string) {
    timeline == "" || timeline in TimelinePlans
  }

  /** The plan for a set of answers. */
  function PlanFor(a: Answers): (p: Plan)
    requires ChoiceInCatalog(a.selectedUseCase) && TimelineInCatalog(a.timelinePreference)
    ensures p.path.Some? <==> a.selectedUseCase.Some? && a.selectedUseCase.value in UseCases
    ensures p.path.Some? ==> p.path.value == (a.selectedUseCase.value, UseCases[a.selectedUseCase.value])
    ensures p.timeline.Some? <==> a.timelinePreference in TimelinePlans
    ensures p.timeline.Some? ==> p.timeline.value.name == a.timelinePreference
    ensures p.timeline.Some? ==> p.timeline.value.plan == TimelinePlans[a.timelinePreference]
    ensures p.timeline.Some? ==> p.timeline.value.nextSteps == NextStepsFor(a.urgencyLevel)
    ensures p.audio == AudioFor(a.learningFormats, a.aiUnderstanding, a.engineeringDiscipline)
    ensures p.video == VideoFor(a.learningFormats, a.videoPreference)
    ensures p.text == TextFor(a.learningFormats, a.engineeringDiscipline)
    ensures p.py4ai == Py4aiFor(a.pythonAiInterest, a.studyTime, a.engineeringDiscipline)
    ensures p.concernAdvice == ConcernAdviceFor(a.biggestConcern)
  {
    Plan(
      if Chosen(a.selectedUseCase) then Some((a.selectedUseCase.value, UseCases[a.selectedUseCase.value])) else None,
      if a.timelinePreference != "" then
        Some(TimelineSection(a.timelinePreference, TimelinePlans[a.timelinePreference], NextStepsFor(a.urgencyLevel)))
      else None,
      AudioFor(a.learningFormats, a.aiUnderstanding, a.engineeringDiscipline),
      VideoFor(a.learningFormats, a.videoPreference),
      TextFor(a.learningFormats, a.engineeringDiscipline),
      Py4aiFor(a.pythonAiInterest, a.studyTime, a.engineeringDiscipline),
      ConcernAdviceFor(a.biggestConcern))
  }

  /** Renders the plan section by section, in page order. */
  method RenderPlan(a: Answers) returns (p: Plan)
    requires ChoiceInCatalog(a.selectedUseCase) && TimelineInCatalog(a.timelinePreference)
    ensures p == PlanFor(a)
  {
    var path: Option<(string, CareerPath)> := None;
    if Chosen(a.selectedUseCase) {
      path := Some((a.selectedUseCase.value, UseCases[a.selectedUseCase.value]));
    }
    var timeline: Option<TimelineSection> := None;
    if a.timelinePreference != "" {
      var steps := CollectNextSteps(a.urgencyLevel);
      timeline := Some(TimelineSection(a.timelinePreference, TimelinePlans[a.timelinePreference], steps));
    }
    var audio := CollectAudio(a.learningFormats, a.aiUnderstanding, a.engineeringDiscipline);
    var video := CollectVideo(a.learningFormats, a.videoPreference);
    var text := CollectText(a.learningFormats, a.engineeringDiscipline);
    p := Plan(path, timeline, audio, video, text,
      Py4aiFor(a.pythonAiInterest, a.studyTime, a.engineeringDiscipline),
      ConcernAdviceFor(a.biggestConcern));
  }
}
