/**
 * The two static reference catalogs (career paths and timeline plans) and
 * the option lists of the form widgets whose answers the rules inspect.
 */
module Catalogs {

  /** One entry of the career-path catalog. */
  datatype CareerPath = CareerPath(
    description: string,
    goal: string,
    timeline: string,
    focus: string,
    example: string)

  /** One entry of the timeline-plan catalog. */
  datatype TimelinePlan = TimelinePlan(
    subtitle: string,
    focus: string,
    structure: seq<string>)

  /** The career-path names in catalog order: the choices of the path radio. */
  const UseCaseNames: seq<string> := [
    "Technical Translators",
    "Data-Driven Analysts",
    "Strategic Pivoteurs",
    "Practical Implementers",
    "Entrepreneur Builders",
    "Career Survivors"
  ]

  const UseCases: map<string, CareerPath> := map[
    "Technical Translators" := CareerPath(
      "Strong technical background, wants to bridge engineering and AI",
      "Become AI implementation specialists in their engineering domain",
      "6-12 months for specialization",
      "Industry-specific AI applications, technical sales, consulting",
      "Mechanical Engineer ? AI-powered predictive maintenance consultant"),
    "Data-Driven Analysts" := CareerPath(
      "Some data analysis experience, wants to go deeper into AI/ML",
      "Transition to data scientist or AI analyst roles",
      "6-18 months for comprehensive skills",
      "Statistics, machine learning, data visualization, Python proficiency",
      "Process Engineer ? Manufacturing AI Data Scientist"),
    "Strategic Pivoteurs" := CareerPath(
      "Senior engineers looking for management/strategy roles in AI",
      "AI project management, product management, strategic roles",
      "3-6 months for business understanding",
      "AI business applications, project management, strategic thinking",
      "Engineering Manager ? AI Product Strategy Director"),
    "Practical Implementers" := CareerPath(
      "Hands-on engineers wanting to implement AI in current industry",
      "Stay in industry but become the AI expert",
      "3-9 months for applied skills",
      "Industry-specific AI tools, automation, practical applications",
      "Civil Engineer ? Smart Infrastructure AI Specialist"),
    "Entrepreneur Builders" := CareerPath(
      "Want to start AI-related business or consulting practice",
      "Build AI-powered solutions or services",
      "6-18 months for comprehensive understanding",
      "Business + technical skills, market understanding, networking",
      "Aerospace Engineer ? AI-powered drone consulting startup"),
    "Career Survivors" := CareerPath(
      "Need immediate employment, AI as job security strategy",
      "Quick AI literacy for job market competitiveness",
      "1-3 months for basic competency",
      "Rapid skill acquisition, job search optimization, interview prep",
      "Recently laid-off engineer ? AI-aware technical professional")
  ]

  /** The timeline names in catalog order: the choices of the timeline selectbox. */
  const TimelineNames: seq<string> := [
    "3-Month Sprint",
    "6-Month Strategic",
    "12-Month Mastery",
    "18+ Month Evolution"
  ]

  const TimelinePlans: map<string, TimelinePlan> := map[
    "3-Month Sprint" := TimelinePlan(
      "Survival Mode - Immediate Job Needs",
      "Rapid competency, job search optimization",
      ["Week 1-2: AI fundamentals crash course",
       "Week 3-4: Industry-specific AI applications",
       "Week 5-8: Python basics + key AI tools",
       "Week 9-12: Portfolio projects, interview prep"]),
    "6-Month Strategic" := TimelinePlan(
      "Balanced Approach - Career Enhancement",
      "Comprehensive skills with practical application",
      ["Month 1: AI landscape understanding",
       "Month 2-3: Python for AI (Py4AI focus)",
       "Month 4-5: Specialized AI applications",
       "Month 6: Portfolio, networking, job search"]),
    "12-Month Mastery" := TimelinePlan(
      "Deep Transformation - Complete Career Pivot",
      "Expert-level knowledge, thought leadership",
      ["Q1: Foundation (AI + Python + Math refresh)",
       "Q2: Specialization (domain-specific AI applications)",
       "Q3: Advanced projects + networking",
       "Q4: Expertise demonstration, job placement"]),
    "18+ Month Evolution" := TimelinePlan(
      "Gradual Transition - Learning While Working",
      "Learning while working, minimal disruption",
      ["Months 1-6: Evening/weekend learning, basics",
       "Months 7-12: Skill application in current role",
       "Months 13-18: Transition planning and execution"])
  ]

  // Option lists of the widgets whose answers the submission rules read.

  const DisciplineOptions: seq<string> :=
    ["", "Mechanical", "Electrical", "Civil", "Aerospace", "Chemical", "Industrial", "Software", "Other"]

  const YearsOptions: seq<string> :=
    ["", "<2 years", "2-5 years", "5-10 years", "10-15 years", "15+ years"]

  const UrgencyOptions: seq<string> :=
    ["Just exploring", "Serious consideration", "Committed to pivot", "Desperate for any opportunity"]

  /** The AI-understanding slider, lowest first. */
  const AiUnderstandingScale: seq<string> :=
    ["Complete beginner", "Heard buzzwords", "Basic concepts", "Some understanding", "Good foundation"]

  const ConcernOptions: seq<string> :=
    ["Job displacement fears", "Too complex to learn", "Not sure where to start", "Imposter syndrome", "Keeping up with pace"]

  const FormatOptions: seq<string> :=
    ["Audio (podcasts/audiobooks)", "Video tutorials", "Text/articles", "Interactive coding", "Live workshops", "Self-paced online"]

  const VideoOptions: seq<string> :=
    ["Short clips (<10min)", "Medium sessions (10-30min)", "Long-form (30min+)", "Live streams", "Recorded lectures"]

  /** The Python-for-AI interest slider, lowest first. */
  const PythonAiInterestScale: seq<string> :=
    ["Not interested", "Curious", "Definitely want to learn", "Priority skill"]

  /** The radio offers exactly the catalog's names, each once. */
  lemma UseCaseRadioMatchesCatalog()
    ensures |UseCaseNames| == 6
    ensures forall i, j :: 0 <= i < j < |UseCaseNames| ==> UseCaseNames[i] != UseCaseNames[j]
    ensures forall n :: n in UseCases <==> n in UseCaseNames
    ensures "" !in UseCases
  {
  }

  /** The timeline selectbox offers exactly the plan catalog's names, each once. */
  lemma TimelineSelectMatchesCatalog()
    ensures |TimelineNames| == 4
    ensures forall i, j :: 0 <= i < j < |TimelineNames| ==> TimelineNames[i] != TimelineNames[j]
    ensures forall n :: n in TimelinePlans <==> n in TimelineNames
    ensures "" !in TimelinePlans
  {
  }
}
