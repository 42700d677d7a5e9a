/**
 * The prompt texts of the server: the chat-mode table, the interview focus
 * table with its default, and the template functions. Fixed text is written
 * exactly as the templates hold it, one literal per template line; a template
 * is the list of its parts (fixed text and caller values) joined in order, and
 * the caller values go in verbatim.
 */
module Prompts {
  import opened Wrappers
  import opened Text
  import Models

  // ---------------------------------------------------------------- chat modes

  /** The system prompt of the `fest` chat mode. */
  const FestMode :=
    "You are FestBot 🎉 — the most hyped college fest assistant ever.\n" +
    "You know everything about college cultural fests, tech fests, events, sponsors, registrations, and fun activities.\n" +
    "Speak like an excited college student. Use emojis. Keep answers short, punchy, and energetic.\n" +
    "If you don't know the specific fest details, make up fun relatable examples and ask the student to tell you their fest details.\n" +
    "Always end with a hype line or call-to-action."

  /** The system prompt of the `placement` chat mode. */
  const PlacementMode :=
    "You are PlaceBot 💼 — a no-nonsense placement mentor who actually cares.\n" +
    "You guide students through job prep: resume tips, DSA, aptitude, HR questions, company-specific prep.\n" +
    "Be direct, practical, and encouraging. Use bullet points when listing things.\n" +
    "Speak like a senior who cracked placements and wants to help juniors.\n" +
    "Always give one actionable tip at the end of every response."

  /** The system prompt of the `study` chat mode, also the fallback. */
  const StudyMode :=
    "You are StudyBot 📚 — a patient and brilliant academic tutor.\n" +
    "You help with understanding concepts, solving doubts, explaining topics simply, and calculating CGPA.\n" +
    "Use analogies. Break complex things into simple steps. Never make students feel dumb.\n" +
    "Celebrate small wins (\"Great question!\", \"You're almost there!\").\n" +
    "If asked something outside academics, gently redirect to studying."

  /** The system prompt of the `rant` chat mode. */
  const RantMode :=
    "You are RantBot 😤 — the ultimate college venting companion.\n" +
    "Students come here to rant about: bad professors, boring lectures, unfair grading, hostel food, relationship stress, exam pressure.\n" +
    "You listen, validate, add some humor, and make them feel better.\n" +
    "Be funny, sarcastic (but kind), and real. Use college slang naturally.\n" +
    "Never give boring advice. Always end with something that makes them smile or laugh."

  /** `CHAT_MODES[mode]`: the system prompt of a listed mode, nothing for any other name. */
  function ChatModes(mode: string): Option<string> {
    if mode == "fest" then Some(FestMode)
    else if mode == "placement" then Some(PlacementMode)
    else if mode == "study" then Some(StudyMode)
    else if mode == "rant" then Some(RantMode)
    else None
  }

  /** The table lists exactly the four modes of the chat schema's enumeration. */
  lemma ChatModeKeys(mode: string)
    ensures ChatModes(mode).Some? <==> mode in Models.ChatModeNames
  {
  }

  lemma FestModeNonEmpty() ensures FestMode != "" {}
  lemma PlacementModeNonEmpty() ensures PlacementMode != "" {}
  lemma StudyModeNonEmpty() ensures StudyMode != "" {}
  lemma RantModeNonEmpty() ensures RantMode != "" {}

  /** No listed mode's prompt is empty, so `||` never replaces it. */
  lemma ChatModesNonEmpty(mode: string)
    ensures ChatModes(mode).Some? ==> ChatModes(mode).value != ""
  {
    if mode == "fest" {
      FestModeNonEmpty();
    } else if mode == "placement" {
      PlacementModeNonEmpty();
    } else if mode == "study" {
      StudyModeNonEmpty();
    } else if mode == "rant" {
      RantModeNonEmpty();
    }
  }

  /**
   * The names every plain object inherits from `Object.prototype`. Looking
   * one of them up in a table finds an inherited member even though the
   * table does not list it; the model's tables treat them as absent, so the
   * fallback facts below are stated for other names only.
   */
  const InheritedNames: set<string> := {
    "constructor", "hasOwnProperty", "isPrototypeOf", "propertyIsEnumerable",
    "toLocaleString", "toString", "valueOf", "__proto__",
    "__defineGetter__", "__defineSetter__", "__lookupGetter__", "__lookupSetter__"
  }

  /** The system prompt of a chat request: `CHAT_MODES[mode] || CHAT_MODES.study`. */
  function ChatPrompt(mode: string): string {
    OrElse(ChatModes(mode), StudyMode)
  }

  /**
   * The `||` falls back only for a name outside the mode enumeration: a listed
   * mode always gets its own prompt, since none of them is empty, and any
   * other name that is not inherited from `Object.prototype` gets the study
   * prompt.
   */
  lemma ChatPromptListed(mode: string)
    ensures mode in Models.ChatModeNames ==> ChatModes(mode).Some? && ChatPrompt(mode) == ChatModes(mode).value
    ensures mode !in Models.ChatModeNames && mode !in InheritedNames ==> ChatPrompt(mode) == StudyMode
  {
    ChatModeKeys(mode);
    ChatModesNonEmpty(mode);
  }

  // ---------------------------------------------------------------- interview focus

  const TcsTechnicalFocus :=
    "OOP concepts, basic DSA (arrays, strings), SQL queries, project explanation"

  const TcsHRFocus :=
    "Tell me about yourself, strengths/weaknesses, why TCS, relocation, team work"

  const TcsManagerialFocus :=
    "Situational questions, leadership, conflict resolution, career goals"

  const InfosysTechnicalFocus :=
    "Data structures, DBMS, OS concepts, coding in any language, puzzles"

  const InfosysHRFocus :=
    "Behavioral questions, campus life, hobbies, 5-year plan, bond acceptance"

  const AmazonTechnicalFocus :=
    "Medium-Hard DSA, system design basics, OOP, problem-solving approach"

  const AmazonHRFocus :=
    "Leadership principles (all 16), STAR format answers, conflict stories"

  const GoogleTechnicalFocus :=
    "Hard DSA, algorithm optimization, system design, clean code"

  const GoogleHRFocus :=
    "Googliness, collaboration, impact stories, learning from failure"

  const StartupTechnicalFocus :=
    "Full-stack knowledge, problem-solving, learning ability, side projects"

  const StartupHRFocus :=
    "Why startup, risk tolerance, self-motivation, what you built, hustle stories"

  /** The companies of the focus table, in order. */
  const FocusCompanies: seq<string> := ["TCS", "Infosys", "Amazon", "Google", "Startup"]

  /** `focus[company]?.[round]`: the table entry for a listed company and round, nothing otherwise. */
  function FocusTable(company: string, round: string): Option<string> {
    if company == "TCS" then
      (if round == "Technical" then Some(TcsTechnicalFocus)
      else if round == "HR" then Some(TcsHRFocus)
      else if round == "Managerial" then Some(TcsManagerialFocus)
      else None)
    else if company == "Infosys" then
      (if round == "Technical" then Some(InfosysTechnicalFocus)
      else if round == "HR" then Some(InfosysHRFocus)
      else None)
    else if company == "Amazon" then
      (if round == "Technical" then Some(AmazonTechnicalFocus)
      else if round == "HR" then Some(AmazonHRFocus)
      else None)
    else if company == "Google" then
      (if round == "Technical" then Some(GoogleTechnicalFocus)
      else if round == "HR" then Some(GoogleHRFocus)
      else None)
    else if company == "Startup" then
      (if round == "Technical" then Some(StartupTechnicalFocus)
      else if round == "HR" then Some(StartupHRFocus)
      else None)
    else None
  }

  /** The focus of any company and round the table does not list. */
  const DefaultFocus :=
    "General technical and behavioral questions appropriate for a fresher interview"

  /** Five companies, each with a Technical and an HR round; only TCS also has a Managerial round. */
  lemma FocusTableShape(company: string, round: string)
    ensures FocusTable(company, round).Some? <==>
      (company in FocusCompanies && (round == "Technical" || round == "HR"))
      || (company == "TCS" && round == "Managerial")
  {
  }

  lemma TcsTechnicalFocusNonEmpty() ensures TcsTechnicalFocus != "" {}
  lemma TcsHRFocusNonEmpty() ensures TcsHRFocus != "" {}
  lemma TcsManagerialFocusNonEmpty() ensures TcsManagerialFocus != "" {}
  lemma InfosysTechnicalFocusNonEmpty() ensures InfosysTechnicalFocus != "" {}
  lemma InfosysHRFocusNonEmpty() ensures InfosysHRFocus != "" {}
  lemma AmazonTechnicalFocusNonEmpty() ensures AmazonTechnicalFocus != "" {}
  lemma AmazonHRFocusNonEmpty() ensures AmazonHRFocus != "" {}
  lemma GoogleTechnicalFocusNonEmpty() ensures GoogleTechnicalFocus != "" {}
  lemma GoogleHRFocusNonEmpty() ensures GoogleHRFocus != "" {}
  lemma StartupTechnicalFocusNonEmpty() ensures StartupTechnicalFocus != "" {}
  lemma StartupHRFocusNonEmpty() ensures StartupHRFocus != "" {}
  lemma DefaultFocusNonEmpty() ensures DefaultFocus != "" {}

  /** No listed focus is empty, so `||` only replaces a missing entry. */
  lemma FocusTextsNonEmpty(company: string, round: string)
    ensures FocusTable(company, round).Some? ==> FocusTable(company, round).value != ""
  {
    if company == "TCS" && round == "Technical" {
      TcsTechnicalFocusNonEmpty();
    } else if company == "TCS" && round == "HR" {
      TcsHRFocusNonEmpty();
    } else if company == "TCS" && round == "Managerial" {
      TcsManagerialFocusNonEmpty();
    } else if company == "Infosys" && round == "Technical" {
      InfosysTechnicalFocusNonEmpty();
    } else if company == "Infosys" && round == "HR" {
      InfosysHRFocusNonEmpty();
    } else if company == "Amazon" && round == "Technical" {
      AmazonTechnicalFocusNonEmpty();
    } else if company == "Amazon" && round == "HR" {
      AmazonHRFocusNonEmpty();
    } else if company == "Google" && round == "Technical" {
      GoogleTechnicalFocusNonEmpty();
    } else if company == "Google" && round == "HR" {
      GoogleHRFocusNonEmpty();
    } else if company == "Startup" && round == "Technical" {
      StartupTechnicalFocusNonEmpty();
    } else if company == "Startup" && round == "HR" {
      StartupHRFocusNonEmpty();
    }
  }

  /**
   * `getInterviewFocus`: `focus[company]?.[round] || default`.
   */
  function InterviewFocus(company: string, round: string): string {
    OrElse(FocusTable(company, round), DefaultFocus)
  }

  /** A pair the table lists gets its own focus: no listed focus is empty, so `||` never falls back for it. */
  lemma InterviewFocusListed(company: string, round: string)
    requires FocusTable(company, round).Some?
    ensures InterviewFocus(company, round) == FocusTable(company, round).value
  {
    FocusTextsNonEmpty(company, round);
  }

  /** Every company and round gets a non-empty focus. */
  lemma InterviewFocusNonEmpty(company: string, round: string)
    ensures InterviewFocus(company, round) != ""
  {
    FocusTextsNonEmpty(company, round);
    DefaultFocusNonEmpty();
  }

  /**
   * A company outside the table (other than a name inherited from
   * `Object.prototype`), or a Managerial round anywhere but TCS, gets the
   * default focus.
   */
  lemma UnlistedFocusIsDefault(company: string, round: string)
    requires (company !in FocusCompanies && company !in InheritedNames) || (round == "Managerial" && company != "TCS")
    ensures InterviewFocus(company, round) == DefaultFocus
  {
    FocusTableShape(company, round);
  }

  // ---------------------------------------------------------------- templates

  const BrainstormIntro :=
    "\n" +
    "You are IdeaBot 🧠 — a creative startup mentor for college students.\n" +
    "A student has shared this rough idea: "

  const BrainstormSections :=
    "\n" +
    "\n" +
    "Expand it into a structured plan with these exact sections:\n" +
    "\n" +
    "💡 IDEA SUMMARY\n" +
    "(2-3 sentences making the idea sound exciting)\n" +
    "\n" +
    "🎯 TARGET AUDIENCE\n" +
    "(Who benefits from this? Be specific)\n" +
    "\n" +
    "🚀 MVP FEATURES\n" +
    "(List 3-5 core features to build first, keep it simple)\n" +
    "\n" +
    "⚡ QUICK WIN ACTIONS\n" +
    "(3 things the student can do THIS WEEK to start)\n" +
    "\n" +
    "💰 MONETIZATION IDEAS\n" +
    "(2-3 ways this could make money someday)\n" +
    "\n" +
    "⚠️ BIGGEST CHALLENGE\n" +
    "(Be honest about the main hurdle)\n" +
    "\n" +
    "🔥 HYPE LINE\n" +
    "(One powerful sentence that makes this idea sound amazing)\n" +
    "\n" +
    "Keep the tone exciting, encouraging, and realistic. \n" +
    "Use emojis for each section header.\n" +
    "Speak like a mentor who believes in this student.\n"

  /** The parts of `BRAINSTORM_PROMPT(idea)`. */
  function BrainstormPromptParts(idea: string): seq<string> {
    [
      BrainstormIntro,
      "\"" + idea + "\"",
      BrainstormSections
    ]
  }

  function BrainstormPrompt(idea: string): string {
    Concat(BrainstormPromptParts(idea))
  }

  const ScoreIntro :=
    "\n" +
    "You are a warm, encouraging cultural judge at a college talent show.\n" +
    "A student named "

  const ScoreSections :=
    "\n" +
    "\n" +
    "Give feedback in this EXACT format:\n" +
    "\n" +
    "🎭 WHAT STOOD OUT\n" +
    "(2-3 sentences about the best part, be specific and genuine)\n" +
    "\n" +
    "💫 STYLE SIGNATURE  \n" +
    "(Identify their unique voice/style in 1 sentence)\n" +
    "\n" +
    "📈 ONE THING TO LEVEL UP\n" +
    "(One specific, actionable improvement — be kind but honest)\n" +
    "\n" +
    "⭐ SCORES (out of 10):\n"

  /** The labels the score parser looks for, and the line the badge parser looks for. */
  const CreativityLabel := "Creativity:"
  const OriginalityLabel := "Originality:"
  const ExpressionLabel := "Expression:"
  const OverallLabel := "Overall Vibe:"
  const BadgeMarker := "🏆 TALENT BADGE\n"

  const BadgeRequest :=
    "(Give them a fun custom badge title like \"Metaphor Wizard\" or \"Code Poet\")\n" +
    "\n" +
    "Keep it warm, real, and encouraging. This student is brave for sharing.\n"

  /** The parts of `SCORE_TALENT(category, content, studentName)`. */
  function ScoreTalentPromptParts(category: string, content: string, studentName: string): seq<string> {
    [
      ScoreIntro,
      studentName,
      " has submitted their ",
      category,
      " talent.\n\nTheir submission:\n",
      "\"" + content + "\"",
      ScoreSections,
      CreativityLabel,
      " X/10\n",
      OriginalityLabel,
      " X/10  \n",
      ExpressionLabel,
      " X/10\n",
      OverallLabel,
      " X/10\n\n",
      BadgeMarker,
      BadgeRequest
    ]
  }

  function ScoreTalentPrompt(category: string, content: string, studentName: string): string {
    Concat(ScoreTalentPromptParts(category, content, studentName))
  }

  const RoastIntro :=
    "\n" +
    "You are the most brutally funny (but kind) resume roaster at a college career fair.\n" +
    "Roast this resume in a way that's hilarious but genuinely helpful.\n" +
    "\n" +
    "Resume:\n"

  const RoastFormat :=
    "\n" +
    "\n" +
    "Roast format:\n" +
    "\n" +
    "🔥 THE ROAST BEGINS\n" +
    "(2-3 genuinely funny observations about what's wrong, use college humor)\n" +
    "\n" +
    "😂 HALL OF SHAME MOMENT\n" +
    "(Pick the single most cringe thing and roast it specifically)\n" +
    "\n" +
    "✅ WAIT, THIS IS ACTUALLY GOOD\n" +
    "(Find 1-2 genuine strengths and compliment them sincerely)\n" +
    "\n" +
    "🛠️ SERIOUS FIXES (because we care)\n" +
    "(3 actual improvements they should make)\n" +
    "\n" +
    "🎯 VERDICT\n" +
    "(Final funny one-liner summary of the resume)\n" +
    "\n" +
    "Be funny like a roast, not mean like a bully. \n" +
    "Think: a senior who wants them to succeed but can't help laughing.\n"

  /** The parts of `RESUME_ROAST_PROMPT(resumeText)`. */
  function ResumeRoastPromptParts(resumeText: string): seq<string> {
    [
      RoastIntro,
      "\"" + resumeText + "\"",
      RoastFormat
    ]
  }

  function ResumeRoastPrompt(resumeText: string): string {
    Concat(ResumeRoastPromptParts(resumeText))
  }

  const QuoteIntro :=
    "\n" +
    "A college student is feeling: "

  const QuoteRequest :=
    "\n" +
    "\n" +
    "Generate a powerful, original motivational quote perfectly suited for this exact mood.\n" +
    "Make it sound like it was written specifically for a college student going through this.\n" +
    "Not generic. Not cheesy. Real and resonant.\n" +
    "\n" +
    "Also suggest:\n" +
    "- A Spotify playlist vibe (e.g., \"Lo-fi study beats\" or \"Hype rap\")\n" +
    "- One micro-action they can do right now (under 5 minutes)\n" +
    "\n" +
    "Format:\n"

  /** The labels the quote-card parser looks for. */
  const QuoteLabel := "QUOTE:"
  const AuthorLabel := "AUTHOR_VIBE:"
  const PlaylistLabel := "PLAYLIST:"
  const ActionLabel := "ACTION:"

  /** The parts of `QUOTE_CARD_PROMPT(mood)`. */
  function QuoteCardPromptParts(mood: string): seq<string> {
    [
      QuoteIntro,
      "\"" + mood + "\"",
      QuoteRequest,
      QuoteLabel,
      " [the quote]\n",
      AuthorLabel,
      " [fictional inspiring name or \"Anonymous Campus Legend\"]\n",
      PlaylistLabel,
      " [playlist suggestion]\n",
      ActionLabel,
      " [micro-action]\n"
    ]
  }

  function QuoteCardPrompt(mood: string): string {
    Concat(QuoteCardPromptParts(mood))
  }

  const DsaIntro :=
    "\n" +
    "You are a DSA coach generating a coding problem for a college student.\n" +
    "Topic: "

  const DsaFormat :=
    "\n" +
    "\n" +
    "Generate a problem in this EXACT format:\n" +
    "\n" +
    "🧩 PROBLEM TITLE\n" +
    "[Catchy problem name]\n" +
    "\n" +
    "📋 PROBLEM STATEMENT\n" +
    "[Clear problem description in 3-5 sentences. Use a real-world college scenario as context — canteen billing, hostel attendance, library books, etc.]\n" +
    "\n" +
    "📥 INPUT FORMAT\n" +
    "[Describe input]\n" +
    "\n" +
    "📤 OUTPUT FORMAT  \n" +
    "[Describe expected output]\n" +
    "\n" +
    "🔍 EXAMPLES\n" +
    "Example 1:\n" +
    "Input: [example]\n" +
    "Output: [example]\n" +
    "Explanation: [brief explanation]\n" +
    "\n" +
    "Example 2:\n" +
    "Input: [edge case]\n" +
    "Output: [expected]\n" +
    "\n" +
    "💡 CONSTRAINTS\n" +
    "[Time/space constraints, input ranges]\n" +
    "\n" +
    "🏷️ TAGS\n" +
    "[relevant topic tags]\n" +
    "\n" +
    "DO NOT provide the solution. Only generate the problem.\n" +
    "Make the problem feel original — not a copy of a known LeetCode problem.\n"

  /** The parts of `DSA_PROBLEM_PROMPT(topic, difficulty)`. */
  function DsaProblemPromptParts(topic: string, difficulty: string): seq<string> {
    [
      DsaIntro,
      topic,
      "\nDifficulty: ",
      difficulty,
      DsaFormat
    ]
  }

  function DsaProblemPrompt(topic: string, difficulty: string): string {
    Concat(DsaProblemPromptParts(topic, difficulty))
  }

  const HintIntro :=
    "\n" +
    "You are a patient DSA mentor. Don't give the full solution.\n" +
    "A student is working on: "

  const HintGuide :=
    " (1=tiny nudge, 2=direction hint, 3=approach reveal)\n" +
    "\n" +
    "Give exactly the right level of hint:\n" +
    "Level 1: Ask a guiding question that makes them think\n" +
    "Level 2: Point to the right data structure or algorithm family\n" +
    "Level 3: Explain the approach without writing code\n" +
    "\n" +
    "Also mention:\n" +
    "- Time complexity of their current approach (if identifiable)\n" +
    "- Whether their approach will work or needs a different direction\n" +
    "\n" +
    "Be encouraging. Every wrong attempt is a step forward.\n"

  /** The parts of `DSA_HINT_PROMPT(problem, studentApproach, hintLevel)`. */
  function DsaHintPromptParts(problem: string, studentApproach: string, hintLevel: int): seq<string> {
    [
      HintIntro,
      "\"" + problem + "\"",
      "\nTheir current approach: ",
      "\"" + studentApproach + "\"",
      "\nHint level requested: ",
      IntToString(hintLevel),
      HintGuide
    ]
  }

  function DsaHintPrompt(problem: string, studentApproach: string, hintLevel: int): string {
    Concat(DsaHintPromptParts(problem, studentApproach, hintLevel))
  }

  const InterviewRules :=
    ".\n" +
    "\n" +
    "RULES FOR THIS INTERVIEW:\n" +
    "1. Ask ONE question at a time\n" +
    "2. Wait for the student's answer before asking the next\n" +
    "3. After each answer, give brief feedback (good/improve) then ask next question\n" +
    "4. Stay in character as a professional interviewer\n" +
    "5. Adjust difficulty based on answer quality\n" +
    "\n" +
    "For "

  const InterviewClosing :=
    "\n" +
    "\n" +
    "Start with a warm professional greeting and your FIRST question.\n" +
    "Keep questions relevant to what "

  /** The parts of `MOCK_INTERVIEW_PROMPT(company, round, studentName)`. */
  function MockInterviewPromptParts(company: string, round: string, studentName: string): seq<string> {
    [
      "\nYou are a senior ",
      company,
      " interviewer conducting a ",
      round,
      " round interview.\nThe candidate's name is ",
      studentName,
      InterviewRules,
      company,
      " ",
      round,
      " round, focus on:\n",
      InterviewFocus(company, round),
      InterviewClosing,
      company,
      " actually asks.\n"
    ]
  }

  function MockInterviewPrompt(company: string, round: string, studentName: string): string {
    Concat(MockInterviewPromptParts(company, round, studentName))
  }

  const ForgeIntro :=
    "\n" +
    "You are an expert ATS resume writer. Create a professional, ATS-friendly resume for this student.\n" +
    "\n" +
    "Student Details:\n" +
    "Name: "

  const ForgeInstructions :=
    "\n" +
    "\n" +
    "Generate a clean, professional resume in plain text format that:\n" +
    "1. Starts with a strong 2-line professional summary\n" +
    "2. Has clear sections: Summary, Education, Skills, Projects, Experience, Achievements\n" +
    "3. Uses strong action verbs\n" +
    "4. Is ATS-friendly (no tables, no graphics)\n" +
    "5. Highlights the most impressive things first\n" +
    "6. Keeps it to 1 page worth of content\n" +
    "\n" +
    "Format it clearly with section headers using === markers.\n"

  /** The form of a resume request; every field may be missing. */
  datatype FormData = FormData(
    name: Field, email: Field, phone: Field, college: Field, degree: Field, branch: Field,
    gradYear: Field, cgpa: Field, skills: Field, projects: Field,
    internships: Field, achievements: Field, certifications: Field, targetRole: Field)

  /** `value || 'None'`. */
  function OrNone(f: Field): (s: string)
    ensures Truthy(f) ==> s == f.value
    ensures !Truthy(f) ==> s == "None"
  {
    if Truthy(f) then f.value else "None"
  }

  /** The parts of `RESUME_FORGE_PROMPT(formData)` up to the phone number. */
  function ForgeContactParts(form: FormData): seq<string> {
    [ForgeIntro, Show(form.name), "\nEmail: ", Show(form.email), "\nPhone: ", Show(form.phone)]
  }

  /** The parts from the college to the CGPA. */
  function ForgeEducationParts(form: FormData): seq<string> {
    [
      "\nCollege: ", Show(form.college),
      "\nDegree: ", Show(form.degree),
      "\nBranch: ", Show(form.branch),
      "\nGraduation Year: ", Show(form.gradYear),
      "\nCGPA: ", Show(form.cgpa)
    ]
  }

  /** The parts from the skills to the target role. */
  function ForgeExperienceParts(form: FormData): seq<string> {
    [
      "\nSkills: ", Show(form.skills),
      "\nProjects: ", Show(form.projects),
      "\nInternships: ", OrNone(form.internships),
      "\nAchievements: ", OrNone(form.achievements),
      "\nCertifications: ", OrNone(form.certifications),
      "\nTarget Role: ", Show(form.targetRole)
    ]
  }

  /** The parts of `RESUME_FORGE_PROMPT(formData)`, in the template's order. */
  function ResumeForgePromptParts(form: FormData): seq<string> {
    ForgeContactParts(form) + ForgeEducationParts(form) + ForgeExperienceParts(form) + [ForgeInstructions]
  }

  function ResumeForgePrompt(form: FormData): string {
    Concat(ResumeForgePromptParts(form))
  }

  // ---------------------------------------------------------------- what the templates promise

  /** The idea goes into the brainstorm prompt verbatim, in double quotes, right after the fixed introduction. */
  lemma BrainstormQuotesIdea(idea: string)
    ensures Contains(BrainstormPrompt(idea), "\"" + idea + "\"")
    ensures var p, k := BrainstormPrompt(idea), |BrainstormIntro| + 1;
      |p| == |BrainstormIntro| + |idea| + 2 + |BrainstormSections| && p[k..k + |idea|] == idea
  {
    ConcatContainsPart(BrainstormPromptParts(idea), 1);
    Concat3(BrainstormIntro, "\"" + idea + "\"", BrainstormSections);
    QuotedReadBack(BrainstormIntro, idea, BrainstormSections);
  }

  /** Different ideas give different brainstorm prompts: the idea can be read back. */
  lemma BrainstormInjective(a: string, b: string)
    requires BrainstormPrompt(a) == BrainstormPrompt(b)
    ensures a == b
  {
    Concat3(BrainstormIntro, "\"" + a + "\"", BrainstormSections);
    Concat3(BrainstormIntro, "\"" + b + "\"", BrainstormSections);
    QuotedInjective(BrainstormIntro, a, b, BrainstormSections);
  }

  /** The scoring prompt asks for every label the score and badge parsers look for. */
  lemma ScoreTalentRequestsLabels(category: string, content: string, studentName: string)
    ensures var p := ScoreTalentPrompt(category, content, studentName);
      && Contains(p, CreativityLabel) && Contains(p, OriginalityLabel)
      && Contains(p, ExpressionLabel) && Contains(p, OverallLabel)
      && Contains(p, BadgeMarker)
  {
    var parts := ScoreTalentPromptParts(category, content, studentName);
    assert parts[7] == CreativityLabel && parts[9] == OriginalityLabel && parts[11] == ExpressionLabel;
    assert parts[13] == OverallLabel && parts[15] == BadgeMarker;
    ConcatContainsPart(parts, 7);
    ConcatContainsPart(parts, 9);
    ConcatContainsPart(parts, 11);
    ConcatContainsPart(parts, 13);
    ConcatContainsPart(parts, 15);
  }

  /** The scoring prompt names the student and the category and quotes the submission verbatim. */
  lemma ScoreTalentQuotesSubmission(category: string, content: string, studentName: string)
    ensures var p := ScoreTalentPrompt(category, content, studentName);
      Contains(p, studentName) && Contains(p, category) && Contains(p, "\"" + content + "\"")
  {
    var parts := ScoreTalentPromptParts(category, content, studentName);
    assert parts[1] == studentName && parts[3] == category && parts[5] == "\"" + content + "\"";
    ConcatContainsPart(parts, 1);
    ConcatContainsPart(parts, 3);
    ConcatContainsPart(parts, 5);
  }

  /** The roast prompt quotes the resume verbatim. */
  lemma ResumeRoastQuotesResume(resumeText: string)
    ensures Contains(ResumeRoastPrompt(resumeText), "\"" + resumeText + "\"")
  {
    var parts := ResumeRoastPromptParts(resumeText);
    assert parts[1] == "\"" + resumeText + "\"";
    ConcatContainsPart(parts, 1);
  }

  /** The quote-card prompt quotes the mood and asks for every label the quote-card parser looks for. */
  lemma QuoteCardRequestsLabels(mood: string)
    ensures var p := QuoteCardPrompt(mood);
      && Contains(p, "\"" + mood + "\"")
      && Contains(p, QuoteLabel) && Contains(p, AuthorLabel)
      && Contains(p, PlaylistLabel) && Contains(p, ActionLabel)
  {
    var parts := QuoteCardPromptParts(mood);
    assert parts[1] == "\"" + mood + "\"" && parts[3] == QuoteLabel && parts[5] == AuthorLabel;
    assert parts[7] == PlaylistLabel && parts[9] == ActionLabel;
    ConcatContainsPart(parts, 1);
    ConcatContainsPart(parts, 3);
    ConcatContainsPart(parts, 5);
    ConcatContainsPart(parts, 7);
    ConcatContainsPart(parts, 9);
  }

  /** The problem prompt names the topic and the difficulty verbatim. */
  lemma DsaProblemNamesTopic(topic: string, difficulty: string)
    ensures var p := DsaProblemPrompt(topic, difficulty);
      Contains(p, topic) && Contains(p, "\nDifficulty: " + difficulty)
  {
    var parts := DsaProblemPromptParts(topic, difficulty);
    assert parts[1] == topic;
    assert parts[2] + parts[3] == "\nDifficulty: " + difficulty;
    ConcatContainsPart(parts, 1);
    ConcatContainsPair(parts, 2);
  }

  /** The hint prompt quotes the problem and the approach and states the hint level in decimal. */
  lemma DsaHintShowsLevel(problem: string, studentApproach: string, hintLevel: int)
    ensures var p := DsaHintPrompt(problem, studentApproach, hintLevel);
      && Contains(p, "\"" + problem + "\"") && Contains(p, "\"" + studentApproach + "\"")
      && Contains(p, "\nHint level requested: " + IntToString(hintLevel))
  {
    var parts := DsaHintPromptParts(problem, studentApproach, hintLevel);
    assert parts[1] == "\"" + problem + "\"";
    assert parts[3] == "\"" + studentApproach + "\"";
    assert parts[4] + parts[5] == "\nHint level requested: " + IntToString(hintLevel);
    ConcatContainsPart(parts, 1);
    ConcatContainsPart(parts, 3);
    ConcatContainsPair(parts, 4);
  }

  /** The interviewer prompt embeds the company, the round, the student's name and the round's focus. */
  lemma MockInterviewEmbedsFocus(company: string, round: string, studentName: string)
    ensures var p := MockInterviewPrompt(company, round, studentName);
      && Contains(p, company) && Contains(p, round) && Contains(p, studentName)
      && Contains(p, " round, focus on:\n" + InterviewFocus(company, round))
  {
    var parts := MockInterviewPromptParts(company, round, studentName);
    assert parts[1] == company && parts[3] == round && parts[5] == studentName;
    assert parts[10] + parts[11] == " round, focus on:\n" + InterviewFocus(company, round);
    ConcatContainsPart(parts, 1);
    ConcatContainsPart(parts, 3);
    ConcatContainsPart(parts, 5);
    ConcatContainsPair(parts, 10);
  }

  /** The resume prompt is its three runs of fields joined, then the instructions. */
  lemma ResumeForgeRuns(form: FormData)
    ensures ResumeForgePrompt(form)
      == Concat(ForgeContactParts(form)) + Concat(ForgeEducationParts(form))
         + Concat(ForgeExperienceParts(form)) + ForgeInstructions
  {
    var c, e, x := ForgeContactParts(form), ForgeEducationParts(form), ForgeExperienceParts(form);
    ConcatAppend(c + e + x, [ForgeInstructions]);
    ConcatAppend(c + e, x);
    ConcatAppend(c, e);
  }

  /** What one of three runs contains, the runs joined and followed by more text contain. */
  lemma RunsContain(c: string, e: string, x: string, i: string, t: string)
    requires Contains(c, t) || Contains(e, t) || Contains(x, t)
    ensures Contains(c + e + x + i, t)
  {
    if Contains(c, t) {
      ContainsAppend(c, e + x + i, t);
      assert c + e + x + i == c + (e + x + i);
    } else if Contains(e, t) {
      ContainsAppend(e, x + i, t);
      ContainsPrepend(c, e + (x + i), t);
      assert c + e + x + i == c + (e + (x + i));
    } else {
      ContainsAppend(x, i, t);
      ContainsPrepend(c + e, x + i, t);
      assert c + e + x + i == (c + e) + (x + i);
    }
  }

  /** A caption and its value that sit side by side in one run of fields are in the resume prompt. */
  lemma ForgeShows(form: FormData, run: seq<string>, i: nat, caption: string, value: string)
    requires run == ForgeContactParts(form) || run == ForgeEducationParts(form) || run == ForgeExperienceParts(form)
    requires i + 1 < |run| && run[i] == caption && run[i + 1] == value
    ensures Contains(ResumeForgePrompt(form), caption + value)
  {
    var c, e, x := Concat(ForgeContactParts(form)), Concat(ForgeEducationParts(form)), Concat(ForgeExperienceParts(form));
    ConcatContainsPair(run, i);
    RunsContain(c, e, x, ForgeInstructions, caption + value);
    ResumeForgeRuns(form);
  }

  /**
   * The resume prompt writes the internships, achievements and certifications
   * fields through `OrNone`: 'None' when missing or empty, the value otherwise.
   */
  lemma ResumeForgeNoneDefaults(form: FormData)
    ensures var p := ResumeForgePrompt(form);
      && Contains(p, "\nInternships: " + OrNone(form.internships))
      && Contains(p, "\nAchievements: " + OrNone(form.achievements))
      && Contains(p, "\nCertifications: " + OrNone(form.certifications))
  {
    var run := ForgeExperienceParts(form);
    ForgeShows(form, run, 4, "\nInternships: ", OrNone(form.internships));
    ForgeShows(form, run, 6, "\nAchievements: ", OrNone(form.achievements));
    ForgeShows(form, run, 8, "\nCertifications: ", OrNone(form.certifications));
  }

  /**
   * The student's name, email and phone go in as given, a missing one as
   * 'undefined'; the introduction ends in "Name: ".
   */
  lemma ResumeForgeShowsContact(form: FormData)
    ensures var p := ResumeForgePrompt(form);
      && Contains(p, ForgeIntro + Show(form.name))
      && Contains(p, "\nEmail: " + Show(form.email))
      && Contains(p, "\nPhone: " + Show(form.phone))
  {
    var run := ForgeContactParts(form);
    ForgeShows(form, run, 0, ForgeIntro, Show(form.name));
    ForgeShows(form, run, 2, "\nEmail: ", Show(form.email));
    ForgeShows(form, run, 4, "\nPhone: ", Show(form.phone));
  }

  /** The college, degree and branch go in as given, a missing one as 'undefined'. */
  lemma ResumeForgeShowsEducation(form: FormData)
    ensures var p := ResumeForgePrompt(form);
      && Contains(p, "\nCollege: " + Show(form.college))
      && Contains(p, "\nDegree: " + Show(form.degree))
      && Contains(p, "\nBranch: " + Show(form.branch))
  {
    var run := ForgeEducationParts(form);
    ForgeShows(form, run, 0, "\nCollege: ", Show(form.college));
    ForgeShows(form, run, 2, "\nDegree: ", Show(form.degree));
    ForgeShows(form, run, 4, "\nBranch: ", Show(form.branch));
  }

  /** The graduation year and the CGPA go in as given, a missing one as 'undefined'. */
  lemma ResumeForgeShowsGrades(form: FormData)
    ensures var p := ResumeForgePrompt(form);
      && Contains(p, "\nGraduation Year: " + Show(form.gradYear))
      && Contains(p, "\nCGPA: " + Show(form.cgpa))
  {
    var run := ForgeEducationParts(form);
    ForgeShows(form, run, 6, "\nGraduation Year: ", Show(form.gradYear));
    ForgeShows(form, run, 8, "\nCGPA: ", Show(form.cgpa));
  }

  /** The skills, projects and target role go in as given, a missing one as 'undefined'. */
  lemma ResumeForgeShowsFields(form: FormData)
    ensures var p := ResumeForgePrompt(form);
      && Contains(p, "\nSkills: " + Show(form.skills))
      && Contains(p, "\nProjects: " + Show(form.projects))
      && Contains(p, "\nTarget Role: " + Show(form.targetRole))
  {
    var run := ForgeExperienceParts(form);
    ForgeShows(form, run, 0, "\nSkills: ", Show(form.skills));
    ForgeShows(form, run, 2, "\nProjects: ", Show(form.projects));
    ForgeShows(form, run, 10, "\nTarget Role: ", Show(form.targetRole));
  }
}
