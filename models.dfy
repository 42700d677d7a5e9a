/**
 * The four Mongoose schemas of server/models/index.js as datatypes: their
 * enumerations, defaults and required fields, with a validity predicate per
 * schema and the list of validation failures that `save()` / `create()`
 * reports for a document that breaks it.
 */
module Models {
  import opened Wrappers
  import opened Text
  import opened ErrorHandler

  /** A document id; the stores hand them out fresh. */
  type Id = nat

  /** The `role` enumeration shared by chat and interview messages. */
  datatype Role = User | Assistant

  /** One transcript message. Its timestamp is not modelled. */
  datatype Message = Message(role: Role, content: string)

  /** The two turns one exchange appends: the user's, then the assistant's. */
  function Exchange(userText: string, reply: string): seq<Message> {
    [Message(User, userText), Message(Assistant, reply)]
  }

  /** Every stored id was handed out before `nextId`. */
  predicate FreshIds<T>(docs: map<Id, T>, nextId: Id) {
    forall id :: id in docs ==> id < nextId
  }

  // ---------------------------------------------------------------- chat

  /** The `mode` enumeration of a chat session. */
  const ChatModeNames: seq<string> := ["fest", "placement", "study", "rant"]

  /** The schema default of `mode`. */
  const DefaultChatMode := "study"

  datatype ChatSession = ChatSession(nickname: string, mode: string, messages: seq<Message>)

  /** `new Chat({ nickname, mode, messages: [] })`: an absent mode takes the schema default. */
  function NewChat(nickname: string, mode: Field): (c: ChatSession)
    ensures c.nickname == nickname && c.messages == []
    ensures mode.Some? ==> c.mode == mode.value
    ensures mode.None? ==> c.mode == DefaultChatMode && c.mode in ChatModeNames
  {
    ChatSession(nickname, mode.GetOr(DefaultChatMode), [])
  }

  /** What the chat schema demands: a nickname, a mode from the enumeration, and content in every message. */
  predicate ValidChat(c: ChatSession) {
    && c.nickname != ""
    && c.mode in ChatModeNames
    && forall i :: 0 <= i < |c.messages| ==> c.messages[i].content != ""
  }

  // ---------------------------------------------------------------- idea

  /** A brainstormed idea; `savedAt` is the clock reading at creation. */
  datatype Idea = Idea(nickname: string, rawIdea: string, aiOutput: string, savedAt: int)

  predicate ValidIdea(i: Idea) {
    i.nickname != "" && i.rawIdea != ""
  }

  // ---------------------------------------------------------------- talent

  /** The `category` enumeration of a talent submission. */
  const CategoryNames: seq<string> := ["poetry", "project", "art", "music", "photography", "meme", "writing"]

  datatype Scores = Scores(creativity: nat, originality: nat, expression: nat, overall: nat)

  datatype Votes = Votes(fire: nat, heart: nat, mindblown: nat)

  /** The schema defaults of the three vote counters. */
  const NoVotes := Votes(0, 0, 0)

  datatype Talent = Talent(
    nickname: string, category: string, title: string, content: string,
    aiFeedback: string, scores: Scores, badge: string, votes: Votes)

  /** `Talent.create({ … })` without votes: every counter starts at its default, 0. */
  function NewTalent(nickname: string, category: string, title: string, content: string,
                     aiFeedback: string, scores: Scores, badge: string): (t: Talent)
    ensures t.votes.fire == 0 && t.votes.heart == 0 && t.votes.mindblown == 0
    ensures t.nickname == nickname && t.category == category && t.title == title && t.content == content
    ensures t.aiFeedback == aiFeedback && t.scores == scores && t.badge == badge
  {
    Talent(nickname, category, title, content, aiFeedback, scores, badge, NoVotes)
  }

  predicate ValidTalent(t: Talent) {
    t.nickname != "" && t.category in CategoryNames && t.title != "" && t.content != ""
  }

  // ---------------------------------------------------------------- interview

  datatype Interview = Interview(
    nickname: string, company: string, round: string, messages: seq<Message>,
    finalFeedback: Option<string>, completed: bool)

  /** `InterviewSession.create({ … })`: not completed and without final feedback, by default. */
  function NewInterview(nickname: string, company: string, round: string, messages: seq<Message>): (s: Interview)
    ensures !s.completed && s.finalFeedback.None?
    ensures s.nickname == nickname && s.company == company && s.round == round && s.messages == messages
  {
    Interview(nickname, company, round, messages, None, false)
  }

  /** Interview message content is not required; the three identifying fields are. */
  predicate ValidInterview(s: Interview) {
    s.nickname != "" && s.company != "" && s.round != ""
  }

  // ---------------------------------------------------------------- validation failures

  /** One failed validator: the path and Mongoose's default message for it. */
  datatype Violation = Violation(path: string, message: string)

  function Required(path: string): Violation {
    Violation(path, "Path `" + path + "` is required.")
  }

  function NotInEnum(path: string, value: string): Violation {
    Violation(path, "`" + value + "` is not a valid enum value for path `" + path + "`.")
  }

  /** The required-content failures of `ms`, numbered from `from`, in order. */
  function ContentViolations(ms: seq<Message>, from: nat): (vs: seq<Violation>)
    ensures vs == [] <==> forall i :: 0 <= i < |ms| ==> ms[i].content != ""
  {
    if ms == [] then []
    else
      (if ms[0].content == "" then [Required("messages." + NatToString(from) + ".content")] else [])
      + ContentViolations(ms[1..], from + 1)
  }

  function ChatViolations(c: ChatSession): seq<Violation> {
    (if c.nickname == "" then [Required("nickname")] else [])
    + (if c.mode !in ChatModeNames then [NotInEnum("mode", c.mode)] else [])
    + ContentViolations(c.messages, 0)
  }

  function TalentViolations(t: Talent): seq<Violation> {
    (if t.nickname == "" then [Required("nickname")] else [])
    + (if t.category == "" then [Required("category")]
       else if t.category !in CategoryNames then [NotInEnum("category", t.category)]
       else [])
    + (if t.title == "" then [Required("title")] else [])
    + (if t.content == "" then [Required("content")] else [])
  }

  /** Interview message content is not required, so only the three identifying fields can fail. */
  function InterviewViolations(s: Interview): seq<Violation> {
    (if s.nickname == "" then [Required("nickname")] else [])
    + (if s.company == "" then [Required("company")] else [])
    + (if s.round == "" then [Required("round")] else [])
  }

  /** A chat document is rejected on save exactly when it breaks the schema. */
  lemma ChatViolationsIff(c: ChatSession)
    ensures ChatViolations(c) == [] <==> ValidChat(c)
  {
  }

  /** A talent document is rejected on create exactly when it breaks the schema. */
  lemma TalentViolationsIff(t: Talent)
    ensures TalentViolations(t) == [] <==> ValidTalent(t)
  {
  }

  /** An interview document is rejected on save exactly when it breaks the schema. */
  lemma InterviewViolationsIff(s: Interview)
    ensures InterviewViolations(s) == [] <==> ValidInterview(s)
  {
  }

  function Messages(vs: seq<Violation>): (ms: seq<string>)
    ensures |ms| == |vs| && forall i :: 0 <= i < |vs| ==> ms[i] == vs[i].message
  {
    if vs == [] then [] else [vs[0].message] + Messages(vs[1..])
  }

  function PathMessages(vs: seq<Violation>): (ms: seq<string>)
    ensures |ms| == |vs|
  {
    if vs == [] then [] else [vs[0].path + ": " + vs[0].message] + PathMessages(vs[1..])
  }

  /**
   * The `ValidationError` a failed save throws: named "ValidationError", its
   * message "<Model> validation failed: path: msg, …", and its field messages.
   */
  function ValidationFailure(model: string, vs: seq<Violation>): (e: JsError)
    ensures e.name == "ValidationError" && e.fieldMessages == Messages(vs) && e.status.None?
  {
    JsError(Some(model + " validation failed: " + Join(PathMessages(vs), ", ")), "ValidationError", None, Messages(vs))
  }
}
