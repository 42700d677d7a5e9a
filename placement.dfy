/**
 * The placement routes (server/routes/placement.js). The DSA and resume
 * handlers check their fields and hand one prompt to the model; they keep no
 * state and are functions here. The mock-interview handlers create and update
 * InterviewSession documents: the collection is the class `InterviewStore`.
 * As in the chat routes, the interviewer prompt is a parameter of the
 * interview routes, `interviewer`, and the store is built with
 * `Prompts.MockInterviewPrompt`.
 */
module Placement {
  import opened Wrappers
  import opened Text
  import opened ErrorHandler
  import opened Models
  import opened Gemini
  import Prompts

  const DsaFieldsText := "topic and difficulty required"
  const HintFieldsText := "problem and approach required"
  const FormMissingText := "formData is required"
  const StartFieldsText := "nickname, company, round required"
  const RespondFieldsText := "sessionId and answer required"
  const NotFoundText := "Session not found"

  /** The user message that opens an interview. */
  const StartRequest := "Start the interview now."

  /** The user message that asks for the report. */
  const FeedbackRequest := "Give final feedback now."

  /** The system prompt of the final report, with its template-literal indentation. */
  const FeedbackPrompt :=
    "\n    Based on this interview conversation, give a final comprehensive feedback report.\n"
    + "    \n"
    + "    Give scores (out of 10) for:\n"
    + "    - Communication: X/10\n"
    + "    - Technical Knowledge: X/10\n"
    + "    - Problem Solving: X/10\n"
    + "    - Confidence: X/10\n"
    + "    \n"
    + "    Overall verdict (1 sentence).\n"
    + "    Top 2 strengths.\n"
    + "    Top 2 areas to improve.\n"
    + "    Final hiring likelihood: Strong Yes / Maybe / Not Yet\n"
    + "    "

  // ---------------------------------------------------------------- DSA arena and resume forge

  /** POST `/dsa/problem`. */
  function DsaProblem(oracle: Oracle, topic: Field, difficulty: Field): Response<string> {
    if !Truthy(topic) || !Truthy(difficulty) then Failure(400, DsaFieldsText)
    else Answer(Content(oracle, Prompts.DsaProblemPrompt(topic.value, difficulty.value), ""))
  }

  /** `hintLevel || 1`, for a JSON number or nothing. */
  function HintLevel(requested: Option<int>): int {
    if requested.Some? && requested.value != 0 then requested.value else 1
  }

  /** POST `/dsa/hint`. */
  function DsaHint(oracle: Oracle, problem: Field, approach: Field, hintLevel: Option<int>): Response<string> {
    if !Truthy(problem) || !Truthy(approach) then Failure(400, HintFieldsText)
    else Answer(Content(oracle, Prompts.DsaHintPrompt(problem.value, approach.value, HintLevel(hintLevel)), ""))
  }

  /** POST `/resume/forge`: any form object is truthy, so only a missing one is refused. */
  function ResumeForge(oracle: Oracle, formData: Option<Prompts.FormData>): Response<string> {
    if formData.None? then Failure(400, FormMissingText)
    else Answer(Content(oracle, Prompts.ResumeForgePrompt(formData.value), ""))
  }

  /**
   * Each stateless handler refuses a missing field with 400 and its own text;
   * otherwise it answers with exactly what the model returned for its prompt,
   * sent as the system prompt with an empty user message.
   */
  lemma StatelessHandlers(oracle: Oracle, topic: Field, difficulty: Field, problem: Field, approach: Field,
                          hintLevel: Option<int>, formData: Option<Prompts.FormData>)
    ensures !Truthy(topic) || !Truthy(difficulty) ==> DsaProblem(oracle, topic, difficulty) == Failure(400, DsaFieldsText)
    ensures Truthy(topic) && Truthy(difficulty) ==>
      var c := Content(oracle, Prompts.DsaProblemPrompt(topic.value, difficulty.value), "");
      (DsaProblem(oracle, topic, difficulty).Success? <==> c.Returned?)
      && (c.Returned? ==> DsaProblem(oracle, topic, difficulty).value == c.text)
    ensures !Truthy(problem) || !Truthy(approach) ==> DsaHint(oracle, problem, approach, hintLevel) == Failure(400, HintFieldsText)
    ensures formData.None? ==> ResumeForge(oracle, formData) == Failure(400, FormMissingText)
    ensures formData.Some? ==>
      var c := Content(oracle, Prompts.ResumeForgePrompt(formData.value), "");
      (ResumeForge(oracle, formData).Success? <==> c.Returned?)
      && (c.Returned? ==> ResumeForge(oracle, formData).value == c.text)
  {
  }

  /**
   * The hint level defaults to 1 when absent or 0 and is otherwise passed
   * through unchecked, negative or beyond 3 alike; the prompt shows it.
   */
  lemma HintLevelDefault(oracle: Oracle, problem: Field, approach: Field, hintLevel: Option<int>)
    ensures hintLevel.None? || hintLevel.value == 0 ==> HintLevel(hintLevel) == 1
    ensures hintLevel.Some? && hintLevel.value != 0 ==> HintLevel(hintLevel) == hintLevel.value
    ensures Truthy(problem) && Truthy(approach) ==>
      var c := Content(oracle, Prompts.DsaHintPrompt(problem.value, approach.value, HintLevel(hintLevel)), "");
      && DsaHint(oracle, problem, approach, hintLevel) == Answer(c)
      && Contains(Prompts.DsaHintPrompt(problem.value, approach.value, HintLevel(hintLevel)),
                  "\nHint level requested: " + IntToString(HintLevel(hintLevel)))
  {
    if Truthy(problem) && Truthy(approach) {
      Prompts.DsaHintShowsLevel(problem.value, approach.value, HintLevel(hintLevel));
    }
  }

  // ---------------------------------------------------------------- mock interview

  /** The body of a successful start: the new session's id and the interviewer's first message. */
  datatype Started = Started(sessionId: Id, message: string)

  /** The InterviewSession collection after a request, and the reply sent. */
  datatype Step<+T> = Step(sessions: map<Id, Interview>, nextId: Id, reply: Response<T>)

  /**
   * The shape every interview transcript keeps: it opens with the
   * interviewer's message, and then the candidate and the interviewer take
   * turns, so it has odd length and ends with the interviewer.
   */
  predicate Alternates(messages: seq<Message>) {
    |messages| % 2 == 1
    && forall i :: 0 <= i < |messages| ==> messages[i].role == (if i % 2 == 0 then Assistant else User)
  }

  /** What the stores keep true of every stored interview. */
  predicate Interviews(sessions: map<Id, Interview>) {
    forall id :: id in sessions ==> ValidInterview(sessions[id]) && Alternates(sessions[id].messages)
  }

  /** POST `/interview/start`. `create` validates, and the guard makes sure it passes. */
  function StartOutcome(interviewer: (string, string, string) -> string, sessions: map<Id, Interview>, nextId: Id,
                        oracle: Oracle, nickname: Field, company: Field, round: Field): Step<Started>
  {
    if !Truthy(nickname) || !Truthy(company) || !Truthy(round) then Step(sessions, nextId, Failure(400, StartFieldsText))
    else
      var first := Content(oracle, interviewer(company.value, round.value, nickname.value), StartRequest);
      if first.Threw? then Step(sessions, nextId, FromError(first.error))
      else
        var session := NewInterview(nickname.value, company.value, round.value, [Message(Assistant, first.text)]);
        Step(sessions[nextId := session], nextId + 1, Success(Started(nextId, first.text)))
  }

  /** POST `/interview/respond`: the prompt is rebuilt from the stored session; `completed` is not looked at. */
  function RespondOutcome(interviewer: (string, string, string) -> string, sessions: map<Id, Interview>, nextId: Id,
                          oracle: Oracle, sessionId: Option<Id>, answer: Field): Step<string>
  {
    if sessionId.None? || !Truthy(answer) then Step(sessions, nextId, Failure(400, RespondFieldsText))
    else if sessionId.value !in sessions then Step(sessions, nextId, Failure(404, NotFoundText))
    else
      var session := sessions[sessionId.value];
      var reply := ChatReply(oracle, interviewer(session.company, session.round, session.nickname), session.messages, answer.value);
      if reply.Threw? then Step(sessions, nextId, FromError(reply.error))
      else
        var saved := session.(messages := session.messages + Exchange(answer.value, reply.text));
        var violations := InterviewViolations(saved);
        if violations != [] then Step(sessions, nextId, FromError(ValidationFailure("InterviewSession", violations)))
        else Step(sessions[sessionId.value := saved], nextId, Success(reply.text))
  }

  /** POST `/interview/end`: no field check, no `completed` check; the report is not added to the transcript. */
  function EndOutcome(sessions: map<Id, Interview>, nextId: Id, oracle: Oracle, sessionId: Option<Id>): Step<string> {
    if sessionId.None? || sessionId.value !in sessions then Step(sessions, nextId, Failure(404, NotFoundText))
    else
      var session := sessions[sessionId.value];
      var feedback := ChatReply(oracle, FeedbackPrompt, session.messages, FeedbackRequest);
      if feedback.Threw? then Step(sessions, nextId, FromError(feedback.error))
      else
        var saved := session.(finalFeedback := Some(feedback.text), completed := true);
        var violations := InterviewViolations(saved);
        if violations != [] then Step(sessions, nextId, FromError(ValidationFailure("InterviewSession", violations)))
        else Step(sessions[sessionId.value := saved], nextId, Success(feedback.text))
  }

  /** A failed start leaves the collection as it was. */
  lemma StartFailureChangesNothing(interviewer: (string, string, string) -> string, sessions: map<Id, Interview>, nextId: Id,
                                   oracle: Oracle, nickname: Field, company: Field, round: Field)
    ensures var r := StartOutcome(interviewer, sessions, nextId, oracle, nickname, company, round);
      r.reply.Failure? ==> r.sessions == sessions && r.nextId == nextId
  {
  }

  /** A failed respond leaves the collection as it was. */
  lemma RespondFailureChangesNothing(interviewer: (string, string, string) -> string, sessions: map<Id, Interview>, nextId: Id,
                                     oracle: Oracle, sessionId: Option<Id>, answer: Field)
    ensures var r := RespondOutcome(interviewer, sessions, nextId, oracle, sessionId, answer);
      r.reply.Failure? ==> r.sessions == sessions && r.nextId == nextId
  {
  }

  /** A failed end leaves the collection as it was. */
  lemma EndFailureChangesNothing(sessions: map<Id, Interview>, nextId: Id, oracle: Oracle, sessionId: Option<Id>)
    ensures var r := EndOutcome(sessions, nextId, oracle, sessionId);
      r.reply.Failure? ==> r.sessions == sessions && r.nextId == nextId
  {
  }

  /**
   * A start without nickname, company or round is refused with 400; a
   * successful one stores, under a fresh id, a new session holding exactly
   * one interviewer message: the one returned, which the model wrote for the
   * interviewer prompt of that company, round and name.
   */
  lemma StartCreatesSession(interviewer: (string, string, string) -> string, sessions: map<Id, Interview>, nextId: Id,
                            oracle: Oracle, nickname: Field, company: Field, round: Field)
    requires FreshIds(sessions, nextId)
    ensures var r := StartOutcome(interviewer, sessions, nextId, oracle, nickname, company, round);
      && (!Truthy(nickname) || !Truthy(company) || !Truthy(round) ==> r.reply == Failure(400, StartFieldsText))
      && (r.reply.Success? ==>
        var id := r.reply.value.sessionId;
        var message := r.reply.value.message;
        && Content(oracle, interviewer(company.value, round.value, nickname.value), StartRequest) == Returned(message)
        && id !in sessions
        && r.sessions == sessions[id := NewInterview(nickname.value, company.value, round.value, [Message(Assistant, message)])])
  {
  }

  /** Responding to an id that names no session is refused with 404. */
  lemma RespondUnknownSession(interviewer: (string, string, string) -> string, sessions: map<Id, Interview>, nextId: Id,
                              oracle: Oracle, sessionId: Option<Id>, answer: Field)
    requires sessionId.Some? && Truthy(answer) && sessionId.value !in sessions
    ensures RespondOutcome(interviewer, sessions, nextId, oracle, sessionId, answer)
      == Step(sessions, nextId, Failure(404, NotFoundText))
  {
  }

  /**
   * A successful respond answers with what the model said, given the prompt
   * rebuilt from the session's stored company, round and nickname and the
   * transcript as it was; it appends the answer and then that reply and
   * changes nothing else.
   */
  lemma RespondAppendsExchange(interviewer: (string, string, string) -> string, sessions: map<Id, Interview>, nextId: Id,
                               oracle: Oracle, sessionId: Option<Id>, answer: Field)
    ensures var r := RespondOutcome(interviewer, sessions, nextId, oracle, sessionId, answer);
      r.reply.Success? ==>
        var s := sessions[sessionId.value];
        && ChatReply(oracle, interviewer(s.company, s.round, s.nickname), s.messages, answer.value) == Returned(r.reply.value)
        && r.sessions == sessions[sessionId.value := s.(messages := s.messages + Exchange(answer.value, r.reply.value))]
        && r.nextId == nextId
  {
  }

  /**
   * A successful end records the report the model wrote for the feedback
   * prompt over the transcript, marks the session completed, and leaves its
   * transcript and everything else alone.
   */
  lemma EndRecordsFeedback(sessions: map<Id, Interview>, nextId: Id, oracle: Oracle, sessionId: Option<Id>)
    ensures var r := EndOutcome(sessions, nextId, oracle, sessionId);
      && (sessionId.None? || sessionId.value !in sessions ==> r.reply == Failure(404, NotFoundText))
      && (r.reply.Success? ==>
        var s := sessions[sessionId.value];
        && ChatReply(oracle, FeedbackPrompt, s.messages, FeedbackRequest) == Returned(r.reply.value)
        && r.sessions == sessions[sessionId.value := s.(finalFeedback := Some(r.reply.value), completed := true)])
  {
  }

  /**
   * Nothing reads `completed`: a completed session still takes answers, and
   * ending it again replaces the report, whenever the model answers.
   */
  lemma CompletedStaysOpen(interviewer: (string, string, string) -> string, sessions: map<Id, Interview>, nextId: Id,
                           oracle: Oracle, id: Id, answer: Field)
    requires id in sessions && sessions[id].completed && ValidInterview(sessions[id]) && Truthy(answer)
    ensures var s := sessions[id];
      var reply := ChatReply(oracle, interviewer(s.company, s.round, s.nickname), s.messages, answer.value);
      reply.Returned? ==> RespondOutcome(interviewer, sessions, nextId, oracle, Some(id), answer).reply == Success(reply.text)
    ensures var s := sessions[id];
      var feedback := ChatReply(oracle, FeedbackPrompt, s.messages, FeedbackRequest);
      feedback.Returned? ==>
        var r := EndOutcome(sessions, nextId, oracle, Some(id));
        r.reply == Success(feedback.text) && r.sessions[id].finalFeedback == Some(feedback.text)
  {
    var s := sessions[id];
    InterviewViolationsIff(s.(messages := s.messages + Exchange(answer.value, "")));
    InterviewViolationsIff(s.(finalFeedback := Some(""), completed := true));
    var reply := ChatReply(oracle, interviewer(s.company, s.round, s.nickname), s.messages, answer.value);
    if reply.Returned? {
      InterviewViolationsIff(s.(messages := s.messages + Exchange(answer.value, reply.text)));
    }
    var feedback := ChatReply(oracle, FeedbackPrompt, s.messages, FeedbackRequest);
    if feedback.Returned? {
      InterviewViolationsIff(s.(finalFeedback := Some(feedback.text), completed := true));
    }
  }

  /** Appending an exchange to an alternating transcript keeps it alternating. */
  lemma AppendKeepsAlternating(messages: seq<Message>, answer: string, reply: string)
    requires Alternates(messages)
    ensures Alternates(messages + Exchange(answer, reply))
  {
    var longer := messages + Exchange(answer, reply);
    forall i | 0 <= i < |longer|
      ensures longer[i].role == (if i % 2 == 0 then Assistant else User)
    {
      if i >= |messages| {
        assert i == |messages| || i == |messages| + 1;
      }
    }
  }

  /** A start keeps every id fresh, every stored interview valid and every transcript alternating. */
  lemma StartKeepsInvariants(interviewer: (string, string, string) -> string, sessions: map<Id, Interview>, nextId: Id,
                             oracle: Oracle, nickname: Field, company: Field, round: Field)
    requires FreshIds(sessions, nextId) && Interviews(sessions)
    ensures var r := StartOutcome(interviewer, sessions, nextId, oracle, nickname, company, round);
      FreshIds(r.sessions, r.nextId) && Interviews(r.sessions)
  {
  }

  /** So does a respond: the appended exchange continues the alternation. */
  lemma RespondKeepsInvariants(interviewer: (string, string, string) -> string, sessions: map<Id, Interview>, nextId: Id,
                               oracle: Oracle, sessionId: Option<Id>, answer: Field)
    requires FreshIds(sessions, nextId) && Interviews(sessions)
    ensures var r := RespondOutcome(interviewer, sessions, nextId, oracle, sessionId, answer);
      FreshIds(r.sessions, r.nextId) && Interviews(r.sessions)
  {
    var r := RespondOutcome(interviewer, sessions, nextId, oracle, sessionId, answer);
    if r.reply.Success? {
      var s := sessions[sessionId.value];
      AppendKeepsAlternating(s.messages, answer.value, r.reply.value);
    }
  }

  /** So does an end, which leaves every transcript as it was. */
  lemma EndKeepsInvariants(sessions: map<Id, Interview>, nextId: Id, oracle: Oracle, sessionId: Option<Id>)
    requires FreshIds(sessions, nextId) && Interviews(sessions)
    ensures var r := EndOutcome(sessions, nextId, oracle, sessionId);
      FreshIds(r.sessions, r.nextId) && Interviews(r.sessions)
  {
  }

  /** The InterviewSession collection. */
  class InterviewStore {
    var sessions: map<Id, Interview>
    var nextId: Id
    /** The interviewer's system prompt for a company, a round and a name. */
    const interviewer: (string, string, string) -> string

    /** An empty collection, interviewing with the mock-interview prompt. */
    constructor()
      ensures sessions == map[] && nextId == 0 && interviewer == Prompts.MockInterviewPrompt
    {
      sessions := map[];
      nextId := 0;
      interviewer := Prompts.MockInterviewPrompt;
    }

    /** POST `/interview/start`. */
    method Start(oracle: Oracle, nickname: Field, company: Field, round: Field) returns (r: Response<Started>)
      modifies this
      ensures Step(sessions, nextId, r) == StartOutcome(interviewer, old(sessions), old(nextId), oracle, nickname, company, round)
    {
      if !Truthy(nickname) || !Truthy(company) || !Truthy(round) {
        return Failure(400, StartFieldsText);
      }
      var systemPrompt := interviewer(company.value, round.value, nickname.value);
      var first := GenerateContent(oracle, systemPrompt, StartRequest);
      if first.Threw? {
        return FromError(first.error);
      }
      var session := NewInterview(nickname.value, company.value, round.value, [Message(Assistant, first.text)]);
      var id := nextId;
      sessions := sessions[id := session];
      nextId := nextId + 1;
      r := Success(Started(id, first.text));
    }

    /** POST `/interview/respond`. */
    method Respond(oracle: Oracle, sessionId: Option<Id>, answer: Field) returns (r: Response<string>)
      modifies this
      ensures Step(sessions, nextId, r) == RespondOutcome(interviewer, old(sessions), old(nextId), oracle, sessionId, answer)
    {
      if sessionId.None? || !Truthy(answer) {
        return Failure(400, RespondFieldsText);
      }
      if sessionId.value !in sessions {
        return Failure(404, NotFoundText);
      }
      var session := sessions[sessionId.value];
      var systemPrompt := interviewer(session.company, session.round, session.nickname);
      var reply := GenerateChat(oracle, systemPrompt, session.messages, answer.value);
      if reply.Threw? {
        return FromError(reply.error);
      }
      var before := session.messages;
      session := session.(messages := session.messages + [Message(User, answer.value)]);
      session := session.(messages := session.messages + [Message(Assistant, reply.text)]);
      assert session.messages == before + Exchange(answer.value, reply.text);
      var violations := InterviewViolations(session);
      if violations != [] {
        return FromError(ValidationFailure("InterviewSession", violations));
      }
      sessions := sessions[sessionId.value := session];
      r := Success(reply.text);
    }

    /** POST `/interview/end`. */
    method End(oracle: Oracle, sessionId: Option<Id>) returns (r: Response<string>)
      modifies this
      ensures Step(sessions, nextId, r) == EndOutcome(old(sessions), old(nextId), oracle, sessionId)
    {
      if sessionId.None? || sessionId.value !in sessions {
        return Failure(404, NotFoundText);
      }
      var session := sessions[sessionId.value];
      var feedback := GenerateChat(oracle, FeedbackPrompt, session.messages, FeedbackRequest);
      if feedback.Threw? {
        return FromError(feedback.error);
      }
      session := session.(finalFeedback := Some(feedback.text));
      session := session.(completed := true);
      var violations := InterviewViolations(session);
      if violations != [] {
        return FromError(ValidationFailure("InterviewSession", violations));
      }
      sessions := sessions[sessionId.value := session];
      r := Success(feedback.text);
    }
  }
}
