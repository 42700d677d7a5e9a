/**
 * The chat routes (server/routes/chat.js). POST `/` checks the request,
 * picks the system prompt from the request's mode, finds the session or
 * starts a new one, asks the model with the transcript as it was, appends the
 * user turn and the assistant turn and saves. GET `/history/:sessionId` loads
 * a session. The Chat collection is the class `ChatStore`; the model is an
 * oracle. The prompt lookup is a parameter of the route, `promptFor`; the
 * store is built with `Prompts.ChatPrompt`, which is `CHAT_MODES[mode] ||
 * CHAT_MODES.study`, so the facts below hold whatever the prompts say.
 */
module ChatRoute {
  import opened Wrappers
  import opened Text
  import opened ErrorHandler
  import opened Models
  import opened Gemini
  import Prompts

  const MissingFieldsText := "nickname, message, and mode are required"
  const NotFoundText := "Session not found"

  /** The body of a successful send: the session id, the reply and the request's mode. */
  datatype Sent = Sent(sessionId: Id, response: string, mode: string)

  /** The Chat collection after a request, and the reply sent. */
  datatype SendResult = SendResult(sessions: map<Id, ChatSession>, nextId: Id, reply: Response<Sent>)

  /** Every stored transcript holds whole exchanges: an even number of messages. */
  predicate EvenTranscripts(sessions: map<Id, ChatSession>) {
    forall id :: id in sessions ==> |sessions[id].messages| % 2 == 0
  }

  /** Whether the request's id names a stored session. */
  predicate Finds(sessions: map<Id, ChatSession>, sessionId: Option<Id>) {
    sessionId.Some? && sessionId.value in sessions
  }

  /** The transcript generation sees: the stored one, or none for a new session. */
  function PriorMessages(sessions: map<Id, ChatSession>, sessionId: Option<Id>): seq<Message> {
    if Finds(sessions, sessionId) then sessions[sessionId.value].messages else []
  }

  /** POST `/`: the collection afterwards and the reply, as the route computes them. */
  function SendOutcome(promptFor: string -> string, sessions: map<Id, ChatSession>, nextId: Id, oracle: Oracle,
                       nickname: Field, message: Field, mode: Field, sessionId: Option<Id>): SendResult
  {
    if !Truthy(nickname) || !Truthy(message) || !Truthy(mode) then
      SendResult(sessions, nextId, Failure(400, MissingFieldsText))
    else
      var found := Finds(sessions, sessionId);
      var id := if found then sessionId.value else nextId;
      var session := if found then sessions[id] else NewChat(nickname.value, mode);
      var reply := ChatReply(oracle, promptFor(mode.value), session.messages, message.value);
      if reply.Threw? then SendResult(sessions, nextId, FromError(reply.error))
      else
        var saved := session.(messages := session.messages + Exchange(message.value, reply.text));
        var violations := ChatViolations(saved);
        if violations != [] then SendResult(sessions, nextId, FromError(ValidationFailure("Chat", violations)))
        else SendResult(sessions[id := saved], if found then nextId else nextId + 1, Success(Sent(id, reply.text, mode.value)))
  }

  /** A missing or empty nickname, message or mode is refused with 400 before anything else happens. */
  lemma SendRequiresFields(promptFor: string -> string, sessions: map<Id, ChatSession>, nextId: Id, oracle: Oracle,
                           nickname: Field, message: Field, mode: Field, sessionId: Option<Id>)
    requires !Truthy(nickname) || !Truthy(message) || !Truthy(mode)
    ensures SendOutcome(promptFor, sessions, nextId, oracle, nickname, message, mode, sessionId)
      == SendResult(sessions, nextId, Failure(400, MissingFieldsText))
  {
  }

  /** A failed send, whether refused, thrown by the model or rejected on save, changes nothing. */
  lemma SendFailureChangesNothing(promptFor: string -> string, sessions: map<Id, ChatSession>, nextId: Id, oracle: Oracle,
                                  nickname: Field, message: Field, mode: Field, sessionId: Option<Id>)
    ensures var r := SendOutcome(promptFor, sessions, nextId, oracle, nickname, message, mode, sessionId);
      r.reply.Failure? ==> r.sessions == sessions && r.nextId == nextId
  {
  }

  /**
   * A successful send answers with what the model said to the request's mode
   * prompt and the transcript as it was, echoes the mode, and appends exactly
   * the user turn and then the assistant turn to that session, leaving every
   * other session alone. A session the id finds keeps its id, its stored
   * nickname and its stored mode: the request's mode picks the prompt but is
   * never saved.
   */
  lemma SendAppendsExchange(promptFor: string -> string, sessions: map<Id, ChatSession>, nextId: Id, oracle: Oracle,
                            nickname: Field, message: Field, mode: Field, sessionId: Option<Id>)
    ensures var r := SendOutcome(promptFor, sessions, nextId, oracle, nickname, message, mode, sessionId);
      r.reply.Success? ==>
        var prior := PriorMessages(sessions, sessionId);
        var sent := r.reply.value;
        && ChatReply(oracle, promptFor(mode.value), prior, message.value) == Returned(sent.response)
        && sent.mode == mode.value
        && sent.sessionId in r.sessions
        && r.sessions[sent.sessionId].messages == prior + Exchange(message.value, sent.response)
        && (Finds(sessions, sessionId) ==>
              && sent.sessionId == sessionId.value
              && r.nextId == nextId
              && r.sessions[sent.sessionId] == sessions[sessionId.value].(messages := prior + Exchange(message.value, sent.response)))
        && forall id :: id in sessions && id != sent.sessionId ==> id in r.sessions && r.sessions[id] == sessions[id]
  {
  }

  /**
   * Without an id, or with one that finds nothing, a successful send creates
   * a session under a fresh id, holding the request's nickname and mode and
   * just the one exchange.
   */
  lemma SendCreatesSession(promptFor: string -> string, sessions: map<Id, ChatSession>, nextId: Id, oracle: Oracle,
                           nickname: Field, message: Field, mode: Field, sessionId: Option<Id>)
    requires FreshIds(sessions, nextId) && !Finds(sessions, sessionId)
    ensures var r := SendOutcome(promptFor, sessions, nextId, oracle, nickname, message, mode, sessionId);
      r.reply.Success? ==>
        var id := r.reply.value.sessionId;
        && id !in sessions && r.sessions.Keys == sessions.Keys + {id}
        && r.sessions[id] == ChatSession(nickname.value, mode.value, Exchange(message.value, r.reply.value.response))
  {
  }

  /** Sends keep ids fresh, and keep every transcript an even number of messages. */
  lemma SendKeepsInvariants(promptFor: string -> string, sessions: map<Id, ChatSession>, nextId: Id, oracle: Oracle,
                            nickname: Field, message: Field, mode: Field, sessionId: Option<Id>)
    requires FreshIds(sessions, nextId) && EvenTranscripts(sessions)
    ensures var r := SendOutcome(promptFor, sessions, nextId, oracle, nickname, message, mode, sessionId);
      FreshIds(r.sessions, r.nextId) && EvenTranscripts(r.sessions)
  {
  }

  /** A session a send stores satisfies the chat schema. */
  lemma SendStoresValid(promptFor: string -> string, sessions: map<Id, ChatSession>, nextId: Id, oracle: Oracle,
                        nickname: Field, message: Field, mode: Field, sessionId: Option<Id>)
    ensures var r := SendOutcome(promptFor, sessions, nextId, oracle, nickname, message, mode, sessionId);
      r.reply.Success? ==> ValidChat(r.sessions[r.reply.value.sessionId])
  {
  }

  /** The Chat collection. */
  class ChatStore {
    var sessions: map<Id, ChatSession>
    var nextId: Id
    /** The system prompt for a mode name. */
    const promptFor: string -> string

    /** An empty collection, answering with the chat-mode prompts. */
    constructor()
      ensures sessions == map[] && nextId == 0 && promptFor == Prompts.ChatPrompt
    {
      sessions := map[];
      nextId := 0;
      promptFor := Prompts.ChatPrompt;
    }

    /** POST `/`. */
    method Send(oracle: Oracle, nickname: Field, message: Field, mode: Field, sessionId: Option<Id>)
      returns (r: Response<Sent>)
      modifies this
      ensures SendResult(sessions, nextId, r)
        == SendOutcome(promptFor, old(sessions), old(nextId), oracle, nickname, message, mode, sessionId)
    {
      if !Truthy(nickname) || !Truthy(message) || !Truthy(mode) {
        return Failure(400, MissingFieldsText);
      }
      var systemPrompt := promptFor(mode.value);
      var found := Finds(sessions, sessionId);
      var id, session;
      if found {
        id, session := sessionId.value, sessions[sessionId.value];
      } else {
        id, session := nextId, NewChat(nickname.value, mode);
      }
      var reply := GenerateChat(oracle, systemPrompt, session.messages, message.value);
      if reply.Threw? {
        return FromError(reply.error);
      }
      var before := session.messages;
      session := session.(messages := session.messages + [Message(User, message.value)]);
      session := session.(messages := session.messages + [Message(Assistant, reply.text)]);
      assert session.messages == before + Exchange(message.value, reply.text);
      var violations := ChatViolations(session);
      if violations != [] {
        return FromError(ValidationFailure("Chat", violations));
      }
      sessions := sessions[id := session];
      if !found {
        nextId := nextId + 1;
      }
      r := Success(Sent(id, reply.text, mode.value));
    }

    /** GET `/history/:sessionId`: the stored session, or 404. */
    method History(sessionId: Option<Id>) returns (r: Response<ChatSession>)
      ensures Finds(sessions, sessionId) ==> r == Success(sessions[sessionId.value])
      ensures !Finds(sessions, sessionId) ==> r == Failure(404, NotFoundText)
    {
      if Finds(sessions, sessionId) {
        r := Success(sessions[sessionId.value]);
      } else {
        r := Failure(404, NotFoundText);
      }
    }
  }
}
