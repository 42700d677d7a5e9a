/**
 * The server's error middleware (server/middleware/errorHandler.js): an
 * ordered list of rules from a thrown error's message, name and status to an
 * HTTP status and a short client-facing message. The first rule that applies
 * decides; every response it builds carries `success: false`.
 */
module ErrorHandler {
  import opened Wrappers
  import opened Text
  import FriendlyText

  /**
   * A thrown JavaScript error, as far as the middleware looks at it: its
   * `message` (possibly absent), `name`, `status` (possibly absent) and, for a
   * validation error, the messages of its `errors` object in order.
   */
  datatype JsError = JsError(message: Option<string>, name: string, status: Option<int>, fieldMessages: seq<string>)

  /** `new Error(message)`. */
  function PlainError(message: string): (e: JsError)
    ensures e.message == Some(message) && e.name != "ValidationError" && e.status.None?
  {
    JsError(Some(message), "Error", None, [])
  }

  /** The JSON body and status the middleware sends. */
  datatype ErrorResponse = ErrorResponse(status: int, success: bool, error: string)

  /** The reply a route sends: its payload on success, or a status and an error string. */
  datatype Response<+T> = Success(value: T) | Failure(status: int, error: string)

  const BusyText := FriendlyText.Busy
  const InvalidKeyText := "Invalid Gemini API key. Check your .env file and restart the server."
  const UnavailableText := "AI model unavailable. Check your Gemini API key permissions."
  const GenericText := "Something went wrong. Please try again."

  /** A raw message is forwarded to the client only when it is shorter than this. */
  const ForwardLimit := 120

  /** `err.message?.includes(marker)`: false when there is no message. */
  predicate MessageHas(err: JsError, marker: string) {
    err.message.Some? && Contains(err.message.value, marker)
  }

  /** The rate-limit test, shared with the retry wrapper: '429', 'quota' or 'Too Many Requests' in the message. */
  predicate MentionsRateLimit(err: JsError) {
    MessageHas(err, "429") || MessageHas(err, "quota") || MessageHas(err, "Too Many Requests")
  }

  /** 'API_KEY', '401' or '403' in the message. */
  predicate MentionsBadKey(err: JsError) {
    MessageHas(err, "API_KEY") || MessageHas(err, "401") || MessageHas(err, "403")
  }

  /** '404' or 'not found' in the message. */
  predicate MentionsMissingModel(err: JsError) {
    MessageHas(err, "404") || MessageHas(err, "not found")
  }

  /** `err.status || 500`. */
  function FallbackStatus(err: JsError): int {
    if err.status.Some? && err.status.value != 0 then err.status.value else 500
  }

  /** `err.message?.length < 120 ? err.message : 'Something went wrong…'`. */
  function FallbackText(err: JsError): (t: string)
    ensures |t| < ForwardLimit
  {
    if err.message.Some? && |err.message.value| < ForwardLimit then err.message.value else GenericText
  }

  /** `errorHandler`: the response for a thrown error. */
  function Handle(err: JsError): (r: ErrorResponse)
    ensures !r.success
    ensures r.status in {429, 401, 500, 400, FallbackStatus(err)}
  {
    if MentionsRateLimit(err) then ErrorResponse(429, false, BusyText)
    else if MentionsBadKey(err) then ErrorResponse(401, false, InvalidKeyText)
    else if MentionsMissingModel(err) then ErrorResponse(500, false, UnavailableText)
    else if err.name == "ValidationError" then ErrorResponse(400, false, Join(err.fieldMessages, ", "))
    else ErrorResponse(FallbackStatus(err), false, FallbackText(err))
  }

  /** What a route hands to `next(error)` becomes this reply. */
  function FromError<T>(err: JsError): (r: Response<T>)
    ensures r.Failure? && r.status == Handle(err).status && r.error == Handle(err).error
  {
    var h := Handle(err);
    Failure(h.status, h.error)
  }

  // ---------------------------------------------------------------- the rules as a decision list

  /** The middleware's rules, named. */
  datatype Rule = RateLimit | BadKey | MissingModel | Validation | Fallback

  /** The order in which the rules are tried. */
  const RuleOrder: seq<Rule> := [RateLimit, BadKey, MissingModel, Validation, Fallback]

  /** Whether a rule's condition holds of an error; the fallback always does. */
  predicate Applies(rule: Rule, err: JsError) {
    match rule
    case RateLimit => MentionsRateLimit(err)
    case BadKey => MentionsBadKey(err)
    case MissingModel => MentionsMissingModel(err)
    case Validation => err.name == "ValidationError"
    case Fallback => true
  }

  /** The response a rule builds. */
  function Respond(rule: Rule, err: JsError): ErrorResponse {
    match rule
    case RateLimit => ErrorResponse(429, false, BusyText)
    case BadKey => ErrorResponse(401, false, InvalidKeyText)
    case MissingModel => ErrorResponse(500, false, UnavailableText)
    case Validation => ErrorResponse(400, false, Join(err.fieldMessages, ", "))
    case Fallback => ErrorResponse(FallbackStatus(err), false, FallbackText(err))
  }

  /** Position of the first rule of `rules` that applies, or `|rules|`. */
  function FirstApplying(rules: seq<Rule>, err: JsError): (i: nat)
    ensures i <= |rules|
    ensures i < |rules| ==> Applies(rules[i], err)
    ensures forall k :: 0 <= k < i ==> !Applies(rules[k], err)
  {
    if rules == [] then 0
    else if Applies(rules[0], err) then 0
    else 1 + FirstApplying(rules[1..], err)
  }

  /** The handler answers with the first rule, in the fixed order, whose condition holds. */
  lemma FirstRuleWins(err: JsError)
    ensures FirstApplying(RuleOrder, err) < |RuleOrder|
    ensures Handle(err) == Respond(RuleOrder[FirstApplying(RuleOrder, err)], err)
  {
    var i := FirstApplying(RuleOrder, err);
    assert Applies(RuleOrder[4], err);
    if MentionsRateLimit(err) {
      assert Applies(RuleOrder[0], err);
    } else if MentionsBadKey(err) {
      assert Applies(RuleOrder[1], err) && !Applies(RuleOrder[0], err);
    } else if MentionsMissingModel(err) {
      assert Applies(RuleOrder[2], err) && !Applies(RuleOrder[1], err);
    } else if err.name == "ValidationError" {
      assert Applies(RuleOrder[3], err) && !Applies(RuleOrder[2], err);
    } else {
      assert !Applies(RuleOrder[3], err);
    }
  }

  /**
   * Apart from a validation error's joined field messages, the client never
   * receives a text of 120 characters or more: long raw messages are replaced.
   */
  lemma ShortClientMessages(err: JsError)
    requires err.name != "ValidationError" || MentionsRateLimit(err) || MentionsBadKey(err) || MentionsMissingModel(err)
    ensures |Handle(err).error| < ForwardLimit
  {
  }

  /** An error with no message at all gets the generic text. */
  lemma NoMessageIsGeneric(err: JsError)
    requires err.message.None? && err.name != "ValidationError"
    ensures Handle(err) == ErrorResponse(FallbackStatus(err), false, GenericText)
  {
  }

  /** A plain error with a short message unmatched by any rule is forwarded with status 500. */
  lemma ShortPlainForwarded(message: string)
    requires |message| < ForwardLimit
    requires !Contains(message, "429") && !Contains(message, "quota") && !Contains(message, "Too Many Requests")
    requires !Contains(message, "API_KEY") && !Contains(message, "401") && !Contains(message, "403")
    requires !Contains(message, "404") && !Contains(message, "not found")
    ensures Handle(PlainError(message)) == ErrorResponse(500, false, message)
  {
  }
}
