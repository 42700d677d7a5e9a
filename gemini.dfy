/**
 * The generation client (server/config/gemini.js). The remote model is an
 * oracle: `oracle(call, k)` is the outcome of the k-th attempt at `call`,
 * either the returned text or the thrown error. `withRetry` is a bounded loop
 * that retries rate-limit failures after a linearly growing wait; the waits
 * are recorded in a delay log instead of being slept.
 */
module Gemini {
  import opened Wrappers
  import opened Text
  import opened ErrorHandler
  import opened Models
  import FriendlyText

  /** The two roles the remote chat API knows. */
  datatype GeminiRole = GUser | GModel

  /** One history entry as sent to the remote model: `{ role, parts: [{ text }] }`. */
  datatype GeminiTurn = GeminiTurn(role: GeminiRole, text: string)

  /** What one attempt sends to the remote model. */
  datatype ModelCall =
    | SingleTurn(input: string)
    | ChatTurn(system: string, history: seq<GeminiTurn>, message: string)

  /** What one attempt of `fn` does: return text or throw. */
  datatype Outcome = Ok(text: string) | Err(error: JsError)

  /** How `withRetry` finishes: with a value, with a thrown error, or with `undefined` when it never tried. */
  datatype Completion = Returned(text: string) | Threw(error: JsError) | NoResult

  /** The injected remote model: the outcome of attempt `k` (counting from 1) at a call. */
  type Oracle = (ModelCall, nat) -> Outcome

  /** The default number of attempts. */
  const DefaultRetries := 3

  /** The wait after attempt `k` is `k` times this many milliseconds. */
  const BaseDelayMs := 3000

  /** The error that replaces a rate-limit failure on the last attempt: the middleware's busy text. */
  const ExhaustedMessage := FriendlyText.Busy

  /** A finished run of `withRetry`: how it completed, how many calls it made, and the waits it slept. */
  datatype Run = Run(result: Completion, calls: nat, delays: seq<nat>)

  /** The run of `withRetry` from attempt `attempt` on. */
  function RetryFrom(oracle: Oracle, call: ModelCall, retries: int, attempt: nat): Run
    decreases retries - attempt + 1
  {
    if attempt > retries then Run(NoResult, 0, [])
    else
      match oracle(call, attempt)
      case Ok(t) => Run(Returned(t), 1, [])
      case Err(e) =>
        if MentionsRateLimit(e) && attempt < retries then
          var rest := RetryFrom(oracle, call, retries, attempt + 1);
          Run(rest.result, rest.calls + 1, [attempt * BaseDelayMs] + rest.delays)
        else if MentionsRateLimit(e) then Run(Threw(PlainError(ExhaustedMessage)), 1, [])
        else Run(Threw(e), 1, [])
  }

  /** The run of `withRetry(fn, retries)`, where `fn` sends `call`. */
  function RetryRun(oracle: Oracle, call: ModelCall, retries: int): Run {
    RetryFrom(oracle, call, retries, 1)
  }

  /** `withRetry`: the loop itself, proved to run as `RetryRun` says. */
  method WithRetry(oracle: Oracle, call: ModelCall, retries: int) returns (result: Completion, calls: nat, delays: seq<nat>)
    ensures Run(result, calls, delays) == RetryRun(oracle, call, retries)
  {
    ghost var run := RetryRun(oracle, call, retries);
    calls, delays := 0, [];
    var attempt := 1;
    assert [] + run.delays == run.delays;
    while attempt <= retries
      invariant 1 <= attempt && calls == attempt - 1
      invariant attempt > 1 ==> attempt <= retries
      invariant run.result == RetryFrom(oracle, call, retries, attempt).result
      invariant run.calls == calls + RetryFrom(oracle, call, retries, attempt).calls
      invariant run.delays == delays + RetryFrom(oracle, call, retries, attempt).delays
      decreases retries - attempt
    {
      var outcome := oracle(call, attempt);
      var is429 := outcome.Err? && MentionsRateLimit(outcome.error);
      RetryStep(oracle, call, retries, attempt, outcome, is429, delays);
      calls := calls + 1;
      if outcome.Ok? {
        return Returned(outcome.text), calls, delays;
      }
      if is429 && attempt < retries {
        delays := delays + [attempt * BaseDelayMs];
      } else if is429 {
        return Threw(PlainError(ExhaustedMessage)), calls, delays;
      } else {
        return Threw(outcome.error), calls, delays;
      }
      attempt := attempt + 1;
    }
    result := NoResult;
  }

  /** One turn of the loop: how the run from `attempt` goes on, given the waits before it. */
  lemma RetryStep(oracle: Oracle, call: ModelCall, retries: int, attempt: nat, outcome: Outcome, is429: bool,
                  delays: seq<nat>)
    requires 1 <= attempt <= retries
    requires outcome == oracle(call, attempt) && is429 == (outcome.Err? && MentionsRateLimit(outcome.error))
    ensures var here := RetryFrom(oracle, call, retries, attempt);
      && (outcome.Ok? ==> here.result == Returned(outcome.text) && here.calls == 1 && delays + here.delays == delays)
      && (is429 && attempt < retries ==>
            var next := RetryFrom(oracle, call, retries, attempt + 1);
            && here.result == next.result && here.calls == 1 + next.calls
            && delays + here.delays == (delays + [attempt * BaseDelayMs]) + next.delays)
      && (is429 && attempt == retries ==>
            here.result == Threw(PlainError(ExhaustedMessage)) && here.calls == 1 && delays + here.delays == delays)
      && (outcome.Err? && !is429 ==>
            here.result == Threw(outcome.error) && here.calls == 1 && delays + here.delays == delays)
  {
    assert delays + [] == delays;
    if is429 && attempt < retries {
      var next := RetryFrom(oracle, call, retries, attempt + 1);
      assert delays + ([attempt * BaseDelayMs] + next.delays) == (delays + [attempt * BaseDelayMs]) + next.delays;
    }
  }

  // ---------------------------------------------------------------- properties of withRetry

  /** The waits are 3000, 6000, … ms, one fewer than the calls, so no wait follows the last call. */
  lemma {:induction false} DelaysFrom(oracle: Oracle, call: ModelCall, retries: int, attempt: nat)
    requires 1 <= attempt
    ensures var r := RetryFrom(oracle, call, retries, attempt);
      && r.calls <= (if retries >= attempt then retries - attempt + 1 else 0)
      && (r.calls == 0 <==> r.result == NoResult)
      && (r.calls == 0 <==> attempt > retries)
      && |r.delays| == (if r.calls == 0 then 0 else r.calls - 1)
      && forall i :: 0 <= i < |r.delays| ==> r.delays[i] == (attempt + i) * BaseDelayMs
    decreases retries - attempt + 1
  {
    if attempt <= retries {
      match oracle(call, attempt)
      case Ok(_) =>
      case Err(e) =>
        if MentionsRateLimit(e) && attempt < retries {
          DelaysFrom(oracle, call, retries, attempt + 1);
          var rest := RetryFrom(oracle, call, retries, attempt + 1);
          var r := RetryFrom(oracle, call, retries, attempt);
          assert r.delays == [attempt * BaseDelayMs] + rest.delays;
          forall i | 0 < i < |r.delays| ensures r.delays[i] == (attempt + i) * BaseDelayMs {
            assert r.delays[i] == rest.delays[i - 1];
          }
        }
    }
  }

  /**
   * `fn` is called at most `retries` times, at least once when `retries >= 1`;
   * the k-th wait is k * 3000 ms and there is one wait fewer than calls.
   * The loop returns `undefined` exactly when `retries < 1`.
   */
  lemma CallsAndDelays(oracle: Oracle, call: ModelCall, retries: int)
    ensures var r := RetryRun(oracle, call, retries);
      && r.calls <= (if retries >= 1 then retries else 0)
      && (r.result == NoResult <==> retries < 1)
      && (retries >= 1 ==> r.calls >= 1 && |r.delays| == r.calls - 1)
      && forall i :: 0 <= i < |r.delays| ==> r.delays[i] == (i + 1) * BaseDelayMs
  {
    DelaysFrom(oracle, call, retries, 1);
  }

  /** With the default three attempts the waits are at most 3 s then 6 s: 9 s in all, and never a 9 s wait. */
  lemma DefaultWaitBound(oracle: Oracle, call: ModelCall)
    ensures var r := RetryRun(oracle, call, DefaultRetries);
      && |r.delays| <= 2
      && (forall i :: 0 <= i < |r.delays| ==> r.delays[i] <= 6000)
      && (|r.delays| == 2 ==> r.delays == [3000, 6000])
  {
    CallsAndDelays(oracle, call, DefaultRetries);
  }

  /** Attempts `attempt` up to (not including) `k` all fail with a rate-limit error. */
  ghost predicate RateLimitedBefore(oracle: Oracle, call: ModelCall, attempt: nat, k: nat) {
    forall j :: attempt <= j < k ==> oracle(call, j).Err? && MentionsRateLimit(oracle(call, j).error)
  }

  /** The first success returns its text and no further call is made. */
  lemma {:induction false} FirstSuccessFrom(oracle: Oracle, call: ModelCall, retries: int, attempt: nat, k: nat)
    requires 1 <= attempt <= k <= retries
    requires RateLimitedBefore(oracle, call, attempt, k)
    requires oracle(call, k).Ok?
    ensures RetryFrom(oracle, call, retries, attempt).result == Returned(oracle(call, k).text)
    ensures RetryFrom(oracle, call, retries, attempt).calls == k - attempt + 1
    decreases k - attempt
  {
    if attempt < k {
      FirstSuccessFrom(oracle, call, retries, attempt + 1, k);
    }
  }

  /** Rate-limit failures on attempts 1..k-1 and success on attempt k <= retries: k calls, the k-th text. */
  lemma FirstSuccess(oracle: Oracle, call: ModelCall, retries: int, k: nat)
    requires 1 <= k <= retries
    requires RateLimitedBefore(oracle, call, 1, k)
    requires oracle(call, k).Ok?
    ensures RetryRun(oracle, call, retries).result == Returned(oracle(call, k).text)
    ensures RetryRun(oracle, call, retries).calls == k
  {
    FirstSuccessFrom(oracle, call, retries, 1, k);
  }

  /** Two rate-limit failures and then a success: three calls, waits of 3 s and 6 s, the success's text. */
  lemma TwoRateLimitsThenSuccess(oracle: Oracle, call: ModelCall)
    requires oracle(call, 1).Err? && MentionsRateLimit(oracle(call, 1).error)
    requires oracle(call, 2).Err? && MentionsRateLimit(oracle(call, 2).error)
    requires oracle(call, 3).Ok?
    ensures RetryRun(oracle, call, DefaultRetries) == Run(Returned(oracle(call, 3).text), 3, [3000, 6000])
  {
  }

  /** Any other failure is rethrown unchanged at once: one call, no wait. */
  lemma OtherErrorRethrown(oracle: Oracle, call: ModelCall, retries: int)
    requires retries >= 1
    requires oracle(call, 1).Err? && !MentionsRateLimit(oracle(call, 1).error)
    ensures RetryRun(oracle, call, retries) == Run(Threw(oracle(call, 1).error), 1, [])
  {
  }

  /** A rate-limit failure on every attempt ends with the friendly error, after `retries` calls. */
  lemma {:induction false} ExhaustedFrom(oracle: Oracle, call: ModelCall, retries: int, attempt: nat)
    requires 1 <= attempt <= retries
    requires RateLimitedBefore(oracle, call, attempt, retries + 1)
    ensures RetryFrom(oracle, call, retries, attempt).result == Threw(PlainError(ExhaustedMessage))
    ensures RetryFrom(oracle, call, retries, attempt).calls == retries - attempt + 1
    decreases retries - attempt
  {
    if attempt < retries {
      ExhaustedFrom(oracle, call, retries, attempt + 1);
    }
  }

  lemma Exhausted(oracle: Oracle, call: ModelCall, retries: int)
    requires retries >= 1
    requires RateLimitedBefore(oracle, call, 1, retries + 1)
    ensures RetryRun(oracle, call, retries).result == Threw(PlainError(ExhaustedMessage))
    ensures RetryRun(oracle, call, retries).calls == retries
  {
    ExhaustedFrom(oracle, call, retries, 1);
  }

  /** Whatever the oracle does, a thrown error is either one of its errors or the friendly replacement. */
  lemma {:induction false} ThrownErrorsFrom(oracle: Oracle, call: ModelCall, retries: int, attempt: nat)
    requires 1 <= attempt
    ensures var r := RetryFrom(oracle, call, retries, attempt);
      r.result.Threw? ==>
        || r.result.error == PlainError(ExhaustedMessage)
        || (exists j :: attempt <= j <= retries && oracle(call, j) == Err(r.result.error) && !MentionsRateLimit(r.result.error))
    decreases retries - attempt + 1
  {
    if attempt <= retries {
      match oracle(call, attempt)
      case Ok(_) =>
      case Err(e) =>
        if MentionsRateLimit(e) && attempt < retries {
          ThrownErrorsFrom(oracle, call, retries, attempt + 1);
        }
    }
  }

  /**
   * The friendly error mentions none of the markers the middleware looks for,
   * so it reaches the fallback rule: status 500, not 429, with its own text.
   */
  lemma ExhaustedIsServerError()
    ensures Handle(PlainError(ExhaustedMessage)) == ErrorResponse(500, false, ExhaustedMessage)
  {
    ExhaustedLacksMarkers();
  }

  /** None of the middleware's markers occurs in the friendly error's text. */
  lemma ExhaustedLacksMarkers()
    ensures !Contains(ExhaustedMessage, "429") && !Contains(ExhaustedMessage, "quota")
    ensures !Contains(ExhaustedMessage, "Too Many Requests") && !Contains(ExhaustedMessage, "API_KEY")
    ensures !Contains(ExhaustedMessage, "401") && !Contains(ExhaustedMessage, "403")
    ensures !Contains(ExhaustedMessage, "404") && !Contains(ExhaustedMessage, "not found")
  {
    FriendlyText.LacksMarkerChars();
    NotContainsByChar(ExhaustedMessage, "429", '4');
    NotContainsByChar(ExhaustedMessage, "quota", 'q');
    NotContainsByChar(ExhaustedMessage, "Too Many Requests", 'T');
    NotContainsByChar(ExhaustedMessage, "API_KEY", '_');
    NotContainsByChar(ExhaustedMessage, "401", '4');
    NotContainsByChar(ExhaustedMessage, "403", '4');
    NotContainsByChar(ExhaustedMessage, "404", '4');
    FriendlyText.HeadTailChars();
    NotContainsByChar(FriendlyText.Head, "not found", 'f');
    NotContainsByChar(FriendlyText.Tail, "not found", 'u');
    NoStraddle(FriendlyText.Head, '.', FriendlyText.Tail, "not found");
  }

  // ---------------------------------------------------------------- model input

  /** The role mapping of `generateChat`: 'assistant' becomes 'model', any other role 'user'. */
  function ToGeminiRole(r: Role): GeminiRole {
    if r == Assistant then GModel else GUser
  }

  /** `history.map(…)` in `generateChat`. */
  function ToGeminiHistory(history: seq<Message>): (g: seq<GeminiTurn>)
    ensures |g| == |history|
    ensures forall i :: 0 <= i < |history| ==>
      g[i].text == history[i].content && (g[i].role == GModel <==> history[i].role == Assistant)
  {
    if history == [] then []
    else [GeminiTurn(ToGeminiRole(history[0].role), history[0].content)] + ToGeminiHistory(history[1..])
  }

  /** Converting a transcript piece by piece is converting it whole. */
  lemma {:induction false} ToGeminiHistoryAppend(a: seq<Message>, b: seq<Message>)
    ensures ToGeminiHistory(a + b) == ToGeminiHistory(a) + ToGeminiHistory(b)
  {
    if a != [] {
      var t := GeminiTurn(ToGeminiRole(a[0].role), a[0].content);
      assert (a + b)[0] == a[0];
      assert (a + b)[1..] == a[1..] + b;
      calc {
        ToGeminiHistory(a + b);
        [t] + ToGeminiHistory(a[1..] + b);
        { ToGeminiHistoryAppend(a[1..], b); }
        [t] + (ToGeminiHistory(a[1..]) + ToGeminiHistory(b));
        ([t] + ToGeminiHistory(a[1..])) + ToGeminiHistory(b);
      }
    } else {
      assert a + b == b;
    }
  }

  /** The separator `generateContent` puts between the system prompt and the user message. */
  const UserSeparator := "\n\nUser: "

  /** The single-turn input: `${systemPrompt}\n\nUser: ${userMessage}`. */
  function SingleTurnInput(systemPrompt: string, userMessage: string): (s: string)
  {
    systemPrompt + UserSeparator + userMessage
  }

  /** Both parts can be read back from the single-turn input, given the system prompt's length. */
  lemma SingleTurnParts(systemPrompt: string, userMessage: string)
    ensures var s := SingleTurnInput(systemPrompt, userMessage);
      s[..|systemPrompt|] == systemPrompt && s[|systemPrompt|..|systemPrompt| + 8] == UserSeparator
      && s[|systemPrompt| + 8..] == userMessage
  {
  }

  /** The outcome of `generateContent(systemPrompt, userMessage)`: a text or an error, never `undefined`. */
  function Content(oracle: Oracle, systemPrompt: string, userMessage: string): (c: Completion)
    ensures c != NoResult
  {
    DefaultAlwaysFinishes(oracle, SingleTurn(SingleTurnInput(systemPrompt, userMessage)));
    RetryRun(oracle, SingleTurn(SingleTurnInput(systemPrompt, userMessage)), DefaultRetries).result
  }

  /** The outcome of `generateChat(systemPrompt, history, newMessage)`: a text or an error, never `undefined`. */
  function ChatReply(oracle: Oracle, systemPrompt: string, history: seq<Message>, newMessage: string): (c: Completion)
    ensures c != NoResult
  {
    DefaultAlwaysFinishes(oracle, ChatTurn(systemPrompt, ToGeminiHistory(history), newMessage));
    RetryRun(oracle, ChatTurn(systemPrompt, ToGeminiHistory(history), newMessage), DefaultRetries).result
  }

  /** What a handler sends for an awaited generation: the text, or what the error handler makes of the error. */
  function Answer(c: Completion): Response<string>
    requires c != NoResult
  {
    if c.Threw? then FromError(c.error) else Success(c.text)
  }

  /** With three attempts, `generateContent` and `generateChat` never finish with `undefined`. */
  lemma DefaultAlwaysFinishes(oracle: Oracle, call: ModelCall)
    ensures RetryRun(oracle, call, DefaultRetries).result != NoResult
  {
    CallsAndDelays(oracle, call, DefaultRetries);
  }

  /** `generateContent`. */
  method GenerateContent(oracle: Oracle, systemPrompt: string, userMessage: string) returns (r: Completion)
    ensures r == Content(oracle, systemPrompt, userMessage)
  {
    var call := SingleTurn(SingleTurnInput(systemPrompt, userMessage));
    DefaultAlwaysFinishes(oracle, call);
    var calls, delays;
    r, calls, delays := WithRetry(oracle, call, DefaultRetries);
  }

  /** `generateChat`. */
  method GenerateChat(oracle: Oracle, systemPrompt: string, history: seq<Message>, newMessage: string) returns (r: Completion)
    ensures r == ChatReply(oracle, systemPrompt, history, newMessage)
  {
    var call := ChatTurn(systemPrompt, ToGeminiHistory(history), newMessage);
    DefaultAlwaysFinishes(oracle, call);
    var calls, delays;
    r, calls, delays := WithRetry(oracle, call, DefaultRetries);
  }
}
