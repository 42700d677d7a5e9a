# CampusBot Pro, modelled in Dafny

CampusBot Pro is an Express server with a React client for college students.
The server's five routers send a feature-specific system prompt to Gemini,
read fields out of the model's free-form reply, and keep chat sessions,
brainstormed ideas, talent entries and mock interviews in MongoDB. This
project models that core and proves what it promises:

- **Gemini client** (`Gemini`): the rate-limit retry loop `withRetry`, as a
  `while` loop proved against a recursive run function, and the single- and
  multi-turn calls built on it. The remote model is an *oracle*: a function
  from the call and the attempt number to the outcome of that attempt.
- **Error middleware** (`ErrorHandler`): the first-match rule order
  (rate limit, bad key, missing model, validation, fallback) and the
  120-character forwarding limit.
- **Schemas** (`Models`): the four documents, their defaults and enumerations,
  and the save-time validation failures they raise.
- **Prompts** (`Prompts`): every prompt template and the chat-mode and
  interview-focus tables. Templates are concatenations of their literal parts.
- **Routes**, one module per router: `ChatRoute`, `BrainstormRoute`,
  `TalentRoute`, `CreatorRoute`, `Placement`. Each stateful collection is a
  class with a `map` of documents and an id counter. Each handler is a method
  proved equal to a pure outcome function (`SendOutcome`, `CreateOutcome`,
  `SubmitOutcome`, …). The lemmas about those functions state the route's
  guarantees. The prompt builder is a field of the class, set to the real
  template by the constructor.
- **Ordering** (`Ranking`): `sort({ key: -1 })` as a stable descending
  insertion sort.
- **Bootstrap** (`Server`): the required-variable check, the CORS allowlist
  and origin callback, and the 404 catch-all.
- **Client helpers**: `BrainSpace` (mind-map line extraction and the
  centre's truncation) and `TalentArena` (vote totals, score bars, the list
  update after a vote, the feed query, the form check).
- **Support**: `Text` (the JavaScript string operations the code uses:
  `trim`, `includes`, `indexOf`, `split`, template rendering of `undefined`,
  decimal rendering and `parseInt`), `FriendlyText` (the rate-limit
  replacement message) and `Wrappers` (`Option`).

A request field is *truthy* when it is present and non-empty.

## Comments and the code

Where the source's own comments and its code differ, the model follows the
code:

- The comment on `withRetry` (server/config/gemini.js:15) promises
  "exponential backoff", but the wait is `attempt * 3000`, which grows
  linearly. The comment on that line (server/config/gemini.js:24) lists
  "3s, 6s, 9s", but the loop never waits after its last attempt, so with three
  attempts the waits are 3 s and 6 s at most (`Gemini.DefaultWaitBound`).
- When the retries run out, the friendly replacement error contains none of
  the middleware's markers, so the client receives status 500, not 429
  (`Gemini.ExhaustedIsServerError`).
- `completed` is set when an interview ends (server/routes/placement.js:124),
  but no handler reads it: answers and a second end are accepted
  (`Placement.CompletedStaysOpen`).
- The talent prompt asks for scores "out of 10"
  (server/prompts/allPrompts.js:85), but the parser takes the number as
  written, so "Overall Vibe: 12/10" scores 12 (`TalentRoute.ScoresUnclamped`).
  The score bar then fills 120 percent
  (`TalentArena.BarOverflowsOnUnclampedScore`).

## Model

| member | source | states |
|---|---|---|
| Gemini.WithRetry | server/config/gemini.js:17-36 | the loop returns the result, call count and waits of the recursive run `RetryRun` |
| Gemini.RetryStep | server/config/gemini.js:18-33 | one attempt: success returns its text; a rate limit before the last attempt waits attempt×3000 ms and retries; on the last attempt it throws the friendly error; any other error is rethrown |
| Gemini.DelaysFrom | server/config/gemini.js:18-26 | the calls are at most the attempts left; `undefined` exactly when no attempt is left; one wait fewer than calls; the i-th wait is (attempt+i)×3000 ms |
| Gemini.CallsAndDelays | server/config/gemini.js:17-36 | at most `retries` calls, at least one when `retries >= 1`; `undefined` exactly when `retries < 1`; the k-th wait is k×3000 ms |
| Gemini.DefaultWaitBound | server/config/gemini.js:17-24 | with the default 3 attempts there are at most two waits, 3000 then 6000 ms, and no 9 s wait |
| Gemini.FirstSuccessFrom | server/config/gemini.js:18-26 | after rate limits on the earlier attempts, the first success returns its text, and no later call is made |
| Gemini.FirstSuccess | server/config/gemini.js:17-36 | rate limits on attempts 1..k-1 then success on k: k calls, the k-th text |
| Gemini.TwoRateLimitsThenSuccess | server/config/gemini.js:17-36 | two rate limits then a success: three calls, waits [3000, 6000], the third text |
| Gemini.OtherErrorRethrown | server/config/gemini.js:22-32 | a non-rate-limit error on the first attempt is rethrown unchanged after one call and no wait |
| Gemini.ExhaustedFrom | server/config/gemini.js:23-31 | rate limits on every remaining attempt end in the friendly error after one call per attempt |
| Gemini.Exhausted | server/config/gemini.js:23-31 | rate limits on all attempts: the friendly error after `retries` calls |
| Gemini.ThrownErrorsFrom | server/config/gemini.js:29-32 | a thrown error is the friendly replacement or one of the oracle's own non-rate-limit errors |
| Gemini.ExhaustedLacksMarkers | server/config/gemini.js:30 | the friendly message contains none of the middleware's eight markers |
| Gemini.ExhaustedIsServerError | server/middleware/errorHandler.js:5-37 | the friendly error is answered with status 500 and its own text, not 429 |
| Gemini.ToGeminiHistory | server/config/gemini.js:61-64 | one turn per message, same text; the role is "model" exactly for assistant messages |
| Gemini.ToGeminiHistoryAppend | server/config/gemini.js:61-64 | converting a concatenated transcript is concatenating the conversions |
| Gemini.SingleTurnParts | server/config/gemini.js:44-46 | the single-turn input is the system prompt, "\n\nUser: ", then the user message, each readable back by position |
| Gemini.Content | server/config/gemini.js:41-49 | `generateContent` always finishes with a text or an error, never `undefined` |
| Gemini.ChatReply | server/config/gemini.js:54-70 | `generateChat` always finishes with a text or an error, never `undefined` |
| Gemini.DefaultAlwaysFinishes | server/config/gemini.js:17 | with the default three attempts the loop never falls through to `undefined` |
| Gemini.GenerateContent | server/config/gemini.js:41-49 | the method's outcome is `Content` |
| Gemini.GenerateChat | server/config/gemini.js:54-70 | the method's outcome is `ChatReply` |
| ErrorHandler.PlainError | server/config/gemini.js:30 | `new Error(m)` carries message m, no status, and is not a validation error |
| ErrorHandler.FallbackText | server/middleware/errorHandler.js:37 | the fallback text is always shorter than 120 characters |
| ErrorHandler.Handle | server/middleware/errorHandler.js:1-38 | every response has `success: false` and status 429, 401, 500, 400 or the error's own status |
| ErrorHandler.FirstApplying | server/middleware/errorHandler.js:5-35 | the index of the first applying rule, with no earlier rule applying |
| ErrorHandler.FirstRuleWins | server/middleware/errorHandler.js:5-37 | the response is the one of the first rule, in the fixed order, whose condition holds |
| ErrorHandler.ShortClientMessages | server/middleware/errorHandler.js:35-37 | apart from joined validation messages, no client text reaches 120 characters |
| ErrorHandler.NoMessageIsGeneric | server/middleware/errorHandler.js:37 | an error without a message gets the generic text |
| ErrorHandler.ShortPlainForwarded | server/middleware/errorHandler.js:35-37 | a short plain error matching no rule is forwarded with status 500 |
| Models.NewChat | server/models/index.js:4-14 | a new chat has the nickname, no messages, and the given mode or the default "study" |
| Models.NewTalent | server/models/index.js:25-47 | a new talent holds the given fields and all three vote counters at 0 |
| Models.NewInterview | server/models/index.js:50-63 | a new interview holds the given fields, is not completed and has no final feedback |
| Models.ContentViolations | server/models/index.js:10 | no required-content failure exactly when every message has content |
| Models.ChatViolationsIff | server/models/index.js:4-14 | a chat save fails exactly when the document breaks the schema |
| Models.TalentViolationsIff | server/models/index.js:25-47 | a talent create fails exactly when the document breaks the schema |
| Models.InterviewViolationsIff | server/models/index.js:50-63 | an interview save fails exactly when the document breaks the schema |
| Models.ValidationFailure | server/middleware/errorHandler.js:29-31 | a failed save throws a "ValidationError" carrying the field messages |
| Prompts.ChatModeKeys | server/prompts/allPrompts.js:7-31 | the mode table lists exactly the four modes of the chat schema |
| Prompts.ChatModesNonEmpty | server/prompts/allPrompts.js:7-31 | no listed mode's prompt is empty |
| Prompts.ChatPromptListed | server/routes/chat.js:21 | a listed mode gets its own prompt, and any other name that is not inherited from `Object.prototype` gets the study prompt |
| Prompts.FocusTableShape | server/prompts/allPrompts.js:222-244 | five companies with Technical and HR rounds, plus a Managerial round for TCS only |
| Prompts.FocusTextsNonEmpty | server/prompts/allPrompts.js:222-244 | no listed focus text is empty |
| Prompts.InterviewFocusListed | server/prompts/allPrompts.js:245 | a listed pair gets its own focus |
| Prompts.InterviewFocusNonEmpty | server/prompts/allPrompts.js:245-246 | every company and round gets a non-empty focus |
| Prompts.UnlistedFocusIsDefault | server/prompts/allPrompts.js:245-246 | an unknown company whose name is not inherited from `Object.prototype`, or Managerial outside TCS, gets the default focus |
| Prompts.OrNone | server/prompts/allPrompts.js:263-265 | `value \|\| 'None'` gives the value when truthy and "None" otherwise |
| Prompts.BrainstormQuotesIdea | server/prompts/allPrompts.js:34-36 | the idea appears verbatim between double quotes after the introduction |
| Prompts.BrainstormInjective | server/prompts/allPrompts.js:34-64 | different ideas give different brainstorm prompts |
| Prompts.ScoreTalentRequestsLabels | server/prompts/allPrompts.js:85-91 | the scoring prompt asks for all four score labels and the badge heading that the parsers look for |
| Prompts.ScoreTalentQuotesSubmission | server/prompts/allPrompts.js:69-72 | the scoring prompt names the student and the category and quotes the submission |
| Prompts.ResumeRoastQuotesResume | server/prompts/allPrompts.js:102-103 | the roast prompt quotes the resume |
| Prompts.QuoteCardRequestsLabels | server/prompts/allPrompts.js:126-142 | the quote prompt quotes the mood and asks for the four labels the parser looks for |
| Prompts.DsaProblemNamesTopic | server/prompts/allPrompts.js:145-148 | the problem prompt names the topic and the difficulty |
| Prompts.DsaHintShowsLevel | server/prompts/allPrompts.js:184-188 | the hint prompt quotes the problem and approach and shows the hint level in decimal |
| Prompts.MockInterviewEmbedsFocus | server/prompts/allPrompts.js:202-218 | the interviewer prompt embeds the company, round, name and the round's focus |
| Prompts.ResumeForgeNoneDefaults | server/prompts/allPrompts.js:263-265 | internships, achievements and certifications show "None" when missing or empty |
| Prompts.ResumeForgeShowsContact | server/prompts/allPrompts.js:253-255 | the name (right after the introduction), email and phone show as given, a missing one as "undefined" |
| Prompts.ResumeForgeShowsEducation | server/prompts/allPrompts.js:256-258 | college, degree and branch show as given, a missing one as "undefined" |
| Prompts.ResumeForgeShowsGrades | server/prompts/allPrompts.js:259-260 | graduation year and CGPA show as given, a missing one as "undefined" |
| Prompts.ResumeForgeShowsFields | server/prompts/allPrompts.js:261-266 | skills, projects and target role show as given, a missing one as "undefined" |
| ChatRoute.SendRequiresFields | server/routes/chat.js:14-19 | a missing or empty nickname, message or mode is refused with 400 before anything else |
| ChatRoute.SendFailureChangesNothing | server/routes/chat.js:10-54 | a refused, thrown or rejected send leaves every session as it was |
| ChatRoute.SendAppendsExchange | server/routes/chat.js:21-49 | a successful send returns the model's reply to the mode prompt over the prior transcript, echoes the mode, and appends the user turn then the assistant turn to that session only; a session the id finds keeps that id, the counter, and its stored nickname and mode |
| ChatRoute.SendCreatesSession | server/routes/chat.js:24-30 | without an id, or with one that finds nothing, a new session is stored under a fresh id with just the one exchange |
| ChatRoute.SendKeepsInvariants | server/routes/chat.js:40-42 | sends keep ids fresh and every transcript of even length |
| ChatRoute.SendStoresValid | server/routes/chat.js:42 | a stored session satisfies the chat schema |
| ChatRoute.ChatStore.constructor | server/routes/chat.js:21 | the store starts empty and answers with the chat-mode prompts |
| ChatRoute.ChatStore.Send | server/routes/chat.js:10-54 | the new collection and the reply are those of `SendOutcome` |
| ChatRoute.ChatStore.History | server/routes/chat.js:58-68 | the stored session when the id finds one, otherwise 404 "Session not found" |
| Placement.StatelessHandlers | server/routes/placement.js:16-150 | the problem, hint and resume handlers refuse missing fields with 400 and otherwise answer exactly what the model returned for their prompt |
| Placement.HintLevelDefault | server/routes/placement.js:40 | an absent or 0 hint level becomes 1; any other level passes unchecked into the prompt |
| Placement.StartFailureChangesNothing | server/routes/placement.js:52-73 | a failed start leaves the collection as it was |
| Placement.RespondFailureChangesNothing | server/routes/placement.js:76-97 | a failed respond leaves the collection as it was |
| Placement.EndFailureChangesNothing | server/routes/placement.js:100-131 | a failed end leaves the collection as it was |
| Placement.StartCreatesSession | server/routes/placement.js:55-69 | a missing field is refused with 400; a success stores a fresh session holding just the interviewer's opening message |
| Placement.RespondUnknownSession | server/routes/placement.js:83-84 | an id naming no session is refused with 404 |
| Placement.RespondAppendsExchange | server/routes/placement.js:86-93 | the reply comes from the prompt rebuilt from the stored session; the answer and the reply are appended, nothing else changes |
| Placement.EndRecordsFeedback | server/routes/placement.js:103-127 | an unknown id gives 404; a success records the report, marks the session completed and keeps its transcript |
| Placement.CompletedStaysOpen | server/routes/placement.js:76-131 | a completed session still takes answers, and ending it again replaces the report |
| Placement.AppendKeepsAlternating | server/routes/placement.js:89-90 | appending a user/assistant exchange keeps a transcript alternating |
| Placement.StartKeepsInvariants | server/routes/placement.js:62-67 | a start keeps ids fresh, interviews valid and transcripts alternating |
| Placement.RespondKeepsInvariants | server/routes/placement.js:89-91 | a respond keeps the same invariants |
| Placement.EndKeepsInvariants | server/routes/placement.js:123-125 | an end keeps the same invariants |
| Placement.InterviewStore.constructor | server/routes/placement.js:59 | the store starts empty and interviews with the mock-interview prompt |
| Placement.InterviewStore.Start | server/routes/placement.js:52-73 | the new collection and the reply are those of `StartOutcome` |
| Placement.InterviewStore.Respond | server/routes/placement.js:76-97 | the new collection and the reply are those of `RespondOutcome` |
| Placement.InterviewStore.End | server/routes/placement.js:100-131 | the new collection and the reply are those of `EndOutcome` |
| BrainstormRoute.CreateRequiresFields | server/routes/brainstorm.js:14-16 | a missing or empty nickname or idea is refused with 400 before the model is asked |
| BrainstormRoute.CreateSavesAfterGeneration | server/routes/brainstorm.js:18-24 | a failure stores nothing; a success stores one idea under a fresh id with the request's fields, the model's plan and the clock reading |
| BrainstormRoute.CreateKeepsInvariants | server/routes/brainstorm.js:22 | creates keep ids fresh and every stored idea valid |
| BrainstormRoute.Listing | server/routes/brainstorm.js:35 | the listing holds exactly the stored ideas, each with its own id |
| BrainstormRoute.OwnedBy | server/routes/brainstorm.js:35 | `find({ nickname })` keeps exactly the ideas of that nickname, each as often as stored, in stored order |
| BrainstormRoute.VaultIsTheStudentsIdeas | server/routes/brainstorm.js:35 | the vault is exactly the student's stored ideas, each once, newest first |
| BrainstormRoute.ListingIdsIncrease | server/routes/brainstorm.js:35 | ids strictly increase along the listing, so no idea appears twice |
| BrainstormRoute.DeleteIdempotent | server/routes/brainstorm.js:43-47 | deleting always answers "Idea deleted", removes that idea only, and a second delete changes nothing |
| BrainstormRoute.DeleteLeavesVault | server/routes/brainstorm.js:35-45 | after a delete the vault is the old vault without that idea |
| BrainstormRoute.IdeaStore.constructor | server/routes/brainstorm.js:18 | the store starts empty and expands with the brainstorm prompt |
| BrainstormRoute.IdeaStore.Create | server/routes/brainstorm.js:10-29 | the new collection and the reply are those of `CreateOutcome` |
| BrainstormRoute.IdeaStore.Delete | server/routes/brainstorm.js:43-50 | the new collection and the reply are those of `DeleteOutcome` |
| TalentRoute.FindScore | server/routes/talent.js:23-26 | the first position where the score pattern matches, with none before it |
| TalentRoute.ScoreDigits | server/routes/talent.js:23-26 | the captured group is a non-empty run of digits |
| TalentRoute.ScoreDefaultsToSeven | server/routes/talent.js:30-33 | a reply with no matching line scores 7 for that label |
| TalentRoute.ScoreReadBack | server/routes/talent.js:23-33 | "label n/10", with the label in any ASCII case, reads back as n |
| TalentRoute.ScoreMatchAt | server/routes/talent.js:23-26 | the position facts that make the score pattern match and capture the given digits |
| TalentRoute.ScoresUnclamped | server/routes/talent.js:23-33 | "Overall Vibe: n/10" scores n whatever n is: nothing clamps it to 10 |
| TalentRoute.FindBadge | server/routes/talent.js:27 | the first position where the badge pattern matches, with none before it |
| TalentRoute.BadgeReadBack | server/routes/talent.js:27-36 | the line under the badge heading reads back trimmed |
| TalentRoute.BadgeDefault | server/routes/talent.js:36 | a reply without the heading gets "Campus Star ⭐" |
| TalentRoute.SubmitStores | server/routes/talent.js:10-48 | a missing field gives 400; a stored entry holds the fields, the reply, the parsed scores and badge, no votes, under a fresh id |
| TalentRoute.SubmitUnknownCategory | server/routes/talent.js:19-46 | an unknown category is caught only at create, after the model answered, and nothing is stored |
| TalentRoute.EmojiOf | server/routes/talent.js:73-75 | an emoji is accepted exactly when it is fire, heart or mindblown |
| TalentRoute.VoteCountsOne | server/routes/talent.js:75-85 | a valid vote raises exactly the named counter of that entry by one and answers with the counters; any other emoji gives 400 |
| TalentRoute.NullVotesNoCodes | server/routes/talent.js:85 | the TypeError from reading `votes` of null mentions no rate-limit, key or 404 marker |
| TalentRoute.NullVotesNotFound | server/routes/talent.js:85 | that message does not contain "not found" |
| TalentRoute.NullVotesIsServerError | server/middleware/errorHandler.js:35-37 | that error is answered with 500 and its own message |
| TalentRoute.VoteUnknownEntry | server/routes/talent.js:79-85 | a valid vote for an id naming nothing fails with 500 and changes nothing |
| TalentRoute.Listing | server/routes/talent.js:61 | the listing holds exactly the stored entries, each with its own id |
| TalentRoute.ListingIdsIncrease | server/routes/talent.js:61 | ids strictly increase along the listing, so no entry appears twice |
| TalentRoute.ListingOnce | server/routes/talent.js:61 | each entry occurs at most once in the listing |
| TalentRoute.MatchingCounts | server/routes/talent.js:60 | the filter keeps each entry of the category as often as it occurs, and no other |
| TalentRoute.FeedOnce | server/routes/talent.js:59-61 | each entry occurs at most once in the feed |
| TalentRoute.Matching | server/routes/talent.js:60 | the filter keeps exactly the entries of the category, or all when none is given |
| TalentRoute.FeedShape | server/routes/talent.js:59-61 | at most 20 stored entries of the category, no id twice, best overall score first |
| TalentRoute.FeedIsTop | server/routes/talent.js:61 | a matching entry missing from the feed scores no more than every shown entry, and the feed is full |
| TalentRoute.TalentStore.constructor | server/routes/talent.js:19 | the store starts empty and judges with the scoring prompt |
| TalentRoute.TalentStore.Submit | server/routes/talent.js:10-53 | the new collection and the reply are those of `SubmitOutcome` |
| TalentRoute.TalentStore.Vote | server/routes/talent.js:70-89 | the new collection and the reply are those of `VoteOutcome` |
| Ranking.Insert | server/routes/talent.js:61 | inserting keeps the list descending and adds exactly the one element |
| Ranking.SortDescending | server/routes/brainstorm.js:35 | the result is a descending permutation of the input |
| CreatorRoute.RoastAnswers | server/routes/creator.js:9-23 | a missing resume gives 400; otherwise the roast is what the model returned for the roast prompt |
| CreatorRoute.CaptureIsLine | server/routes/creator.js:38-41 | a capture is one non-empty line starting with a non-space character |
| CreatorRoute.TrimmedCaptureFilled | server/routes/creator.js:45-48 | a trimmed capture is never empty, so a filled label beats the fallback |
| CreatorRoute.CaptureAt | server/routes/creator.js:38-41 | the capture given the label's first position, the whitespace run and the line's end |
| CreatorRoute.CaptureReadBack | server/routes/creator.js:38-41 | a label followed by whitespace and a line captures that line, even on a later line |
| CreatorRoute.CaptureAbsent | server/routes/creator.js:38-41 | without the label nothing is captured |
| CreatorRoute.CaptureBlank | server/routes/creator.js:38-41 | a label followed only by whitespace captures nothing |
| CreatorRoute.QuoteCardFallbacks | server/routes/creator.js:45-48 | a missing label falls back: the whole reply for the quote, a fixed text for the rest |
| CreatorRoute.QuoteCardFilled | server/routes/creator.js:45-48 | every field of the card is non-empty, except a quote from an empty reply |
| CreatorRoute.QuoteReadBack | server/routes/creator.js:38-45 | a reply opening with "QUOTE: value" gives the trimmed value as the quote |
| CreatorRoute.QuoteAnswers | server/routes/creator.js:27-56 | a missing mood gives 400; otherwise the card is read from the model's reply and the image seed is the encoded mood with the fixed suffix |
| CreatorRoute.PosterPromptShowsFields | server/routes/creator.js:64-71 | the poster prompt shows the fest name and theme ("undefined" when absent) and the colours or the default palette |
| CreatorRoute.PosterDefaultColors | server/routes/creator.js:67 | omitting the colours asks for the same poster as naming the default palette |
| CreatorRoute.CleanPrompt | server/routes/creator.js:74 | the cleaned prompt is the trimmed reply with every double quote dropped: same count of every other character, in the same order, and the reply itself when it holds no quote |
| CreatorRoute.ImageUrl | server/routes/creator.js:79 | the address is the fixed base, the encoded prompt, then the fixed query |
| CreatorRoute.PosterAnswers | server/routes/creator.js:60-85 | the poster route succeeds exactly when the model answers; the image prompt is the cleaned reply and the address carries it encoded |
| Server.Unset | server/index.js:13 | the names whose variable is absent or empty, and no other |
| Server.MissingVarsInOrder | server/index.js:12-13 | the missing list is MONGO_URI first, then GEMINI_API_KEY, each only when unset |
| Server.StartupNeedsBothVars | server/index.js:12-29 | the server connects exactly when both variables are set; otherwise it exits with code 1 naming the missing ones |
| Server.Present | server/index.js:37 | `filter(Boolean)` keeps no more entries than it was given |
| Server.PresentOne | server/index.js:37 | a single entry is kept, as its string, exactly when it is truthy |
| Server.PresentAppend | server/index.js:37 | filtering a concatenation is concatenating the filtered parts, so the kept values stay in their order |
| Server.AllowedOriginsDropUnset | server/index.js:33-37 | the allowlist is the two development origins, then CLIENT_URL when set |
| Server.OriginRule | server/index.js:40-46 | a request passes exactly when it has no origin, or its origin is allowlisted or ends in ".vercel.app" |
| Server.PreviewOriginsPass | server/index.js:42 | every preview-deployment origin passes |
| Server.CorsTextNoRateLimit | server/index.js:45 | the CORS rejection message mentions no rate limit |
| Server.CorsTextNoBadKey | server/index.js:45 | the CORS rejection message mentions no key or access status |
| Server.CorsTextNoMissingModel | server/index.js:45 | the CORS rejection message mentions no missing model |
| Server.CorsRejectionIsServerError | server/middleware/errorHandler.js:35-37 | a CORS rejection is answered with 500 and its message |
| Server.NotFoundNamesUrl | server/index.js:68-70 | an unmatched route gets 404, and the message names the URL, which can be read back from it |
| BrainSpace.BlankLinesNeverKept | client/src/pages/BrainSpace.jsx:64 | a whitespace-only line is never kept |
| BrainSpace.Kept | client/src/pages/BrainSpace.jsx:64 | the lines the filter accepts, each as often as in the input and in their order, and no other line |
| BrainSpace.NonEmpty | client/src/pages/BrainSpace.jsx:65 | the non-empty items, each as often as in the input and in their order, and no empty one |
| BrainSpace.FirstSections | client/src/pages/BrainSpace.jsx:65 | the first eight kept lines, or all of them when fewer |
| BrainSpace.CleanStripsOneMarker | client/src/pages/BrainSpace.jsx:65 | cleaning strips exactly one leading marker then trims, so "12. x" becomes "2. x"; an unmarked line is only trimmed |
| BrainSpace.CleanKeepsLaterDigits | client/src/pages/BrainSpace.jsx:65 | a number of two or more digits loses only its first digit |
| BrainSpace.ExtractSectionsShape | client/src/pages/BrainSpace.jsx:63-66 | at most 8 items, each non-empty and trimmed, in the order of the kept lines |
| BrainSpace.ExtractSectionsComplete | client/src/pages/BrainSpace.jsx:63-66 | when the first eight kept lines all clean to something, they are exactly the items |
| BrainSpace.CentreShortens | client/src/pages/BrainSpace.jsx:15 | the centre starts with the idea's first 40 characters, is at most 43 long, ends in "..." for a longer idea, and is the idea itself exactly when the idea fits or already shows the dots |
| TalentArena.TotalIsSumOfButtons | client/src/pages/TalentArena.jsx:28-59 | the reaction total is the sum of the three buttons, and 0 exactly when every button shows 0 |
| TalentArena.TotalOfStored | client/src/pages/TalentArena.jsx:28 | for a stored talent the total is fire + heart + mindblown |
| TalentArena.VoteRaisesTotal | client/src/pages/TalentArena.jsx:28 | a counted vote raises the card's total by exactly one |
| TalentArena.BarWidthBounds | client/src/pages/TalentArena.jsx:20 | scores 0..10 fill 0..100 percent, monotonically |
| TalentArena.BarOverflowsOnUnclampedScore | client/src/pages/TalentArena.jsx:20 | a reply claiming 12/10 fills the bar to 120 percent |
| TalentArena.BarsFallBackToSeven | client/src/pages/TalentArena.jsx:205-218 | the four bars show the score when positive and 7 otherwise; a 0 overall shows 0 in the headline and 7 on its bar |
| TalentArena.BarShowsPositiveScore | client/src/pages/TalentArena.jsx:215-218 | a positive score shows unchanged; 0 and a missing score show 7 |
| TalentArena.ApplyVote | client/src/pages/TalentArena.jsx:110 | same length and order; only entries with the voted id get the new counters |
| TalentArena.ApplyVoteIdempotent | client/src/pages/TalentArena.jsx:110 | applying the same answer twice changes nothing more |
| TalentArena.ApplyVoteMatchesServer | client/src/pages/TalentArena.jsx:107-110 | a list that agreed with the collection still agrees after a counted vote's answer is applied |
| TalentArena.FeedQueryReadBack | client/src/pages/TalentArena.jsx:86 | the query is empty exactly for "all", otherwise "?category=" then the filter |
| TalentArena.FormCheckBeforeServer | client/src/pages/TalentArena.jsx:94-96 | a form the page refuses, or one sent with an empty nickname, is refused by the server with 400 |
| Text.Trim | server/routes/talent.js:36 | `trim` gives a text no longer than the input, holding only its characters, that neither starts nor ends with whitespace |
| Text.TrimIsInfix | server/routes/talent.js:36 | the trimmed text is the infix that starts right after the leading whitespace and is followed only by whitespace |
| Text.TrimEmptyIff | server/routes/creator.js:45 | the trimmed text is empty exactly when every character is whitespace |
| Text.TrimIdempotent | client/src/pages/BrainSpace.jsx:65 | trimming twice is trimming once |
| Text.IndexFrom | server/routes/creator.js:38-41 | the first occurrence at or after a position, with none before it |
| Text.ContainsIff | server/middleware/errorHandler.js:5 | `includes` holds exactly when some occurrence exists |
| Text.Split | client/src/pages/BrainSpace.jsx:64 | `split` gives at least one piece and no piece holds the separator |
| Text.JoinSplit | client/src/pages/BrainSpace.jsx:64 | joining the pieces with the separator gives the text back |
| Text.RemoveAll | server/routes/creator.js:74 | removing a character drops every copy of it and keeps every other character as often as before, in order; a text without it is unchanged |
| Text.RemoveAllAppend | server/routes/creator.js:74 | removing from a concatenation is concatenating the removals |
| Text.ParseNatToString | server/routes/talent.js:30-33 | parsing the decimal rendering of a number gives the number back |

## Left out

- Network, database and clock: Gemini is an oracle parameter, MongoDB is a
  map per collection with a counter for fresh ids, and `Date.now` is a
  parameter of the create request.
- Concurrency: each request runs as one atomic step. Interleaved requests
  against the same session are not modelled.
- The rate limiters (`apiLimiter`, `aiLimiter`), the `sleep` itself (waits
  are recorded, not taken), logging, `express.json`, `connectDB`, `listen` and
  the `GET /` health route: none decides a reply the model describes.
- Malformed ids: Mongoose throws a CastError for an id that is not an
  ObjectId. The model's ids are numbers, so every id is well formed.
- Mongoose validation messages follow its default templates. The exact
  wording of the TypeError for `null.votes` follows modern V8.
- `sort({ key: -1 })`: among equal keys MongoDB promises no order. The model
  keeps insertion order (a stable sort).
- `parseInt` is exact on the model's unbounded numbers. JavaScript loses
  precision beyond 2^53.
- `encodeURIComponent` is a parameter `encode` of the creator routes. Its
  escaping rules are not modelled.
- Strings are sequences of Unicode code points. JavaScript's `length`,
  `slice(0, 40)` and regular-expression `.` count UTF-16 code units, so an
  idea with emoji is cut at a different place. No normalisation or
  case folding beyond ASCII is modelled.
- CreatorRoute.Capture: a label followed only by whitespace up to the end of
  the reply captures nothing, while the regular expression captures the
  whitespace. After `trim` both give an empty value and the same fallback.
- A prompt or message containing "429", "quota" or "not found" is
  classified by the middleware on that text. The model keeps this, but no
  lemma lists such inputs.
- The client pages' rendering, React state and toasts are not modelled.
  The pages' JSON is read through `Entry` and `Counters`.
- The `cors` package hands the origin callback's error to `next`. The model
  takes that as given (`Server.CorsRejectionIsServerError`).
- The express query-string parser that turns "?category=art" into
  `req.query.category` is not part of this model.
- Request fields are strings or absent (`Option<string>`). A JSON body can
  also carry numbers, booleans, `null` and arrays. Their truthiness differs
  (`0`, `false` and `null` are falsy), and a template renders them as their
  JavaScript text: `null` becomes "null", an array its comma-joined items.
- Placement.HintLevel: `hintLevel` is modelled as a number or absent
  (`Option<int>`), so only 0 falls back to 1. A string such as "0" is truthy
  in JavaScript and would be passed through as text; the model does not
  cover string hint levels.
- Prompts.ChatPrompt: a mode inherited from `Object.prototype`, such as
  "constructor" or "toString", makes `CHAT_MODES[mode]` a function, not the
  study prompt. The model reads only the table's own keys, and
  `Prompts.ChatPromptListed` leaves these names out.
- Prompts.InterviewFocus: a company or round named after an
  `Object.prototype` member makes the lookup return that member: company
  "toString" with round "name" gives "toString", and round "constructor" of a
  listed company gives the Object function. The model gives the default
  focus there, and `Prompts.UnlistedFocusIsDefault` leaves such companies out.
- Server.Present: its own contract bounds only the length. Which entries are
  kept, and in what order, is stated by `Server.PresentOne` and
  `Server.PresentAppend`, which together fix it on every list.
- Text.Trim: its own contract gives the ends and the characters. Where the
  result sits in the input is stated by `Text.TrimIsInfix`.
