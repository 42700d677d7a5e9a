/**
 * The talent routes (server/routes/talent.js). Submit asks the model to
 * judge an entry, reads four scores and a badge out of the reply with
 * fixed patterns, and stores the entry; the feed lists entries best first;
 * a vote adds one to one of three counters. The Talent collection is the
 * class `TalentStore`. The judging prompt is a parameter of the submit
 * route, `judge`; the store is built with `Prompts.ScoreTalentPrompt`.
 */
module TalentRoute {
  import opened Wrappers
  import opened Text
  import opened ErrorHandler
  import opened Models
  import opened Gemini
  import Prompts
  import opened Ranking

  const AllFieldsText := "All fields required"
  const InvalidEmojiText := "Invalid emoji vote"

  // ---------------------------------------------------------------- reading the scores

  /** The score a label gets when the reply has no line for it. */
  const DefaultScore: nat := 7

  const CreativityLabel := "Creativity:"
  const OriginalityLabel := "Originality:"
  const ExpressionLabel := "Expression:"
  const OverallLabel := "Overall Vibe:"

  /** `/<label>\s*(\d+)\/10/i` matches at `i`: the label `key` with ASCII case ignored, whitespace, digits, then "/10". */
  predicate ScoreAt(s: string, key: string, i: nat) {
    && i + |key| <= |s|
    && Lower(s[i..i + |key|]) == Lower(key)
    && var j := SkipSpaces(s, i + |key|);
       var e := DigitsEnd(s, j);
       j < e && OccursAt(s, "/10", e)
  }

  /** The first position at or after `from` where the score pattern matches. */
  function FindScore(s: string, key: string, from: nat): (r: Option<nat>)
    ensures r.Some? ==> from <= r.value && ScoreAt(s, key, r.value)
    ensures r.Some? ==> forall k :: from <= k < r.value ==> !ScoreAt(s, key, k)
    ensures r.None? ==> forall k :: from <= k ==> !ScoreAt(s, key, k)
    decreases |s| - from
  {
    if from + |key| > |s| then None
    else if ScoreAt(s, key, from) then Some(from)
    else FindScore(s, key, from + 1)
  }

  /** The captured digits of a match at `i`. */
  function ScoreDigits(s: string, key: string, i: nat): (ds: string)
    requires ScoreAt(s, key, i)
    ensures ds != [] && forall k :: 0 <= k < |ds| ==> IsDigit(ds[k])
  {
    var j := SkipSpaces(s, i + |key|);
    s[j..DigitsEnd(s, j)]
  }

  /** `match ? parseInt(match[1]) : 7`. */
  function ParseScore(s: string, key: string): nat {
    match FindScore(s, key, 0)
    case Some(i) => ParseDigits(ScoreDigits(s, key, i))
    case None => DefaultScore
  }

  /** The four scores of a reply. */
  function ParseScores(feedback: string): Scores {
    Scores(ParseScore(feedback, CreativityLabel), ParseScore(feedback, OriginalityLabel),
           ParseScore(feedback, ExpressionLabel), ParseScore(feedback, OverallLabel))
  }

  /** A reply with no line matching a label scores 7 for it. */
  lemma ScoreDefaultsToSeven(s: string, key: string)
    requires forall k :: 0 <= k < |s| ==> !ScoreAt(s, key, k)
    ensures ParseScore(s, key) == DefaultScore
  {
  }

  /**
   * A score line written as the prompt asks, "<label> <n>/10" with the label
   * in any ASCII case, reads back as `n` when no match starts before it. The
   * number is taken as written: nothing clamps it to 10.
   */
  lemma {:induction false} ScoreReadBack(before: string, written: string, key: string, n: nat, after: string)
    requires |written| == |key| && Lower(written) == Lower(key)
    requires forall k :: 0 <= k < |before| ==>
      !ScoreAt(before + written + " " + NatToString(n) + "/10" + after, key, k)
    ensures ParseScore(before + written + " " + NatToString(n) + "/10" + after, key) == n
  {
    var d := NatToString(n);
    var s := before + written + " " + d + "/10" + after;
    var i := |before|;
    assert s == (before + written) + (" " + d + "/10" + after);
    assert s[i..i + |key|] == written;
    ScoreMatchAt(s, key, i, d);
    var r := FindScore(s, key, 0);
    assert r == Some(i);
    ParseNatToString(n);
  }

  /** Where the space, the digits and "/10" sit when `s[start..]` opens with them. */
  lemma ScoreLayout(s: string, start: nat, d: string)
    requires start + |d| + 4 <= |s|
    requires s[start..] == " " + d + "/10" + s[start + |d| + 4..]
    ensures s[start] == ' '
    ensures forall k :: 0 <= k < |d| ==> s[start + 1 + k] == d[k]
    ensures s[start + 1 + |d|..start + |d| + 4] == "/10"
  {
    var rest := s[start..];
    assert s[start] == rest[0];
    forall k | 0 <= k < |d| ensures s[start + 1 + k] == d[k] {
      assert s[start + 1 + k] == rest[1 + k];
    }
    assert s[start + 1 + |d|..start + |d| + 4] == rest[|d| + 1..|d| + 4];
  }

  /** A match at `i` read from the layout: the label, one space, the digits, "/10". */
  lemma ScoreFromLayout(s: string, key: string, i: nat, d: string)
    requires d != [] && forall k :: 0 <= k < |d| ==> IsDigit(d[k])
    requires i + |key| + |d| + 4 <= |s|
    requires Lower(s[i..i + |key|]) == Lower(key)
    requires s[i + |key|] == ' '
    requires forall k :: 0 <= k < |d| ==> s[i + |key| + 1 + k] == d[k]
    requires s[i + |key| + 1 + |d|..i + |key| + |d| + 4] == "/10"
    ensures ScoreAt(s, key, i) && ScoreDigits(s, key, i) == d
  {
    var j := SkipSpaces(s, i + |key|);
    assert s[i + |key| + 1 + 0] == d[0];
    assert j == i + |key| + 1;
    assert s[j + |d|] == "/10"[0];
    forall k | j <= k < j + |d| ensures s[k] == d[k - j] {
      assert s[i + |key| + 1 + (k - j)] == d[k - j];
    }
    var e := DigitsEnd(s, j);
    assert e == j + |d|;
    assert s[j..e] == d;
  }

  /** The facts a match at `i` needs, position by position: the label, one space, the digits, "/10". */
  lemma ScoreMatchAt(s: string, key: string, i: nat, d: string)
    requires d != [] && forall k :: 0 <= k < |d| ==> IsDigit(d[k])
    requires i + |key| + |d| + 4 <= |s|
    requires Lower(s[i..i + |key|]) == Lower(key)
    requires s[i + |key|..] == " " + d + "/10" + s[i + |key| + |d| + 4..]
    ensures ScoreAt(s, key, i) && ScoreDigits(s, key, i) == d
  {
    ScoreLayout(s, i + |key|, d);
    ScoreFromLayout(s, key, i, d);
  }

  /** A reply opening with "Overall Vibe: <n>/10" scores `n`, whatever `n` is: 12 as well as 9. */
  lemma ScoresUnclamped(n: nat, after: string)
    ensures ParseScore(OverallLabel + " " + NatToString(n) + "/10" + after, OverallLabel) == n
  {
    ScoreReadBack("", OverallLabel, OverallLabel, n, after);
    assert "" + OverallLabel == OverallLabel;
  }

  // ---------------------------------------------------------------- reading the badge

  /** The badge an entry gets when the reply has none. */
  const DefaultBadge := "Campus Star ⭐"

  /** The heading line before the badge, ending in its line break. */
  const BadgeHeading := "🏆 TALENT BADGE\n"

  /** `/🏆 TALENT BADGE\n(.+)/` matches at `i`: the heading, then at least one character before the line ends. */
  predicate BadgeAt(s: string, i: nat) {
    OccursAt(s, BadgeHeading, i) && i + |BadgeHeading| < |s| && !IsLineTerminator(s[i + |BadgeHeading|])
  }

  /** The first position at or after `from` where the badge pattern matches. */
  function FindBadge(s: string, from: nat): (r: Option<nat>)
    ensures r.Some? ==> from <= r.value && BadgeAt(s, r.value)
    ensures r.Some? ==> forall k :: from <= k < r.value ==> !BadgeAt(s, k)
    ensures r.None? ==> forall k :: from <= k ==> !BadgeAt(s, k)
    decreases |s| - from
  {
    if from + |BadgeHeading| >= |s| then None
    else if BadgeAt(s, from) then Some(from)
    else FindBadge(s, from + 1)
  }

  /** `badgeMatch ? badgeMatch[1].trim() : 'Campus Star ⭐'`: the rest of the line after the heading, trimmed. */
  function ParseBadge(s: string): string {
    match FindBadge(s, 0)
    case Some(i) => Trim(s[i + |BadgeHeading|..LineEnd(s, i + |BadgeHeading|)])
    case None => DefaultBadge
  }

  /**
   * A badge line written under the heading reads back trimmed when no match
   * starts before it; the capture stops at the line's end.
   */
  lemma BadgeReadBack(before: string, line: string, after: string)
    requires line != []
    requires forall k :: 0 <= k < |line| ==> !IsLineTerminator(line[k])
    requires after == [] || IsLineTerminator(after[0])
    requires forall k :: 0 <= k < |before| ==> !BadgeAt(before + BadgeHeading + line + after, k)
    ensures ParseBadge(before + BadgeHeading + line + after) == Trim(line)
  {
    var s := before + BadgeHeading + line + after;
    var i := |before|;
    var start := i + |BadgeHeading|;
    assert s[i..start] == BadgeHeading;
    assert s[start..start + |line|] == line;
    assert BadgeAt(s, i) by { assert s[start] == line[0]; }
    assert FindBadge(s, 0) == Some(i);
    var e := LineEnd(s, start);
    assert e == start + |line| by {
      assert forall k :: start <= k < start + |line| ==> !IsLineTerminator(s[k]) by {
        forall k | start <= k < start + |line| ensures !IsLineTerminator(s[k]) { assert s[k] == line[k - start]; }
      }
      if start + |line| < |s| {
        assert s[start + |line|] == after[0];
      }
    }
  }

  /** A reply without the heading gets the default badge. */
  lemma BadgeDefault(s: string)
    requires !Contains(s, BadgeHeading)
    ensures ParseBadge(s) == DefaultBadge
  {
    ContainsIff(s, BadgeHeading);
  }

  // ---------------------------------------------------------------- the collection

  /** A stored entry with its id, as the feed and submit send it. */
  datatype Entry = Entry(id: Id, talent: Talent)

  /** The Talent collection after a request, and the reply sent. */
  datatype Step<+T> = Step(talents: map<Id, Talent>, nextId: Id, reply: Response<T>)

  /** POST `/submit`: the model is asked before the document is validated. */
  function SubmitOutcome(judge: (string, string, string) -> string, talents: map<Id, Talent>, nextId: Id,
                         oracle: Oracle, nickname: Field, category: Field, title: Field, content: Field): Step<Entry>
  {
    if !Truthy(nickname) || !Truthy(category) || !Truthy(title) || !Truthy(content) then
      Step(talents, nextId, Failure(400, AllFieldsText))
    else
      var feedback := Content(oracle, judge(category.value, content.value, nickname.value), "");
      if feedback.Threw? then Step(talents, nextId, FromError(feedback.error))
      else
        var talent := NewTalent(nickname.value, category.value, title.value, content.value,
                                feedback.text, ParseScores(feedback.text), ParseBadge(feedback.text));
        var violations := TalentViolations(talent);
        if violations != [] then Step(talents, nextId, FromError(ValidationFailure("Talent", violations)))
        else Step(talents[nextId := talent], nextId + 1, Success(Entry(nextId, talent)))
  }

  /**
   * A submission missing a field is refused with 400; a stored one holds the
   * request's fields, the model's reply, the scores and badge read from it,
   * and no votes, under a fresh id; nothing else changes.
   */
  lemma SubmitStores(judge: (string, string, string) -> string, talents: map<Id, Talent>, nextId: Id,
                     oracle: Oracle, nickname: Field, category: Field, title: Field, content: Field)
    requires FreshIds(talents, nextId)
    ensures var r := SubmitOutcome(judge, talents, nextId, oracle, nickname, category, title, content);
      && (!Truthy(nickname) || !Truthy(category) || !Truthy(title) || !Truthy(content) ==>
            r.reply == Failure(400, AllFieldsText))
      && (r.reply.Failure? ==> r.talents == talents && r.nextId == nextId)
      && (r.reply.Success? ==>
        var e := r.reply.value;
        var t := e.talent;
        && Content(oracle, judge(category.value, content.value, nickname.value), "") == Returned(t.aiFeedback)
        && t == Talent(nickname.value, category.value, title.value, content.value,
                       t.aiFeedback, ParseScores(t.aiFeedback), ParseBadge(t.aiFeedback), NoVotes)
        && ValidTalent(t)
        && e.id !in talents && r.talents == talents[e.id := t])
  {
    var r := SubmitOutcome(judge, talents, nextId, oracle, nickname, category, title, content);
    if r.reply.Success? {
      TalentViolationsIff(r.reply.value.talent);
    }
  }

  /**
   * A category outside the enumeration is only caught when the document is
   * created, after the model has answered: the reply is the error handler's
   * answer to the enum failure, and nothing is stored.
   */
  lemma SubmitUnknownCategory(judge: (string, string, string) -> string, talents: map<Id, Talent>, nextId: Id,
                              oracle: Oracle, nickname: Field, category: Field, title: Field, content: Field)
    requires Truthy(nickname) && Truthy(category) && Truthy(title) && Truthy(content)
    requires category.value !in CategoryNames
    requires Content(oracle, judge(category.value, content.value, nickname.value), "").Returned?
    ensures var r := SubmitOutcome(judge, talents, nextId, oracle, nickname, category, title, content);
      && r.talents == talents && r.nextId == nextId
      && r.reply == FromError(ValidationFailure("Talent", [NotInEnum("category", category.value)]))
  {
  }

  // ---------------------------------------------------------------- voting

  /** The three counters a vote may name. */
  datatype Emoji = Fire | Heart | Mindblown

  /** `validEmojis.includes(emoji)`, naming the counter. */
  function EmojiOf(emoji: Field): (e: Option<Emoji>)
    ensures e.Some? <==> emoji.Some? && emoji.value in ["fire", "heart", "mindblown"]
  {
    if emoji == Some("fire") then Some(Fire)
    else if emoji == Some("heart") then Some(Heart)
    else if emoji == Some("mindblown") then Some(Mindblown)
    else None
  }

  /** `$inc: { votes.<emoji>: 1 }`. */
  function Bump(votes: Votes, e: Emoji): Votes {
    match e
    case Fire => votes.(fire := votes.fire + 1)
    case Heart => votes.(heart := votes.heart + 1)
    case Mindblown => votes.(mindblown := votes.mindblown + 1)
  }

  /**
   * Reading `talent.votes` of the `null` that an unknown id gives. The one
   * sentence is kept in the pieces `NullVotesPieces` names, so that the
   * lemmas below can show, piece by piece, that it holds none of the texts
   * the error handler looks for.
   */
  const NullVotesMessage := "Cannot read " + "p" + "roperties of null " + "(" + "reading 'votes')"

  /** The TypeError that reading `talent.votes` throws when no entry was updated. */
  const NullVotesError := JsError(Some(NullVotesMessage), "TypeError", None, [])

  /** PUT `/vote/:id`. */
  function VoteOutcome(talents: map<Id, Talent>, nextId: Id, id: Id, emoji: Field): Step<Votes> {
    match EmojiOf(emoji)
    case None => Step(talents, nextId, Failure(400, InvalidEmojiText))
    case Some(e) =>
      if id !in talents then Step(talents, nextId, FromError(NullVotesError))
      else
        var votes := Bump(talents[id].votes, e);
        Step(talents[id := talents[id].(votes := votes)], nextId, Success(votes))
  }

  /**
   * A vote for a listed emoji raises that one counter of that one entry by
   * exactly one, and answers with the new counters; any other emoji is
   * refused with 400 and changes nothing.
   */
  lemma VoteCountsOne(talents: map<Id, Talent>, nextId: Id, id: Id, emoji: Field)
    ensures var r := VoteOutcome(talents, nextId, id, emoji);
      && (EmojiOf(emoji).None? ==> r == Step(talents, nextId, Failure(400, InvalidEmojiText)))
      && (r.reply.Success? ==>
        var before := talents[id].votes;
        var after := r.reply.value;
        && r.talents == talents[id := talents[id].(votes := after)]
        && after.fire + after.heart + after.mindblown == before.fire + before.heart + before.mindblown + 1
        && (after.fire == before.fire + 1 <==> emoji == Some("fire"))
        && (after.heart == before.heart + 1 <==> emoji == Some("heart"))
        && (after.mindblown == before.mindblown + 1 <==> emoji == Some("mindblown")))
  {
  }

  /** None of the first characters of the rate-limit and key markers occurs in `s`. */
  predicate LacksMarkerStarts(s: string) {
    '4' !in s && 'q' !in s && 'T' !in s && '_' !in s
  }

  /** The message's pieces, around the 'p' and the '(' that no occurrence of "not found" can span. */
  lemma NullVotesPieces()
    ensures NullVotesMessage == "Cannot read " + ['p'] + "roperties of null " + ['('] + "reading 'votes')"
  {
  }

  lemma NullHeadLacks()
    ensures LacksMarkerStarts("Cannot read ") && 'f' !in "Cannot read "
  {
  }

  lemma NullMiddleLacks()
    ensures LacksMarkerStarts("roperties of null ") && 'd' !in "roperties of null "
  {
  }

  lemma NullTailLacks()
    ensures LacksMarkerStarts("reading 'votes')") && 'f' !in "reading 'votes')"
  {
  }

  /** The message names none of the rate-limit and key markers: it lacks their first characters. */
  lemma NullVotesNoCodes()
    ensures !MentionsRateLimit(NullVotesError) && !MentionsBadKey(NullVotesError)
    ensures !Contains(NullVotesMessage, "404")
  {
    var m := NullVotesMessage;
    NullVotesPieces();
    NullHeadLacks();
    NullMiddleLacks();
    NullTailLacks();
    assert LacksMarkerStarts(m);
    NotContainsByChar(m, "429", '4');
    NotContainsByChar(m, "401", '4');
    NotContainsByChar(m, "403", '4');
    NotContainsByChar(m, "404", '4');
    NotContainsByChar(m, "quota", 'q');
    NotContainsByChar(m, "Too Many Requests", 'T');
    NotContainsByChar(m, "API_KEY", '_');
  }

  /** Nor "not found": no occurrence can span the 'p' or the '(', and no piece has both an 'f' and a 'd'. */
  lemma NullVotesNotFound()
    ensures !Contains(NullVotesMessage, "not found")
  {
    var head, middle, tail := "Cannot read ", "roperties of null ", "reading 'votes')";
    NullVotesPieces();
    NullHeadLacks();
    NullMiddleLacks();
    NullTailLacks();
    NotContainsByChar(head, "not found", 'f');
    NotContainsByChar(middle, "not found", 'd');
    NotContainsByChar(tail, "not found", 'f');
    NoStraddle(head, 'p', middle, "not found");
    NoStraddle(head + ['p'] + middle, '(', tail, "not found");
  }

  /** So the middleware forwards it, shorter than 120 characters as it is, with status 500. */
  lemma NullVotesIsServerError()
    ensures Handle(NullVotesError) == ErrorResponse(500, false, NullVotesMessage)
  {
    NullVotesNoCodes();
    NullVotesNotFound();
    assert |NullVotesMessage| < ForwardLimit;
  }

  /** A vote for a listed emoji on an id that names nothing fails with 500 and that message. */
  lemma VoteUnknownEntry(talents: map<Id, Talent>, nextId: Id, id: Id, emoji: Field)
    requires EmojiOf(emoji).Some? && id !in talents
    ensures VoteOutcome(talents, nextId, id, emoji) == Step(talents, nextId, Failure(500, NullVotesMessage))
  {
    NullVotesIsServerError();
  }

  // ---------------------------------------------------------------- the feed

  /** The feed shows at most this many entries. */
  const FeedLimit := 20

  function Overall(e: Entry): int {
    e.talent.scores.overall
  }

  /** The stored entries with ids below `n`, in id order, which is the order they were created in. */
  function Listing(talents: map<Id, Talent>, n: nat): (es: seq<Entry>)
    ensures forall e :: e in es ==> e.id < n && e.id in talents && talents[e.id] == e.talent
    ensures forall id :: id < n && id in talents ==> Entry(id, talents[id]) in es
  {
    if n == 0 then []
    else Listing(talents, n - 1) + (if n - 1 in talents then [Entry(n - 1, talents[n - 1])] else [])
  }

  /** No entry appears twice in a listing: ids strictly increase along it. */
  lemma {:induction false} ListingIdsIncrease(talents: map<Id, Talent>, n: nat)
    ensures forall i, j :: 0 <= i < j < |Listing(talents, n)| ==> Listing(talents, n)[i].id < Listing(talents, n)[j].id
  {
    if n > 0 {
      ListingIdsIncrease(talents, n - 1);
      var prev, es := Listing(talents, n - 1), Listing(talents, n);
      assert es == prev + (if n - 1 in talents then [Entry(n - 1, talents[n - 1])] else []);
      forall i, j | 0 <= i < j < |es| ensures es[i].id < es[j].id {
        assert es[i] == prev[i] && prev[i] in prev;
        if j < |prev| {
          assert es[j] == prev[j];
        } else {
          assert es[j] == Entry(n - 1, talents[n - 1]);
        }
      }
    }
  }

  /** Each entry occurs at most once in a listing. */
  lemma {:induction false} ListingOnce(talents: map<Id, Talent>, n: nat)
    ensures forall e :: multiset(Listing(talents, n))[e] <= 1
  {
    if n > 0 {
      ListingOnce(talents, n - 1);
      var prev := Listing(talents, n - 1);
      if n - 1 in talents {
        var x := Entry(n - 1, talents[n - 1]);
        assert x !in prev;
        assert multiset(Listing(talents, n)) == multiset(prev) + multiset{x};
      } else {
        assert Listing(talents, n) == prev;
      }
    }
  }

  /** `category ? { category } : {}`. */
  predicate InCategory(category: Field, e: Entry) {
    !Truthy(category) || e.talent.category == category.value
  }

  /** The entries the query's filter keeps, in order. */
  function Matching(es: seq<Entry>, category: Field): (r: seq<Entry>)
    ensures forall e :: e in r <==> e in es && InCategory(category, e)
  {
    if es == [] then []
    else (if InCategory(category, es[0]) then [es[0]] else []) + Matching(es[1..], category)
  }

  /** The filter keeps each entry of the category as often as it occurs, and no other. */
  lemma {:induction false} MatchingCounts(es: seq<Entry>, category: Field)
    ensures forall e :: multiset(Matching(es, category))[e] == if InCategory(category, e) then multiset(es)[e] else 0
  {
    if es != [] {
      MatchingCounts(es[1..], category);
      assert es == [es[0]] + es[1..];
    }
  }

  /** GET `/feed`: the filter, the sort, then `limit(20)`. */
  function Feed(talents: map<Id, Talent>, nextId: Id, category: Field): seq<Entry> {
    var sorted := SortDescending(Matching(Listing(talents, nextId), category), Overall);
    if |sorted| <= FeedLimit then sorted else sorted[..FeedLimit]
  }

  /** The feed is the sorted filter cut to 20: best overall score first. */
  lemma FeedSorted(talents: map<Id, Talent>, nextId: Id, category: Field)
    ensures |Feed(talents, nextId, category)| <= FeedLimit
    ensures Descending(Feed(talents, nextId, category), Overall)
  {
    var sorted := SortDescending(Matching(Listing(talents, nextId), category), Overall);
    if |sorted| > FeedLimit {
      PrefixDescending(sorted, Overall, FeedLimit);
    }
  }

  /** Every feed entry is a stored entry of the requested category. */
  lemma FeedMembers(talents: map<Id, Talent>, nextId: Id, category: Field)
    ensures forall e :: e in Feed(talents, nextId, category) ==>
      e.id in talents && talents[e.id] == e.talent && InCategory(category, e)
  {
    var sorted := SortDescending(Matching(Listing(talents, nextId), category), Overall);
    if |sorted| > FeedLimit {
      assert forall e :: e in sorted[..FeedLimit] ==> e in sorted;
    }
  }

  /** Each entry occurs at most once in the feed. */
  lemma FeedOnce(talents: map<Id, Talent>, nextId: Id, category: Field)
    ensures forall e :: multiset(Feed(talents, nextId, category))[e] <= 1
  {
    var listing := Listing(talents, nextId);
    var matching := Matching(listing, category);
    var sorted := SortDescending(matching, Overall);
    var r := Feed(talents, nextId, category);
    ListingOnce(talents, nextId);
    MatchingCounts(listing, category);
    if |sorted| > FeedLimit {
      PrefixCounts(sorted, FeedLimit);
    }
    forall e ensures multiset(r)[e] <= 1 {
      assert multiset(matching)[e] <= multiset(listing)[e];
      assert multiset(r)[e] <= multiset(sorted)[e];
    }
  }

  /** Entries that each occur once and agree with the store carry distinct ids. */
  lemma OnceMeansDistinctIds(r: seq<Entry>, talents: map<Id, Talent>)
    requires forall e :: multiset(r)[e] <= 1
    requires forall e :: e in r ==> e.id in talents && talents[e.id] == e.talent
    ensures forall i, j :: 0 <= i < j < |r| ==> r[i].id != r[j].id
  {
    forall i, j | 0 <= i < j < |r| ensures r[i].id != r[j].id {
      if r[i].id == r[j].id {
        assert r[i] in r && r[j] in r;
        assert r[i] == r[j];
        RepeatCounted(r, i, j);
        assert false;
      }
    }
  }

  /**
   * The feed holds at most 20 stored entries, each in the requested category
   * (any, when none is given) and none twice, best overall score first.
   */
  lemma FeedShape(talents: map<Id, Talent>, nextId: Id, category: Field)
    ensures var r := Feed(talents, nextId, category);
      && |r| <= FeedLimit && Descending(r, Overall)
      && (forall e :: e in r ==> e.id in talents && talents[e.id] == e.talent && InCategory(category, e))
      && forall i, j :: 0 <= i < j < |r| ==> r[i].id != r[j].id
  {
    FeedSorted(talents, nextId, category);
    FeedMembers(talents, nextId, category);
    FeedOnce(talents, nextId, category);
    OnceMeansDistinctIds(Feed(talents, nextId, category), talents);
  }

  /**
   * Every stored entry of the category is in the feed, unless the feed is
   * full and the entry scores no more than any entry shown.
   */
  lemma FeedIsTop(talents: map<Id, Talent>, nextId: Id, category: Field, id: Id)
    requires FreshIds(talents, nextId)
    requires id in talents && InCategory(category, Entry(id, talents[id]))
    ensures var r := Feed(talents, nextId, category);
      Entry(id, talents[id]) in r
      || (|r| == FeedLimit && forall e :: e in r ==> Overall(e) >= talents[id].scores.overall)
  {
    var x := Entry(id, talents[id]);
    var matching := Matching(Listing(talents, nextId), category);
    var sorted := SortDescending(matching, Overall);
    assert x in matching;
    var j :| 0 <= j < |sorted| && sorted[j] == x;
    if |sorted| > FeedLimit && j >= FeedLimit {
      var r := sorted[..FeedLimit];
      forall e | e in r ensures Overall(e) >= talents[id].scores.overall {
        var i :| 0 <= i < |r| && r[i] == e;
        assert sorted[i] == e;
      }
    } else if |sorted| > FeedLimit {
      assert sorted[..FeedLimit][j] == x;
    }
  }

  /** The Talent collection. */
  class TalentStore {
    var talents: map<Id, Talent>
    var nextId: Id
    /** The judging prompt for a category, a submission and a name. */
    const judge: (string, string, string) -> string

    /** An empty collection, judging with the talent-scoring prompt. */
    constructor()
      ensures talents == map[] && nextId == 0 && judge == Prompts.ScoreTalentPrompt
    {
      talents := map[];
      nextId := 0;
      judge := Prompts.ScoreTalentPrompt;
    }

    /** POST `/submit`. */
    method Submit(oracle: Oracle, nickname: Field, category: Field, title: Field, content: Field)
      returns (r: Response<Entry>)
      modifies this
      ensures Step(talents, nextId, r)
        == SubmitOutcome(judge, old(talents), old(nextId), oracle, nickname, category, title, content)
    {
      if !Truthy(nickname) || !Truthy(category) || !Truthy(title) || !Truthy(content) {
        return Failure(400, AllFieldsText);
      }
      var prompt := judge(category.value, content.value, nickname.value);
      var feedback := GenerateContent(oracle, prompt, "");
      if feedback.Threw? {
        return FromError(feedback.error);
      }
      var scores := ParseScores(feedback.text);
      var badge := ParseBadge(feedback.text);
      var talent := NewTalent(nickname.value, category.value, title.value, content.value, feedback.text, scores, badge);
      var violations := TalentViolations(talent);
      if violations != [] {
        return FromError(ValidationFailure("Talent", violations));
      }
      var id := nextId;
      talents := talents[id := talent];
      nextId := nextId + 1;
      r := Success(Entry(id, talent));
    }

    /** PUT `/vote/:id`. */
    method Vote(id: Id, emoji: Field) returns (r: Response<Votes>)
      modifies this
      ensures Step(talents, nextId, r) == VoteOutcome(old(talents), old(nextId), id, emoji)
    {
      var e := EmojiOf(emoji);
      if e.None? {
        return Failure(400, InvalidEmojiText);
      }
      if id !in talents {
        return FromError(NullVotesError);
      }
      var votes := Bump(talents[id].votes, e.value);
      talents := talents[id := talents[id].(votes := votes)];
      r := Success(votes);
    }
  }
}
