/**
 * The arithmetic and list handling of the TalentArena page
 * (client/src/pages/TalentArena.jsx): the reaction total and vote buttons of
 * a card, the width and fallback of a score bar, the list update after a
 * vote, the feed query string and the submit form's own check. A card reads
 * the talent as JSON, where a vote counter may be absent; `Counters` keeps
 * that possibility, and `Shown` is what a stored talent's counters look like.
 */
module TalentArena {
  import opened Wrappers
  import opened Text
  import opened Gemini
  import opened ErrorHandler
  import opened Models
  import opened TalentRoute

  // ---------------------------------------------------------------- reactions

  /** The vote counters as a card receives them: any of them, or the whole object, may be missing. */
  datatype Counters = Counters(fire: Option<nat>, heart: Option<nat>, mindblown: Option<nat>)

  /** The counters of a stored talent, all present. */
  function Shown(v: Votes): Option<Counters> {
    Some(Counters(Some(v.fire), Some(v.heart), Some(v.mindblown)))
  }

  /** `x || 0` on a count. */
  function OrZero(n: Option<nat>): nat {
    if n.Some? then n.value else 0
  }

  /** The count on one vote button: `talent.votes?.[type] || 0`. */
  function Button(votes: Option<Counters>, e: Emoji): nat {
    if votes.None? then 0
    else match e
      case Fire => OrZero(votes.value.fire)
      case Heart => OrZero(votes.value.heart)
      case Mindblown => OrZero(votes.value.mindblown)
  }

  /** `totalVotes`: each counter with a missing one read as 0. */
  function TotalVotes(votes: Option<Counters>): nat {
    if votes.None? then 0
    else OrZero(votes.value.fire) + OrZero(votes.value.heart) + OrZero(votes.value.mindblown)
  }

  /** The reaction total is the sum of the three buttons, and it is 0 exactly when every button shows 0. */
  lemma TotalIsSumOfButtons(votes: Option<Counters>)
    ensures TotalVotes(votes) == Button(votes, Fire) + Button(votes, Heart) + Button(votes, Mindblown)
    ensures TotalVotes(votes) == 0 <==> forall e: Emoji :: Button(votes, e) == 0
  {
    if TotalVotes(votes) != 0 {
      assert Button(votes, Fire) != 0 || Button(votes, Heart) != 0 || Button(votes, Mindblown) != 0;
    }
  }

  /** A stored talent's total is the sum of its three counters. */
  lemma TotalOfStored(v: Votes)
    ensures TotalVotes(Shown(v)) == v.fire + v.heart + v.mindblown
    ensures Button(Shown(v), Fire) == v.fire && Button(Shown(v), Heart) == v.heart
    ensures Button(Shown(v), Mindblown) == v.mindblown
  {
  }

  /** A counted vote raises the card's total by exactly one. */
  lemma VoteRaisesTotal(talents: map<Id, Talent>, nextId: Id, id: Id, emoji: Field)
    requires VoteOutcome(talents, nextId, id, emoji).reply.Success?
    ensures id in talents
    ensures TotalVotes(Shown(VoteOutcome(talents, nextId, id, emoji).reply.value))
         == TotalVotes(Shown(talents[id].votes)) + 1
  {
    VoteCountsOne(talents, nextId, id, emoji);
  }

  // ---------------------------------------------------------------- score bars

  /** The bar's fill, in percent of the track: `score * 10`. */
  function BarWidth(score: int): int {
    score * 10
  }

  /** A score from 0 to 10 fills 0 to 100 percent, and a higher score never fills less. */
  lemma BarWidthBounds(score: int, other: int)
    ensures 0 <= score <= 10 ==> 0 <= BarWidth(score) <= 100
    ensures score <= other ==> BarWidth(score) <= BarWidth(other)
    ensures BarWidth(10) == 100
  {
  }

  /**
   * Nothing keeps the bar inside its track: a reply claiming "Overall Vibe:
   * 12/10" is read as 12, and its bar fills 120 percent.
   */
  lemma BarOverflowsOnUnclampedScore(after: string)
    ensures var overall := ParseScore(OverallLabel + " " + Text.NatToString(12) + "/10" + after, OverallLabel);
      overall == 12 && BarWidth(overall) == 120
  {
    ScoresUnclamped(12, after);
  }

  /** The score a feedback bar shows: `score || 7`. */
  function BarScore(score: Option<nat>): nat {
    if score.Some? && score.value != 0 then score.value else DefaultScore
  }

  /** The four feedback bars, in order, from the stored scores (or none). */
  function FeedbackBars(scores: Option<Scores>): seq<nat> {
    if scores.None? then [BarScore(None), BarScore(None), BarScore(None), BarScore(None)]
    else
      var s := scores.value;
      [BarScore(Some(s.creativity)), BarScore(Some(s.originality)), BarScore(Some(s.expression)), BarScore(Some(s.overall))]
  }

  /** The headline score: `scores?.overall`, shown as it is. */
  function Headline(scores: Option<Scores>): Option<nat> {
    if scores.None? then None else Some(scores.value.overall)
  }

  /**
   * A bar shows its score when it is positive and 7 otherwise, 0 included;
   * so a 0 overall shows as 0 in the headline and as 7 on its bar.
   */
  lemma BarsFallBackToSeven(scores: Option<Scores>)
    ensures var bars := FeedbackBars(scores);
      && |bars| == 4
      && (forall b :: b in bars ==> b > 0)
      && (scores.None? ==> bars == [7, 7, 7, 7])
      && (scores.Some? ==>
            && (bars[0] == 7 <==> scores.value.creativity in {0, 7})
            && (bars[3] == 7 <==> scores.value.overall in {0, 7})
            && (scores.value.overall == 0 ==> Headline(scores) == Some(0) && bars[3] == 7))
  {
  }

  /** A stored score read from a reply's line is shown unchanged by its bar unless it is 0. */
  lemma BarShowsPositiveScore(n: nat)
    ensures n > 0 ==> BarScore(Some(n)) == n
    ensures BarScore(Some(0)) == DefaultScore && BarScore(None) == DefaultScore
  {
  }

  // ---------------------------------------------------------------- the list after a vote

  /** `prev.map(t => t._id === id ? { ...t, votes } : t)`. */
  function ApplyVote(list: seq<Entry>, id: Id, votes: Votes): (r: seq<Entry>)
    ensures |r| == |list|
    ensures forall i :: 0 <= i < |list| && list[i].id != id ==> r[i] == list[i]
    ensures forall i :: 0 <= i < |list| && list[i].id == id ==>
      r[i] == Entry(id, list[i].talent.(votes := votes))
  {
    if list == [] then []
    else
      var e := list[0];
      [if e.id == id then Entry(id, e.talent.(votes := votes)) else e] + ApplyVote(list[1..], id, votes)
  }

  /** Applying the same answer twice changes nothing more. */
  lemma ApplyVoteIdempotent(list: seq<Entry>, id: Id, votes: Votes)
    ensures ApplyVote(ApplyVote(list, id, votes), id, votes) == ApplyVote(list, id, votes)
  {
  }

  /** The entries of a list all agree with the stored collection. */
  predicate Agrees(list: seq<Entry>, talents: map<Id, Talent>) {
    forall e :: e in list ==> e.id in talents && talents[e.id] == e.talent
  }

  /**
   * A list that agreed with the collection before a counted vote agrees with
   * it after the page applies the vote's answer: the page's copy of the
   * entry gets the stored counters, and no other entry needs refreshing.
   */
  lemma ApplyVoteMatchesServer(list: seq<Entry>, talents: map<Id, Talent>, nextId: Id, id: Id, emoji: Field)
    requires Agrees(list, talents)
    requires VoteOutcome(talents, nextId, id, emoji).reply.Success?
    ensures var r := VoteOutcome(talents, nextId, id, emoji);
      Agrees(ApplyVote(list, id, r.reply.value), r.talents)
  {
    var r := VoteOutcome(talents, nextId, id, emoji);
    VoteCountsOne(talents, nextId, id, emoji);
    var after := ApplyVote(list, id, r.reply.value);
    forall e | e in after ensures e.id in r.talents && r.talents[e.id] == e.talent {
      var i :| 0 <= i < |after| && after[i] == e;
      assert list[i] in list;
    }
  }

  // ---------------------------------------------------------------- the feed query

  const AllCategories := "all"
  const CategoryParam := "?category="

  /** `filterCat !== 'all' ? "?category=" + filterCat : ''`. */
  function FeedQuery(filter: string): string {
    if filter != AllCategories then CategoryParam + filter else ""
  }

  /**
   * The query is empty exactly for "all"; otherwise it is the category
   * parameter followed by the filter, which can be read back from it.
   */
  lemma FeedQueryReadBack(filter: string)
    ensures FeedQuery(filter) == "" <==> filter == AllCategories
    ensures filter != AllCategories ==>
      && Text.StartsWith(FeedQuery(filter), CategoryParam)
      && FeedQuery(filter)[|CategoryParam|..] == filter
  {
  }

  // ---------------------------------------------------------------- submitting

  /** The submit form. */
  datatype Form = Form(category: string, title: string, content: string)

  /** `!form.category || !form.title || !form.content` refuses. */
  predicate CanSubmit(form: Form) {
    form.category != "" && form.title != "" && form.content != ""
  }

  /**
   * The page's check is the server's check without the nickname: a form it
   * refuses would be refused by the server with 400, and a form it sends
   * under an empty nickname is refused by the server all the same.
   */
  lemma FormCheckBeforeServer(judge: (string, string, string) -> string, talents: map<Id, Talent>, nextId: Id,
                              oracle: Oracle, nickname: string, form: Form)
    ensures !CanSubmit(form) || nickname == "" ==>
      SubmitOutcome(judge, talents, nextId, oracle, Some(nickname), Some(form.category), Some(form.title), Some(form.content))
        == Step(talents, nextId, Failure(400, AllFieldsText))
  {
  }
}
