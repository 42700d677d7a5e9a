/**
 * The brainstorm routes (server/routes/brainstorm.js). POST `/` checks the
 * request, asks the model to expand the idea and saves the result as an Idea
 * document; GET `/vault/:nickname` lists a student's ideas, newest first;
 * DELETE `/:ideaId` removes one. The Idea collection is the class
 * `IdeaStore`. The expansion prompt is a parameter of the route, `expand`,
 * and the store is built with `Prompts.BrainstormPrompt`; the clock reading
 * that fills `savedAt` is a parameter of the create request.
 */
module BrainstormRoute {
  import opened Wrappers
  import opened Text
  import opened ErrorHandler
  import opened Models
  import opened Gemini
  import opened Ranking
  import Prompts

  const MissingFieldsText := "nickname and idea are required"
  const DeletedText := "Idea deleted"

  /** The body of a successful expansion: the new document's id and the model's plan. */
  datatype Created = Created(ideaId: Id, output: string)

  /** A stored idea with its id, as the vault lists it. */
  datatype Saved = Saved(id: Id, idea: Idea)

  /** The Idea collection after a request, and the reply sent. */
  datatype Step<+T> = Step(ideas: map<Id, Idea>, nextId: Id, reply: Response<T>)

  /** Every stored idea satisfies the schema. */
  predicate Ideas(ideas: map<Id, Idea>) {
    forall id :: id in ideas ==> ValidIdea(ideas[id])
  }

  /** POST `/`: the collection afterwards and the reply, as the route computes them. */
  function CreateOutcome(expand: string -> string, ideas: map<Id, Idea>, nextId: Id, oracle: Oracle, now: int,
                         nickname: Field, idea: Field): Step<Created>
  {
    if !Truthy(nickname) || !Truthy(idea) then Step(ideas, nextId, Failure(400, MissingFieldsText))
    else
      var c := Content(oracle, expand(idea.value), "");
      if c.Threw? then Step(ideas, nextId, FromError(c.error))
      else Step(ideas[nextId := Idea(nickname.value, idea.value, c.text, now)], nextId + 1, Success(Created(nextId, c.text)))
  }

  /** A missing or empty nickname or idea is refused with 400 before the model is asked. */
  lemma CreateRequiresFields(expand: string -> string, ideas: map<Id, Idea>, nextId: Id, oracle: Oracle, now: int,
                             nickname: Field, idea: Field)
    requires !Truthy(nickname) || !Truthy(idea)
    ensures CreateOutcome(expand, ideas, nextId, oracle, now, nickname, idea)
      == Step(ideas, nextId, Failure(400, MissingFieldsText))
  {
  }

  /**
   * An idea is saved only after the model answered: a failed request leaves
   * the collection as it was, and a successful one adds exactly one document,
   * under a fresh id, holding the request's nickname and idea, the model's
   * plan as sent back, and the clock reading.
   */
  lemma CreateSavesAfterGeneration(expand: string -> string, ideas: map<Id, Idea>, nextId: Id, oracle: Oracle, now: int,
                                   nickname: Field, idea: Field)
    requires FreshIds(ideas, nextId)
    ensures var r := CreateOutcome(expand, ideas, nextId, oracle, now, nickname, idea);
      && (r.reply.Failure? ==> r.ideas == ideas && r.nextId == nextId)
      && (r.reply.Success? ==>
            var id := r.reply.value.ideaId;
            && Content(oracle, expand(idea.value), "") == Returned(r.reply.value.output)
            && id !in ideas && r.ideas.Keys == ideas.Keys + {id}
            && r.ideas[id] == Idea(nickname.value, idea.value, r.reply.value.output, now)
            && forall other :: other in ideas ==> r.ideas[other] == ideas[other])
  {
  }

  /** Creates keep ids fresh and every stored idea valid: the guard already demands what the schema requires. */
  lemma CreateKeepsInvariants(expand: string -> string, ideas: map<Id, Idea>, nextId: Id, oracle: Oracle, now: int,
                              nickname: Field, idea: Field)
    requires FreshIds(ideas, nextId) && Ideas(ideas)
    ensures var r := CreateOutcome(expand, ideas, nextId, oracle, now, nickname, idea);
      FreshIds(r.ideas, r.nextId) && Ideas(r.ideas)
  {
  }

  // ---------------------------------------------------------------- the vault

  /** The stored ideas with ids below `n`, in id order, which is the order they were created in. */
  function Listing(ideas: map<Id, Idea>, n: nat): (ss: seq<Saved>)
    ensures forall s :: s in ss ==> s.id < n && s.id in ideas && ideas[s.id] == s.idea
    ensures forall id :: id < n && id in ideas ==> Saved(id, ideas[id]) in ss
  {
    if n == 0 then []
    else Listing(ideas, n - 1) + (if n - 1 in ideas then [Saved(n - 1, ideas[n - 1])] else [])
  }

  /** The ideas saved under one nickname, in order. */
  function OwnedBy(ss: seq<Saved>, nickname: string): (r: seq<Saved>)
    ensures forall s :: s in r <==> s in ss && s.idea.nickname == nickname
    ensures forall s :: multiset(r)[s] == if s.idea.nickname == nickname then multiset(ss)[s] else 0
    ensures Subsequence(r, ss)
  {
    if ss == [] then []
    else
      assert ss == [ss[0]] + ss[1..];
      var rest := OwnedBy(ss[1..], nickname);
      if ss[0].idea.nickname == nickname then
        assert ([ss[0]] + rest)[1..] == rest;
        [ss[0]] + rest
      else rest
  }

  function SavedAt(s: Saved): int {
    s.idea.savedAt
  }

  /** GET `/vault/:nickname`: `find({ nickname })` then `sort({ savedAt: -1 })`. */
  function Vault(ideas: map<Id, Idea>, nextId: Id, nickname: string): seq<Saved> {
    SortDescending(OwnedBy(Listing(ideas, nextId), nickname), SavedAt)
  }

  /**
   * The vault holds exactly the student's stored ideas, each once, newest
   * first: everything it shows is stored under that nickname, and every idea
   * stored under it is shown.
   */
  lemma VaultIsTheStudentsIdeas(ideas: map<Id, Idea>, nextId: Id, nickname: string)
    requires FreshIds(ideas, nextId)
    ensures var v := Vault(ideas, nextId, nickname);
      && Descending(v, SavedAt)
      && (forall s :: s in v ==> s.id in ideas && ideas[s.id] == s.idea && s.idea.nickname == nickname)
      && (forall id :: id in ideas && ideas[id].nickname == nickname ==> Saved(id, ideas[id]) in v)
      && multiset(v) == multiset(OwnedBy(Listing(ideas, nextId), nickname))
  {
  }

  /** No idea appears twice in a listing: ids strictly increase along it. */
  lemma {:induction false} ListingIdsIncrease(ideas: map<Id, Idea>, n: nat)
    ensures forall i, j :: 0 <= i < j < |Listing(ideas, n)| ==> Listing(ideas, n)[i].id < Listing(ideas, n)[j].id
  {
    if n > 0 {
      ListingIdsIncrease(ideas, n - 1);
      var prev, ss := Listing(ideas, n - 1), Listing(ideas, n);
      assert ss == prev + (if n - 1 in ideas then [Saved(n - 1, ideas[n - 1])] else []);
      forall i, j | 0 <= i < j < |ss| ensures ss[i].id < ss[j].id {
        assert ss[i] == prev[i] && prev[i] in prev;
        if j < |prev| {
          assert ss[j] == prev[j];
        } else {
          assert ss[j] == Saved(n - 1, ideas[n - 1]);
        }
      }
    }
  }

  // ---------------------------------------------------------------- delete

  /** DELETE `/:ideaId`: `findByIdAndDelete`, which succeeds whether or not the idea exists. */
  function DeleteOutcome(ideas: map<Id, Idea>, nextId: Id, ideaId: Id): Step<string> {
    Step(ideas - {ideaId}, nextId, Success(DeletedText))
  }

  /**
   * Deleting always answers "Idea deleted", removes that one idea and keeps
   * the rest, and deleting again changes nothing more.
   */
  lemma DeleteIdempotent(ideas: map<Id, Idea>, nextId: Id, ideaId: Id)
    ensures var r := DeleteOutcome(ideas, nextId, ideaId);
      && r.reply == Success(DeletedText)
      && ideaId !in r.ideas
      && (forall id :: id != ideaId ==> (id in r.ideas <==> id in ideas) && (id in ideas ==> r.ideas[id] == ideas[id]))
      && DeleteOutcome(r.ideas, r.nextId, ideaId) == r
  {
  }

  /** A deleted idea leaves its owner's vault, and nothing else does. */
  lemma DeleteLeavesVault(ideas: map<Id, Idea>, nextId: Id, ideaId: Id, nickname: string)
    requires FreshIds(ideas, nextId)
    ensures var after := DeleteOutcome(ideas, nextId, ideaId).ideas;
      forall s :: s in Vault(after, nextId, nickname) <==> s in Vault(ideas, nextId, nickname) && s.id != ideaId
  {
    var after := DeleteOutcome(ideas, nextId, ideaId).ideas;
    forall s | s in Vault(ideas, nextId, nickname) && s.id != ideaId
      ensures s in Vault(after, nextId, nickname)
    {
      assert Saved(s.id, after[s.id]) in Listing(after, nextId);
    }
  }

  /** The Idea collection. */
  class IdeaStore {
    var ideas: map<Id, Idea>
    var nextId: Id
    /** The expansion prompt for an idea. */
    const expand: string -> string

    /** An empty collection, expanding with the brainstorm prompt. */
    constructor()
      ensures ideas == map[] && nextId == 0 && expand == Prompts.BrainstormPrompt
    {
      ideas := map[];
      nextId := 0;
      expand := Prompts.BrainstormPrompt;
    }

    /** POST `/`, at clock reading `now`. */
    method Create(oracle: Oracle, now: int, nickname: Field, idea: Field) returns (r: Response<Created>)
      modifies this
      ensures Step(ideas, nextId, r) == CreateOutcome(expand, old(ideas), old(nextId), oracle, now, nickname, idea)
    {
      if !Truthy(nickname) || !Truthy(idea) {
        return Failure(400, MissingFieldsText);
      }
      var output := GenerateContent(oracle, expand(idea.value), "");
      if output.Threw? {
        return FromError(output.error);
      }
      var id := nextId;
      ideas := ideas[id := Idea(nickname.value, idea.value, output.text, now)];
      nextId := nextId + 1;
      r := Success(Created(id, output.text));
    }

    /** DELETE `/:ideaId`. */
    method Delete(ideaId: Id) returns (r: Response<string>)
      modifies this
      ensures Step(ideas, nextId, r) == DeleteOutcome(old(ideas), old(nextId), ideaId)
    {
      ideas := ideas - {ideaId};
      r := Success(DeletedText);
    }
  }
}
