/** The rating routes (server/routes/ratings.js) over the rating collection: list, get, create
    with its duplicate check, the owner's update, delete by owner or programme leader, and the
    per-entity average. */
module Ratings {
  import opened Common
  import opened Collections
  import opened RatingModel

  /** The list query parameters. */
  datatype RatingFilter = RatingFilter(ratedEntity: Option<Id>, ratedEntityType: Option<string>)

  predicate MatchesFilter(r: Rating, f: RatingFilter) {
    && (f.ratedEntity.Some? ==> r.ratedEntity == f.ratedEntity.value)
    && (Given(f.ratedEntityType) ==> r.ratedEntityType == f.ratedEntityType.value)
  }

  function NewestFirst(r: Rating): int { -r.createdAt }

  const AlreadyRated: string := "You have already rated this item"

  /** The delete check: the rater, or a programme leader. */
  predicate MayDelete(me: Principal, r: Rating) {
    r.rater == me.id || me.role == ProgramLeader
  }

  // ---------------------------------------------------------------- the ledger invariant

  /** No two ratings share (rater, ratedEntity, ratedEntityType). */
  predicate KeysUnique(ratings: map<Id, Rating>) {
    forall i, j :: i in ratings && j in ratings && i != j ==> KeyOf(ratings[i]) != KeyOf(ratings[j])
  }

  /** Every rating passed the schema's validators, ids lie below the counter, and the unique
      index holds. */
  predicate Ledger(ratings: map<Id, Rating>, nextId: Id) {
    && (forall id :: id in ratings ==> id < nextId && ValidRating(ratings[id]))
    && KeysUnique(ratings)
  }

  /** Some rating other than `except` has the key. */
  predicate KeyTaken(ratings: map<Id, Rating>, key: RatingKey, except: Option<Id>) {
    exists id :: id in ratings && (except.None? || id != except.value) && KeyOf(ratings[id]) == key
  }

  lemma AddKeepsLedger(ratings: map<Id, Rating>, nextId: Id, r: Rating)
    requires Ledger(ratings, nextId) && ValidRating(r) && !KeyTaken(ratings, KeyOf(r), None)
    ensures nextId !in ratings
    ensures Ledger(ratings[nextId := r], nextId + 1)
  {
  }

  lemma PutKeepsLedger(ratings: map<Id, Rating>, nextId: Id, id: Id, r: Rating)
    requires Ledger(ratings, nextId) && id in ratings && ValidRating(r)
    requires !KeyTaken(ratings, KeyOf(r), Some(id))
    ensures Ledger(ratings[id := r], nextId)
  {
  }

  lemma RemoveKeepsLedger(ratings: map<Id, Rating>, nextId: Id, id: Id)
    requires Ledger(ratings, nextId)
    ensures Ledger(ratings - {id}, nextId)
  {
  }

  /** The duplicate query finds a rating. */
  predicate HasDuplicate(ratings: map<Id, Rating>, me: Id, b: RatingBody) {
    exists id :: id in ratings && DuplicateOf(ratings[id], me, b)
  }

  /** When the body names both the entity and its type, the duplicate query finds exactly the
      ratings with the new rating's key, so passing it keeps the index unique. */
  lemma DuplicateQueryIsKeyLookup(ratings: map<Id, Rating>, me: Id, b: RatingBody, now: Timestamp)
    requires NewRating(me, b, now).Some?
    ensures HasDuplicate(ratings, me, b) <==> KeyTaken(ratings, KeyOf(NewRating(me, b, now).value), None)
  {
    var key := KeyOf(NewRating(me, b, now).value);
    if exists id :: id in ratings && DuplicateOf(ratings[id], me, b) {
      var id :| id in ratings && DuplicateOf(ratings[id], me, b);
      assert KeyOf(ratings[id]) == key;
    }
    if KeyTaken(ratings, key, None) {
      var id :| id in ratings && KeyOf(ratings[id]) == key;
      assert DuplicateOf(ratings[id], me, b);
    }
  }

  // ---------------------------------------------------------------- the average

  /** The records of a sequence of entries. */
  function Records(es: seq<(Id, Rating)>): (rs: seq<Rating>)
    ensures |rs| == |es| && forall i :: 0 <= i < |es| ==> rs[i] == es[i].1
  {
    seq(|es|, i requires 0 <= i < |es| => es[i].1)
  }

  /** `GET /ratings/average/:entityType/:entityId` with the id cast: `{0, 0}` when no rating of
      that entity exists, otherwise their count and mean score. */
  function AverageIn(ratings: map<Id, Rating>, entityType: string, entityId: Id): (a: Average)
    ensures a.totalRatings == |MatchingIds(ratings, (r: Rating) => MatchesEntity(r, entityType, entityId))|
    ensures a.totalRatings == 0 ==> a == Average(0.0, 0)
    ensures a.totalRatings > 0 ==>
              a.averageRating == Sum(RatingsOf(ratings, entityType, entityId)) / (a.totalRatings as real)
    ensures (forall id :: id in ratings ==> ValidRating(ratings[id])) && a.totalRatings > 0 ==>
              1.0 <= a.averageRating <= 5.0
  {
    var es := EntityEntries(ratings, entityType, entityId);
    AverageOfValid(ratings, es);
    AverageOf(Records(es))
  }

  /** The entries the cast `$match` selects: exactly the stored ratings of that type and entity,
      each id once, in the collection's order. */
  function EntityEntries(ratings: map<Id, Rating>, entityType: string, entityId: Id): (es: seq<(Id, Rating)>)
    ensures forall e :: e in es <==> e.0 in ratings && ratings[e.0] == e.1 && MatchesEntity(e.1, entityType, entityId)
    ensures IdsIncreasing(es)
    ensures |es| == |MatchingIds(ratings, (r: Rating) => MatchesEntity(r, entityType, entityId))|
  {
    QueryInOrder(ratings, (r: Rating) => MatchesEntity(r, entityType, entityId))
  }

  /** The ratings of one entity: the rating of each entry `EntityEntries` selects, in its order,
      so each matching id contributes its rating exactly once. */
  function RatingsOf(ratings: map<Id, Rating>, entityType: string, entityId: Id): (rs: seq<Rating>)
    ensures var es := EntityEntries(ratings, entityType, entityId);
      |rs| == |es| && forall i :: 0 <= i < |es| ==> rs[i] == es[i].1
    ensures |rs| == |MatchingIds(ratings, (r: Rating) => MatchesEntity(r, entityType, entityId))|
    ensures forall i :: 0 <= i < |rs| ==> rs[i] in ratings.Values && MatchesEntity(rs[i], entityType, entityId)
  {
    var es := EntityEntries(ratings, entityType, entityId);
    RecordsOfMatches(ratings, es, entityType, entityId);
    Records(es)
  }

  lemma RecordsOfMatches(ratings: map<Id, Rating>, es: seq<(Id, Rating)>, entityType: string, entityId: Id)
    requires forall e :: e in es ==> e.0 in ratings && ratings[e.0] == e.1 && MatchesEntity(e.1, entityType, entityId)
    ensures forall i :: 0 <= i < |es| ==>
              Records(es)[i] in ratings.Values && MatchesEntity(Records(es)[i], entityType, entityId)
  {
    forall i | 0 <= i < |es|
      ensures Records(es)[i] in ratings.Values && MatchesEntity(Records(es)[i], entityType, entityId)
    {
      assert es[i] in es;
    }
  }

  /** Averaging entries drawn from a ledger of valid ratings stays on the 1..5 scale. */
  lemma AverageOfValid(ratings: map<Id, Rating>, es: seq<(Id, Rating)>)
    requires forall e :: e in es ==> e.0 in ratings && ratings[e.0] == e.1
    ensures (forall id :: id in ratings ==> ValidRating(ratings[id])) && es != [] ==>
              1.0 <= AverageOf(Records(es)).averageRating <= 5.0
  {
    var rs := Records(es);
    if (forall id :: id in ratings ==> ValidRating(ratings[id])) && es != [] {
      forall i | 0 <= i < |rs| ensures ValidRating(rs[i]) {
        assert es[i] in es;
      }
      AverageWithinScale(rs);
    }
  }

  /** The same route as written: the `$match` compares the uncast string id with the stored
      ObjectId, which never matches, so the answer is always `{0, 0}`. */
  function AverageAsWritten(ratings: map<Id, Rating>, entityType: string, entityId: string): (a: Average)
    ensures a == Average(0.0, 0)
  {
    var es := QueryInOrder(ratings, (r: Rating) => MatchesAsWritten(r, entityType, entityId));
    UncastMatchesNone(es, entityType, entityId);
    AverageOf(Records(es))
  }

  lemma UncastMatchesNone(es: seq<(Id, Rating)>, entityType: string, entityId: string)
    requires forall e :: e in es ==> MatchesAsWritten(e.1, entityType, entityId)
    ensures es == []
  {
    if es != [] {
      assert es[0] in es;
      NothingMatchesAsWritten(es[0].1, entityType, entityId);
    }
  }

  /** The discrepancy on a one-rating ledger: the rated course has one rating of 4, which the
      cast match counts and the uncast match misses. */
  lemma AverageDiscrepancy()
    ensures var ratings := map[0 := Rating(1, 7, "Course", 4.0, None, 0)];
      && AverageIn(ratings, "Course", 7) == Average(4.0, 1)
      && AverageAsWritten(ratings, "Course", "7") == Average(0.0, 0)
  {
    var ratings := map[0 := Rating(1, 7, "Course", 4.0, None, 0)];
    var p := (r: Rating) => MatchesEntity(r, "Course", 7);
    assert MatchingIds(ratings, p) == {0};
    var es := QueryInOrder(ratings, p);
    assert |es| == 1 && es[0] == (0, ratings[0]);
    assert Records(es) == [ratings[0]];
    SameScoreAverage([ratings[0]], 4.0);
  }

  // ---------------------------------------------------------------- the store

  class RatingLedger {
    var ratings: map<Id, Rating>
    var nextId: Id

    ghost predicate Valid()
      reads this
    {
      Ledger(ratings, nextId)
    }

    constructor ()
      ensures Valid() && ratings == map[]
    {
      ratings := map[];
      nextId := 0;
    }

    /** `GET /ratings/:id` */
    function Get(id: Id): (r: Result<Rating>)
      reads this
      ensures r.Ok? <==> id in ratings
      ensures r.Ok? ==> r.value == ratings[id]
      ensures r.Err? ==> r.error == NotFound
    {
      if id in ratings then Ok(ratings[id]) else Err(NotFound)
    }

    /** `GET /ratings`: exactly the ratings matching both supplied filters, each once, newest first. */
    function List(f: RatingFilter): (rs: seq<(Id, Rating)>)
      reads this
      ensures forall e :: e in rs <==> e.0 in ratings && ratings[e.0] == e.1 && MatchesFilter(e.1, f)
      ensures Distinct(rs)
      ensures forall i, j :: 0 <= i < j < |rs| ==> rs[i].1.createdAt >= rs[j].1.createdAt
    {
      Query(ratings, (r: Rating) => MatchesFilter(r, f), NewestFirst)
    }

    /** `GET /ratings/average/:entityType/:entityId` (with the id cast; see `AverageAsWritten`). */
    function EntityAverage(entityType: string, entityId: Id): (a: Average)
      reads this
      ensures a.totalRatings == |MatchingIds(ratings, (r: Rating) => MatchesEntity(r, entityType, entityId))|
      ensures a.totalRatings == 0 ==> a == Average(0.0, 0)
      ensures a.totalRatings > 0 ==>
                a.averageRating == Sum(RatingsOf(ratings, entityType, entityId)) / (a.totalRatings as real)
      ensures Valid() && a.totalRatings > 0 ==> 1.0 <= a.averageRating <= 5.0
    {
      AverageIn(ratings, entityType, entityId)
    }

    /** `POST /ratings`: a rating by the requester matching the body's entity and type is a 400
        and changes nothing; a rating the schema rejects is a 500 and changes nothing; otherwise
        exactly one rating, whose rater is the requester, is added. */
    method Create(me: Principal, body: RatingBody, now: Timestamp) returns (res: Result<(Id, Rating)>)
      requires Valid()
      modifies this
      ensures Valid()
      ensures HasDuplicate(old(ratings), me.id, body) ==>
                res == Err(BadRequest(AlreadyRated))
      ensures !HasDuplicate(old(ratings), me.id, body) ==>
                var r := NewRating(me.id, body, now);
                if r.Some? && ValidRating(r.value)
                then res.Ok? && res.value.1 == r.value && res.value.0 !in old(ratings)
                     && ratings == old(ratings)[res.value.0 := r.value]
                else res == Err(ServerError)
      ensures res.Ok? ==> res.value.1.rater == me.id
      ensures res.Err? ==> ratings == old(ratings) && nextId == old(nextId)
    {
      if HasDuplicate(ratings, me.id, body) {
        return Err(BadRequest(AlreadyRated));
      }
      var r := NewRating(me.id, body, now);
      if r.None? || !ValidRating(r.value) {
        return Err(ServerError);
      }
      DuplicateQueryIsKeyLookup(ratings, me.id, body, now);
      AddKeepsLedger(ratings, nextId, r.value);
      var id := nextId;
      ratings := ratings[id := r.value];
      nextId := nextId + 1;
      res := Ok((id, r.value));
    }

    /** `PUT /ratings/:id`: an unknown id is a 404 and anyone but the rater gets a 403; a patch
        failing a validator, or one that would give the rating the key of another, is a 500;
        all of these change nothing. Otherwise only that rating changes, to the patch applied. */
    method Update(me: Principal, id: Id, patch: RatingPatch) returns (res: Result<Rating>)
      requires Valid()
      modifies this
      ensures Valid() && nextId == old(nextId)
      ensures id !in old(ratings) ==> res == Err(NotFound)
      ensures id in old(ratings) && old(ratings)[id].rater != me.id ==> res == Err(Forbidden)
      ensures id in old(ratings) && old(ratings)[id].rater == me.id ==>
                var n := Patch(old(ratings)[id], patch);
                if PatchValid(patch) && !KeyTaken(old(ratings), KeyOf(n), Some(id))
                then res == Ok(n) && ratings == old(ratings)[id := n]
                else res == Err(ServerError)
      ensures res.Err? ==> ratings == old(ratings)
    {
      if id !in ratings {
        return Err(NotFound);
      }
      if ratings[id].rater != me.id {
        return Err(Forbidden);
      }
      if !PatchValid(patch) {
        return Err(ServerError);
      }
      var n := Patch(ratings[id], patch);
      if exists other :: other in ratings && other != id && KeyOf(ratings[other]) == KeyOf(n) {
        return Err(ServerError);
      }
      PatchKeepsValid(ratings[id], patch);
      PutKeepsLedger(ratings, nextId, id, n);
      ratings := ratings[id := n];
      res := Ok(n);
    }

    /** `DELETE /ratings/:id`: an unknown id is a 404; anyone but the rater or a programme leader
        gets a 403; otherwise exactly that rating is removed. */
    method Delete(me: Principal, id: Id) returns (res: Result<()>)
      requires Valid()
      modifies this
      ensures Valid() && nextId == old(nextId)
      ensures id !in old(ratings) ==> res == Err(NotFound)
      ensures res.Ok? <==> id in old(ratings) && MayDelete(me, old(ratings)[id])
      ensures id in old(ratings) && !MayDelete(me, old(ratings)[id]) ==> res == Err(Forbidden)
      ensures res.Ok? ==> ratings == old(ratings) - {id}
      ensures res.Err? ==> ratings == old(ratings)
    {
      if id !in ratings {
        return Err(NotFound);
      }
      if ratings[id].rater != me.id && me.role != ProgramLeader {
        return Err(Forbidden);
      }
      RemoveKeepsLedger(ratings, nextId, id);
      ratings := ratings - {id};
      res := Ok(());
    }
  }

  // ---------------------------------------------------------------- properties

  /** A body naming entity and type: a requester can rate it at most once. After a successful
      create, the same request is refused as a duplicate. */
  lemma SecondRatingRefused(ratings: map<Id, Rating>, id: Id, me: Id, b: RatingBody, now: Timestamp)
    requires NewRating(me, b, now).Some?
    requires id !in ratings
    ensures HasDuplicate(ratings[id := NewRating(me, b, now).value], me, b)
  {
    assert DuplicateOf(ratings[id := NewRating(me, b, now).value][id], me, b);
  }

  /** The rater may hand a rating to someone else: an update naming another `rater` that passes
      the validators and the index moves ownership, after which the old rater cannot update it. */
  lemma OwnerMayTransfer(r: Rating, other: Id)
    requires ValidRating(r) && other != r.rater
    ensures var n := Patch(r, RatingPatch(Some(other), None, None, None, None, None));
      n.rater == other && ValidRating(n) && KeyOf(n) != KeyOf(r)
  {
  }
}
