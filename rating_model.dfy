/** The Rating schema (server/models/Rating.js): one rater's score of one entity, its field
    constraints, and the sum-and-count fold behind the average query. */
module RatingModel {
  import opened Common
  import opened Text

  /** The values of the `ratedEntityType` enum. */
  const EntityTypes: seq<string> := ["User", "Course", "Class", "Report"]

  /** The `maxlength` of `comment`. */
  const MaxCommentLength: nat := 500

  datatype Rating = Rating(
    rater: Id,
    ratedEntity: Id,
    ratedEntityType: string,
    rating: real,
    comment: Option<string>,
    createdAt: Timestamp)

  /** The fields of a create request the handler reads (`rater` is never read from it). */
  datatype RatingBody = RatingBody(
    ratedEntity: Option<Id>,
    ratedEntityType: Option<string>,
    rating: Option<real>,
    comment: Option<string>)

  /** An update request: any path of the schema the client sends, `None` when absent. */
  datatype RatingPatch = RatingPatch(
    rater: Option<Id>,
    ratedEntity: Option<Id>,
    ratedEntityType: Option<string>,
    rating: Option<real>,
    comment: Option<string>,
    createdAt: Option<Timestamp>)

  /** The composite unique index: (rater, ratedEntity, ratedEntityType). */
  datatype RatingKey = RatingKey(rater: Id, ratedEntity: Id, ratedEntityType: string)

  function KeyOf(r: Rating): RatingKey {
    RatingKey(r.rater, r.ratedEntity, r.ratedEntityType)
  }

  /** The validators on the paths an update sets: `rating` in [1, 5], `ratedEntityType` one of
      the enum's values, `comment` (after trimming) at most 500 long, where `maxlength` measures
      the JavaScript length, in UTF-16 code units. */
  predicate ScoreValid(x: real) { 1.0 <= x <= 5.0 }
  predicate TypeValid(t: string) { t in EntityTypes }
  predicate CommentValid(c: Option<string>) { c.Some? ==> Utf16Length(c.value) <= MaxCommentLength }

  /** 251 emoji are 251 characters but 502 code units, so `maxlength` refuses them. */
  lemma EmojiCommentTooLong(s: string)
    requires |s| == 251 && forall i :: 0 <= i < |s| ==> s[i] == '\U{1F600}'
    ensures |s| <= MaxCommentLength && !CommentValid(Some(s))
  {
    Utf16LengthOfAstral(s);
  }

  /** What the schema admits: every constraint holds and the comment is trimmed. (`rater` and
      `ratedEntity` are required; in the record type they are always there.) */
  predicate ValidRating(r: Rating) {
    && ScoreValid(r.rating)
    && TypeValid(r.ratedEntityType)
    && CommentValid(r.comment)
    && (r.comment.Some? ==> IsTrimmed(r.comment.value))
  }

  /** `new Rating({rater, ratedEntity, ratedEntityType, rating, comment})` when the three required
      paths the body supplies are all given; `createdAt` takes its default, now. */
  function NewRating(me: Id, b: RatingBody, now: Timestamp): (r: Option<Rating>)
    ensures r.Some? <==> b.ratedEntity.Some? && b.ratedEntityType.Some? && b.rating.Some?
    ensures r.Some? ==>
              && r.value.rater == me && r.value.ratedEntity == b.ratedEntity.value
              && r.value.ratedEntityType == b.ratedEntityType.value && r.value.rating == b.rating.value
              && r.value.comment == TrimOpt(b.comment) && r.value.createdAt == now
  {
    if b.ratedEntity.Some? && b.ratedEntityType.Some? && b.rating.Some? then
      Some(Rating(me, b.ratedEntity.value, b.ratedEntityType.value, b.rating.value, TrimOpt(b.comment), now))
    else None
  }

  /** The duplicate query `findOne({rater, ratedEntity, ratedEntityType})`. A key whose value is
      `undefined` is dropped from the filter, so it then constrains nothing. */
  predicate DuplicateOf(r: Rating, me: Id, b: RatingBody) {
    && r.rater == me
    && (b.ratedEntity.Some? ==> r.ratedEntity == b.ratedEntity.value)
    && (b.ratedEntityType.Some? ==> r.ratedEntityType == b.ratedEntityType.value)
  }

  /** The update validators (`runValidators`): each path the patch sets must pass its validator. */
  predicate PatchValid(p: RatingPatch) {
    && (p.rating.Some? ==> ScoreValid(p.rating.value))
    && (p.ratedEntityType.Some? ==> TypeValid(p.ratedEntityType.value))
    && CommentValid(TrimOpt(p.comment))
  }

  /** The patch applied to a rating: every path it sets takes its value (`comment` through its
      setter), every other path keeps its value. */
  function Patch(r: Rating, p: RatingPatch): (n: Rating)
    ensures n.rater == OrElse(p.rater, r.rater) && n.ratedEntity == OrElse(p.ratedEntity, r.ratedEntity)
    ensures n.ratedEntityType == OrElse(p.ratedEntityType, r.ratedEntityType)
    ensures n.rating == OrElse(p.rating, r.rating) && n.createdAt == OrElse(p.createdAt, r.createdAt)
    ensures n.comment == if p.comment.Some? then TrimOpt(p.comment) else r.comment
  {
    Rating(
      OrElse(p.rater, r.rater),
      OrElse(p.ratedEntity, r.ratedEntity),
      OrElse(p.ratedEntityType, r.ratedEntityType),
      OrElse(p.rating, r.rating),
      if p.comment.Some? then TrimOpt(p.comment) else r.comment,
      OrElse(p.createdAt, r.createdAt))
  }

  /** A valid rating stays valid under a patch that passes the update validators. */
  lemma PatchKeepsValid(r: Rating, p: RatingPatch)
    requires ValidRating(r) && PatchValid(p)
    ensures ValidRating(Patch(r, p))
  {
  }

  /** An empty patch changes nothing. */
  lemma EmptyPatch(r: Rating)
    ensures Patch(r, RatingPatch(None, None, None, None, None, None)) == r
  {
  }

  // ---------------------------------------------------------------- the average

  /** The `$group` stage's result: `$avg` of the scores and `$sum: 1`. */
  datatype Average = Average(averageRating: real, totalRatings: nat)

  /** The sum of the scores. */
  function Sum(rs: seq<Rating>): real {
    if rs == [] then 0.0 else rs[0].rating + Sum(rs[1..])
  }

  /** The average response: `{0, 0}` when nothing matches, otherwise the count of the matching
      ratings and their mean. */
  function AverageOf(rs: seq<Rating>): (a: Average)
    ensures rs == [] ==> a == Average(0.0, 0)
    ensures rs != [] ==> a.totalRatings == |rs| && a.averageRating * (|rs| as real) == Sum(rs)
  {
    if rs == [] then Average(0.0, 0) else Average(Sum(rs) / (|rs| as real), |rs|)
  }

  /** Scores within the scale sum to between one and five times their count. */
  lemma {:induction false} SumBounds(rs: seq<Rating>)
    requires forall i :: 0 <= i < |rs| ==> ScoreValid(rs[i].rating)
    ensures (|rs| as real) <= Sum(rs) <= 5.0 * (|rs| as real)
  {
    if rs != [] {
      assert forall i :: 0 <= i < |rs| - 1 ==> rs[1..][i] == rs[i + 1];
      SumBounds(rs[1..]);
    }
  }

  /** The average of valid ratings is itself on the 1..5 scale. */
  lemma AverageWithinScale(rs: seq<Rating>)
    requires rs != []
    requires forall i :: 0 <= i < |rs| ==> ValidRating(rs[i])
    ensures 1.0 <= AverageOf(rs).averageRating <= 5.0
  {
    SumBounds(rs);
    QuotientBounds(Sum(rs), |rs| as real);
  }

  lemma QuotientBounds(s: real, n: real)
    requires n > 0.0 && n <= s <= 5.0 * n
    ensures 1.0 <= s / n <= 5.0
  {
    var q := s / n;
    assert q * n == s;
    assert (1.0 - q) * n == n - s && (q - 5.0) * n == s - 5.0 * n;
    if q < 1.0 {
      PositiveProduct(1.0 - q, n);
      assert false;
    } else if q > 5.0 {
      PositiveProduct(q - 5.0, n);
      assert false;
    }
  }

  lemma PositiveProduct(x: real, y: real)
    requires x > 0.0 && y > 0.0
    ensures x * y > 0.0
  {
  }

  /** Ratings that all give the same score average to that score. */
  lemma {:induction false} SameScoreAverage(rs: seq<Rating>, x: real)
    requires rs != [] && forall i :: 0 <= i < |rs| ==> rs[i].rating == x
    ensures AverageOf(rs).averageRating == x
  {
    SumOfSame(rs, x);
  }

  lemma {:induction false} SumOfSame(rs: seq<Rating>, x: real)
    requires forall i :: 0 <= i < |rs| ==> rs[i].rating == x
    ensures Sum(rs) == (|rs| as real) * x
  {
    if rs != [] {
      assert forall i :: 0 <= i < |rs| - 1 ==> rs[1..][i] == rs[i + 1];
      SumOfSame(rs[1..], x);
    }
  }

  // ---------------------------------------------------------------- the $match as written

  /** A value as the document store compares it: a stored reference is an ObjectId, a route
      parameter is a string, and values of different types never compare equal. */
  datatype StoreValue = ObjectIdValue(id: Id) | StringValue(s: string)

  /** The aggregation's `$match` as written: the route's `entityId` string is compared, uncast,
      with the ObjectId stored in `ratedEntity`. */
  predicate MatchesAsWritten(r: Rating, entityType: string, entityId: string) {
    ObjectIdValue(r.ratedEntity) == StringValue(entityId) && r.ratedEntityType == entityType
  }

  /** No rating ever matches the uncast string id. */
  lemma NothingMatchesAsWritten(r: Rating, entityType: string, entityId: string)
    ensures !MatchesAsWritten(r, entityType, entityId)
  {
  }

  /** The intended `$match`: the id cast to an ObjectId before it is compared. */
  predicate MatchesEntity(r: Rating, entityType: string, entityId: Id) {
    r.ratedEntity == entityId && r.ratedEntityType == entityType
  }
}
