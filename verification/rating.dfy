/** Ratings: the Rating entity with its guarded constructor and update, and
    RatingServiceImpl with its soft-delete strategies. */
module Ratings {
  import opened Common

  /** The persisted columns of a rating. */
  datatype RatingRow = RatingRow(
    id: Uuid,
    userId: Uuid,
    technicianId: Uuid,
    repairOrderId: Uuid,
    comment: string,
    score: int,
    deleted: bool)

  datatype RatingError =
    | ScoreOutOfRange
    | MissingField
    | CommentMissing
    | RatingNotFound
    | NotAllowedToUpdate
    | NotAllowedToDelete

  function RatingMessage(e: RatingError): string
  {
    match e
    case ScoreOutOfRange => "Rating harus antara 1 dan 5."
    case MissingField => "Semua field wajib diisi."
    case CommentMissing => "Komentar tidak boleh null."
    case RatingNotFound => "Rating tidak ditemukan"
    case NotAllowedToUpdate => "Kamu tidak memiliki izin untuk mengubah rating ini."
    case NotAllowedToDelete => "Kamu tidak punya izin untuk menghapus rating ini."
  }

  predicate ScoreInRange(score: int)
  {
    1 <= score <= 5
  }

  /** What every rating the constructor or update accepts looks like. */
  predicate WellFormed(row: RatingRow)
  {
    ScoreInRange(row.score) && !IsBlank(row.comment)
  }

  /** The constructor's guards: the score range first, then the ids and the
      comment. */
  function CheckNew(userId: Option<Uuid>, technicianId: Option<Uuid>, repairOrderId: Option<Uuid>,
                    comment: Option<string>, score: int): (r: Outcome<RatingError>)
    ensures r.Pass? <==> ScoreInRange(score) && userId.Some? && technicianId.Some?
                         && repairOrderId.Some? && !NullOrBlank(comment)
    ensures !ScoreInRange(score) <==> r == Fail(ScoreOutOfRange)
    ensures r.Fail? ==> r.error in {ScoreOutOfRange, MissingField}
  {
    if !ScoreInRange(score) then Fail(ScoreOutOfRange)
    else if userId.None? || technicianId.None? || repairOrderId.None? || NullOrBlank(comment) then Fail(MissingField)
    else Pass
  }

  /** update's guards: the score range first, then the comment. */
  function CheckUpdate(comment: Option<string>, score: int): (r: Outcome<RatingError>)
    ensures r.Pass? <==> ScoreInRange(score) && !NullOrBlank(comment)
    ensures !ScoreInRange(score) <==> r == Fail(ScoreOutOfRange)
    ensures r.Fail? ==> r.error in {ScoreOutOfRange, CommentMissing}
  {
    if !ScoreInRange(score) then Fail(ScoreOutOfRange)
    else if NullOrBlank(comment) then Fail(CommentMissing)
    else Pass
  }

  /** A rating entity: only the comment, the score and the deleted flag are
      ever changed after construction. */
  class Rating {
    var id: Uuid
    var userId: Uuid
    var technicianId: Uuid
    var repairOrderId: Uuid
    var comment: string
    var score: int
    var deleted: bool

    function Row(): RatingRow
      reads this
    {
      RatingRow(id, userId, technicianId, repairOrderId, comment, score, deleted)
    }

    /** The assignments of the builder constructor, once its guards pass. */
    constructor Init(id: Uuid, userId: Uuid, technicianId: Uuid, repairOrderId: Uuid,
                     comment: string, score: int, deleted: bool)
      ensures Row() == RatingRow(id, userId, technicianId, repairOrderId, comment, score, deleted)
    {
      this.id := id;
      this.userId := userId;
      this.technicianId := technicianId;
      this.repairOrderId := repairOrderId;
      this.comment := comment;
      this.score := score;
      this.deleted := deleted;
    }

    /** Materialising a stored row. */
    constructor Load(row: RatingRow)
      ensures Row() == row
    {
      id := row.id;
      userId := row.userId;
      technicianId := row.technicianId;
      repairOrderId := row.repairOrderId;
      comment := row.comment;
      score := row.score;
      deleted := row.deleted;
    }

    /** update: validated first; on success only the comment and the score
        change, on failure nothing does. */
    method Update(newComment: Option<string>, newScore: int) returns (r: Outcome<RatingError>)
      modifies this
      ensures r == CheckUpdate(newComment, newScore)
      ensures r.Pass? ==> Row() == old(Row()).(comment := newComment.value, score := newScore)
      ensures r.Fail? ==> Row() == old(Row())
    {
      r := CheckUpdate(newComment, newScore);
      if r.Pass? {
        comment := newComment.value;
        score := newScore;
      }
    }

    /** setDeleted(true) */
    method MarkDeleted()
      modifies this
      ensures Row() == old(Row()).(deleted := true)
    {
      deleted := true;
    }
  }

  /** The builder constructor: the guards, then a missing id becomes
      `freshId` and a missing deleted flag becomes false. */
  method BuildRating(id: Option<Uuid>, userId: Option<Uuid>, technicianId: Option<Uuid>,
                     repairOrderId: Option<Uuid>, comment: Option<string>, score: int,
                     deleted: Option<bool>, freshId: Uuid) returns (r: Result<Rating, RatingError>)
    ensures r.Ok? <==> CheckNew(userId, technicianId, repairOrderId, comment, score).Pass?
    ensures r.Err? ==> r.error == CheckNew(userId, technicianId, repairOrderId, comment, score).error
    ensures r.Ok? ==> fresh(r.value) && WellFormed(r.value.Row())
    ensures r.Ok? ==> r.value.Row() == RatingRow(if id.Some? then id.value else freshId,
                                                 userId.value, technicianId.value, repairOrderId.value,
                                                 comment.value, score, deleted == Some(true))
  {
    var check := CheckNew(userId, technicianId, repairOrderId, comment, score);
    if check.Fail? {
      return Err(check.error);
    }
    var rating := new Rating.Init(if id.Some? then id.value else freshId, userId.value,
                                  technicianId.value, repairOrderId.value, comment.value, score,
                                  deleted.Some? && deleted.value);
    r := Ok(rating);
  }

  /** RatingDeleteStrategy: the two implementations. */
  datatype DeleteStrategy = UserDelete | AdminDelete

  /** deleteRating's choice: the admin strategy exactly for an admin. */
  function ChooseStrategy(isAdmin: bool): (s: DeleteStrategy)
    ensures s == AdminDelete <==> isAdmin
  {
    if isAdmin then AdminDelete else UserDelete
  }

  /** The ratings after a soft delete of `id`: only its flag changes. */
  function SoftDeleted(ratings: map<Uuid, RatingRow>, id: Uuid): (r: map<Uuid, RatingRow>)
    requires id in ratings
    ensures r.Keys == ratings.Keys && r[id].deleted
    ensures r[id] == ratings[id].(deleted := true)
    ensures forall k :: k in ratings && k != id ==> r[k] == ratings[k]
  {
    ratings[id := ratings[id].(deleted := true)]
  }

  /** Deleting twice is deleting once. */
  lemma SoftDeleteIsIdempotent(ratings: map<Uuid, RatingRow>, id: Uuid)
    requires id in ratings
    ensures SoftDeleted(SoftDeleted(ratings, id), id) == SoftDeleted(ratings, id)
  {
  }

  /** The ratings of a technician that are not deleted. */
  function VisibleForTechnician(ratings: map<Uuid, RatingRow>, technicianId: Uuid): set<RatingRow>
  {
    set k | k in ratings && ratings[k].technicianId == technicianId && !ratings[k].deleted :: ratings[k]
  }

  /** The ratings a user wrote that are not deleted. */
  function VisibleForUser(ratings: map<Uuid, RatingRow>, userId: Uuid): set<RatingRow>
  {
    set k | k in ratings && ratings[k].userId == userId && !ratings[k].deleted :: ratings[k]
  }

  /** A soft-deleted rating disappears from both listings, and every other
      listed rating stays listed. */
  lemma {:induction false} SoftDeleteHidesOnlyThatRating(ratings: map<Uuid, RatingRow>, id: Uuid, technicianId: Uuid, userId: Uuid)
    requires id in ratings
    requires forall k :: k in ratings ==> ratings[k].id == k
    ensures forall row :: row in VisibleForTechnician(SoftDeleted(ratings, id), technicianId) ==> row.id != id
    ensures forall row :: row in VisibleForUser(SoftDeleted(ratings, id), userId) ==> row.id != id
    ensures VisibleForTechnician(SoftDeleted(ratings, id), technicianId)
            == VisibleForTechnician(ratings, technicianId) - {ratings[id]}
    ensures VisibleForUser(SoftDeleted(ratings, id), userId)
            == VisibleForUser(ratings, userId) - {ratings[id]}
  {
    var after := SoftDeleted(ratings, id);
    forall row | row in VisibleForTechnician(after, technicianId)
      ensures row.id != id && row in VisibleForTechnician(ratings, technicianId) - {ratings[id]}
    {
      var k :| k in after && after[k].technicianId == technicianId && !after[k].deleted && after[k] == row;
      assert k != id;
    }
    forall row | row in VisibleForTechnician(ratings, technicianId) - {ratings[id]}
      ensures row in VisibleForTechnician(after, technicianId)
    {
      var k :| k in ratings && ratings[k].technicianId == technicianId && !ratings[k].deleted && ratings[k] == row;
      assert k != id;
      assert after[k] == row;
    }
    forall row | row in VisibleForUser(after, userId)
      ensures row.id != id && row in VisibleForUser(ratings, userId) - {ratings[id]}
    {
      var k :| k in after && after[k].userId == userId && !after[k].deleted && after[k] == row;
      assert k != id;
    }
    forall row | row in VisibleForUser(ratings, userId) - {ratings[id]}
      ensures row in VisibleForUser(after, userId)
    {
      var k :| k in ratings && ratings[k].userId == userId && !ratings[k].deleted && ratings[k] == row;
      assert k != id;
      assert after[k] == row;
    }
  }

  class RatingService {
    var ratings: map<Uuid, RatingRow>

    /** Ratings are filed under their ids and every one passed the guards. */
    ghost predicate Valid()
      reads this
    {
      forall k :: k in ratings ==> ratings[k].id == k && WellFormed(ratings[k])
    }

    constructor ()
      ensures Valid() && ratings == map[]
    {
      ratings := map[];
    }

    /** getRatingsByTechnician */
    function RatingsByTechnician(technicianId: Uuid): (r: set<RatingRow>)
      reads this
      ensures forall row :: row in r <==>
                row.technicianId == technicianId && !row.deleted
                && exists k :: k in ratings && ratings[k] == row
    {
      VisibleForTechnician(ratings, technicianId)
    }

    /** getRatingsByUser */
    function RatingsByUser(userId: Uuid): (r: set<RatingRow>)
      reads this
      ensures forall row :: row in r <==>
                row.userId == userId && !row.deleted
                && exists k :: k in ratings && ratings[k] == row
    {
      VisibleForUser(ratings, userId)
    }

    /** updateRating: a missing rating and a caller who did not write it are
        refused; otherwise the entity's update decides, and nothing is saved
        when it throws. */
    method UpdateRating(ratingId: Uuid, customer: Uuid, comment: Option<string>, score: int)
      returns (r: Result<RatingRow, RatingError>)
      requires Valid()
      modifies this
      ensures Valid()
      ensures ratingId !in old(ratings) ==> r == Err(RatingNotFound)
      ensures ratingId in old(ratings) && old(ratings)[ratingId].userId != customer ==> r == Err(NotAllowedToUpdate)
      ensures ratingId in old(ratings) && old(ratings)[ratingId].userId == customer ==>
                && (r.Ok? <==> CheckUpdate(comment, score).Pass?)
                && (r.Err? ==> r.error == CheckUpdate(comment, score).error)
                && (r.Ok? ==> r.value == old(ratings)[ratingId].(comment := comment.value, score := score)
                              && ratings == old(ratings)[ratingId := r.value])
      ensures r.Err? ==> ratings == old(ratings)
    {
      if ratingId !in ratings {
        return Err(RatingNotFound);
      }
      var rating := new Rating.Load(ratings[ratingId]);
      if rating.userId != customer {
        return Err(NotAllowedToUpdate);
      }
      var updated := rating.Update(comment, score);
      if updated.Fail? {
        return Err(updated.error);
      }
      ratings := ratings[ratingId := rating.Row()];
      r := Ok(rating.Row());
    }

    /** UserDeleteStrategy.delete: only the author may delete. */
    method UserDeleteRating(ratingId: Uuid, userId: Uuid) returns (r: Outcome<RatingError>)
      requires Valid()
      modifies this
      ensures Valid()
      ensures ratingId !in old(ratings) ==> r == Fail(RatingNotFound)
      ensures ratingId in old(ratings) && old(ratings)[ratingId].userId != userId ==> r == Fail(NotAllowedToDelete)
      ensures r.Pass? <==> ratingId in old(ratings) && old(ratings)[ratingId].userId == userId
      ensures r.Pass? ==> ratings == SoftDeleted(old(ratings), ratingId)
      ensures r.Fail? ==> ratings == old(ratings)
    {
      if ratingId !in ratings {
        return Fail(RatingNotFound);
      }
      var rating := new Rating.Load(ratings[ratingId]);
      if rating.userId != userId {
        return Fail(NotAllowedToDelete);
      }
      rating.MarkDeleted();
      ratings := ratings[ratingId := rating.Row()];
      r := Pass;
    }

    /** AdminDeleteStrategy.delete: the caller's id plays no part. */
    method AdminDeleteRating(ratingId: Uuid, userIdIgnored: Uuid) returns (r: Outcome<RatingError>)
      requires Valid()
      modifies this
      ensures Valid()
      ensures r.Pass? <==> ratingId in old(ratings)
      ensures r.Pass? ==> ratings == SoftDeleted(old(ratings), ratingId)
      ensures r.Fail? ==> r.error == RatingNotFound && ratings == old(ratings)
    {
      if ratingId !in ratings {
        return Fail(RatingNotFound);
      }
      var rating := new Rating.Load(ratings[ratingId]);
      rating.MarkDeleted();
      ratings := ratings[ratingId := rating.Row()];
      r := Pass;
    }

    /** deleteRating: the strategy chosen by isAdmin. */
    method DeleteRating(ratingId: Uuid, customer: Uuid, isAdmin: bool) returns (r: Outcome<RatingError>)
      requires Valid()
      modifies this
      ensures Valid()
      ensures r.Pass? <==> ratingId in old(ratings) && (isAdmin || old(ratings)[ratingId].userId == customer)
      ensures r.Pass? ==> ratings == SoftDeleted(old(ratings), ratingId)
      ensures r.Fail? ==> ratings == old(ratings)
    {
      var strategy := ChooseStrategy(isAdmin);
      if strategy == AdminDelete {
        r := AdminDeleteRating(ratingId, customer);
      } else {
        r := UserDeleteRating(ratingId, customer);
      }
    }
  }
}
