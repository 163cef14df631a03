/**
 * The Event document: its join bookkeeping (confirmed participants and the
 * list of join requests) and its likes (the set of users who liked it and
 * the stored count shown publicly).
 */
module Events {

  import opened Wrappers
  import opened Text

  datatype JoinStatus = NoJoin | Pending | Approved | Rejected | Waitlisted {
    /** The name of the Java enum constant. */
    function Name(): string {
      match this
      case NoJoin => "NONE"
      case Pending => "PENDING"
      case Approved => "APPROVED"
      case Rejected => "REJECTED"
      case Waitlisted => "WAITLISTED"
    }
  }

  /** A join request; `requestedAt` is `None` when a stored request lacks it. */
  datatype JoinRequest = JoinRequest(userId: string, status: JoinStatus, requestedAt: Option<nat>)

  /**
   * `like`: whether the user was added, the liker set and the stored count
   * afterwards. The count is recomputed only when the set changed.
   */
  function LikeStep(likes: set<string>, count: int, userId: Option<string>): (r: (bool, set<string>, int))
    ensures NullOrBlank(userId) ==> r == (false, likes, count)
    ensures !NullOrBlank(userId) ==> r.1 == likes + {userId.value} && (r.0 <==> userId.value !in likes)
    ensures r.0 ==> r.2 == |r.1| == |likes| + 1
    ensures !r.0 ==> r.1 == likes && r.2 == count
  {
    if NullOrBlank(userId) then (false, likes, count)
    else if userId.value in likes then (false, likes, count)
    else
      var likes' := likes + {userId.value};
      (true, likes', |likes'|)
  }

  /** `unlike`: whether the user was removed, the liker set and the stored count afterwards. */
  function UnlikeStep(likes: set<string>, count: int, userId: Option<string>): (r: (bool, set<string>, int))
    ensures NullOrBlank(userId) ==> r == (false, likes, count)
    ensures !NullOrBlank(userId) ==> r.1 == likes - {userId.value} && (r.0 <==> userId.value in likes)
    ensures r.0 ==> r.2 == |r.1| == |likes| - 1
    ensures !r.0 ==> r.1 == likes && r.2 == count
  {
    if NullOrBlank(userId) then (false, likes, count)
    else if userId.value !in likes then (false, likes, count)
    else
      var likes' := likes - {userId.value};
      (true, likes', |likes'|)
  }

  /** Liking twice is the same as liking once: the second call reports false and changes nothing. */
  lemma LikeIdempotent(likes: set<string>, count: int, userId: Option<string>)
    ensures var once := LikeStep(likes, count, userId);
      LikeStep(once.1, once.2, userId) == (false, once.1, once.2)
  {
  }

  /** Both operations keep a consistent count consistent. */
  lemma LikesStayCounted(likes: set<string>, count: int, userId: Option<string>)
    requires count == |likes|
    ensures LikeStep(likes, count, userId).2 == |LikeStep(likes, count, userId).1|
    ensures UnlikeStep(likes, count, userId).2 == |UnlikeStep(likes, count, userId).1|
  {
  }

  /** A new like undone by `unlike` restores the liker set and the count. */
  lemma LikeThenUnlike(likes: set<string>, count: int, userId: Option<string>)
    requires count == |likes| && LikeStep(likes, count, userId).0
    ensures var liked := LikeStep(likes, count, userId);
      UnlikeStep(liked.1, liked.2, userId) == (true, likes, count)
  {
    var u := userId.value;
    assert likes + {u} - {u} == likes;
  }

  class Event {
    var createdByUserId: Option<string>
    /** `None` means unlimited. */
    var maxParticipants: Option<int>
    var participants: set<string>
    var joinRequests: seq<JoinRequest>
    var likedByUserIds: set<string>
    var likeCount: int

    /** A new event with the field initialisers' values. */
    constructor (createdByUserId: Option<string>, maxParticipants: Option<int>)
      ensures this.createdByUserId == createdByUserId && this.maxParticipants == maxParticipants
      ensures participants == {} && joinRequests == [] && likedByUserIds == {} && likeCount == 0
    {
      this.createdByUserId := createdByUserId;
      this.maxParticipants := maxParticipants;
      participants := {};
      joinRequests := [];
      likedByUserIds := {};
      likeCount := 0;
    }

    /** The stored count agrees with the liker set. */
    predicate LikesConsistent()
      reads this
    {
      likeCount == |likedByUserIds|
    }

    method Like(userId: Option<string>) returns (added: bool)
      modifies this`likedByUserIds, this`likeCount
      ensures (added, likedByUserIds, likeCount) == LikeStep(old(likedByUserIds), old(likeCount), userId)
      ensures old(LikesConsistent()) || added ==> LikesConsistent()
    {
      if userId.None? || IsBlank(userId.value) {
        return false;
      }
      added := userId.value !in likedByUserIds;
      likedByUserIds := likedByUserIds + {userId.value};
      if added {
        RecomputeLikes();
      }
    }

    method Unlike(userId: Option<string>) returns (removed: bool)
      modifies this`likedByUserIds, this`likeCount
      ensures (removed, likedByUserIds, likeCount) == UnlikeStep(old(likedByUserIds), old(likeCount), userId)
      ensures old(LikesConsistent()) || removed ==> LikesConsistent()
    {
      if userId.None? || IsBlank(userId.value) {
        return false;
      }
      removed := userId.value in likedByUserIds;
      likedByUserIds := likedByUserIds - {userId.value};
      if removed {
        RecomputeLikes();
      }
    }

    method RecomputeLikes()
      modifies this`likeCount
      ensures LikesConsistent()
    {
      likeCount := |likedByUserIds|;
    }

    /** `None` stands for `null`, which resets the likers to an empty set. */
    method SetLikedByUserIds(ids: Option<set<string>>)
      modifies this`likedByUserIds, this`likeCount
      ensures likedByUserIds == ids.GetOr({}) && LikesConsistent()
    {
      likedByUserIds := if ids.None? then {} else ids.value;
      RecomputeLikes();
    }
  }
}
