/**
 * The signed-in user's endpoints of UserController: the profile merge of
 * `PATCH /api/users/me`, the verification request, and rating another user.
 *
 * Looking up the caller (by phone, then by e-mail) and the target (by id)
 * happens before these methods run: a lookup that found nothing is passed
 * as `null`, and the controller's `orElseThrow` then throws.
 */
module UserApi {

  import opened Wrappers
  import opened Text
  import opened Users

  const NoSuchElement := "NoSuchElementException"
  const RatingOutOfRange := "Rating 'value' must be 1..5"
  const CannotRateSelf := "You cannot rate yourself"
  const CannotRemoveSelfRating := "You cannot remove self-rating"
  const ProfileUpdated := "Profile updated"

  /** The body of `PATCH /api/users/me`; `None` stands for a field left `null`. There is no status field. */
  datatype UpdateMe = UpdateMe(
    bio: Option<string>,
    displayName: Option<string>,
    avatarUrl: Option<string>,
    city: Option<string>,
    latitude: Option<real>,
    longitude: Option<real>,
    gender: Option<string>,
    occupation: Option<string>,
    birthDate: Option<Date>,
    languages: Option<seq<string>>,
    hobbies: Option<set<string>>)

  /** A request that sets nothing. */
  const EmptyUpdate := UpdateMe(None, None, None, None, None, None, None, None, None, None, None)

  /** A nullable field written only when the request carries a value. */
  function Overlay<T>(update: Option<T>, current: Option<T>): (r: Option<T>)
    ensures update.Some? ==> r == update
    ensures update.None? ==> r == current
  {
    if update.Some? then update else current
  }

  /** The profile after `updateMe`: each non-null request field replaces the stored one. */
  function Merge(p: Profile, req: UpdateMe): (m: Profile)
    ensures req.bio.Some? ==> m.bio == req.bio
    ensures req.bio.None? ==> m.bio == p.bio
    ensures req.displayName.Some? ==> m.displayName == req.displayName
    ensures req.displayName.None? ==> m.displayName == p.displayName
    ensures req.avatarUrl.Some? ==> m.avatarUrl == req.avatarUrl
    ensures req.avatarUrl.None? ==> m.avatarUrl == p.avatarUrl
    ensures req.city.Some? ==> m.city == req.city
    ensures req.city.None? ==> m.city == p.city
    ensures req.latitude.Some? ==> m.latitude == req.latitude
    ensures req.latitude.None? ==> m.latitude == p.latitude
    ensures req.longitude.Some? ==> m.longitude == req.longitude
    ensures req.longitude.None? ==> m.longitude == p.longitude
    ensures req.gender.Some? ==> m.gender == req.gender
    ensures req.gender.None? ==> m.gender == p.gender
    ensures req.occupation.Some? ==> m.occupation == req.occupation
    ensures req.occupation.None? ==> m.occupation == p.occupation
    ensures req.birthDate.Some? ==> m.birthDate == req.birthDate
    ensures req.birthDate.None? ==> m.birthDate == p.birthDate
    ensures m.languages == req.languages.GetOr(p.languages)
    ensures m.hobbies == req.hobbies.GetOr(p.hobbies)
  {
    Profile(
      Overlay(req.bio, p.bio),
      Overlay(req.displayName, p.displayName),
      Overlay(req.avatarUrl, p.avatarUrl),
      Overlay(req.city, p.city),
      Overlay(req.latitude, p.latitude),
      Overlay(req.longitude, p.longitude),
      Overlay(req.gender, p.gender),
      Overlay(req.occupation, p.occupation),
      Overlay(req.birthDate, p.birthDate),
      req.languages.GetOr(p.languages),
      req.hobbies.GetOr(p.hobbies))
  }

  /** An empty request leaves the profile as it is. */
  lemma MergeEmpty(p: Profile)
    ensures Merge(p, EmptyUpdate) == p
  {
  }

  /** Sending the same request twice has the effect of sending it once. */
  lemma MergeIdempotent(p: Profile, req: UpdateMe)
    ensures Merge(Merge(p, req), req) == Merge(p, req)
  {
  }

  /** A request that sets every field determines the profile, whatever was stored. */
  lemma MergeFull(p: Profile, q: Profile, req: UpdateMe)
    requires req.bio.Some? && req.displayName.Some? && req.avatarUrl.Some? && req.city.Some?
    requires req.latitude.Some? && req.longitude.Some? && req.gender.Some? && req.occupation.Some?
    requires req.birthDate.Some? && req.languages.Some? && req.hobbies.Some?
    ensures Merge(p, req) == Merge(q, req)
  {
  }

  /** `updateMe` on the caller `u`; the verification status is outside its frame. */
  method UpdateProfile(u: User, req: UpdateMe) returns (message: string)
    modifies u`bio, u`displayName, u`avatarUrl, u`city, u`latitude, u`longitude
    modifies u`gender, u`occupation, u`birthDate, u`languages, u`hobbies
    ensures u.EditableProfile() == Merge(old(u.EditableProfile()), req)
    ensures u.govIdVerificationStatus == old(u.govIdVerificationStatus)
    ensures message == ProfileUpdated
  {
    // Each setter runs only for a non-null request field; writing the stored value back is the same.
    u.bio := Overlay(req.bio, u.bio);
    u.displayName := Overlay(req.displayName, u.displayName);
    u.avatarUrl := Overlay(req.avatarUrl, u.avatarUrl);
    u.city := Overlay(req.city, u.city);
    u.latitude := Overlay(req.latitude, u.latitude);
    u.longitude := Overlay(req.longitude, u.longitude);
    u.gender := Overlay(req.gender, u.gender);
    u.occupation := Overlay(req.occupation, u.occupation);
    u.birthDate := Overlay(req.birthDate, u.birthDate);
    u.languages := req.languages.GetOr(u.languages);
    u.hobbies := req.hobbies.GetOr(u.hobbies);
    message := ProfileUpdated;
  }

  /** The status after `requestVerification`. */
  function RequestVerificationStep(s: VerificationStatus): (s': VerificationStatus)
    ensures s == Unverified || s == Rejected ==> s' == Pending
    ensures s == Pending || s == Verified ==> s' == s
  {
    if s == Unverified || s == Rejected then Pending else s
  }

  /** A second request changes nothing. */
  lemma RequestVerificationIdempotent(s: VerificationStatus)
    ensures RequestVerificationStep(RequestVerificationStep(s)) == RequestVerificationStep(s)
  {
  }

  /** Users cannot verify themselves: only an already VERIFIED status comes out VERIFIED. */
  lemma RequestNeverVerifies(s: VerificationStatus)
    ensures RequestVerificationStep(s) == Verified <==> s == Verified
  {
  }

  /** `requestVerification` on the caller `u`: the status name afterwards. */
  method RequestVerification(u: User) returns (status: string)
    modifies u`govIdVerificationStatus
    ensures u.govIdVerificationStatus == RequestVerificationStep(old(u.govIdVerificationStatus))
    ensures status == u.govIdVerificationStatus.Name()
  {
    var current := u.govIdVerificationStatus;
    if current == Unverified || current == Rejected {
      u.govIdVerificationStatus := Pending;
    }
    status := u.govIdVerificationStatus.Name();
  }

  datatype RatingResponse =
    | RatingSummary(message: string, userId: string, average: real, count: int)
    | Error(status: nat, reason: string)
    | Thrown(exception: string)

  /**
   * The checks `rateUser` makes before rating, in its order: the value,
   * then the caller and target lookups, then self-rating. `None` means the
   * rating goes ahead.
   */
  function RateCheck(value: Option<int>, raterId: Option<string>, targetId: Option<string>): (e: Option<RatingResponse>)
    ensures value.None? || !IsRating(value.value) ==> e == Some(Error(400, RatingOutOfRange))
    ensures e.None? <==> value.Some? && IsRating(value.value) && raterId.Some? && targetId.Some? && targetId != raterId
    ensures e == Some(Error(403, CannotRateSelf)) <==>
      value.Some? && IsRating(value.value) && raterId.Some? && targetId == raterId
  {
    if value.None? || value.value < 1 || value.value > 5 then Some(Error(400, RatingOutOfRange))
    else if raterId.None? || targetId.None? then Some(Thrown(NoSuchElement))
    else if targetId.value == raterId.value then Some(Error(403, CannotRateSelf))
    else None
  }

  /** The checks `removeMyRating` makes: the lookups, then self-removal. */
  function RemoveCheck(raterId: Option<string>, targetId: Option<string>): (e: Option<RatingResponse>)
    ensures e.None? <==> raterId.Some? && targetId.Some? && targetId != raterId
    ensures e == Some(Error(403, CannotRemoveSelfRating)) <==> raterId.Some? && targetId == raterId
  {
    if raterId.None? || targetId.None? then Some(Thrown(NoSuchElement))
    else if targetId.value == raterId.value then Some(Error(403, CannotRemoveSelfRating))
    else None
  }

  function IdOf(u: User?): Option<string>
    reads u
  {
    if u == null then None else Some(u.id)
  }

  /** `rateUser`: `rater` and `target` are `null` when their lookup found nothing. */
  method RateUser(value: Option<int>, rater: User?, target: User?) returns (resp: RatingResponse)
    modifies Found(target)`ratingsByUserId, Found(target)`ratingCount, Found(target)`ratingAverage
    ensures var e := RateCheck(value, old(IdOf(rater)), old(IdOf(target)));
      e.Some? ==> resp == e.value && (target != null ==>
        target.ratingsByUserId == old(target.ratingsByUserId)
        && target.ratingCount == old(target.ratingCount) && target.ratingAverage == old(target.ratingAverage))
    ensures RateCheck(value, old(IdOf(rater)), old(IdOf(target))).None? ==>
      target != null && rater != null
      && target.ratingsByUserId == WithRating(old(target.ratingsByUserId), Some(rater.id), value.value)
      && (!IsBlank(rater.id) ==> target.RatingsConsistent())
      && resp == RatingSummary("rating upserted", target.id, target.ratingAverage, target.ratingCount)
  {
    if value.None? || value.value < 1 || value.value > 5 {
      return Error(400, RatingOutOfRange);
    }
    if rater == null || target == null {
      return Thrown(NoSuchElement);
    }
    if target.id == rater.id {
      return Error(403, CannotRateSelf);
    }
    target.UpsertRating(Some(rater.id), value.value);
    resp := RatingSummary("rating upserted", target.id, target.ratingAverage, target.ratingCount);
  }

  /** `removeMyRating`: `rater` and `target` are `null` when their lookup found nothing. */
  method RemoveMyRating(rater: User?, target: User?) returns (resp: RatingResponse)
    modifies Found(target)`ratingsByUserId, Found(target)`ratingCount, Found(target)`ratingAverage
    ensures var e := RemoveCheck(old(IdOf(rater)), old(IdOf(target)));
      e.Some? ==> resp == e.value && (target != null ==>
        target.ratingsByUserId == old(target.ratingsByUserId)
        && target.ratingCount == old(target.ratingCount) && target.ratingAverage == old(target.ratingAverage))
    ensures RemoveCheck(old(IdOf(rater)), old(IdOf(target))).None? ==>
      target != null && rater != null
      && target.ratingsByUserId == WithoutRating(old(target.ratingsByUserId), Some(rater.id))
      && (!IsBlank(rater.id) && rater.id in old(target.ratingsByUserId) ==> target.RatingsConsistent())
      && resp == RatingSummary("rating removed", target.id, target.ratingAverage, target.ratingCount)
  {
    if rater == null || target == null {
      return Thrown(NoSuchElement);
    }
    if target.id == rater.id {
      return Error(403, CannotRemoveSelfRating);
    }
    target.RemoveRating(Some(rater.id));
    resp := RatingSummary("rating removed", target.id, target.ratingAverage, target.ratingCount);
  }
}
