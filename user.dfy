/**
 * The user document: its profile fields, its government-ID verification
 * status, its roles and its ratings (at most one rating per rater, with the
 * stored count and average recomputed from the map).
 */
module Users {

  import opened Wrappers
  import opened Text

  datatype VerificationStatus = Unverified | Pending | Verified | Rejected {
    /** The name of the Java enum constant. */
    function Name(): string {
      match this
      case Unverified => "UNVERIFIED"
      case Pending => "PENDING"
      case Verified => "VERIFIED"
      case Rejected => "REJECTED"
    }
  }

  /** A calendar date (`LocalDate`); the model only stores and copies dates. */
  datatype Date = Date(year: int, month: int, day: int)

  /**
   * The profile fields the user may edit; `None` stands for `null`.
   * Coordinates are reals: the model copies them and never computes with them.
   */
  datatype Profile = Profile(
    bio: Option<string>,
    displayName: Option<string>,
    avatarUrl: Option<string>,
    city: Option<string>,
    latitude: Option<real>,
    longitude: Option<real>,
    gender: Option<string>,
    occupation: Option<string>,
    birthDate: Option<Date>,
    languages: seq<string>,
    hobbies: set<string>)

  /** A value `upsertRating` accepts. */
  predicate IsRating(v: int) {
    1 <= v <= 5
  }

  /** Every stored rating is in 1..5. */
  predicate AllRatings(ratings: map<string, int>) {
    forall r :: r in ratings ==> IsRating(ratings[r])
  }

  /** The sum of the ratings given by `raters`. */
  ghost function SumOver(ratings: map<string, int>, raters: set<string>): int
    requires raters <= ratings.Keys
    decreases raters
  {
    if raters == {} then 0
    else
      var r :| r in raters;
      ratings[r] + SumOver(ratings, raters - {r})
  }

  /** The sum of all ratings, in whatever order the map yields them. */
  ghost function RatingSum(ratings: map<string, int>): int {
    SumOver(ratings, ratings.Keys)
  }

  /** `ratingAverage` as `fullRecompute` computes it, in exact arithmetic: 0 without ratings. */
  ghost function Average(ratings: map<string, int>): real {
    if |ratings| == 0 then 0.0 else RatingSum(ratings) as real / |ratings| as real
  }

  /** Any rater can be taken out of the sum first. */
  lemma {:induction false} SumOverRemove(ratings: map<string, int>, raters: set<string>, r: string)
    requires raters <= ratings.Keys && r in raters
    ensures SumOver(ratings, raters) == ratings[r] + SumOver(ratings, raters - {r})
    decreases raters
  {
    var x :| x in raters && SumOver(ratings, raters) == ratings[x] + SumOver(ratings, raters - {x});
    if x != r {
      SumOverRemove(ratings, raters - {x}, r);
      assert raters - {x} - {r} == raters - {r} - {x};
      SumOverRemove(ratings, raters - {r}, x);
    }
  }

  /** The sum only reads the ratings of the raters it adds up. */
  lemma {:induction false} SumOverAgrees(a: map<string, int>, b: map<string, int>, raters: set<string>)
    requires raters <= a.Keys && raters <= b.Keys
    requires forall r :: r in raters ==> a[r] == b[r]
    ensures SumOver(a, raters) == SumOver(b, raters)
    decreases raters
  {
    if raters != {} {
      var x :| x in raters && SumOver(a, raters) == a[x] + SumOver(a, raters - {x});
      SumOverAgrees(a, b, raters - {x});
      SumOverRemove(b, raters, x);
    }
  }

  lemma {:induction false} SumOverBounds(ratings: map<string, int>, raters: set<string>)
    requires raters <= ratings.Keys && AllRatings(ratings)
    ensures |raters| <= SumOver(ratings, raters) <= 5 * |raters|
    decreases raters
  {
    if raters != {} {
      var x :| x in raters && SumOver(ratings, raters) == ratings[x] + SumOver(ratings, raters - {x});
      SumOverBounds(ratings, raters - {x});
    }
  }

  /** With every rating in 1..5, the sum lies between the count and five times the count. */
  lemma RatingSumBounds(ratings: map<string, int>)
    requires AllRatings(ratings)
    ensures |ratings| <= RatingSum(ratings) <= 5 * |ratings|
  {
    SumOverBounds(ratings, ratings.Keys);
  }

  /** A product of positive reals is positive. */
  lemma MulPositive(a: real, n: real)
    requires a > 0.0 && n > 0.0
    ensures a * n > 0.0
  {
  }

  /** A sum between `n` and `5n`, divided by `n`, lies in 1..5. */
  lemma QuotientBounds(s: real, n: real)
    requires n > 0.0 && n <= s <= 5.0 * n
    ensures 1.0 <= s / n <= 5.0
  {
    var q := s / n;
    assert q * n == s;
    if q < 1.0 {
      MulPositive(1.0 - q, n);
      assert false;
    } else if q > 5.0 {
      MulPositive(q - 5.0, n);
      assert false;
    }
  }

  /** The average is 0 without ratings and otherwise lies in 1..5. */
  lemma AverageBounds(ratings: map<string, int>)
    requires AllRatings(ratings)
    ensures |ratings| == 0 ==> Average(ratings) == 0.0
    ensures |ratings| > 0 ==> 1.0 <= Average(ratings) <= 5.0
  {
    if |ratings| > 0 {
      RatingSumBounds(ratings);
      QuotientBounds(RatingSum(ratings) as real, |ratings| as real);
    }
  }

  /**
   * The ratings after `upsertRating(rater, value)`: a blank rater or a value
   * outside 1..5 changes nothing; otherwise the rater's entry becomes `value`.
   */
  function WithRating(ratings: map<string, int>, rater: Option<string>, value: int): (r: map<string, int>)
    ensures NullOrBlank(rater) || !IsRating(value) ==> r == ratings
    ensures !NullOrBlank(rater) && IsRating(value) ==>
      rater.value in r && r[rater.value] == value && r - {rater.value} == ratings - {rater.value}
    ensures |r| == if !NullOrBlank(rater) && IsRating(value) && rater.value !in ratings then |ratings| + 1 else |ratings|
  {
    if NullOrBlank(rater) || !IsRating(value) then ratings
    else ratings[rater.value := value]
  }

  /** The ratings after `removeRating(rater)`. */
  function WithoutRating(ratings: map<string, int>, rater: Option<string>): (r: map<string, int>)
    ensures NullOrBlank(rater) || rater.value !in ratings ==> r == ratings
    ensures !NullOrBlank(rater) ==> rater.value !in r && r - {rater.value} == ratings - {rater.value}
    ensures |r| == if !NullOrBlank(rater) && rater.value in ratings then |ratings| - 1 else |ratings|
  {
    if NullOrBlank(rater) then ratings
    else ratings - {rater.value}
  }

  /** Accepted ratings keep every stored rating in 1..5. */
  lemma UpsertKeepsRatings(ratings: map<string, int>, rater: Option<string>, value: int)
    requires AllRatings(ratings)
    ensures AllRatings(WithRating(ratings, rater, value))
    ensures AllRatings(WithoutRating(ratings, rater))
  {
  }

  /** A new rating adds its value to the sum; a re-rating replaces the old value. */
  lemma RatingSumAfterUpsert(ratings: map<string, int>, rater: string, value: int)
    requires !IsBlank(rater) && IsRating(value)
    ensures RatingSum(WithRating(ratings, Some(rater), value))
         == RatingSum(ratings) - (if rater in ratings then ratings[rater] else 0) + value
  {
    var r := WithRating(ratings, Some(rater), value);
    var rest := ratings.Keys - {rater};
    assert r.Keys == rest + {rater};
    SumOverRemove(r, r.Keys, rater);
    assert r.Keys - {rater} == rest;
    SumOverAgrees(r, ratings, rest);
    if rater in ratings {
      SumOverRemove(ratings, ratings.Keys, rater);
      assert ratings.Keys - {rater} == rest;
    } else {
      assert ratings.Keys == rest;
    }
  }

  /** Removing a rating takes its value out of the sum. */
  lemma RatingSumAfterRemove(ratings: map<string, int>, rater: string)
    requires !IsBlank(rater) && rater in ratings
    ensures RatingSum(WithoutRating(ratings, Some(rater))) == RatingSum(ratings) - ratings[rater]
  {
    var r := WithoutRating(ratings, Some(rater));
    SumOverRemove(ratings, ratings.Keys, rater);
    assert ratings.Keys - {rater} == r.Keys;
    SumOverAgrees(r, ratings, r.Keys);
  }

  /** Removing a first-time rating restores the ratings as they were. */
  lemma UpsertThenRemove(ratings: map<string, int>, rater: string, value: int)
    requires !IsBlank(rater) && IsRating(value) && rater !in ratings
    ensures WithoutRating(WithRating(ratings, Some(rater), value), Some(rater)) == ratings
  {
    assert ratings[rater := value] - {rater} == ratings;
  }

  /** A looked-up user as a frame: nothing when the lookup found nothing. */
  function Found(u: User?): set<User> {
    if u == null then {} else {u}
  }

  class User {
    var id: string
    var phone: Option<string>
    var roles: set<string>

    var bio: Option<string>
    var displayName: Option<string>
    var avatarUrl: Option<string>
    var city: Option<string>
    var latitude: Option<real>
    var longitude: Option<real>
    var gender: Option<string>
    var occupation: Option<string>
    var birthDate: Option<Date>
    var languages: seq<string>
    var hobbies: set<string>

    var govIdVerificationStatus: VerificationStatus

    var ratingsByUserId: map<string, int>
    var ratingCount: int
    /** `ratingAverage`, in exact arithmetic. */
    var ratingAverage: real

    /** A stored user with the field initialisers' values. */
    constructor (id: string, phone: Option<string>)
      ensures this.id == id && this.phone == phone && roles == {}
      ensures EditableProfile() == Profile(None, None, None, None, None, None, None, None, None, [], {})
      ensures govIdVerificationStatus == Unverified
      ensures ratingsByUserId == map[] && ratingCount == 0 && ratingAverage == 0.0
    {
      this.id := id;
      this.phone := phone;
      roles := {};
      bio, displayName, avatarUrl, city := None, None, None, None;
      latitude, longitude := None, None;
      gender, occupation, birthDate := None, None, None;
      languages, hobbies := [], {};
      govIdVerificationStatus := Unverified;
      ratingsByUserId := map[];
      ratingCount := 0;
      ratingAverage := 0.0;
    }

    /** The editable profile fields, read together. */
    function EditableProfile(): Profile
      reads this
    {
      Profile(bio, displayName, avatarUrl, city, latitude, longitude, gender, occupation, birthDate, languages, hobbies)
    }

    /** The stored count and average agree with the map. */
    ghost predicate RatingsConsistent()
      reads this
    {
      ratingCount == |ratingsByUserId| && ratingAverage == Average(ratingsByUserId)
    }

    method UpsertRating(rater: Option<string>, value: int)
      modifies this`ratingsByUserId, this`ratingCount, this`ratingAverage
      ensures ratingsByUserId == WithRating(old(ratingsByUserId), rater, value)
      ensures NullOrBlank(rater) || !IsRating(value) ==>
        ratingCount == old(ratingCount) && ratingAverage == old(ratingAverage)
      ensures !NullOrBlank(rater) && IsRating(value) ==> RatingsConsistent()
    {
      if rater.None? || IsBlank(rater.value) {
        return;
      }
      if value < 1 || value > 5 {
        return;
      }
      var previous := if rater.value in ratingsByUserId then Some(ratingsByUserId[rater.value]) else None;
      ratingsByUserId := ratingsByUserId[rater.value := value];
      RecomputeRatings(previous, value);
    }

    method RemoveRating(rater: Option<string>)
      modifies this`ratingsByUserId, this`ratingCount, this`ratingAverage
      ensures ratingsByUserId == WithoutRating(old(ratingsByUserId), rater)
      ensures NullOrBlank(rater) || rater.value !in old(ratingsByUserId) ==>
        ratingCount == old(ratingCount) && ratingAverage == old(ratingAverage)
      ensures !NullOrBlank(rater) && rater.value in old(ratingsByUserId) ==> RatingsConsistent()
    {
      if rater.None? || IsBlank(rater.value) {
        return;
      }
      var previous := if rater.value in ratingsByUserId then Some(ratingsByUserId[rater.value]) else None;
      ratingsByUserId := ratingsByUserId - {rater.value};
      if previous.Some? {
        FullRecompute();
      }
    }

    /** The count is bumped for a new rater, then overwritten by the full recomputation. */
    method RecomputeRatings(previous: Option<int>, value: int)
      modifies this`ratingCount, this`ratingAverage
      ensures RatingsConsistent()
    {
      if previous.None? {
        ratingCount := ratingCount + 1;
      }
      FullRecompute();
    }

    method FullRecompute()
      modifies this`ratingCount, this`ratingAverage
      ensures RatingsConsistent()
    {
      var cnt := |ratingsByUserId|;
      var sum := 0;
      var rest := ratingsByUserId.Keys;
      while rest != {}
        invariant rest <= ratingsByUserId.Keys
        invariant sum + SumOver(ratingsByUserId, rest) == RatingSum(ratingsByUserId)
        decreases rest
      {
        var r :| r in rest;
        SumOverRemove(ratingsByUserId, rest, r);
        sum := sum + ratingsByUserId[r];
        rest := rest - {r};
      }
      ratingCount := cnt;
      ratingAverage := if cnt == 0 then 0.0 else sum as real / cnt as real;
    }

    /** `None` stands for `null`, which installs an empty map. */
    method SetRatingsByUserId(ratings: Option<map<string, int>>)
      modifies this`ratingsByUserId, this`ratingCount, this`ratingAverage
      ensures ratingsByUserId == ratings.GetOr(map[]) && RatingsConsistent()
      ensures ratings.None? ==> ratingCount == 0 && ratingAverage == 0.0
    {
      ratingsByUserId := if ratings.None? then map[] else ratings.value;
      FullRecompute();
    }
  }
}
