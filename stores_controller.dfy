/** The list and map logic inside the old store controller's handlers:
    the average rating, adding and editing reviews of a store profile, and
    the query filter of the filtered store search. Ratings are integers and
    the average is kept in hundredths. */
module StoresController {
  import opened Wrappers
  import Money
  import Decimal

  // ---------------------------------------------------------------------
  // Reviews and their average

  /** A review as stored in `profileData.reviews`. Review ids are the
      decimal strings that addReview writes; the model keeps their value. */
  datatype Review = Review(
    reviewId: nat,
    userEmail: string,
    userFirstName: string,
    userLastName: string,
    userName: string,
    datetimeCreated: string,
    datetimeAdjusted: string,
    rating: int,
    text: string)

  /** The reviewer's names, as found by the user lookup. */
  datatype UserNames = UserNames(firstName: string, lastName: string)

  datatype ReviewError = UserNotFound | WrongReviewId

  /** Σ rating. */
  function RatingSum(rs: seq<Review>): int {
    if |rs| == 0 then 0 else RatingSum(rs[..|rs| - 1]) + rs[|rs| - 1].rating
  }

  /** What calculateAverage returns, in hundredths: 0 for no reviews,
      otherwise the mean rating rounded to two decimals. */
  function Average(rs: seq<Review>): (avg: int)
    ensures |rs| == 0 ==> avg == 0
    ensures |rs| > 0 ==> 200 * RatingSum(rs) - |rs| < 2 * avg * |rs| <= 200 * RatingSum(rs) + |rs|
  {
    if |rs| == 0 then 0 else Money.RoundHalfUp(100 * RatingSum(rs), |rs|)
  }

  /** calculateAverage: sums the ratings in a loop, then divides. */
  method CalculateAverage(rs: seq<Review>) returns (avg: int)
    ensures avg == Average(rs)
  {
    var value := 0;
    if |rs| > 0 {
      for i := 0 to |rs|
        invariant value == RatingSum(rs[..i])
      {
        assert rs[..i + 1][..i] == rs[..i];
        value := value + rs[i].rating;
      }
      assert rs[..|rs|] == rs;
      return Money.RoundHalfUp(100 * value, |rs|);
    } else {
      return 0;
    }
  }

  lemma {:induction false} RatingSumBounds(rs: seq<Review>, lo: int, hi: int)
    requires forall i :: 0 <= i < |rs| ==> lo <= rs[i].rating <= hi
    ensures |rs| * lo <= RatingSum(rs) <= |rs| * hi
  {
    if |rs| > 0 {
      RatingSumBounds(rs[..|rs| - 1], lo, hi);
      assert |rs| * lo == (|rs| - 1) * lo + lo && |rs| * hi == (|rs| - 1) * hi + hi;
    }
  }

  /** The average of a non-empty list lies between its lowest and its
      highest rating. */
  lemma AverageWithinRatings(rs: seq<Review>, lo: int, hi: int)
    requires |rs| > 0
    requires forall i :: 0 <= i < |rs| ==> lo <= rs[i].rating <= hi
    ensures 100 * lo <= Average(rs) <= 100 * hi
  {
    RatingSumBounds(rs, lo, hi);
    var n := |rs|;
    assert (100 * lo) * n == 100 * (n * lo) && (100 * hi) * n == 100 * (n * hi);
    Money.RoundHalfUpBetween(100 * RatingSum(rs), n, 100 * lo, 100 * hi);
  }

  /** The id addReview gives a new review: 0 for the first, otherwise one
      more than the id of the review at the head of the list. */
  function NextReviewId(rs: seq<Review>): nat {
    if |rs| == 0 then 0 else rs[0].reviewId + 1
  }

  /** Ids decrease along the list: what prepending with NextReviewId builds. */
  predicate IdsDescending(rs: seq<Review>) {
    forall i, j :: 0 <= i < j < |rs| ==> rs[i].reviewId > rs[j].reviewId
  }

  /** Prepending a review with the next id keeps the ids descending, so the
      new id is used by no other review. */
  lemma PrependKeepsIdsDescending(rs: seq<Review>, review: Review)
    requires IdsDescending(rs)
    requires review.reviewId == NextReviewId(rs)
    ensures IdsDescending([review] + rs)
    ensures forall j :: 0 <= j < |rs| ==> rs[j].reviewId != review.reviewId
  {
    var rs' := [review] + rs;
    forall i, j | 0 <= i < j < |rs'|
      ensures rs'[i].reviewId > rs'[j].reviewId
    {
      if i == 0 && j > 1 {
        assert rs[0].reviewId > rs[j - 1].reviewId;
      }
    }
  }

  /** `rv.reviewId === reviewId`: the stored id string against the one in the request. */
  predicate HasId(review: Review, reviewId: string) {
    Decimal.NatToString(review.reviewId) == reviewId
  }

  /** `findIndex`: the first position at or after `from` whose review has
      the id. */
  function FindReviewIndexFrom(rs: seq<Review>, reviewId: string, from: nat): (r: Option<nat>)
    requires from <= |rs|
    ensures r.Some? ==> from <= r.value < |rs| && HasId(rs[r.value], reviewId)
    ensures r.Some? ==> forall j :: from <= j < r.value ==> !HasId(rs[j], reviewId)
    ensures r.None? ==> forall j :: from <= j < |rs| ==> !HasId(rs[j], reviewId)
    decreases |rs| - from
  {
    if from == |rs| then None
    else if HasId(rs[from], reviewId) then Some(from)
    else FindReviewIndexFrom(rs, reviewId, from + 1)
  }

  function FindReviewIndex(rs: seq<Review>, reviewId: string): Option<nat> {
    FindReviewIndexFrom(rs, reviewId, 0)
  }

  /** With descending ids at most one review carries a given id, so the
      review editReview finds is the only one with that id. */
  lemma IdsDescendingMatchIsUnique(rs: seq<Review>, reviewId: string, i: nat, j: nat)
    requires IdsDescending(rs)
    requires i < |rs| && j < |rs|
    requires HasId(rs[i], reviewId) && HasId(rs[j], reviewId)
    ensures i == j
  {
    Decimal.NatToStringInjective(rs[i].reviewId, rs[j].reviewId);
  }

  /** The review fields a store profile keeps: the list, and the average
      rating written beside it. */
  class StoreProfile {
    var reviews: seq<Review>
    var avgRating: int

    constructor (reviews: seq<Review>, avgRating: int)
      ensures this.reviews == reviews && this.avgRating == avgRating
    {
      this.reviews := reviews;
      this.avgRating := avgRating;
    }

    /** addReview: the review gets the next id and goes to the front of the
        list; the average is recomputed over the whole list. When the user
        lookup finds nobody, nothing changes. */
    method AddReview(userEmail: string, user: Option<UserNames>, rating: int, text: string, now: string)
      returns (r: Result<Review, ReviewError>)
      modifies this
      ensures user.None? ==> r == Failure(UserNotFound) && reviews == old(reviews) && avgRating == old(avgRating)
      ensures user.Some? ==> (
        && r.Success?
        && r.value == Review(NextReviewId(old(reviews)), userEmail, user.value.firstName, user.value.lastName,
                             user.value.lastName + ", " + user.value.firstName, now, "", rating, text)
        && reviews == [r.value] + old(reviews)
        && avgRating == Average(reviews))
      ensures IdsDescending(old(reviews)) ==> IdsDescending(reviews)
    {
      var reviewId: nat;
      if |reviews| == 0 {
        reviewId := 0;
      } else {
        reviewId := reviews[0].reviewId + 1;
      }
      if user.None? {
        return Failure(UserNotFound);
      }
      var review := Review(reviewId, userEmail, user.value.firstName, user.value.lastName,
                           user.value.lastName + ", " + user.value.firstName, now, "", rating, text);
      if IdsDescending(reviews) {
        PrependKeepsIdsDescending(reviews, review);
      }
      reviews := [review] + reviews;
      avgRating := CalculateAverage(reviews);
      r := Success(review);
    }

    /** editReview: the first review with the id gets the new text and
        rating and the adjustment time; every other review and every other
        field stays as it was, and the average is recomputed. An unknown id
        changes nothing. */
    method EditReview(reviewId: string, text: string, rating: int, now: string)
      returns (r: Result<nat, ReviewError>)
      modifies this
      ensures FindReviewIndex(old(reviews), reviewId).None? ==>
        r == Failure(WrongReviewId) && reviews == old(reviews) && avgRating == old(avgRating)
      ensures FindReviewIndex(old(reviews), reviewId).Some? ==>
        var k := FindReviewIndex(old(reviews), reviewId).value;
        && r == Success(k)
        && reviews == old(reviews)[k := old(reviews)[k].(text := text, rating := rating, datetimeAdjusted := now)]
        && avgRating == Average(reviews)
      ensures IdsDescending(old(reviews)) ==> IdsDescending(reviews)
    {
      var index := FindReviewIndex(reviews, reviewId);
      if index.None? {
        return Failure(WrongReviewId);
      }
      var k := index.value;
      reviews := reviews[k := reviews[k].(text := text)];
      reviews := reviews[k := reviews[k].(rating := rating)];
      reviews := reviews[k := reviews[k].(datetimeAdjusted := now)];
      avgRating := CalculateAverage(reviews);
      r := Success(k);
    }
  }

  // ---------------------------------------------------------------------
  // The filtered store search

  /** A value of the JSON request body. `JOther` stands for `true` and
      `false`. */
  datatype JsonValue =
    | JArray(elements: seq<JsonValue>)
    | JString(s: string)
    | JNumber(n: real)
    | JObject(members: map<string, JsonValue>)
    | JNull
    | JOther

  /** The request body: its keys in `for..in` order, and their values. */
  datatype FilterRequest = FilterRequest(keys: seq<string>, values: map<string, JsonValue>)

  predicate WellFormedRequest(f: FilterRequest) {
    && (forall i :: 0 <= i < |f.keys| ==> f.keys[i] in f.values)
    && (forall i, j :: 0 <= i < j < |f.keys| ==> f.keys[i] != f.keys[j])
    && (forall k :: k in f.values ==> k in f.keys)
  }

  /** A MongoDB condition `{ $all: v }`. */
  datatype Condition = All(operand: JsonValue)

  datatype FilterError =
    | InvalidFilter(status: nat, message: string)
    | TypeError

  /** `value.length === 0`; reading `.length` of null throws. A number or
      a boolean has no `length`, so it reads `undefined`; an object's
      `length` is its own `length` member, which is `=== 0` only when it is
      the number 0 (or -0). */
  function LengthIsZero(v: JsonValue): (r: Result<bool, FilterError>)
    ensures r.Failure? <==> v.JNull?
    ensures r == Success(true) <==>
      || v == JArray([])
      || v == JString("")
      || (v.JObject? && "length" in v.members && v.members["length"] == JNumber(0.0))
  {
    match v
    case JArray(es) => Success(|es| == 0)
    case JString(s) => Success(|s| == 0)
    case JNumber(_) => Success(false)
    case JObject(members) => Success("length" in members && members["length"] == JNumber(0.0))
    case JNull => Failure(TypeError)
    case JOther => Success(false)
  }

  const TagsFilterKey: string := "profileData.tags"

  /** getFilteredStores2's filter construction: `tags` becomes an `$all`
      condition on `profileData.tags` and an empty `tags` is refused with
      status 400; no other key, `country` included, adds anything. */
  method BuildQueryFilter(f: FilterRequest) returns (r: Result<map<string, Condition>, FilterError>)
    requires WellFormedRequest(f)
    ensures "tags" !in f.values ==> r == Success(map[])
    ensures "tags" in f.values && f.values["tags"].JNull? ==> r == Failure(TypeError)
    ensures "tags" in f.values && LengthIsZero(f.values["tags"]) == Success(true) ==>
      r == Failure(InvalidFilter(400, "Invalid filter provided."))
    ensures "tags" in f.values && LengthIsZero(f.values["tags"]) == Success(false) ==>
      r == Success(map[TagsFilterKey := All(f.values["tags"])])
  {
    var queryFilter: map<string, Condition> := map[];
    for i := 0 to |f.keys|
      invariant "tags" in f.keys[..i] ==> LengthIsZero(f.values["tags"]) == Success(false)
      invariant queryFilter == if "tags" in f.keys[..i] then map[TagsFilterKey := All(f.values["tags"])] else map[]
    {
      var key := f.keys[i];
      assert f.keys[..i + 1] == f.keys[..i] + [key];
      if key == "tags" {
        assert "tags" !in f.keys[..i] by {
          forall j | 0 <= j < i ensures f.keys[..i][j] != "tags" {
            assert f.keys[j] != f.keys[i];
          }
        }
        assert "profileData." + key == TagsFilterKey;
        var empty := LengthIsZero(f.values[key]);
        if empty.Failure? {
          return Failure(TypeError);
        }
        if empty.value {
          return Failure(InvalidFilter(400, "Invalid filter provided."));
        }
        queryFilter := queryFilter["profileData." + key := All(f.values[key])];
      }
      if key == "country" {
      }
    }
    assert f.keys[..|f.keys|] == f.keys;
    r := Success(queryFilter);
  }
}
