/**
 * The review document and the bookkeeping it drives: after every save and
 * every `findOneAnd…` operation on a review, the rating count and average of
 * the review's tour are recomputed from the reviews stored at that moment.
 *
 * Averages are exact reals; the database's doubles are not modelled.
 */
module ReviewModel {
  import opened Js
  import opened AppErrors
  import opened Store
  import opened Http
  import opened TourModel

  datatype Review = Review(id: string, review: string, rating: real, tour: string, user: string)

  /** A new review; the rating defaults to 1. */
  function NewReview(id: string, user: string, tour: string, text: string, rating: Option<real>): (r: Review)
    ensures r.rating == (if rating.Some? then rating.value else 1.0)
    ensures r.id == id && r.user == user && r.tour == tour && r.review == text
  {
    Review(id, text, OrElse(rating, 1.0), tour, user)
  }

  // ---------------------------------------------------------------------
  // Validation and the unique index
  // ---------------------------------------------------------------------

  const ReviewRequired := "review: Review field is required"
  const RatingAboveMax := "rating: Path `rating` is more than maximum allowed value (5)."
  const RatingBelowMin := "rating: Path `rating` is less than minimum allowed value (1)."
  const TourRequired := "tour: Review must belong to Tour"
  const UserRequired := "user: Review must belong to User"

  /** The failing paths, in schema order, as "path: message". */
  function ReviewFailures(r: Review): seq<string>
  {
    (if r.review == "" then [ReviewRequired] else [])
    + (if r.rating > 5.0 then [RatingAboveMax] else if r.rating < 1.0 then [RatingBelowMin] else [])
    + (if r.tour == "" then [TourRequired] else [])
    + (if r.user == "" then [UserRequired] else [])
  }

  function ValidateReview(r: Review): (e: Option<ErrorValue>)
    ensures e.None? <==> r.review != "" && 1.0 <= r.rating <= 5.0 && r.tour != "" && r.user != ""
    ensures e.Some? ==> e.value.name == "ValidationError" && !e.value.operational
  {
    var failures := ReviewFailures(r);
    if failures == [] then None
    else Some(ForeignError("ValidationError", "Review validation failed: " + Join(failures, ", ")))
  }

  /** The default rating passes the bounds. */
  lemma DefaultRatingValid(id: string, user: string, tour: string, text: string)
    requires user != "" && tour != "" && text != ""
    ensures ValidateReview(NewReview(id, user, tour, text, None)).None?
  {
  }

  predicate RatingsValid(reviews: seq<Review>)
  {
    forall i :: 0 <= i < |reviews| ==> 1.0 <= reviews[i].rating <= 5.0
  }

  predicate SamePair(a: Review, b: Review)
  {
    a.user == b.user && a.tour == b.tour
  }

  /** The unique index on (user, tour): no two stored reviews share a pair. */
  predicate UniquePairs(reviews: seq<Review>)
  {
    KeysUnique(reviews, SamePair)
  }

  const DuplicateReviewError := ForeignError("MongoServerError", "E11000 duplicate key error collection: reviews index: user_1_tour_1")

  // ---------------------------------------------------------------------
  // Rating statistics
  // ---------------------------------------------------------------------

  /** The reviews of one tour, in stored order (the `$match` stage). */
  function ReviewsOf(reviews: seq<Review>, tourId: string): (rs: seq<Review>)
    ensures forall r :: r in rs <==> r in reviews && r.tour == tourId
    ensures |rs| <= |reviews|
  {
    if reviews == [] then []
    else (if reviews[0].tour == tourId then [reviews[0]] else []) + ReviewsOf(reviews[1..], tourId)
  }

  function RatingSum(rs: seq<Review>): real
  {
    if rs == [] then 0.0 else rs[0].rating + RatingSum(rs[1..])
  }

  /** The `$group` stage: the number of reviews and their mean rating. */
  function Mean(rs: seq<Review>): real
    requires |rs| > 0
  {
    RatingSum(rs) / (|rs| as real)
  }

  /** Bounds on each rating bound the sum. */
  lemma {:induction false} RatingSumBounds(rs: seq<Review>, lo: real, hi: real)
    requires forall i :: 0 <= i < |rs| ==> lo <= rs[i].rating <= hi
    ensures (|rs| as real) * lo <= RatingSum(rs) <= (|rs| as real) * hi
  {
    if rs != [] {
      RatingSumBounds(rs[1..], lo, hi);
      assert (|rs| as real) == (|rs[1..]| as real) + 1.0;
    }
  }

  /** Dividing bounds on a total by a positive count bounds the mean. */
  lemma MeanBetween(sum: real, n: real, lo: real, hi: real)
    requires n > 0.0 && n * lo <= sum <= n * hi
    ensures lo <= sum / n <= hi
  {
    var m := sum / n;
    assert m * n == sum;
  }

  /** When every rating lies in [1, 5], so does their mean. */
  lemma MeanInRange(rs: seq<Review>)
    requires |rs| > 0
    requires RatingsValid(rs)
    ensures 1.0 <= Mean(rs) <= 5.0
  {
    RatingSumBounds(rs, 1.0, 5.0);
    MeanBetween(RatingSum(rs), |rs| as real, 1.0, 5.0);
  }

  /** The reviews of a tour inherit the bounds of the collection. */
  lemma {:induction false} ReviewsOfValid(reviews: seq<Review>, tourId: string)
    requires RatingsValid(reviews)
    ensures RatingsValid(ReviewsOf(reviews, tourId))
  {
    var rs := ReviewsOf(reviews, tourId);
    forall i | 0 <= i < |rs|
      ensures 1.0 <= rs[i].rating <= 5.0
    {
      assert rs[i] in reviews;
    }
  }

  // ---------------------------------------------------------------------
  // calcAverageRatings
  // ---------------------------------------------------------------------

  /** The tours after `calcAverageRatings(tourId)`: with no review for the
      tour nothing is written; otherwise the first tour with that id gets
      the count and the mean of its reviews and every other tour is kept. */
  function RecomputedTours(docs: seq<Tour>, idOf: Tour -> string, reviews: seq<Review>, tourId: string): (r: seq<Tour>)
    ensures |r| == |docs|
  {
    var rs := ReviewsOf(reviews, tourId);
    if |rs| == 0 then docs
    else match IndexOf(docs, idOf, tourId)
      case None => docs
      case Some(i) => docs[i := docs[i].(ratingsQuantity := |rs|, ratingsAverage := Mean(rs))]
  }

  /** A tour without reviews is not written: the values from before the last
      review went away stay. */
  lemma NoReviewsUntouched(docs: seq<Tour>, idOf: Tour -> string, reviews: seq<Review>, tourId: string)
    requires forall r :: r in reviews ==> r.tour != tourId
    ensures RecomputedTours(docs, idOf, reviews, tourId) == docs
  {
  }

  /** Only the tour with that id is written; it gets the number of its
      reviews and their mean rating, and every other field of it stays. */
  lemma RecomputeWritesThatTour(docs: seq<Tour>, idOf: Tour -> string, reviews: seq<Review>, tourId: string)
    ensures var r := RecomputedTours(docs, idOf, reviews, tourId);
      forall j :: 0 <= j < |docs| && idOf(docs[j]) != tourId ==> r[j] == docs[j]
    ensures var r := RecomputedTours(docs, idOf, reviews, tourId);
      var rs := ReviewsOf(reviews, tourId);
      forall j :: 0 <= j < |docs| && idOf(docs[j]) == tourId && |rs| > 0 && IndexOf(docs, idOf, tourId) == Some(j) ==>
        r[j] == docs[j].(ratingsQuantity := |rs|, ratingsAverage := Mean(rs))
  {
  }

  /** With valid ratings the written average lies in [1, 5]. */
  lemma RecomputedAverageInRange(docs: seq<Tour>, idOf: Tour -> string, reviews: seq<Review>, tourId: string, j: nat)
    requires RatingsValid(reviews)
    requires j < |docs| && idOf(docs[j]) == tourId
    requires exists r :: r in reviews && r.tour == tourId
    ensures var t := RecomputedTours(docs, idOf, reviews, tourId);
      IndexOf(docs, idOf, tourId).Some? && 1.0 <= t[IndexOf(docs, idOf, tourId).value].ratingsAverage <= 5.0
  {
    var rs := ReviewsOf(reviews, tourId);
    var w :| w in reviews && w.tour == tourId;
    assert w in rs;
    ReviewsOfValid(reviews, tourId);
    MeanInRange(rs);
  }

  /** `calcAverageRatings`: match the tour's reviews, group them into a count
      and an average, and write both into the tour when there is at least
      one. */
  method CalcAverageRatings(tours: Collection<Tour>, reviews: seq<Review>, tourId: string)
    modifies tours
    ensures tours.docs == RecomputedTours(old(tours.docs), tours.idOf, reviews, tourId)
  {
    var stats := ReviewsOf(reviews, tourId);
    if |stats| > 0 {
      var nRating := |stats|;
      var avgRating := Mean(stats);
      var _ := tours.FindByIdAndUpdate(tourId, (t: Tour) => t.(ratingsQuantity := nRating, ratingsAverage := avgRating));
    }
  }

  // ---------------------------------------------------------------------
  // Saving a review, and the findOneAnd… operations with their hook
  // ---------------------------------------------------------------------

  /** `Review.create`: validation, the unique index, the insert, then the
      post-save recomputation for the review's tour. */
  function CreateOutcome(reviews: seq<Review>, tours: seq<Tour>, idOf: Tour -> string, r: Review): (o: (seq<Review>, seq<Tour>, Option<ErrorValue>))
    ensures o.2.None? <==> ValidateReview(r).None? && forall d :: d in reviews ==> !SamePair(d, r)
    ensures ValidateReview(r).Some? ==> o.2 == ValidateReview(r)
    ensures ValidateReview(r).None? && o.2.Some? ==> o.2 == Some(DuplicateReviewError)
    ensures o.2.Some? ==> o.0 == reviews && o.1 == tours
    ensures o.2.None? ==> o.0 == reviews + [r] && o.1 == RecomputedTours(tours, idOf, reviews + [r], r.tour)
  {
    match ValidateReview(r)
    case Some(e) => (reviews, tours, Some(e))
    case None =>
      match FirstMatch(reviews, (d: Review) => SamePair(d, r))
      case Some(_) => (reviews, tours, Some(DuplicateReviewError))
      case None => (reviews + [r], RecomputedTours(tours, idOf, reviews + [r], r.tour), None)
  }

  /** The unique index and the rating bounds hold after every create. */
  lemma CreateKeepsInvariants(reviews: seq<Review>, tours: seq<Tour>, idOf: Tour -> string, r: Review)
    requires UniquePairs(reviews) && RatingsValid(reviews)
    ensures UniquePairs(CreateOutcome(reviews, tours, idOf, r).0)
    ensures RatingsValid(CreateOutcome(reviews, tours, idOf, r).0)
  {
    var o := CreateOutcome(reviews, tours, idOf, r);
    if o.2.None? {
      var n := reviews + [r];
      forall i, j | 0 <= i < j < |n|
        ensures !SamePair(n[i], n[j])
      {
        if j == |reviews| {
          assert n[i] in reviews;
        }
      }
    }
  }

  /** A user who already reviewed a tour cannot add a second review of it. */
  lemma SecondReviewRefused(reviews: seq<Review>, tours: seq<Tour>, idOf: Tour -> string, r: Review, d: Review)
    requires ValidateReview(r).None?
    requires d in reviews && d.user == r.user && d.tour == r.tour
    ensures CreateOutcome(reviews, tours, idOf, r) == (reviews, tours, Some(DuplicateReviewError))
  {
  }

  /** After a create the tour counts the new review among its reviews. */
  lemma CreateCountsNewReview(reviews: seq<Review>, tours: seq<Tour>, idOf: Tour -> string, r: Review)
    requires CreateOutcome(reviews, tours, idOf, r).2.None?
    requires IndexOf(tours, idOf, r.tour).Some?
    ensures var i := IndexOf(tours, idOf, r.tour).value;
      var rs := ReviewsOf(reviews + [r], r.tour);
      r in rs && CreateOutcome(reviews, tours, idOf, r).1[i].ratingsQuantity == |rs| > 0
  {
  }

  /** `create`: the document is built from the signed-in user, the tour id of
      the route and the body, then saved with its hook. */
  method CreateReview(reviews: Collection<Review>, tours: Collection<Tour>, id: string, userId: string, tourId: string,
                      text: string, rating: Option<real>) returns (r: Result<Review>)
    modifies reviews, tours
    ensures var o := CreateOutcome(old(reviews.docs), old(tours.docs), tours.idOf, NewReview(id, userId, tourId, text, rating));
      reviews.docs == o.0 && tours.docs == o.1
      && (o.2.None? ==> r == Ok(NewReview(id, userId, tourId, text, rating)))
      && (o.2.Some? ==> r == Err(o.2.value))
  {
    var doc := NewReview(id, userId, tourId, text, rating);
    var invalid := ValidateReview(doc);
    if invalid.Some? {
      return Err(invalid.value);
    }
    var dup := FirstMatch(reviews.docs, (d: Review) => SamePair(d, doc));
    if dup.Some? {
      return Err(DuplicateReviewError);
    }
    reviews.Insert(doc);
    CalcAverageRatings(tours, reviews.docs, doc.tour);
    return Ok(doc);
  }

  /** The post hook reads `doc.constructor` of the operation's result; when
      no document matched, the result is null and the hook throws. */
  const NullDocError := ForeignError("TypeError", "Cannot read properties of null (reading 'constructor')")

  /** `findByIdAndDelete` on reviews with a hook that skips a null result:
      the delete, then the recomputation for the deleted review's tour over
      the reviews that remain. */
  method DeleteAndRecompute(reviews: Collection<Review>, tours: Collection<Tour>, id: string)
    returns (doc: Option<Review>)
    modifies reviews, tours
    ensures old(reviews.IndexOfId(id)).None? ==>
              doc.None? && reviews.docs == old(reviews.docs) && tours.docs == old(tours.docs)
    ensures old(reviews.IndexOfId(id)).Some? ==>
              var i := old(reviews.IndexOfId(id)).value;
              doc == Some(old(reviews.docs)[i])
              && reviews.docs == old(reviews.docs)[..i] + old(reviews.docs)[i + 1..]
              && tours.docs == RecomputedTours(old(tours.docs), tours.idOf, reviews.docs, doc.value.tour)
    ensures UniquePairs(old(reviews.docs)) ==> UniquePairs(reviews.docs)
  {
    doc := reviews.FindByIdAndDelete(id);
    if doc.Some? {
      if UniquePairs(old(reviews.docs)) {
        DeleteKeepsUniquePairs(old(reviews.docs), old(reviews.IndexOfId(id)).value);
      }
      CalcAverageRatings(tours, reviews.docs, doc.value.tour);
    }
  }

  /** `findByIdAndUpdate` on reviews with a hook that skips a null result:
      the update (no validators, but the unique index on user and tour),
      then the recomputation for the tour of the document as it was BEFORE
      the update. An update refused by the index raises the duplicate-key
      error, and the hook, which runs only after a write, does not run. */
  method UpdateAndRecompute(reviews: Collection<Review>, tours: Collection<Tour>, id: string, update: Review -> Review)
    returns (r: Result<Option<Review>>)
    modifies reviews, tours
    ensures old(reviews.IndexOfId(id)).None? ==>
              r == Ok(None) && reviews.docs == old(reviews.docs) && tours.docs == old(tours.docs)
    ensures old(reviews.IndexOfId(id)).Some? ==>
              var i := old(reviews.IndexOfId(id)).value;
              if KeyTaken(old(reviews.docs), i, update(old(reviews.docs)[i]), SamePair) then
                r == Err(DuplicateReviewError) && reviews.docs == old(reviews.docs) && tours.docs == old(tours.docs)
              else
                r == Ok(Some(old(reviews.docs)[i]))
                && reviews.docs == old(reviews.docs)[i := update(old(reviews.docs)[i])]
                && tours.docs == RecomputedTours(old(tours.docs), tours.idOf, reviews.docs, old(reviews.docs)[i].tour)
    ensures UniquePairs(old(reviews.docs)) ==> UniquePairs(reviews.docs)
  {
    var doc, duplicate := reviews.FindByIdAndUpdateUnique(id, update, SamePair);
    if duplicate {
      return Err(DuplicateReviewError);
    }
    if doc.Some? {
      if UniquePairs(old(reviews.docs)) {
        UpdateKeepsUniquePairs(old(reviews.docs), old(reviews.IndexOfId(id)).value, update(doc.value));
      }
      CalcAverageRatings(tours, reviews.docs, doc.value.tour);
    }
    return Ok(doc);
  }

  /** An update the unique index lets through keeps every (user, tour)
      pair unique. */
  lemma UpdateKeepsUniquePairs(reviews: seq<Review>, i: nat, d: Review)
    requires i < |reviews| && UniquePairs(reviews) && !KeyTaken(reviews, i, d, SamePair)
    ensures UniquePairs(reviews[i := d])
  {
    UpdateKeepsKeysUnique(reviews, i, d, SamePair);
  }

  /** A delete keeps every (user, tour) pair unique. */
  lemma DeleteKeepsUniquePairs(reviews: seq<Review>, i: nat)
    requires i < |reviews| && UniquePairs(reviews)
    ensures UniquePairs(reviews[..i] + reviews[i + 1..])
  {
    RemoveKeepsKeysUnique(reviews, i, SamePair);
  }

  /** Without the index a user could move a review onto a tour they have
      already reviewed: the update gives two stored reviews the same pair. */
  lemma UpdateCanCollide(a: Review, b: Review)
    requires a.user == b.user && a.tour != b.tour
    ensures UniquePairs([a, b])
    ensures KeyTaken([a, b], 1, b.(tour := a.tour), SamePair)
    ensures !UniquePairs([a, b][1 := b.(tour := a.tour)])
  {
    var n := [a, b][1 := b.(tour := a.tour)];
    assert SamePair([a, b][0], b.(tour := a.tour));
    assert SamePair(n[0], n[1]);
  }

  /** `findByIdAndDelete` on reviews as the hook is written: the hook runs on
      a null result too and throws, so a missing id ends in a TypeError. */
  method FindByIdAndDeleteReview(reviews: Collection<Review>, tours: Collection<Tour>, id: string)
    returns (r: Result<Review>)
    modifies reviews, tours
    ensures old(reviews.IndexOfId(id)).None? ==>
              r == Err(NullDocError) && reviews.docs == old(reviews.docs) && tours.docs == old(tours.docs)
    ensures old(reviews.IndexOfId(id)).Some? ==>
              var i := old(reviews.IndexOfId(id)).value;
              r == Ok(old(reviews.docs)[i])
              && reviews.docs == old(reviews.docs)[..i] + old(reviews.docs)[i + 1..]
              && tours.docs == RecomputedTours(old(tours.docs), tours.idOf, reviews.docs, r.value.tour)
    ensures UniquePairs(old(reviews.docs)) ==> UniquePairs(reviews.docs)
  {
    var doc := DeleteAndRecompute(reviews, tours, id);
    if doc.None? {
      return Err(NullDocError);
    }
    return Ok(doc.value);
  }

  /** `findByIdAndUpdate` on reviews as the hook is written: a missing id
      ends in a TypeError; an update refused by the unique index ends in the
      duplicate-key error before the hook runs. */
  method FindByIdAndUpdateReview(reviews: Collection<Review>, tours: Collection<Tour>, id: string, update: Review -> Review)
    returns (r: Result<Review>)
    modifies reviews, tours
    ensures old(reviews.IndexOfId(id)).None? ==>
              r == Err(NullDocError) && reviews.docs == old(reviews.docs) && tours.docs == old(tours.docs)
    ensures old(reviews.IndexOfId(id)).Some? ==>
              var i := old(reviews.IndexOfId(id)).value;
              if KeyTaken(old(reviews.docs), i, update(old(reviews.docs)[i]), SamePair) then
                r == Err(DuplicateReviewError) && reviews.docs == old(reviews.docs) && tours.docs == old(tours.docs)
              else
                r == Ok(old(reviews.docs)[i])
                && reviews.docs == old(reviews.docs)[i := update(old(reviews.docs)[i])]
                && tours.docs == RecomputedTours(old(tours.docs), tours.idOf, reviews.docs, r.value.tour)
    ensures UniquePairs(old(reviews.docs)) ==> UniquePairs(reviews.docs)
  {
    var doc := UpdateAndRecompute(reviews, tours, id, update);
    if doc.Err? {
      return Err(doc.err);
    }
    if doc.value.None? {
      return Err(NullDocError);
    }
    return Ok(doc.value.value);
  }

  /** The update path runs no validators, so the bound on averages holds
      only while the stored ratings are valid: a review updated to a rating
      of 10 makes its tour's average 10. */
  lemma UnvalidatedUpdateEscapesBounds(t: Tour, idOf: Tour -> string, r: Review)
    requires idOf(t) == r.tour
    requires r.rating == 10.0
    ensures ValidateReview(r).Some?
    ensures RecomputedTours([t], idOf, [r], r.tour)[0].ratingsAverage == 10.0
  {
    assert ReviewsOf([r], r.tour) == [r];
    assert RatingSum([r]) == 10.0;
    assert IndexOf([t], idOf, r.tour) == Some(0);
  }

  /** An update that moves a review to another tour recomputes only the tour
      it came from; the tour it moves to keeps its old figures. */
  lemma MovedReviewNotCounted(tours: seq<Tour>, idOf: Tour -> string, reviews: seq<Review>, oldTour: string, newTour: string, j: nat)
    requires oldTour != newTour
    requires j < |tours| && idOf(tours[j]) == newTour
    ensures RecomputedTours(tours, idOf, reviews, oldTour)[j] == tours[j]
  {
    RecomputeWritesThatTour(tours, idOf, reviews, oldTour);
  }

  /** Deleting the last review of a tour leaves its count and average as
      they were. */
  lemma LastReviewDeletedStale(tours: seq<Tour>, idOf: Tour -> string, reviews: seq<Review>, i: nat)
    requires i < |reviews|
    requires forall k :: 0 <= k < |reviews| && k != i ==> reviews[k].tour != reviews[i].tour
    ensures RecomputedTours(tours, idOf, reviews[..i] + reviews[i + 1..], reviews[i].tour) == tours
  {
    var rest := reviews[..i] + reviews[i + 1..];
    forall r | r in rest
      ensures r.tour != reviews[i].tour
    {
      var k :| 0 <= k < |rest| && rest[k] == r;
      if k < i {
        assert rest[k] == reviews[k];
      } else {
        assert rest[k] == reviews[k + 1];
      }
    }
    NoReviewsUntouched(tours, idOf, rest, reviews[i].tour);
  }
}
