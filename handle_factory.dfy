/**
 * The generic handlers the routes instantiate per model: delete one, update
 * one and get one document by the id in the route parameters, each with its
 * own status codes. The review instances are written out separately, since
 * the review model's post hooks run inside the delete and the update.
 */
module HandleFactory {
  import opened Js
  import opened AppErrors
  import opened Store
  import opened Http
  import opened ErrorHandler
  import opened TourModel
  import opened ReviewModel

  const DeleteNotFoundMessage := "No Document found with that Id"
  const UpdateNotFoundMessage := "No Document found with this Id"

  /** A success answer: the HTTP status and the `data` of the body. */
  datatype Reply<D> = Reply(statusCode: int, data: Option<D>)

  /** `req.params.id || req.params.tourId`: an empty or absent `id` falls
      back to `tourId`; None is an id that is undefined. */
  function DeleteId(params: map<string, string>): (id: Option<string>)
    ensures "id" in params && params["id"] != "" ==> id == Some(params["id"])
    ensures ("id" !in params || params["id"] == "") && "tourId" in params ==> id == Some(params["tourId"])
    ensures id.None? <==> ("id" !in params || params["id"] == "") && "tourId" !in params
  {
    if "id" in params && params["id"] != "" then Some(params["id"])
    else if "tourId" in params then Some(params["tourId"])
    else None
  }

  /** `req.params.id`. */
  function ParamId(params: map<string, string>): (id: Option<string>)
    ensures id.Some? <==> "id" in params
    ensures id.Some? ==> id.value == params["id"]
  {
    if "id" in params then Some(params["id"]) else None
  }

  /** The position the by-id lookup finds, if any; an undefined id finds
      nothing. */
  function Target<D>(docs: seq<D>, idOf: D -> string, id: Option<string>): (i: Option<nat>)
    ensures i.Some? ==> id.Some? && i.value < |docs| && idOf(docs[i.value]) == id.value
    ensures i.None? ==> id.None? || forall j :: 0 <= j < |docs| ==> idOf(docs[j]) != id.value
  {
    if id.None? then None else IndexOf(docs, idOf, id.value)
  }

  /** The collection without the document at position i. */
  function RemoveAt<D>(docs: seq<D>, i: nat): (r: seq<D>)
    requires i < |docs|
    ensures |r| == |docs| - 1
    ensures multiset(r) + multiset{docs[i]} == multiset(docs)
  {
    assert docs == docs[..i] + [docs[i]] + docs[i + 1..];
    docs[..i] + docs[i + 1..]
  }

  /** When ids are unique, removing the document found by its id leaves no
      document with that id and every other document in place. */
  lemma RemoveAtDropsExactlyThat<D>(docs: seq<D>, idOf: D -> string, i: nat)
    requires i < |docs|
    requires forall j, k :: 0 <= j < k < |docs| ==> idOf(docs[j]) != idOf(docs[k])
    ensures forall d :: d in RemoveAt(docs, i) ==> idOf(d) != idOf(docs[i])
    ensures forall j :: 0 <= j < |docs| && j != i ==> docs[j] in RemoveAt(docs, i)
  {
    var r := RemoveAt(docs, i);
    forall d | d in r
      ensures idOf(d) != idOf(docs[i])
    {
      var k :| 0 <= k < |r| && r[k] == d;
      if k < i {
        assert r[k] == docs[k];
      } else {
        assert r[k] == docs[k + 1];
      }
    }
    forall j | 0 <= j < |docs| && j != i
      ensures docs[j] in r
    {
      if j < i {
        assert r[j] == docs[j];
      } else {
        assert r[j - 1] == docs[j];
      }
    }
  }

  /** `DeleteOne(Model)`: removes the document found by the id and answers
      204; when none is found it fails with 400 and changes nothing. */
  method DeleteOne<D>(coll: Collection<D>, params: map<string, string>) returns (r: Result<int>)
    modifies coll
    ensures Target(old(coll.docs), coll.idOf, DeleteId(params)).None? ==>
              r == Err(NewAppError(DeleteNotFoundMessage, 400)) && coll.docs == old(coll.docs)
    ensures Target(old(coll.docs), coll.idOf, DeleteId(params)).Some? ==>
              r == Ok(204)
              && coll.docs == RemoveAt(old(coll.docs), Target(old(coll.docs), coll.idOf, DeleteId(params)).value)
  {
    var id := DeleteId(params);
    if id.None? {
      return Err(NewAppError(DeleteNotFoundMessage, 400));
    }
    var doc := coll.FindByIdAndDelete(id.value);
    if doc.None? {
      return Err(NewAppError(DeleteNotFoundMessage, 400));
    }
    return Ok(204);
  }

  /** `UpdateOne(Model)`: applies the body to the document found by
      `params.id` only, runs no validators and answers 200 with the document
      as it was before the update; when none is found it fails with 404.
      The model's unique index (key equality `sameKey`) still applies: an
      update that would duplicate another document's key fails with that
      index's duplicate-key error `duplicateError` and changes nothing. */
  method UpdateOne<D>(coll: Collection<D>, params: map<string, string>, update: D -> D,
                      sameKey: (D, D) -> bool, duplicateError: ErrorValue) returns (r: Result<Reply<D>>)
    modifies coll
    ensures Target(old(coll.docs), coll.idOf, ParamId(params)).None? ==>
              r == Err(NewAppError(UpdateNotFoundMessage, 404)) && coll.docs == old(coll.docs)
    ensures Target(old(coll.docs), coll.idOf, ParamId(params)).Some? ==>
              var i := Target(old(coll.docs), coll.idOf, ParamId(params)).value;
              if KeyTaken(old(coll.docs), i, update(old(coll.docs)[i]), sameKey) then
                r == Err(duplicateError) && coll.docs == old(coll.docs)
              else
                r == Ok(Reply(200, Some(old(coll.docs)[i])))
                && coll.docs == old(coll.docs)[i := update(old(coll.docs)[i])]
    ensures (forall a, b :: sameKey(a, b) == sameKey(b, a)) && KeysUnique(old(coll.docs), sameKey) ==>
              KeysUnique(coll.docs, sameKey)
  {
    var id := ParamId(params);
    if id.None? {
      return Err(NewAppError(UpdateNotFoundMessage, 404));
    }
    var doc, duplicate := coll.FindByIdAndUpdateUnique(id.value, update, sameKey);
    if duplicate {
      return Err(duplicateError);
    }
    if doc.None? {
      return Err(NewAppError(UpdateNotFoundMessage, 404));
    }
    if (forall a, b :: sameKey(a, b) == sameKey(b, a)) && KeysUnique(old(coll.docs), sameKey) {
      UpdateKeepsKeysUnique(old(coll.docs), old(coll.IndexOfId(id.value)).value, update(doc.value), sameKey);
    }
    return Ok(Reply(200, doc));
  }

  /** `GetOne(Model, popOptions)`: the not-found test looks at the query
      object, which always exists, so the answer is 200 whether or not a
      document was found; the document is populated only when options are
      given. */
  method GetOne<D>(coll: Collection<D>, params: map<string, string>, popOptions: Option<D -> D>) returns (r: Reply<D>)
    ensures r.statusCode == 200
    ensures Target(coll.docs, coll.idOf, ParamId(params)).None? ==> r.data.None?
    ensures Target(coll.docs, coll.idOf, ParamId(params)).Some? ==>
              var d := coll.docs[Target(coll.docs, coll.idOf, ParamId(params)).value];
              r.data == Some(if popOptions.Some? then popOptions.value(d) else d)
  {
    var id := ParamId(params);
    var doc: Option<D> := None;
    if id.Some? {
      doc := coll.FindById(id.value);
    }
    if doc.Some? && popOptions.Some? {
      doc := Some(popOptions.value(doc.value));
    }
    return Reply(200, doc);
  }

  // ---------------------------------------------------------------------
  // The review instances
  // ---------------------------------------------------------------------

  /** `DeleteOne(reviewModel)` as written: the post hook throws on a missing
      review before the handler's own 400 check is reached. */
  method DeleteReview(reviews: Collection<Review>, tours: Collection<Tour>, params: map<string, string>)
    returns (r: Result<int>)
    modifies reviews, tours
    ensures Target(old(reviews.docs), reviews.idOf, DeleteId(params)).None? ==>
              r == Err(NullDocError) && reviews.docs == old(reviews.docs) && tours.docs == old(tours.docs)
    ensures Target(old(reviews.docs), reviews.idOf, DeleteId(params)).Some? ==>
              var i := Target(old(reviews.docs), reviews.idOf, DeleteId(params)).value;
              r == Ok(204) && reviews.docs == RemoveAt(old(reviews.docs), i)
              && tours.docs == RecomputedTours(old(tours.docs), tours.idOf, reviews.docs, old(reviews.docs)[i].tour)
    ensures UniquePairs(old(reviews.docs)) ==> UniquePairs(reviews.docs)
  {
    var id := DeleteId(params);
    if id.None? {
      return Err(NullDocError);
    }
    var doc := FindByIdAndDeleteReview(reviews, tours, id.value);
    if doc.Err? {
      return Err(doc.err);
    }
    return Ok(204);
  }

  /** A missing review is answered 500 "something wrong happen" outside
      development mode, where a missing document of any other model gets
      400 "No Document found with that Id". */
  lemma MissingReviewAnswer(nodeEnv: string)
    requires nodeEnv != DevelopmentMode
    ensures Handle(NullDocError, nodeEnv) == Response(500, Some("fail"), GenericMessage, false)
    ensures Handle(NewAppError(DeleteNotFoundMessage, 400), nodeEnv).statusCode == 400
  {
    LibraryErrorRows(NullDocError, nodeEnv);
    AppErrorReachesClient(DeleteNotFoundMessage, 400, nodeEnv);
  }

  /** `DeleteOne(reviewModel)` with a hook that skips a null result: a
      missing review gets the handler's own 400, like every other model. */
  method DeleteReviewGuarded(reviews: Collection<Review>, tours: Collection<Tour>, params: map<string, string>)
    returns (r: Result<int>)
    modifies reviews, tours
    ensures Target(old(reviews.docs), reviews.idOf, DeleteId(params)).None? ==>
              r == Err(NewAppError(DeleteNotFoundMessage, 400))
              && reviews.docs == old(reviews.docs) && tours.docs == old(tours.docs)
    ensures Target(old(reviews.docs), reviews.idOf, DeleteId(params)).Some? ==>
              var i := Target(old(reviews.docs), reviews.idOf, DeleteId(params)).value;
              r == Ok(204) && reviews.docs == RemoveAt(old(reviews.docs), i)
              && tours.docs == RecomputedTours(old(tours.docs), tours.idOf, reviews.docs, old(reviews.docs)[i].tour)
    ensures UniquePairs(old(reviews.docs)) ==> UniquePairs(reviews.docs)
  {
    var id := DeleteId(params);
    if id.None? {
      return Err(NewAppError(DeleteNotFoundMessage, 400));
    }
    var doc := DeleteAndRecompute(reviews, tours, id.value);
    if doc.None? {
      return Err(NewAppError(DeleteNotFoundMessage, 400));
    }
    return Ok(204);
  }

  /** `UpdateOne(reviewModel)` as written: a missing review ends in the
      hook's TypeError rather than the handler's 404; an update that would
      give the review the (user, tour) pair of another review fails with the
      duplicate-key error. */
  method UpdateReview(reviews: Collection<Review>, tours: Collection<Tour>, params: map<string, string>, update: Review -> Review)
    returns (r: Result<Reply<Review>>)
    modifies reviews, tours
    ensures Target(old(reviews.docs), reviews.idOf, ParamId(params)).None? ==>
              r == Err(NullDocError) && reviews.docs == old(reviews.docs) && tours.docs == old(tours.docs)
    ensures Target(old(reviews.docs), reviews.idOf, ParamId(params)).Some? ==>
              var i := Target(old(reviews.docs), reviews.idOf, ParamId(params)).value;
              if KeyTaken(old(reviews.docs), i, update(old(reviews.docs)[i]), SamePair) then
                r == Err(DuplicateReviewError) && reviews.docs == old(reviews.docs) && tours.docs == old(tours.docs)
              else
                r == Ok(Reply(200, Some(old(reviews.docs)[i])))
                && reviews.docs == old(reviews.docs)[i := update(old(reviews.docs)[i])]
                && tours.docs == RecomputedTours(old(tours.docs), tours.idOf, reviews.docs, old(reviews.docs)[i].tour)
    ensures UniquePairs(old(reviews.docs)) ==> UniquePairs(reviews.docs)
  {
    var id := ParamId(params);
    if id.None? {
      return Err(NullDocError);
    }
    var doc := FindByIdAndUpdateReview(reviews, tours, id.value, update);
    if doc.Err? {
      return Err(doc.err);
    }
    return Ok(Reply(200, Some(doc.value)));
  }

  /** `UpdateOne(reviewModel)` with a hook that skips a null result: a
      missing review gets the handler's own 404; the unique index refuses
      an update as in UpdateReview. */
  method UpdateReviewGuarded(reviews: Collection<Review>, tours: Collection<Tour>, params: map<string, string>, update: Review -> Review)
    returns (r: Result<Reply<Review>>)
    modifies reviews, tours
    ensures Target(old(reviews.docs), reviews.idOf, ParamId(params)).None? ==>
              r == Err(NewAppError(UpdateNotFoundMessage, 404))
              && reviews.docs == old(reviews.docs) && tours.docs == old(tours.docs)
    ensures Target(old(reviews.docs), reviews.idOf, ParamId(params)).Some? ==>
              var i := Target(old(reviews.docs), reviews.idOf, ParamId(params)).value;
              if KeyTaken(old(reviews.docs), i, update(old(reviews.docs)[i]), SamePair) then
                r == Err(DuplicateReviewError) && reviews.docs == old(reviews.docs) && tours.docs == old(tours.docs)
              else
                r == Ok(Reply(200, Some(old(reviews.docs)[i])))
                && reviews.docs == old(reviews.docs)[i := update(old(reviews.docs)[i])]
                && tours.docs == RecomputedTours(old(tours.docs), tours.idOf, reviews.docs, old(reviews.docs)[i].tour)
    ensures UniquePairs(old(reviews.docs)) ==> UniquePairs(reviews.docs)
  {
    var id := ParamId(params);
    if id.None? {
      return Err(NewAppError(UpdateNotFoundMessage, 404));
    }
    var doc := UpdateAndRecompute(reviews, tours, id.value, update);
    if doc.Err? {
      return Err(doc.err);
    }
    if doc.value.None? {
      return Err(NewAppError(UpdateNotFoundMessage, 404));
    }
    return Ok(Reply(200, doc.value));
  }

  /** Outside development mode the duplicate-key error of a refused review
      update reaches the client as 409 with the driver's message. */
  lemma DuplicateReviewAnswered409(nodeEnv: string)
    requires nodeEnv != DevelopmentMode
    ensures Handle(DuplicateReviewError, nodeEnv).statusCode == 409
    ensures Handle(DuplicateReviewError, nodeEnv).message == DuplicateReviewError.message
  {
    LibraryErrorRows(DuplicateReviewError, nodeEnv);
  }
}
