/**
 * The tour document: its schema defaults and validators, the slug written on
 * every save, the filter that hides secret tours from `find`, and the stage
 * prepended to every aggregation pipeline.
 *
 * Numbers are exact reals (the source's doubles are not modelled), and
 * `slugify` is a parameter.
 */
module TourModel {
  import opened Js
  import opened AppErrors
  import opened Store

  /** A stored tour. Required numbers may be missing from a document that was
      never validated, hence Option; `secretTour` is None on documents
      stored without the field. */
  datatype Tour = Tour(
    id: string,
    name: string,
    rating: real,
    price: Option<real>,
    duration: Option<real>,
    maxGroupSize: Option<real>,
    difficulty: string,
    ratingsAverage: real,
    ratingsQuantity: int,
    priceDiscount: Option<real>,
    summary: string,
    imageCover: string,
    slug: string,
    secretTour: Option<bool>)

  /** The fields of a create request; None is a field the body leaves out. */
  datatype TourInput = TourInput(
    name: string,
    rating: Option<real>,
    price: Option<real>,
    duration: Option<real>,
    maxGroupSize: Option<real>,
    difficulty: Option<string>,
    ratingsAverage: Option<real>,
    ratingsQuantity: Option<int>,
    priceDiscount: Option<real>,
    summary: string,
    imageCover: string,
    secretTour: Option<bool>)

  function OrElse<T>(o: Option<T>, default: T): (r: T)
    ensures o.Some? ==> r == o.value
    ensures o.None? ==> r == default
  {
    if o.Some? then o.value else default
  }

  /** A new document: the schema defaults fill every field the input leaves
      out. */
  function NewTour(id: string, input: TourInput): (t: Tour)
    ensures input.rating.None? ==> t.rating == 3.0
    ensures input.difficulty.None? ==> t.difficulty == "easy"
    ensures input.ratingsAverage.None? ==> t.ratingsAverage == 4.1
    ensures input.ratingsQuantity.None? ==> t.ratingsQuantity == 0
    ensures input.secretTour.None? ==> t.secretTour == Some(false)
    ensures t.secretTour.Some?
    ensures t.id == id && t.name == input.name && t.price == input.price && t.priceDiscount == input.priceDiscount
  {
    Tour(id, input.name, OrElse(input.rating, 3.0), input.price, input.duration, input.maxGroupSize,
         OrElse(input.difficulty, "easy"), OrElse(input.ratingsAverage, 4.1), OrElse(input.ratingsQuantity, 0),
         input.priceDiscount, input.summary, input.imageCover, "", Some(OrElse(input.secretTour, false)))
  }

  // ---------------------------------------------------------------------
  // Validation
  // ---------------------------------------------------------------------

  const Difficulties := {"easy", "difficult", "medium"}

  /** The discount validator: the discount must be strictly below the price
      (a comparison with a missing price is false). */
  predicate DiscountValid(discount: real, price: Option<real>)
  {
    price.Some? && discount < price.value
  }

  function RequiredMessage(path: string): string
  {
    "Path `" + path + "` is required."
  }

  /** The failing paths, in schema order, as "path: message". */
  function TourFailures(t: Tour): seq<string>
  {
    (if t.name == "" then ["name: Tour must have a Name"] else [])
    + (if t.rating < 1.0 then ["rating: rating should be more the 1"]
       else if t.rating > 5.0 then ["rating: rating should be less the 5"] else [])
    + (if t.price.None? then ["price: Tour must have a Price"] else [])
    + (if t.duration.None? then ["duration: " + RequiredMessage("duration")] else [])
    + (if t.maxGroupSize.None? then ["maxGroupSize: " + RequiredMessage("maxGroupSize")] else [])
    + (if t.difficulty !in Difficulties
       then ["difficulty: `" + t.difficulty + "` is not a valid enum value for path `difficulty`."] else [])
    + (if t.priceDiscount.Some? && !DiscountValid(t.priceDiscount.value, t.price)
       then ["priceDiscount: discount price less the actual price"] else [])
    + (if t.summary == "" then ["summary: " + RequiredMessage("summary")] else [])
    + (if t.imageCover == "" then ["imageCover: " + RequiredMessage("imageCover")] else [])
  }

  function ValidateTour(t: Tour): (e: Option<ErrorValue>)
    ensures e.None? <==> TourFailures(t) == []
    ensures e.Some? ==> e.value.name == "ValidationError" && !e.value.operational
  {
    var failures := TourFailures(t);
    if failures == [] then None
    else Some(ForeignError("ValidationError", "Tour validation failed: " + Join(failures, ", ")))
  }

  /** A tour is valid exactly when its name, price, duration, group size,
      summary and cover are present, its rating lies in [1, 5], its
      difficulty is one of the three levels and any discount is strictly
      below the price. */
  lemma ValidationMeaning(t: Tour)
    ensures ValidateTour(t).None? <==>
      t.name != "" && 1.0 <= t.rating <= 5.0 && t.price.Some? && t.duration.Some? && t.maxGroupSize.Some?
      && t.difficulty in {"easy", "difficult", "medium"}
      && (t.priceDiscount.Some? ==> t.priceDiscount.value < t.price.value)
      && t.summary != "" && t.imageCover != ""
  {
  }

  /** The defaults themselves never fail validation: a rating of 3 and the
      difficulty "easy". */
  lemma DefaultsValid(id: string, input: TourInput)
    requires input.rating.None? && input.difficulty.None?
    ensures var t := NewTour(id, input);
      1.0 <= t.rating <= 5.0 && t.difficulty in Difficulties
  {
  }

  // ---------------------------------------------------------------------
  // Save hook
  // ---------------------------------------------------------------------

  /** The pre-save hook: the slug is recomputed from the current name. */
  function PreSaveTour(t: Tour, slugify: string -> string): (r: Tour)
    ensures r.slug == slugify(t.name)
    ensures r.(slug := t.slug) == t
  {
    t.(slug := slugify(t.name))
  }

  /** Saving again changes nothing more, and tours of the same name get the
      same slug. */
  lemma SlugStable(t: Tour, u: Tour, slugify: string -> string)
    ensures PreSaveTour(PreSaveTour(t, slugify), slugify) == PreSaveTour(t, slugify)
    ensures t.name == u.name ==> PreSaveTour(t, slugify).slug == PreSaveTour(u, slugify).slug
  {
  }

  const DuplicateNameError := ForeignError("MongoServerError", "E11000 duplicate key error collection: tours index: name_1")

  /** `Tour.create`: defaults, validation, the slug hook, then the unique
      index on name. */
  function CreateTour(docs: seq<Tour>, id: string, input: TourInput, slugify: string -> string): (r: (seq<Tour>, Option<ErrorValue>))
    ensures r.1.None? <==> ValidateTour(NewTour(id, input)).None? && forall t :: t in docs ==> t.name != input.name
    ensures ValidateTour(NewTour(id, input)).Some? ==> r.1 == ValidateTour(NewTour(id, input))
    ensures ValidateTour(NewTour(id, input)).None? && r.1.Some? ==> r.1 == Some(DuplicateNameError)
    ensures r.1.None? ==> r.0 == docs + [PreSaveTour(NewTour(id, input), slugify)]
    ensures r.1.Some? ==> r.0 == docs
  {
    var t := NewTour(id, input);
    match ValidateTour(t)
    case Some(e) => (docs, Some(e))
    case None =>
      var saved := PreSaveTour(t, slugify);
      if FirstMatch(docs, (d: Tour) => d.name == saved.name).Some? then (docs, Some(DuplicateNameError))
      else (docs + [saved], None)
  }

  predicate SameName(a: Tour, b: Tour)
  {
    a.name == b.name
  }

  /** The unique index on name: no two stored tours share a name. */
  predicate UniqueNames(docs: seq<Tour>)
  {
    KeysUnique(docs, SameName)
  }

  /** Every create keeps the names unique. */
  lemma CreateKeepsUniqueNames(docs: seq<Tour>, id: string, input: TourInput, slugify: string -> string)
    requires UniqueNames(docs)
    ensures UniqueNames(CreateTour(docs, id, input, slugify).0)
  {
    var r := CreateTour(docs, id, input, slugify);
    if r.1.None? {
      forall i, j | 0 <= i < j < |r.0|
        ensures !SameName(r.0[i], r.0[j])
      {
        if j == |docs| {
          assert r.0[i] in docs;
        }
      }
    }
  }

  // ---------------------------------------------------------------------
  // Secret tours
  // ---------------------------------------------------------------------

  predicate Visible(t: Tour)
  {
    t.secretTour != Some(true)
  }

  /** What `find` returns after the pre-find hook adds
      `secretTour: { $ne: true }`: the tours not marked secret, in order. */
  function VisibleTours(docs: seq<Tour>): (r: seq<Tour>)
    ensures forall t :: t in r <==> t in docs && Visible(t)
    ensures |r| <= |docs|
  {
    if docs == [] then []
    else (if Visible(docs[0]) then [docs[0]] else []) + VisibleTours(docs[1..])
  }

  /** The filter keeps the relative order of the tours: filtering a
      concatenation filters each part. */
  lemma {:induction false} VisibleToursConcat(a: seq<Tour>, b: seq<Tour>)
    ensures VisibleTours(a + b) == VisibleTours(a) + VisibleTours(b)
  {
    if a != [] {
      assert (a + b)[1..] == a[1..] + b;
      VisibleToursConcat(a[1..], b);
      assert (a + b)[0] == a[0];
      calc {
        VisibleTours(a + b);
        (if Visible(a[0]) then [a[0]] else []) + VisibleTours(a[1..] + b);
        (if Visible(a[0]) then [a[0]] else []) + (VisibleTours(a[1..]) + VisibleTours(b));
        ((if Visible(a[0]) then [a[0]] else []) + VisibleTours(a[1..])) + VisibleTours(b);
      }
    } else {
      assert a + b == b;
    }
  }

  /** Listings show every stored tour exactly when none is marked secret. */
  lemma {:induction false} VisibleToursAll(docs: seq<Tour>)
    ensures VisibleTours(docs) == docs <==> forall i :: 0 <= i < |docs| ==> Visible(docs[i])
  {
    if docs != [] {
      VisibleToursAll(docs[1..]);
      if !Visible(docs[0]) {
        assert docs[0] !in VisibleTours(docs);
      } else if VisibleTours(docs) == docs {
        assert VisibleTours(docs[1..]) == docs[1..];
      }
    }
  }

  /** A lookup by id does not go through the pre-find hook: a secret tour is
      hidden from listings but still found by its id. */
  lemma SecretFoundById(docs: seq<Tour>, t: Tour)
    requires t in docs && t.secretTour == Some(true)
    ensures t !in VisibleTours(docs)
    ensures IndexOf(docs, (d: Tour) => d.id, t.id).Some?
  {
  }

  // ---------------------------------------------------------------------
  // Aggregation hook
  // ---------------------------------------------------------------------

  /** An aggregation stage: its operator and its argument. */
  datatype Stage = Stage(op: string, arg: string)

  const MatchNotSecret := Stage("$match", "{ secretTour: { $ne: true } }")

  /** The pipeline of an aggregation on tours. */
  class Aggregate {
    var pipeline: seq<Stage>

    constructor (stages: seq<Stage>)
      ensures pipeline == stages
    {
      pipeline := stages;
    }

    /** The pre-aggregate hook: the secret filter goes in front of every
        pipeline, the original stages follow in order. */
    method PreAggregate()
      modifies this
      ensures |pipeline| == |old(pipeline)| + 1
      ensures pipeline[0] == MatchNotSecret && pipeline[1..] == old(pipeline)
    {
      pipeline := [MatchNotSecret] + pipeline;
    }
  }
}
