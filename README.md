# noturs-Ts core, modelled in Dafny

This project models the decision logic of noturs-Ts, an Express/Mongoose API for booking tours. It states properties of that logic and proves them. The modelled parts are:

- **List-query builder.** The `APIFeatures` class (`filter`, `sort`, `fields`, `pagination`) and the `aliasTopTours` preset. Filtering drops `page`/`sort`/`limit`/`field` and prefixes the whole words `gte`, `gt`, `lte` and `lt` with `$`, in keys and values alike. Sort and projection lists turn commas into spaces. The window is `skip = limit * (page - 1)` with `parseInt` semantics and no bound checks.
- **Errors.** The `AppError` record, with `status` derived from the first digit of the code's decimal text. The global error handler's ordered decision table, the 404 for unknown URLs and `sendResponse`.
- **Access control.** The `protect` check chain (cookie, token verification, lookup, password-changed test) and the `restrictTo` role predicate.
- **Users.** The user document: role enum, validators, the two pre-save hooks, `isPasswordChanged` and the reset-token fields. Also the account handlers (`signUp`, `signIn`, `updatePassword`, `forgetPassword`, `resetPassword`, `deleteMe`) as a state machine over a user collection.
- **Tours.** The tour document: defaults, validators (including `priceDiscount < price`), the slug written on save, the pre-find filter hiding secret tours, and the `$match` stage prepended to every aggregation.
- **Reviews.** The review document: rating bounds, the unique (user, tour) index, and `calcAverageRatings` with the post hooks that run it after every save and every `findOneAnd…` operation.
- **Factory handlers.** The generic `DeleteOne`, `UpdateOne` and `GetOne`, and their instances on the review model.

A `Collection<D>` class stands for a Mongoose model. It holds an ordered sequence of documents, a lookup returns the first match, and `findByIdAndUpdate` returns the document as it was before the update. Unique indexes (review (user, tour), tour name, user email) hold on every write: a create or an update that would duplicate a key fails with MongoDB's E11000 error and changes nothing. Parameters stand in for external effects:

- token signing and verification;
- bcrypt hashing and comparison;
- SHA-256;
- random bytes;
- `slugify`;
- the mail transport (reduced to the error it may throw);
- the clock (`now` in milliseconds).

Where a handler changes state, it is a method on the collection. Its `ensures` ties the new state and the answer to a specification function of the old state (`…Outcome`, `RecomputedTours`). The lemmas are stated about those functions.

## Model

| member | source | states |
|---|---|---|
| AppErrors.NewAppError | utils/AppError.ts:6-12 | The code is kept exactly as given and the message is passed on. The status is the text derived from the code. The error is always operational. |
| AppErrors.StatusFailRange | utils/AppError.ts:10 | For a code of k+1 digits, the status is "fail" exactly when the code lies in [4·10^k, 5·10^k). |
| AppErrors.StatusOfNonPositive | utils/AppError.ts:10 | Zero and negative codes get "error", since their text starts with '0' or '-'. |
| AppErrors.StatusExamples | utils/AppError.ts:10 | 400, 401, 404, 4 and 4000 are "fail". 500, 20 and 204 are "error". |
| ErrorHandler.DefaultCode | middlewares/error.ts:34 | A missing or zero code becomes 500. Any other code is kept. |
| ErrorHandler.SendResponse | middlewares/error.ts:22-24 | The response carries the error's code, status and message, and no diagnostics. |
| ErrorHandler.DevelopmentEchoes | middlewares/error.ts:37-44 | In DEVELOPMENT mode every error is echoed with its defaulted code, the status of that code, its own message and diagnostics, whatever its kind. |
| ErrorHandler.OperationalFirst | middlewares/error.ts:46-48 | Outside development mode an operational error gets its own code and message, before any test on the error's name. |
| ErrorHandler.ProductionCodes | middlewares/error.ts:46-73 | Outside development mode no diagnostics are sent. A non-operational error gets one of 400, 401, 403, 409 and 500. |
| ErrorHandler.LibraryErrorRows | middlewares/error.ts:50-73 | CastError gets 400 "invalid path: value". MongoServerError gets 409 and ValidationError 403, both with the original message. Token errors get 401 with the re-login message. Anything else gets 500 "fail" "something wrong happen". |
| ErrorHandler.StatusNotRecomputed | middlewares/error.ts:33-35 | The remapped rows send the copy taken before line 35, so their status is the one the error carried, not the text of the new code. The catch-all row's "fail" differs from the text of 500. |
| ErrorHandler.AppErrorReachesClient | middlewares/error.ts:46-48 | An AppError with a non-zero code reaches the client with that code, its status and its message. |
| ErrorHandler.NotFoundResponse | middlewares/error.ts:6-12 | An unknown URL is answered 404 "fail" with the URL in the message. |
| ErrorHandler.GlobalErrorHandler | middlewares/error.ts:27-74 | The answer is the decision table applied to the error as it arrived. The error object is left with its code defaulted and its status recomputed. |
| Js.JoinSplit | utils/APIFeatures.ts:29 | `split(",").join(" ")` equals replacing every comma with a space. |
| Js.ParseIntDecimalText | utils/APIFeatures.ts:45-50 | `parseInt` of an integer's decimal text gives that integer back. |
| APIFeatures.RewriteRoundTrip | utils/APIFeatures.ts:14-19 | Removing the `$` in front of each whole operator word gives the original string back. |
| APIFeatures.RewriteInjective | utils/APIFeatures.ts:14-19 | Two different keys never rewrite to the same key. |
| APIFeatures.RewriteLength | utils/APIFeatures.ts:14-19 | The rewrite adds exactly one character per whole operator word. |
| APIFeatures.OpWordsPreserved | utils/APIFeatures.ts:14-19 | The rewritten string contains exactly as many whole operator words as the input. |
| APIFeatures.NoOperatorUnchanged | utils/APIFeatures.ts:14-19 | A string without a whole operator word is unchanged. |
| APIFeatures.RewriteNotIdempotent | utils/APIFeatures.ts:14-19 | A second pass changes the string exactly when it holds an operator word, adding one more `$` to each one. |
| APIFeatures.SingleWord | utils/APIFeatures.ts:16-17 | A lone operator word gets one `$`. Any other word is unchanged. |
| APIFeatures.OperatorWordExamples | utils/APIFeatures.ts:16-17 | "gte" becomes "$gte" and "lt" becomes "$lt". |
| APIFeatures.PartWordExamples | utils/APIFeatures.ts:16-17 | "gtx" and "price_gte" are unchanged: they are not whole words. |
| APIFeatures.DollarExample | utils/APIFeatures.ts:16-17 | "$gte" becomes "$$gte", because `$` is not a word character. |
| APIFeatures.ControlExample | utils/APIFeatures.ts:14-17 | An operator word right after a control character is unchanged, because the character's JSON escape ends in a word character. |
| APIFeatures.RewriteObject | utils/APIFeatures.ts:14-19 | Every key is rewritten with its value rewritten. Every key of the result comes from exactly one input key. |
| APIFeatures.FilterConditions | utils/APIFeatures.ts:10-19 | Every non-reserved key appears rewritten, with its rewritten value. Every condition comes from a non-reserved parameter. |
| APIFeatures.FilterKeys | utils/APIFeatures.ts:10-12 | The four reserved keys never appear among the conditions. Every other key with nothing to prefix is kept, with its rewritten value. |
| APIFeatures.ValuesRewrittenToo | utils/APIFeatures.ts:14-19 | String values are rewritten as well: a value "lt" becomes "$lt". |
| APIFeatures.ListParam | utils/APIFeatures.ts:24-42 | The list is the parameter (or the fallback when absent or empty) with commas replaced by spaces, and it contains no comma. A repeated or bracketed parameter throws a TypeError. |
| APIFeatures.ListDefaults | utils/APIFeatures.ts:25-38 | Without parameters the sort is "createdAt" and the projection "-__v". |
| APIFeatures.SkipOf | utils/APIFeatures.ts:51 | The skip is a number exactly when both page and limit are. |
| APIFeatures.DefaultWindow | utils/APIFeatures.ts:45-51 | Without page and limit the window is limit 100, skip 0. |
| APIFeatures.DecimalWindow | utils/APIFeatures.ts:45-52 | Decimal page and limit give skip = limit·(page−1) with no bound checked. Page "0" gives skip −limit. |
| APIFeatures.NonNumericPage | utils/APIFeatures.ts:45-51 | A page starting with a letter parses to NaN, and so does the skip. |
| APIFeatures.Features.constructor | utils/APIFeatures.ts:4-7 | The builder keeps the query and the parameters. |
| APIFeatures.Features.Filter | utils/APIFeatures.ts:9-22 | The loop deletes the four reserved keys from a copy. The rewritten copy is added to the conditions. The parameters keep all their keys. |
| APIFeatures.Features.Sort | utils/APIFeatures.ts:24-32 | The sort spec is set, or the TypeError is reported and the query left unchanged. |
| APIFeatures.Features.Fields | utils/APIFeatures.ts:34-42 | The projection is set, or the TypeError is reported and the query left unchanged. |
| APIFeatures.Features.Pagination | utils/APIFeatures.ts:44-55 | Limit and skip are set to the parsed values and nothing else changes. |
| APIFeatures.ListQuery | controllers/userController.ts:176-184 | The chained builder gives the conditions, sort, projection, limit and skip above, or the first TypeError thrown. |
| TourMiddleware.TopToursPreset | middlewares/tour.ts:8-10 | `limit`, `sort` and `field` are set whatever the caller sent. Every other key is kept. |
| TourMiddleware.PresetKeepsPage | middlewares/tour.ts:8-10 | The caller's page is unchanged. |
| TourMiddleware.TopToursWindow | middlewares/tour.ts:8 | After the preset the limit is 5 and the skip is 5·(page−1). |
| TourMiddleware.TopToursSort | middlewares/tour.ts:9 | The sort spec becomes "-ratingsAverage price". |
| TourMiddleware.TopToursProjection | middlewares/tour.ts:10 | The projection becomes "name price ratingsAverage summary difficulty". |
| TourMiddleware.TopToursFilter | middlewares/tour.ts:8-10 | The filter conditions are those of the caller's query. |
| TourMiddleware.AliasTopTours | middlewares/tour.ts:3-12 | The query is updated in place to the preset, nothing else on the request changes, and `next()` is called with no error. |
| Auth.ProtectDecision | middlewares/auth.ts:31-54 | With no cookie the answer is 401 "logging to continue". A rejected token passes its error on. The request is admitted exactly when the token verifies, a user has its id and the password has not changed since the token was issued. |
| Auth.ProtectRefusals | middlewares/auth.ts:31-51 | Every refusal of its own is a 401 with one of the three messages. The only other refusal is the token library's error. |
| Auth.FreshTokenAdmitted | middlewares/auth.ts:50-54 | A token issued at or after the last password change is admitted. |
| Auth.Protect | middlewares/auth.ts:22-56 | On success the user is attached and the chain continues. Otherwise the chain stops with the decision's error and the request is unchanged. |
| Auth.RestrictTo | middlewares/auth.ts:58-68 | The request continues exactly when the user's role is listed. Otherwise it stops with 401, not 403. Without a user it stops with a TypeError. |
| Auth.RestrictToNobody | middlewares/auth.ts:60 | An empty role list admits nobody. |
| Auth.RouteRoles | routes/tourRouter.ts:19-25 | The routes' role lists admit exactly the intended roles. |
| UserModel.ParseRole | models/userModel.ts:37-42 | Exactly the four role names are accepted. |
| UserModel.RoleRoundTrip | models/userModel.ts:37-42 | Every role's name parses back to that role. |
| UserModel.NewUser | models/userModel.ts:37-43 | A new user has role "user", is active and has no reset or change fields. |
| UserModel.CeilSeconds | models/userModel.ts:102 | Milliseconds are rounded up to whole seconds. |
| UserModel.TokenAfterChangeAccepted | models/userModel.ts:79-103 | With passwordChangeAt = now−1000, a token with iat ≥ floor(now/1000) is not stale. |
| UserModel.TokenBeforeChangeRejected | models/userModel.ts:79-103 | A token issued more than a second before the change is stale. |
| UserModel.PreSaveEffect | models/userModel.ts:67-82 | If the password is not modified, nothing changes. If it is, the hash is stored and the confirmation cleared. passwordChangeAt becomes now−1000 only on a document that is not new. |
| UserModel.SavedChangeKeepsNewTokens | models/userModel.ts:67-107 | After a saved password change, tokens issued from then on still pass. |
| UserModel.ResetTokenWindow | models/userModel.ts:109-121 | The returned token's digest opens the reset exactly before now+600000 ms. Only the two reset fields change. |
| UserModel.ValidateUser | models/userModel.ts:28-59 | The save fails with a ValidationError exactly when a validator fails. |
| UserModel.ValidationMeaning | models/userModel.ts:28-59 | A user is valid exactly when names and email are present, the password has at least 8 characters and the confirmation equals it. |
| UserController.CreateSendToken | controllers/userController.ts:13-27 | The cookie holds the signed id, expires COOKIE_EXPIRE days after now, is http-only, and is secure exactly in PRODUCTION. |
| UserController.ResetIndex | controllers/userController.ts:132-135 | The lookup finds the first user holding the digest with an expiry after now. |
| UserController.ValidatedSave | controllers/userController.ts:139-144 | Validation runs on the plaintext first, then the hooks hash it. |
| UserController.SignUpEffect | controllers/userController.ts:30-46 | The sign-up succeeds exactly when both names and the email are given, the password has at least 8 characters, the confirmation equals it and the email is fresh. Then exactly one user is added: role "user", active, the hashed password, no confirmation and no passwordChangeAt. The answer is 201 with a cookie for the new id. Otherwise nothing changes, and the error is the ValidationError or, for a taken email, the E11000 error. |
| UserController.SignUp | controllers/userController.ts:30-46 | The body's six fields and a new id build the user. The new collection and the answer are those of SignUpOutcome. |
| UserController.SignIn | controllers/userController.ts:48-66 | A bad body gets 400 before any lookup. A valid body gets 200 with a cookie for the first user with that email exactly when that user exists and the password matches. Otherwise it gets 401 with no cookie. |
| UserController.UpdatePasswordEffect | controllers/userController.ts:68-87 | An unknown user or a wrong current password gets 400 and nothing changes. Otherwise the answer is always 200, and only a valid new password is stored, hashed and dated now−1000. |
| UserController.UpdatePassword | controllers/userController.ts:68-87 | The new collection and the answer are those of UpdatePasswordOutcome. |
| UserController.ForgetEffect | controllers/userController.ts:89-125 | An unknown email gets 404 and nothing changes. A failed mail clears both reset fields and raises the mail error. A sent mail stores the token's digest, valid for ten minutes. No other field or user changes. |
| UserController.ForgetPassword | controllers/userController.ts:89-125 | The new collection and the answer are those of ForgetOutcome. |
| UserController.ResetEffect | controllers/userController.ts:127-148 | With no matching unexpired token the answer is 400. A failure changes nothing. Success replaces exactly that user's password by its hash, clears the reset fields, dates the change and answers 200 with a cookie. |
| UserController.ResetPassword | controllers/userController.ts:127-148 | The new collection and the answer are those of ResetOutcome. |
| UserController.ForgetThenReset | controllers/userController.ts:89-148 | The mailed token resets the same user's password within the window. Used a second time, it is refused with 400. |
| UserController.ResetEndsOldSessions | controllers/userController.ts:127-148 | After a reset, older sessions are stale and new ones pass. |
| UserController.DeleteMe | controllers/userController.ts:194-201 | Only `active` of the caller becomes false. The answer has status 20. |
| UserController.EmailIndexIgnoresActive | controllers/userController.ts:59 | The lookup by email finds the same user whether or not it was deactivated. |
| UserController.DeletedUserStillSignsIn | controllers/userController.ts:59-64 | Sign-in gives the same answer before and after deleteMe. |
| Store.Collection.FindById | controllers/handleFactory.ts:31 | A document is found exactly when one has the id, and the one found has it. |
| Store.Collection.FindByIdAndDelete | controllers/handleFactory.ts:9 | The first document with the id is removed and returned. Without one, nothing changes. |
| Store.Collection.FindByIdAndUpdate | controllers/handleFactory.ts:21 | Only that document is updated, and it is returned as it was before the update. |
| Store.Collection.FindByIdAndUpdateUnique | controllers/handleFactory.ts:21 | An update that would give the document a key another document holds is refused as a duplicate and changes nothing. Otherwise it is as FindByIdAndUpdate. |
| Store.UpdateKeepsKeysUnique | models/reviewModel.ts:30 | For a symmetric key equality, an update the index does not refuse keeps the keys unique. |
| Store.RemoveKeepsKeysUnique | models/reviewModel.ts:30 | Removing a document keeps the keys unique. |
| TourModel.NewTour | models/tourModel.ts:46-85 | The defaults are rating 3, difficulty "easy", ratingsAverage 4.1, ratingsQuantity 0 and secretTour false. |
| TourModel.ValidateTour | models/tourModel.ts:40-80 | The save fails with a ValidationError exactly when a validator fails. |
| TourModel.ValidationMeaning | models/tourModel.ts:40-80 | A tour is valid exactly when the required fields are present, rating is in [1, 5], difficulty is one of the three levels, and any discount is strictly below the price (a missing price fails it). |
| TourModel.DefaultsValid | models/tourModel.ts:46-62 | The default rating and difficulty pass their validators. |
| TourModel.PreSaveTour | models/tourModel.ts:117-120 | The slug becomes slugify(name) and nothing else changes. |
| TourModel.SlugStable | models/tourModel.ts:117-120 | A second save changes nothing, and equal names give equal slugs. |
| TourModel.CreateTour | models/tourModel.ts:40-120 | The create succeeds exactly when the tour is valid and its name is unused; it then appends the tour with its slug set. An invalid tour gets its ValidationError, and a valid one with a used name gets the E11000 error on name. On failure nothing changes. |
| TourModel.CreateKeepsUniqueNames | models/tourModel.ts:40-45 | Unique names hold after every create. |
| TourModel.VisibleTours | models/tourModel.ts:123-126 | A listing holds exactly the tours whose secretTour is not true. |
| TourModel.VisibleToursConcat | models/tourModel.ts:123-126 | The filter keeps the order of the tours. |
| TourModel.VisibleToursAll | models/tourModel.ts:123-126 | A listing shows every tour exactly when none is secret. |
| TourModel.SecretFoundById | models/tourModel.ts:123-126 | A secret tour is missing from listings but still found by its id. |
| TourModel.Aggregate.PreAggregate | models/tourModel.ts:129-132 | The secret filter is inserted at position 0 and the original stages follow in order. |
| ReviewModel.NewReview | models/reviewModel.ts:15 | The rating defaults to 1. |
| ReviewModel.ValidateReview | models/reviewModel.ts:12-28 | A review is valid exactly when the text, tour and user are present and the rating is in [1, 5]. |
| ReviewModel.DefaultRatingValid | models/reviewModel.ts:15 | The default rating passes the bounds. |
| ReviewModel.ReviewsOf | models/reviewModel.ts:47-49 | The matched reviews are exactly those of the tour. |
| ReviewModel.RatingSumBounds | models/reviewModel.ts:53 | Bounds on each rating bound the sum by count·bound. |
| ReviewModel.MeanInRange | models/reviewModel.ts:15-53 | When every rating is in [1, 5], so is the mean. |
| ReviewModel.RecomputedTours | models/reviewModel.ts:41-64 | The recomputation keeps the number of tours. |
| ReviewModel.NoReviewsUntouched | models/reviewModel.ts:58 | A tour with no reviews is not written. |
| ReviewModel.RecomputeWritesThatTour | models/reviewModel.ts:58-61 | Only the tour with the id is written. It gets the count and the mean of its reviews, and its other fields are kept. |
| ReviewModel.RecomputedAverageInRange | models/reviewModel.ts:15-61 | With valid ratings the written average is in [1, 5]. |
| ReviewModel.CalcAverageRatings | models/reviewModel.ts:41-64 | The tour collection becomes RecomputedTours of the old one. |
| ReviewModel.CreateOutcome | models/reviewModel.ts:30-68 | The create succeeds exactly when the review is valid and its (user, tour) pair is new. It then appends the review and recomputes its tour. Otherwise nothing changes. |
| ReviewModel.CreateKeepsInvariants | models/reviewModel.ts:30 | Unique pairs and valid ratings hold after every create. |
| ReviewModel.SecondReviewRefused | models/reviewModel.ts:30 | A second review by the same user of the same tour gets the duplicate-key error. |
| ReviewModel.CreateCountsNewReview | models/reviewModel.ts:66-68 | After a create, the tour's count includes the new review. |
| ReviewModel.CreateReview | controllers/reviewController.ts:6-25 | The review is built from the user, the route's tour id and the body, then saved. The collections and answer are those of CreateOutcome. |
| ReviewModel.DeleteAndRecompute | models/reviewModel.ts:70-72 | With a null-safe hook, the delete recomputes the deleted review's tour over the remaining reviews; unique pairs are kept. |
| ReviewModel.UpdateAndRecompute | models/reviewModel.ts:30-72 | With a null-safe hook, a missing id changes nothing. An update that would duplicate another review's (user, tour) pair gets the E11000 error, and neither reviews nor tours change. Otherwise only that review is updated, the tour of the pre-update document is recomputed, and unique pairs are kept. |
| ReviewModel.UpdateKeepsUniquePairs | models/reviewModel.ts:30 | An update the index lets through keeps every (user, tour) pair unique. |
| ReviewModel.DeleteKeepsUniquePairs | models/reviewModel.ts:30 | A delete keeps every (user, tour) pair unique. |
| ReviewModel.UpdateCanCollide | models/reviewModel.ts:30 | Without the index check, moving a review onto a tour its user already reviewed would break unique pairs, and the check reports that update as taken. |
| ReviewModel.FindByIdAndDeleteReview | models/reviewModel.ts:70-72 | As written: the recomputation follows the delete, and a missing id ends in a TypeError; unique pairs are kept. |
| ReviewModel.FindByIdAndUpdateReview | models/reviewModel.ts:30-72 | As written: a missing id ends in a TypeError. A duplicate pair gets the E11000 error with nothing changed. Otherwise the recomputation follows the update, and unique pairs are kept. |
| ReviewModel.UnvalidatedUpdateEscapesBounds | controllers/handleFactory.ts:21 | An update that skips validators can leave a rating of 10, and the tour's average then becomes 10. |
| ReviewModel.MovedReviewNotCounted | models/reviewModel.ts:70-72 | A review moved to another tour does not update the tour it moved to. |
| ReviewModel.LastReviewDeletedStale | models/reviewModel.ts:58 | Deleting a tour's last review leaves its count and average stale. |
| HandleFactory.DeleteId | controllers/handleFactory.ts:7 | The id is `params.id`, falling back to `params.tourId` when that is empty or absent. |
| HandleFactory.RemoveAt | controllers/handleFactory.ts:9 | Removal drops exactly one occurrence of the document. |
| HandleFactory.RemoveAtDropsExactlyThat | controllers/handleFactory.ts:9-13 | With unique ids, no document with the id remains and every other document stays. |
| HandleFactory.DeleteOne | controllers/handleFactory.ts:5-14 | A missing document gets 400 and nothing changes. A present one is removed, with answer 204. |
| HandleFactory.UpdateOne | controllers/handleFactory.ts:16-25 | A missing document gets 404. An update that would duplicate another document's unique key gets the model's E11000 error and nothing changes. Otherwise only that document is updated, the answer is 200 with its pre-update form, and unique keys are kept. |
| HandleFactory.GetOne | controllers/handleFactory.ts:27-40 | The answer is always 200, never 404. The data is empty for a missing id, and populated only when options are given. |
| HandleFactory.DeleteReview | controllers/handleFactory.ts:5-14 | On reviews a missing id gives the hook's TypeError instead of 400. A present one is removed, its tour recomputed, with answer 204; unique pairs are kept. |
| HandleFactory.MissingReviewAnswer | models/reviewModel.ts:70-72 | Outside development mode that TypeError is answered 500 "something wrong happen". |
| HandleFactory.DeleteReviewGuarded | controllers/handleFactory.ts:9-11 | With a null-safe hook, a missing review gets the handler's 400 and nothing changes; unique pairs are kept. |
| HandleFactory.UpdateReview | controllers/handleFactory.ts:16-25 | On reviews a missing id gives the hook's TypeError instead of 404. A duplicate (user, tour) pair gets the E11000 error and nothing changes. Otherwise the review is updated, the pre-update review's tour is recomputed, the answer is 200, and unique pairs are kept. |
| HandleFactory.UpdateReviewGuarded | controllers/handleFactory.ts:16-25 | With a null-safe hook, a missing review gets the handler's 404 and nothing changes. A duplicate pair gets the E11000 error and nothing changes. Otherwise it is as UpdateReview. |
| HandleFactory.DuplicateReviewAnswered409 | middlewares/error.ts:56-60 | Outside development mode a refused review update reaches the client as 409 with the driver's message. |

## Left out

- Floating point: prices, ratings and averages are exact reals, so the rounding of JavaScript doubles and of MongoDB's `$avg` is not modelled. The `durationWeeks` virtual (duration / 7) and the `fullName` virtual are left out.
- The text of Mongoose's numeric min/max messages: they print the offending value, but the model names only the path and the bound. Validation messages join failing paths in schema order, while Mongoose orders them by its own traversal.
- Mongoose casting: ObjectId casting (a malformed id raises a CastError before any lookup), the `lowercase` setter on email, `trim` on tour names and summaries, and type coercion of body fields.
- Mongoose merging of conditions: `find` conditions are merged with map override, and nested merging is not modelled. JSON key order inside nested objects is kept as a sequence but not otherwise interpreted.
- The user model's pre-find hook (`active != false`): no modelled operation uses `find` on users. `getAllUsers` is modelled only through `ListQuery`, which does not apply that hook. The review model's pre-find `populate` is also left out.
- `populate`, `select`/projection semantics and `explain`. `GetOne` applies a population function but does not model what it loads.
- Cryptography, the clock and randomness: the signer, verifier, bcrypt, SHA-256 and random bytes are parameters. `isPasswordChanged`'s `Date` conversion is taken as the stored milliseconds.
- The mail transport: its recipient (hard-coded in the source), subject and body are not modelled, only whether it throws.
- `catchAsync` and the Express chain: a thrown error is modelled as an `Err` or `Halt` value carrying it to the error handler.
- Sign-in body validation (zod) is a boolean parameter.
- `COOKIE_EXPIRE` is an integer parameter. A missing variable (NaN, an invalid date) is not modelled.
- Process environment: `NODE_ENV` is a parameter. `SALT` is inside the hash parameter.
- UserController.DeleteMe: the reply carries the status code 20 as written. Node rejects a status below 100 when the response is written, which turns the reply into the error handler's 500; that is not modelled.
- UserController.UpdatePassword: the save that is not awaited is modelled as completing before the next request. An error it raises after the 200 (an unhandled rejection) is not modelled.
- `updateMe`, `getUser`, `getMe`, `deleteUser`, `updateUser` and the tour controller are pass-through calls to the operations above or to the factory handlers. They have no rows of their own.
- Js.ParseInt, APIFeatures.SkipOf: page, limit and skip are unbounded integers, while JavaScript holds them as doubles. An integer beyond 2^53 loses precision there, and a digit string of 309 or more digits parses to Infinity. Neither is modelled.
- HandleFactory.UpdateOne: an update body that changes `_id` is applied as given, while MongoDB refuses a write to the immutable `_id`.
- Concurrency: every handler runs to completion before the next one starts. Interleavings of the database calls inside `calcAverageRatings`, and races on the unique indexes, are not modelled.
- Routing, server start-up, the database connection and the dev-data import script are out of scope.

## Findings

| source | as written | input that shows it | evidently intended | confidence | as-written member | corrected member |
|---|---|---|---|---|---|---|
| models/reviewModel.ts:70-72 | The post hook of `findOneAnd…` reads `doc.constructor` without checking `doc`. A delete of a missing review throws a TypeError before `DeleteOne` reaches its 400 check, and the error handler answers 500. | DELETE of a review id that matches no review | 400 "No Document found with that Id" from the handler | medium (relies on Mongoose running the post hook with a null result); not executed | HandleFactory.DeleteReview, HandleFactory.MissingReviewAnswer | HandleFactory.DeleteReviewGuarded |
| models/reviewModel.ts:70-72 | The same hook on `findByIdAndUpdate`: an update of a missing review throws before `UpdateOne`'s 404 check. | PATCH of a review id that matches no review | 404 "No Document found with this Id" from the handler | medium (as above); not executed | HandleFactory.UpdateReview | HandleFactory.UpdateReviewGuarded |
