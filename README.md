# Course marketplace backend: a Dafny model

This project models the request-handling core of an Express/Mongoose
course-marketplace API in Dafny:

- the query shaper `APIFeatures`, which turns a query string into a find
  query (criteria with `$`-prefixed operators, sort, projection,
  skip/limit);
- the generic CRUD handler factory (`getAll`, `getOne`, `createOne`,
  `updateOne`, `deleteOne`);
- the review model's per-course rating aggregate and the hooks that
  recompute it;
- the user model's schema rules, its save hooks, the hidden soft-deleted
  accounts, `changedPasswordAfter` and the password-reset token;
- the authentication controller (`protect`, `restrictTo`, `signup`,
  `login`, `forgotPassword`, `resetPassword`, `createSendToken`);
- the user, review, course and media controllers;
- the `AppError` class and the global error handler.

The database is a `Store.Database` class: courses, reviews and media are
tables (insertion order plus a map from id to document), and users are a
map from id to `User`. A handler is a method on the database and on a
`Http.Request` object, and it ends in an `Outcome`:

| outcome | meaning |
|---|---|
| `Sent` | a response with a status code, a payload and perhaps a cookie |
| `Passed` | `next()` without an error |
| `Failed` | `next(err)`, or an error that `catchAsync` or Express forwards |
| `Unhandled` | an exception thrown where nothing catches it |

Time (`Date.now()`) is a parameter. JWT signing and verification, bcrypt
and SHA-256 are functions the caller supplies (`AuthController.Crypto`).
The same goes for the email validator, the search index and the database
engine's ordering and JSON matching (`Store.Engine`).

The model follows the code where the code differs from its intent, for
example:

- `createOne` and `deleteOne` use the body and id given when the factory
  is called, not the ones on the request, and every caller passes
  nothing;
- `protect` negates a Promise, so a changed password never rejects a
  token;
- `protect` reads `req.cookie` and not `req.cookies`;
- `updateMe` raises an `AppError` without a status code, which becomes a
  500.

The course schema (model/courseModel.js:3-14) declares only `title` and
`price`, yet controllers/courseController.js:9 reads a course's
`instructor` and controllers/handlerFactory.js:43-46 populates that path.
The model follows the schema: reading `course.instructor` on a stored
course gives `undefined` (see Findings). The schema is not used to strip
documents, though: a request body is stored with every field it carries,
and the review aggregate writes its two rating fields into the course
(see Left out for what Mongoose's strict mode would drop).

## Model

| member | source | states |
|---|---|---|
| ApiFeatures.APIFeatures.constructor | utils/apiFeatures.js:11-14 | The shaper holds the query and the query string it was given. |
| ApiFeatures.APIFeatures.Filter | utils/apiFeatures.js:21-35 | Returns the same instance. The query string is left unchanged. The only change to the query is one added JSON condition: the query string without `page`, `sort`, `limit` and `fields`, serialised, with the operators rewritten. |
| ApiFeatures.FilterKeepsOtherKeys | utils/apiFeatures.js:22-25 | A key survives the filter exactly when it is not one of the four reserved keys, and it keeps its value. |
| ApiFeatures.WithoutLookup | utils/apiFeatures.js:22-25 | After the reserved keys are deleted, a reserved key reads as absent and every other key reads as before. |
| ApiFeatures.DeleteAfterWithout | utils/apiFeatures.js:23-25 | Deleting one more key in the loop equals deleting the longer list at once. |
| ApiFeatures.WholeWordRewrite | utils/apiFeatures.js:28-31 | A whole word gains a `$` exactly when it is `gte`, `gt`, `lte` or `lt`. |
| ApiFeatures.RewriteSplitsAtNonWord | utils/apiFeatures.js:28-31 | The rewrite works word by word: a non-word character splits it into independent halves. |
| ApiFeatures.RewriteOnlyInsertsDollars | utils/apiFeatures.js:28-31 | Deleting every `$` from the rewritten text gives the original text with its `$` deleted: the rewrite only inserts dollars. |
| ApiFeatures.RewriteAppend | utils/apiFeatures.js:28-31 | The rewrite distributes over text that is joined at a non-word boundary. |
| ApiFeatures.OperatorConditionRewritten | utils/apiFeatures.js:28-31 | `{field: {op: value}}` with `op` one of the four operators serialises and rewrites to `{"field":{"$op":"value"}}`. |
| ApiFeatures.RewriteUnchangedWithoutLetters | utils/apiFeatures.js:28-31 | Text without the operators' letters is left unchanged. |
| ApiFeatures.NoOperatorFrom | utils/apiFeatures.js:28-31 | With no whole-word operator from a position on, the rest of the text is copied unchanged. |
| ApiFeatures.APIFeatures.Sort | utils/apiFeatures.js:42-50 | Returns the same instance. It fails exactly when `sort` is not text. Otherwise only the query's sort spec changes. |
| ApiFeatures.SortSpecIsCommaToSpace | utils/apiFeatures.js:43-47 | A non-empty `sort` becomes itself with commas turned into spaces. A missing or empty one becomes `-createdAt`. |
| Common.JoinSplitIsReplace | utils/apiFeatures.js:44 | `split(',').join(' ')` replaces each comma by a space, keeping every other character in place. |
| ApiFeatures.APIFeatures.Limit | utils/apiFeatures.js:57-65 | Returns the same instance. It fails exactly when `fields` is not text. Otherwise only the projection changes. |
| ApiFeatures.SelectSpecIsCommaToSpace | utils/apiFeatures.js:58-62 | Non-empty `fields` become themselves with commas turned into spaces. Missing or empty ones become `-__v`. |
| ApiFeatures.APIFeatures.Paginate | utils/apiFeatures.js:72-78 | Returns the same instance. Only skip and limit change: skip is `(page-1)*limit`. |
| ApiFeatures.PaginateDefaults | utils/apiFeatures.js:73-76 | Page and limit are never 0. A missing or NaN page is 1, and a missing or zero limit is 100. |
| ApiFeatures.DecimalPage | utils/apiFeatures.js:73 | A page given as decimal digits is their value. |
| Store.Window | utils/apiFeatures.js:72-78 | The engine refuses a negative skip and nothing else. |
| Store.WindowIsPage | utils/apiFeatures.js:72-78 | Skip and limit select the page `rs[skip..skip+limit]`. A skip past the end gives an empty page and no error. |
| HandlerFactory.BaseFilter | controllers/handlerFactory.js:15-19 | The filter is `bestseller ≠ false` on a best-seller URL. Otherwise it is the route's non-empty course id. Otherwise it is empty. |
| HandlerFactory.BestSellerRoute | controllers/handlerFactory.js:18 | For a URL made of slash-free segments, the best-seller test holds exactly when one segment is `best-seller`. |
| HandlerFactory.BestSellerQueryHides | controllers/handlerFactory.js:18 | `best-seller?…` as the last segment is not recognised, because the test sees the query string. |
| HandlerFactory.ShapedQuery | controllers/handlerFactory.js:15-25 | A `sort` or `fields` parameter that is not text makes the chain fail with its TypeError. Otherwise the query is the base filter shaped by filter, sort, select and page. |
| HandlerFactory.GetAll | controllers/handlerFactory.js:12-58 | The shaper's errors become `Failed`. Otherwise the answer is 200 with the found list after filter, sort, select and page, and `results` equals the list's length. |
| HandlerFactory.GetOne | controllers/handlerFactory.js:67-83 | The id's CastError, a 404 for an absent id, or 200 with that record. |
| HandlerFactory.WithCourse | controllers/handlerFactory.js:94 | A falsy `course` takes the route's course id. Every other field is kept. |
| HandlerFactory.CreateOneHandler.constructor | controllers/handlerFactory.js:92-93 | The handler keeps the factory-time body. |
| HandlerFactory.CreateOneHandler.Handle | controllers/handlerFactory.js:92-103 | Without a factory-time body the result is a TypeError and nothing changes. An invalid body gives a ValidationError. A valid body is refused with the E11000 error of the unique index it clashes with, and otherwise is inserted and answered with 201. A review insert recomputes its course's ratings. |
| Http.Request.AttachCover | controllers/handlerFactory.js:114-116 | An uploaded file's name is written into the body's `imageCover`; nothing else in the request changes. |
| HandlerFactory.UpdateDocument | controllers/handlerFactory.js:117-120 | `findByIdAndUpdate` with validators, through the review hooks for reviews. The outcomes are a CastError, the validators' error, or, for a missing document, null (a null-capture TypeError for reviews). A present document with a valid patch gives the merged record, unless a unique index refuses it with E11000. Only the model's table changes (and, for reviews, the recomputed course). |
| HandlerFactory.UpdateOne | controllers/handlerFactory.js:112-132 | An uploaded file sets `imageCover` first. The id's CastError, the update validators' error and the 404 for a missing id change nothing. A present id with a valid patch gets 200 and the merged record, with only the given fields replaced, unless a unique index refuses it. |
| HandlerFactory.DeleteOneHandler.constructor | controllers/handlerFactory.js:141-142 | The handler keeps the factory-time id. |
| HandlerFactory.DeleteOneHandler.Handle | controllers/handlerFactory.js:141-155 | The factory-time id is used. An id that does not cast is the CastError. A cast id that is absent gives a 404 (for reviews, the hook's TypeError). A present one is removed and the answer is 204 with null data. With no id, the empty filter removes the first record of the collection and answers 204, or gives the 404 (reviews: the TypeError) when the collection is empty. Only the removed record changes. |
| Store.Database.FindById | controllers/handlerFactory.js:70 | An id that is not an ObjectId is a CastError. Otherwise the record with that id, or none. |
| Store.Database.UpdateById | controllers/handlerFactory.js:118-121 | A valid patch of a present id merges into that record only. Nothing changes otherwise. |
| Store.Database.DeleteById | controllers/handlerFactory.js:145 | A present id is removed and nothing else changes. |
| Store.Database.DeleteFirst | controllers/handlerFactory.js:145 | `findByIdAndDelete(undefined)`: the first record in natural order is removed and returned, and nothing else changes. An empty collection gives null and is unchanged. |
| Store.Database.Create | controllers/handlerFactory.js:96 | A body that breaks its schema or a unique index is refused and nothing changes. Otherwise it is appended under the new id. |
| Store.Matching | controllers/handlerFactory.js:21-25 | The matching records are exactly the rows that satisfy every condition, in table order. |
| Store.ReviewValidMeans | model/reviewModel.js:4-31 | The review schema's validators pass on a whole document exactly when it has non-empty text, a course id, a user id, and a rating, if it has one, in [1, 5]. |
| Store.PatchKeepsReviewValid | model/reviewModel.js:4-31 | An update that passes the update validators keeps a valid review valid. |
| Store.WriteKeepsPairsUnique | model/reviewModel.js:34 | A write the unique index admits keeps at most one review per (course, user). |
| Store.ReviewDuplicateMessage | model/reviewModel.js:34 | A second review by the same user for the same course is refused with the E11000 duplicate-key error on `course_1_user_1`. |
| ReviewModel.ReviewsOf | model/reviewModel.js:50 | The selected reviews are exactly those whose course is the given id. |
| ReviewModel.CalcAverageRatings | model/reviewModel.js:47-72 | Only the given course is patched, with the aggregate of its reviews. Every other table is unchanged. |
| ReviewModel.AggregateOfReviewedCourse | model/reviewModel.js:48-66 | With at least one review, the quantity is the number of reviews and the average is the mean of their ratings. |
| ReviewModel.AggregateOfUnreviewedCourse | model/reviewModel.js:67-71 | With no reviews the course gets quantity 0 and average 4.5. |
| ReviewModel.AllRatedAverage | model/reviewModel.js:48-66 | When every review has a rating, the average is their sum divided by their number. |
| ReviewModel.AverageInRange | model/reviewModel.js:10-14 | Because each rating is in [1, 5], the written average is in [1, 5]. |
| ReviewModel.MatchedReviewsValid | model/reviewModel.js:4-31 | Every review the aggregate reads satisfies the review schema. |
| ReviewModel.RecomputeTouchesOnlyItsCourse | model/reviewModel.js:62-71 | The recompute changes the given course's two rating fields and no other course. |
| ReviewModel.RecomputeIdempotent | model/reviewModel.js:47-72 | Recomputing twice gives the same course table as recomputing once. |
| ReviewModel.SaveReview | model/reviewModel.js:75-78 | A valid review is saved unless the (course, user) index refuses it. A saved review is stored and its course is recomputed. A refused one changes nothing. |
| ReviewModel.UpdateReview | model/reviewModel.js:81-89 | A present review with a valid patch is updated unless the (course, user) index refuses it. The document captured before the update names the course to recompute. An absent review dereferences the null capture. |
| ReviewModel.DeleteReview | model/reviewModel.js:81-89 | A present review is always deleted, and its former course is recomputed without it. An absent one is the null-capture TypeError. With no id, the first review is deleted and its course recomputed, and an empty collection gives the TypeError. |
| ReviewModel.DeleteFirstReview | model/reviewModel.js:81-89 | Under the empty filter the hook captures the first review, which is removed and returned, and its course is recomputed without it. An empty collection is the TypeError with nothing changed. |
| UserModel.UserValidMeans | model/userModel.js:6-51 | An account is valid exactly when: it has a name; its email is valid; its password has at least 8 characters; the confirmation equals the password; and its role is `user` or `admin`. |
| UserModel.ConfirmIff | model/userModel.js:31-35 | The confirmation validator passes exactly when `passwordConfirm` equals `password`. |
| UserModel.NewUser | model/userModel.js:18-47 | A new account has photo `default.jpg`, `active` true, role `user` unless one is given, and no reset or change stamps. |
| UserModel.FindUser | model/userModel.js:74-77 | Every find hides accounts whose `active` is false, and only those. A bad id is a CastError. |
| UserModel.Loaded | model/userModel.js:43-46 | A loaded account has no `active` field, and is otherwise the stored account. |
| UserModel.FindByEmail | model/userModel.js:74-77 | Finds the visible account with that email, or reports that there is none. |
| UserModel.FindOne | controllers/authController.js:160 | `findOne({email: req.body.email})`: a visible account the filter matches, and none exactly when no visible account matches. An absent email matches every account. |
| UserModel.FindByEmailUnique | model/userModel.js:14 | Two accounts with the same email are the same account. |
| UserModel.ChangedPasswordAfterMeans | model/userModel.js:88-99 | False without a change stamp. Otherwise the token's `iat` is before the change time truncated to seconds. |
| UserModel.ResetTokenWindow | model/userModel.js:102-116 | A token issued at t matches its own hash exactly before t + 10 minutes. |
| UserModel.UserDocument.CreatePasswordResetToken | model/userModel.js:102-116 | Returns the token. Stores its SHA-256 and an expiry of now plus 600000 ms. |
| UserModel.Apply | model/userModel.js:55-71 | Save writes the modified paths and nothing else. |
| UserModel.ApplyResetOnly | model/userModel.js:55-71 | A save in which only the reset fields changed writes just those fields. |
| UserModel.UserDocument.Save | model/userModel.js:55-71 | A modified password is stored hashed with `passwordConfirm` cleared. `passwordChangedAt` becomes now - 1000 only for an existing account. An unmodified password leaves both alone. |
| UserModel.CreateUser | model/userModel.js:6-64 | A valid new account with an unused email is always stored, with a hashed password and no confirmation. An invalid one or a taken email is refused with its error and changes nothing. |
| UserModel.UserDocument.SetPassword | controllers/authController.js:227 | Assigning `password` marks it modified when it changes. |
| UserModel.UserDocument.SetPasswordConfirm | controllers/authController.js:228 | Assigning `passwordConfirm` marks it modified when it changes. |
| UserModel.UserDocument.SetReset | controllers/authController.js:196-197 | Assigning the reset fields changes only those fields. |
| AuthController.TokenCookie | controllers/authController.js:23-30 | The `jwt` cookie is HTTP-only, expires after the configured days, and is `secure` exactly in production. |
| AuthController.SendToken | controllers/authController.js:20-43 | The answer carries the signed token in the cookie and in the body, and the account without its password. |
| AuthController.ExtractToken | controllers/authController.js:96-103 | The header's second space-separated part when it starts with `Bearer`. Otherwise `req.cookie.jwt`, which throws. |
| AuthController.BearerToken | controllers/authController.js:96-99 | `Bearer <token>` yields the token. |
| AuthController.Protect | controllers/authController.js:93-140 | No token gives a 401. Verification errors pass on. A gone account gives a 401. On success `req.user` is the token's visible account. A failure leaves `req.user` alone. |
| AuthController.StaleTokenAccepted | controllers/authController.js:126-133 | A token issued before a password change still passes. |
| AuthController.RestrictTo | controllers/authController.js:143-155 | Passes exactly when the user's role is listed. Otherwise a 403. |
| AuthController.BothRolesAdmitEveryAccount | controllers/authController.js:143-155 | Every stored account holds the role `user` or `admin`, an invariant of the database that the sign-up validators establish. So `restrictTo('user','admin')` admits every account `protect` puts on the request, and `restrictTo('admin')` admits exactly the administrators and gives others a 403. |
| AuthController.Signup | controllers/authController.js:46-58 | A valid account with an unused email is always stored and answered with 201 and a token. Schema errors and a taken email are answered with their errors and change nothing. |
| AuthController.Login | controllers/authController.js:61-78 | A missing email or password gives a 400, and an unknown email gives a 401. For the visible account with that email, a matching password gives 200 with a token and the account as loaded (without `active`), and a wrong one gives a 401. An account with no stored hash gives bcrypt's error. |
| AuthController.ForgotPassword | controllers/authController.js:158-205 | A 404 with nothing changed exactly when no visible account matches the email filter. An absent email matches every visible account. Otherwise one matching account is stamped with the token's hash and expiry and answered with 200, or, when the mail fails, both fields are cleared and the request fails with 500. |
| AuthController.IssueResetToken | controllers/authController.js:168-204 | A sent mail keeps the stamp. A failed mail clears both reset fields and gives a 500. |
| AuthController.SaveResetFields | controllers/authController.js:171 | A save of a document whose only changes are the reset fields writes just those. |
| AuthController.FindByResetToken | controllers/authController.js:216-219 | Finds a stored account whose token hash matches and whose expiry is after now, or reports that there is none. |
| AuthController.ResetPassword | controllers/authController.js:208-239 | Without a matching, unexpired account the result is a 400 and nothing changes. Otherwise the reset is saved and answered with 200, a token and the reset account as loaded (without `active`). |
| AuthController.SaveReset | controllers/authController.js:226-238 | Only the reset account changes, to `Reset` of it. The answer is the token response for the reset account as loaded (without `active`). |
| AuthController.Reset | controllers/authController.js:226-235 | Both reset fields are cleared. A given password is stored hashed, the confirmation is cleared and the change time is stamped. |
| AuthController.ResetWritten | controllers/authController.js:226-235 | Saving the assigned paths of a stored account gives exactly `Reset` of it. |
| UserController.Pick | controllers/userController.js:5-13 | The keys are exactly the input keys that are allowed, each with its value. |
| UserController.FilterObj | controllers/userController.js:5-13 | The loop builds exactly `Pick` of the input. The input is a value and is left unchanged. |
| UserController.PickIdempotent | controllers/userController.js:5-13 | Filtering twice with the same list equals filtering once. The result's keys are a subset of the input's keys. |
| UserController.PickField | controllers/userController.js:5-13 | A field outside the list never reaches the result. An allowed one is copied. |
| UserController.Shown | model/userModel.js:22-47 | An account as queries return it: without `password` and `active`. |
| UserController.Updated | controllers/userController.js:67-72 | Only `name` and `email` change. |
| UserController.UpdateViolations | controllers/userController.js:67-72 | The update validators fail exactly on an empty name or on an empty or invalid email. |
| UserController.UpdateMe | controllers/userController.js:58-82 | A truthy `password` or `passwordConfirm` fails first and changes nothing. The remaining failures are, in order: a missing `req.user`; the id's CastError; the update validators' error; and a taken email. A missing or deactivated account gives 200 with null. Otherwise only the filtered `name` and `email` are written, answered with 200 and the updated account. |
| UserController.SetNameEmail | controllers/userController.js:67-70 | A missing or hidden account matches nothing (null). An email another account holds is the E11000 error. Otherwise exactly `name` and `email` change. |
| UserController.Deactivated | controllers/userController.js:101-103 | Only `active` changes, to false. |
| UserController.DeleteMe | controllers/userController.js:100-109 | The caller's visible account is deactivated and the answer is 204. |
| UserController.SoftDeleteHides | controllers/userController.js:101-103 | A deactivated account stays stored but is never found. Other accounts are found as before. |
| UserController.GetUser | controllers/userController.js:27-40 | The id's CastError, a 404 when no visible account has the id, or 200 with the account. |
| UserController.DeleteUser | controllers/userController.js:111-124 | A 404 with no change for an absent or hidden account. Otherwise the account is removed and the answer is 204. |
| UserController.DeletedUserNotFound | controllers/userController.js:111-124 | After a deletion, getUser and a second deleteUser of that id find nothing, so they answer 404. Every other account is found as before. The deleted account's email is free again. |
| ReviewController.Defaulted | controllers/reviewController.js:60-61 | A falsy field takes the default. A truthy one and every other field are kept. |
| ReviewController.SetCourseAndUserId | controllers/reviewController.js:59-64 | A missing course comes from the route and a missing user from `req.user`, and then `next()`. Without a user the result is a TypeError. |
| ReviewController.DefaultsFillOnlyGaps | controllers/reviewController.js:59-64 | Existing `course`/`user` values are kept and missing ones are filled. No other field changes. |
| ReviewController.ReviewFilter | controllers/reviewController.js:6-8 | Filters by course only when the route's `courseId` is truthy. |
| ReviewController.GetAllReview | controllers/reviewController.js:5-18 | 200 with the reviews found and their number. |
| ReviewController.CourseReviewsOnly | controllers/reviewController.js:6-8 | With a course id, exactly that course's reviews are listed. |
| ReviewController.GetReview | controllers/reviewController.js:20-29 | 200 even when no review matches, with null data. A bad id is a CastError. |
| ReviewController.ReviewExports | controllers/reviewController.js:31-68 | The factory `createReview`/`updateReview` assigned last replace the inline ones. |
| CourseController.CourseProperty | model/courseModel.js:3-14 | Only `title` and `price` have getters. Any other property reads as undefined. |
| CourseController.OwnerCheck | controllers/courseController.js:9-17 | Passes exactly when the instructor is the caller. Another instructor gives a 400. A missing or null one throws. |
| CourseController.DeleteMyCourse | controllers/courseController.js:6-18 | As written, every request ends in an unhandled exception. For a found course it is the TypeError of `course.instructor.id`. |
| CourseController.DeleteMyCourseIntended | controllers/courseController.js:6-18 | With the stored instructor read, the owner passes and anyone else gets a 400. |
| CourseController.OwnerRefusedAsWritten | controllers/courseController.js:9 | The owner of a course is refused as written and admitted as intended. |
| CourseController.GetBestSeller | controllers/courseController.js:26-39 | 200 with the courses whose `bestseller` is not false. The 404 branch is unreachable. |
| CourseController.BestSellersAreNotExcluded | controllers/courseController.js:27 | A course is listed exactly when its `bestseller` is not explicitly false. |
| MediaController.ExtName | controllers/mediaController.js:33 | The extension is empty or is a dot followed by dot-free, slash-free text. |
| MediaController.ExtNameOfFileName | controllers/mediaController.js:33 | `stem.e` has the extension `.e`. |
| MediaController.NoExtension | controllers/mediaController.js:33 | A dot-free name and a dot file have no extension. |
| MediaController.MulterFilter | controllers/mediaController.js:32-42 | Accepts exactly `.mkv` and `.mp4` extensions. Otherwise it refuses with a 400 AppError. |
| MediaController.FilterByExtension | controllers/mediaController.js:35 | `stem.e` passes exactly when `e` is `mp4` or `mkv`, case-sensitively. |
| MediaController.FilterRefusesDotFiles | controllers/mediaController.js:33-35 | A dot file such as `.mp4` is refused. |
| MediaController.PathValues | controllers/mediaController.js:77-79 | One path value per file, in order. |
| MediaController.VideoProcess | controllers/mediaController.js:75-82 | `body.mediaContent` is the uploaded paths with the same count and order, and then `next()`. Without uploads the result is the `forEach` TypeError. |
| AppErrors.NewAppError | utils/appError.js:11-18 | Keeps the message and status code unchanged, is operational, and takes its status from the code. |
| AppErrors.StatusIsFailIff | utils/appError.js:14 | The status is `fail` exactly when the code's decimal text starts with 4. |
| AppErrors.StatusOfHttpCode | utils/appError.js:14 | For an integer code, `fail` exactly when it is in 400-499. |
| AppErrors.AppErrorStatus | utils/appError.js:13-15 | 4xx gives `fail`. 5xx and an undefined code give `error`. |
| ErrorController.HandleCastErrorDB | controllers/errorController.js:4-7 | A 400 with `Invalid input <path> <value>`. |
| ErrorController.FirstQuoted | controllers/errorController.js:10 | The match is a quoted span that opens and closes with the same quote. |
| ErrorController.FirstQuotedNoneIff | controllers/errorController.js:10 | No match exactly when no quote is closed before a line break. |
| ErrorController.FirstQuotedOfPlainValue | controllers/errorController.js:10 | In a message with a first double-quoted plain value, that value is the match. |
| ErrorController.HandleDuplicateFieldsDB | controllers/errorController.js:9-15 | A 400 that embeds the first quoted substring. It throws when there is none. |
| ErrorController.HandleValidationErrorDB | controllers/errorController.js:17-20 | A 400 with `Invalid Input data. ` followed by the field messages joined by `. `. |
| ErrorController.SendErrorDev | controllers/errorController.js:33-38 | The error's own code, status and message. |
| ErrorController.SendErrorProd | controllers/errorController.js:41-53 | Operational errors as they are. Any other error as a 500 with the generic message. |
| ErrorController.GlobalErrorHandler | controllers/errorController.js:55-84 | Defaults 500/`error`. Development answers unchanged. Production maps CastError, E11000 and ValidationError to 400s and masks the rest. Any other environment writes nothing. |
| ErrorController.ProductionMasksProgrammerErrors | controllers/errorController.js:41-53 | A non-operational error that is not a database or token error is answered as the generic 500. |
| ErrorController.UncodedAppErrorIs500 | controllers/errorController.js:57-59 | An AppError without a code is answered with 500. |

## Left out

- HTTP transport, routing, helmet, rate limiting, sanitisers and server start-up: the handlers are modelled as methods on a request and the database.
- `catchAsync`: a thrown error of a wrapped handler is modelled directly as `Failed`.
- JWT, bcrypt and SHA-256: these are caller-supplied functions, with no cryptography modelled.
- Random bytes: the reset token is a parameter.
- Email delivery: its success is the `mailSent` parameter.
- Date construction: time is an integer in milliseconds.
- The Atlas `$search` branch and the instructor `populate` of `getAll`: the search index is an opaque function of the term, and populate is not modelled.
- The database engine's sort, projection and JSON matching: these are `Store.Engine` functions. Only the order-independent facts about them are proved.
- `getTopRatings`: a database aggregation over floating-point averages, minima and maxima.
- `getAllUsers`, `logout` and `updatePassword`: these are outside the modelled core.
- The empty `createUser`/`updateUser` stubs: they have no behaviour.
- The inline `createReview`/`updateReview`: they are replaced by the factory handlers before export (see `ReviewController.ReviewExports`), so their bodies are not modelled.
- Multer's disk storage, file naming and the 50-file limit: these are file-system I/O.
- Mongoose strict-mode stripping of paths the schema does not declare: bodies are stored as given (see the Create and CalcAverageRatings lines below).
- Store.Database.Create: Mongoose's casting before validation is not modelled. Strict mode would drop body paths the schema does not declare. Number casting would turn a rating of `"4"` into 4 and `true` into 1. The model validates and stores the body as given, so such a rating is refused. The default `min`, `max` and ObjectId-cast messages are modelled without the offending value that Mongoose puts in them.
- UpdateById: the update's values are not cast either, so a castable rating such as `"4"` or `true` is refused with the update's ValidationError. A value that does not cast is also reported through that ValidationError, with a message that leaves out the value; the exact error class and text Mongoose's update casting produces are not modelled.
- ReviewValidMeans: a rating counts as valid only when it is a JSON number in [1, 5], null or absent. Values Mongoose's Number cast would accept (numeric strings, booleans) are not cast, so reviews carrying them count as invalid.
- Store.RatingCheck: the `min`/`max` messages omit the rating's value, because formatting a number as JavaScript prints it is not modelled. A non-number is reported with a cast message that omits the value.
- Store.Reference: an id that does not cast is reported with a message that omits the value and its type.
- ReviewModel.CalcAverageRatings: writes `ratingsQuantity` and `ratingsAverage` into the course. The course schema (model/courseModel.js:3-14) declares neither, so Mongoose's strict mode would drop both and leave the stored course unchanged. The model writes them, as the code intends.
- ReviewModel.SaveReview: the post-save hook (model/reviewModel.js:75-78) is not awaited by `create`, so the answer may go out before the recompute finishes, and a failed recompute never reaches the request. The model finishes the recompute before answering.
- Repeated query keys: Express parses `sort=a&sort=b` into an array. Then `split` throws in `sort` and `limit`, and an array `page` or `limit` multiplies to NaN unless it has one element. Query values are modelled as text or nested objects only.
- ErrorController.GlobalErrorHandler: the trailing `next()` (controllers/errorController.js:83) is not modelled. After it, Express's final handler answers 404 when nothing was written, which happens in an environment other than development or production.
- `lower: true` on the user email is not a Mongoose option and does nothing, so it is not modelled.
- Records.BodyText: a body field read as a string treats any non-string JSON value as absent, so non-string names, emails and passwords are not modelled.
- ApiFeatures.StringToNumber: recognises only an optional sign and decimal digits, after ASCII whitespace trimming; any other numeric syntax counts as NaN.
- ReviewModel.DeleteReview: `findByIdAndDelete(undefined)` uses the empty filter, and the record it takes is the first in insertion order. MongoDB's natural order is not guaranteed to be insertion order. The same holds for `Store.Database.DeleteFirst` and `HandlerFactory.DeleteOneHandler.Handle`.
- AuthController.ForgotPassword: with no `email` in the body, the account stamped is any visible account, because the model keeps accounts without an order and does not say which one MongoDB returns first. A non-string `email` is taken to match no account. Mongoose would cast a number to its string, and `null` matches no account anyway.
- UserModel.UserDocument.Save: does not model validation, because every save in the core passes `validateBeforeSave: false`.
- HandlerFactory.GetAll: the populate chain is not modelled, and the `$search` result is left unconstrained beyond being the engine's answer for the term.
- HandlerFactory.GetAll: the route's filter (`course`, `bestseller`) and the query-string conditions are conjoined. Mongoose merges the two `find` filters key by key, so a query-string condition on `course` or `bestseller` replaces the route's. For example, `?course[gt]=0` under a course's reviews lists every course's reviews. Only queries whose keys differ from the route filter's are modelled faithfully.
- Store.Matching: the conditions are conjoined, and keys repeated across `find` calls are not merged (see the GetAll line above).
- HandlerFactory.GetAll: query-string values are not cast against the schema, so `?_id=abc` is answered with 200 and whatever the engine matches, rather than the CastError Mongoose raises (a 400 `Invalid input _id abc` in production). Only the route filter's equality conditions are cast, by `Store.FirstCastFailure`.
- HandlerFactory.GetOne: the `populateArr` argument is not modelled. `getCourse` passes `{path: 'reviews'}` (controllers/courseController.js:21), a path the course schema does not declare. Under Mongoose 6 and later, `strictPopulate` rejects that and the request fails with a 500. The model answers with the course as found, because no file of the repository pins the Mongoose version.

## Findings

| source | as written | input that shows it | evidently intended | confidence | as-written member | corrected member |
|---|---|---|---|---|---|---|
| controllers/courseController.js:9 | `course.instructor.id` reads a path that model/courseModel.js does not declare, so it is undefined and reading `.id` throws | a request by a course's own instructor to delete that existing course | compare the caller's id with the course's stored instructor: the owner passes, others get a 400 | medium, not executed | CourseController.DeleteMyCourse (shown by CourseController.OwnerRefusedAsWritten) | CourseController.DeleteMyCourseIntended |
