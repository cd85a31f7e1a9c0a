/** controllers/reviewController.js: the review list and lookup, the
    middleware that fills in a new review's course and author, and which
    handler each route finally gets. */
module ReviewController {
  import opened Common
  import opened Records
  import opened AppErrors
  import opened ApiFeatures
  import opened Store
  import opened Http

  // ---------------------------------------------------------------------
  // setCourseAndUserId
  // ---------------------------------------------------------------------

  /** `if (!body[k]) body[k] = v`: a falsy field takes `v` (and an
      undefined `v` leaves it absent); a truthy one and every other field
      are kept. */
  function Defaulted(body: Doc, k: string, v: Option<Val>): (r: Doc)
    ensures Truthy(Field(body, k)) ==> r == body
    ensures !Truthy(Field(body, k)) ==> Field(r, k) == v
    ensures forall j :: j != k ==> Field(r, j) == Field(body, j)
  {
    if Truthy(Field(body, k)) then body else SetField(body, k, v)
  }

  /** `req.user.id` when no user is on the request. */
  const NoUserObject: Error := Thrown("TypeError", "Cannot read properties of undefined (reading 'id')")

  /** setCourseAndUserId: a missing course comes from the route, a missing
      author from the logged-in user, then `next()`. Express catches the
      TypeError of a request without a user and passes it on. */
  method SetCourseAndUserId(req: Request) returns (o: Outcome)
    modifies req
    ensures req.user == old(req.user)
    ensures var withCourse := Defaulted(old(req.body), "course", if "courseId" in req.params then Some(Str(req.params["courseId"])) else None);
      if !Truthy(Field(withCourse, "user")) && req.user.None? then
        o == Failed(NoUserObject) && req.body == withCourse
      else
        o == Passed
        && req.body == Defaulted(withCourse, "user", if req.user.Some? then Some(Str(req.user.value.id)) else None)
  {
    var courseId := if "courseId" in req.params then Some(Str(req.params["courseId"])) else None;
    if !Truthy(Field(req.body, "course")) {
      req.body := SetField(req.body, "course", courseId);
    }
    if !Truthy(Field(req.body, "user")) {
      if req.user.None? {
        return Failed(NoUserObject);
      }
      req.body := SetField(req.body, "user", Some(Str(req.user.value.id)));
    }
    o := Passed;
  }

  /** A review body that names its course and author keeps them; one that
      names neither gets the route's course and the caller's id; the
      other fields are untouched either way. */
  lemma DefaultsFillOnlyGaps(body: Doc, courseId: string, userId: Id)
    ensures var r := Defaulted(Defaulted(body, "course", Some(Str(courseId))), "user", Some(Str(userId)));
      && (Truthy(Field(body, "course")) ==> Field(r, "course") == Field(body, "course"))
      && (!Truthy(Field(body, "course")) ==> Field(r, "course") == Some(Str(courseId)))
      && (Truthy(Field(body, "user")) ==> Field(r, "user") == Field(body, "user"))
      && (!Truthy(Field(body, "user")) ==> Field(r, "user") == Some(Str(userId)))
      && forall j :: j != "course" && j != "user" ==> Field(r, j) == Field(body, j)
  {
    var withCourse := Defaulted(body, "course", Some(Str(courseId)));
    assert Field(withCourse, "user") == Field(body, "user");
  }

  // ---------------------------------------------------------------------
  // getAllReview, getReview
  // ---------------------------------------------------------------------

  /** The filter of getAllReview: the route's course when it is truthy. */
  function ReviewFilter(courseId: Option<string>): (cs: seq<Condition>)
    ensures courseId.Some? && courseId.value != "" ==> cs == [Equals("course", courseId.value)]
    ensures courseId.None? || courseId.value == "" ==> cs == []
  {
    if courseId.Some? && courseId.value != "" then [Equals("course", courseId.value)] else []
  }

  /** getAllReview: every review, or those of the route's course, with
      their number as `length`. */
  method GetAllReview(db: Database, req: Request) returns (o: Outcome)
    requires db.Valid()
    ensures var found := Find(db.engine, Review, db.reviews, FindQuery(ReviewFilter(req.Param("courseId"))));
      match found
      case Err(e) => o == Failed(e)
      case Ok(rs) => o == Sent(200, Listed(|rs|, rs), None)
  {
    var filter := ReviewFilter(req.Param("courseId"));
    var reviews := Find(db.engine, Review, db.reviews, FindQuery(filter));
    if reviews.Err? {
      return Failed(reviews.error);
    }
    o := Sent(200, Listed(|reviews.value|, reviews.value), None);
  }

  /** With a course filter every listed review belongs to that course, and
      every review of the course is listed (before the engine orders
      them). */
  lemma CourseReviewsOnly(engine: Engine, t: Table, courseId: string)
    requires WellFormed(t) && courseId != ""
    ensures var ms := Matching(engine, Rows(t), ReviewFilter(Some(courseId)));
      forall x :: x in ms <==> x in Rows(t) && Field(x.doc, "course") == Some(Str(courseId))
  {
    var cs := ReviewFilter(Some(courseId));
    forall x: Record
      ensures SatisfiesAll(engine, x.doc, cs) <==> Field(x.doc, "course") == Some(Str(courseId))
    {
      assert cs == [Equals("course", courseId)];
      assert SatisfiesAll(engine, x.doc, cs) <==> Satisfies(engine, x.doc, cs[0]);
    }
  }

  /** getReview: the id's CastError, otherwise 200 with the review or with
      null; there is no not-found branch. */
  method GetReview(db: Database, req: Request) returns (o: Outcome)
    requires db.Valid() && "id" in req.params
    ensures var id := req.params["id"];
      && (!IsObjectIdText(id) ==> o == Failed(CastFailure(Review, "_id", id)))
      && (IsObjectIdText(id) && id !in db.reviews.rows ==> o == Sent(200, Single(None), None))
      && (IsObjectIdText(id) && id in db.reviews.rows ==> o == Sent(200, Single(Some(Record(id, db.reviews.rows[id]))), None))
  {
    var review := db.FindById(Review, req.params["id"]);
    if review.Err? {
      return Failed(review.error);
    }
    o := Sent(200, Single(review.value), None);
  }

  // ---------------------------------------------------------------------
  // Exports
  // ---------------------------------------------------------------------

  /** The handlers the module can export. */
  datatype Handler =
    | ListReviews | ShowReview | InlineCreate | InlineUpdate | FillCourseAndUser
    | FactoryCreate(model: Model) | FactoryUpdate(model: Model) | FactoryDelete(model: Model)

  /** The `exports` assignments in file order: the factory handlers come
      last and replace the inline `createReview` and `updateReview`. */
  method ReviewExports() returns (exports: map<string, Handler>)
    ensures exports.Keys == {"getAllReview", "getReview", "createReview", "updateReview", "setCourseAndUserId", "deleteReview"}
    ensures exports["createReview"] == FactoryCreate(Review)
    ensures exports["updateReview"] == FactoryUpdate(Review)
    ensures exports["deleteReview"] == FactoryDelete(Review)
    ensures exports["getAllReview"] == ListReviews && exports["getReview"] == ShowReview
    ensures exports["setCourseAndUserId"] == FillCourseAndUser
    ensures forall k :: k in exports ==> exports[k] != InlineCreate && exports[k] != InlineUpdate
  {
    exports := map[];
    exports := exports["getAllReview" := ListReviews];
    exports := exports["getReview" := ShowReview];
    exports := exports["createReview" := InlineCreate];
    exports := exports["updateReview" := InlineUpdate];
    exports := exports["setCourseAndUserId" := FillCourseAndUser];
    exports := exports["createReview" := FactoryCreate(Review)];
    exports := exports["updateReview" := FactoryUpdate(Review)];
    exports := exports["deleteReview" := FactoryDelete(Review)];
  }
}
