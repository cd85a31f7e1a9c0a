/** controllers/courseController.js: the owner check of `deleteMyCourse`
    and the best-seller list. */
module CourseController {
  import opened Common
  import opened Records
  import opened AppErrors
  import opened ApiFeatures
  import opened Store
  import opened Http

  // ---------------------------------------------------------------------
  // deleteMyCourse
  // ---------------------------------------------------------------------

  /** The paths the course schema declares. */
  const CourseSchemaPaths: set<string> := {"title", "price"}

  /** `course.k` on a Mongoose document: only a declared path has a getter,
      so any other stored field reads as undefined. */
  function CourseProperty(d: Doc, k: string): (r: Option<Val>)
    ensures k !in CourseSchemaPaths ==> r.None?
    ensures k in CourseSchemaPaths ==> r == Field(d, k)
  {
    if k in CourseSchemaPaths then Field(d, k) else None
  }

  const NotOwner := "You can not perform this action. You are not owner of this course!"

  /** `x.id` with `x` undefined: `req.user.id` without a user, or
      `course.instructor.id` without an instructor. */
  const IdOfUndefined: Error := Thrown("TypeError", "Cannot read properties of undefined (reading 'id')")
  const IdOfNull: Error := Thrown("TypeError", "Cannot read properties of null (reading 'id')")
  const NoCourse: Error := Thrown("TypeError", "Cannot read properties of null (reading 'instructor')")

  /** `if (req.user.id !== instructor.id) next(AppError 400) else next()`,
      given what `course.instructor` reads as. A text instructor stands
      for the instructor's id; any other value has no matching `id`. The
      handler is not wrapped in catchAsync, so a throw escapes it. */
  function OwnerCheck(userId: Id, instructor: Option<Val>): (o: Outcome)
    ensures instructor == Some(Str(userId)) <==> o == Passed
    ensures instructor.None? ==> o == Unhandled(IdOfUndefined)
    ensures instructor == Some(Null) ==> o == Unhandled(IdOfNull)
    ensures instructor.Some? && instructor.value != Null && instructor.value != Str(userId) ==>
      o == Failed(NewAppError(NotOwner, Some(400)))
  {
    match instructor
    case None => Unhandled(IdOfUndefined)
    case Some(Null) => Unhandled(IdOfNull)
    case Some(Str(s)) => if userId != s then Failed(NewAppError(NotOwner, Some(400))) else Passed
    case Some(_) => Failed(NewAppError(NotOwner, Some(400)))
  }

  /** deleteMyCourse as written: the course is looked up, then the caller's
      id is compared with `course.instructor.id`. The course schema has no
      `instructor` path, so that read is undefined and every request that
      finds its course ends in an escaped TypeError: neither the 400 nor
      `next()` is reachable. */
  method DeleteMyCourse(db: Database, req: Request) returns (o: Outcome)
    requires db.Valid() && "id" in req.params
    ensures o.Unhandled?
    ensures var id := req.params["id"];
      && (!IsObjectIdText(id) ==> o == Unhandled(CastFailure(Course, "_id", id)))
      && (IsObjectIdText(id) && req.user.None? ==> o == Unhandled(IdOfUndefined))
      && (IsObjectIdText(id) && req.user.Some? && id !in db.courses.rows ==> o == Unhandled(NoCourse))
      && (IsObjectIdText(id) && req.user.Some? && id in db.courses.rows ==> o == Unhandled(IdOfUndefined))
  {
    var course := db.FindById(Course, req.params["id"]);
    if course.Err? {
      return Unhandled(course.error);
    }
    if req.user.None? {
      return Unhandled(IdOfUndefined);
    }
    if course.value.None? {
      return Unhandled(NoCourse);
    }
    o := OwnerCheck(req.user.value.id, CourseProperty(course.value.value.doc, "instructor"));
  }

  /** deleteMyCourse with the stored `instructor` read as the schema
      evidently meant it to be: the owner passes, anyone else gets 400. */
  method DeleteMyCourseIntended(db: Database, req: Request) returns (o: Outcome)
    requires db.Valid() && "id" in req.params
    ensures var id := req.params["id"];
      && (!IsObjectIdText(id) ==> o == Unhandled(CastFailure(Course, "_id", id)))
      && (IsObjectIdText(id) && req.user.None? ==> o == Unhandled(IdOfUndefined))
      && (IsObjectIdText(id) && req.user.Some? && id !in db.courses.rows ==> o == Unhandled(NoCourse))
      && (IsObjectIdText(id) && req.user.Some? && id in db.courses.rows ==>
            o == OwnerCheck(req.user.value.id, Field(db.courses.rows[id], "instructor")))
    ensures o == Passed <==>
      IsObjectIdText(req.params["id"]) && req.user.Some? && req.params["id"] in db.courses.rows
      && Field(db.courses.rows[req.params["id"]], "instructor") == Some(Str(req.user.value.id))
  {
    var course := db.FindById(Course, req.params["id"]);
    if course.Err? {
      return Unhandled(course.error);
    }
    if req.user.None? {
      return Unhandled(IdOfUndefined);
    }
    if course.value.None? {
      return Unhandled(NoCourse);
    }
    o := OwnerCheck(req.user.value.id, Field(course.value.value.doc, "instructor"));
  }

  /** The owner of a course is refused as written and admitted as
      intended. */
  lemma OwnerRefusedAsWritten(userId: Id, d: Doc)
    requires Field(d, "instructor") == Some(Str(userId))
    ensures OwnerCheck(userId, CourseProperty(d, "instructor")) == Unhandled(IdOfUndefined)
    ensures OwnerCheck(userId, Field(d, "instructor")) == Passed
  {
    assert "instructor" !in CourseSchemaPaths;
  }

  // ---------------------------------------------------------------------
  // getBestSeller
  // ---------------------------------------------------------------------

  const BestSellerFilter: seq<Condition> := [NotFalse("bestseller")]

  /** getBestSeller: the courses whose `bestseller` is not false, in the
      engine's default order. `find` always yields a list, so the 404
      branch is never taken and an empty list is a 200. */
  method GetBestSeller(db: Database) returns (o: Outcome)
    requires db.Valid()
    ensures o == Sent(200, Docs(db.engine.arrange(None, None, Matching(db.engine, Rows(db.courses), BestSellerFilter))), None)
  {
    var course := Find(db.engine, Course, db.courses, FindQuery(BestSellerFilter));
    ghost var listed := db.engine.arrange(None, None, Matching(db.engine, Rows(db.courses), BestSellerFilter));
    assert FirstCastFailure(Course, BestSellerFilter).None?;
    assert listed[0..|listed|] == listed;
    assert course == Ok(listed);
    if course.Err? {
      assert false;
      return Failed(NewAppError("No course found with that ID!", Some(404)));
    }
    o := Sent(200, Docs(course.value), None);
  }

  /** The best-seller filter keeps a course exactly when its `bestseller`
      is not false: missing, true or any other value passes. */
  lemma BestSellersAreNotExcluded(engine: Engine, t: Table)
    requires WellFormed(t)
    ensures forall x :: x in Matching(engine, Rows(t), BestSellerFilter) <==>
      x in Rows(t) && Field(x.doc, "bestseller") != Some(Bool(false))
  {
    forall x: Record
      ensures SatisfiesAll(engine, x.doc, BestSellerFilter) <==> Field(x.doc, "bestseller") != Some(Bool(false))
    {
      assert SatisfiesAll(engine, x.doc, BestSellerFilter) <==> Satisfies(engine, x.doc, BestSellerFilter[0]);
    }
  }
}
