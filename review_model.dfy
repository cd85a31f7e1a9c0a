/** model/reviewModel.js: the per-course rating aggregate
    (`calcAverageRatings`) and the hooks that recompute it after a review is
    saved, updated or deleted. */
module ReviewModel {
  import opened Common
  import opened Records
  import opened AppErrors
  import opened Store

  // ---------------------------------------------------------------------
  // The aggregate
  // ---------------------------------------------------------------------

  /** `$match: {course: courseId}`: the course's reviews in natural order. */
  function ReviewsOf(rs: seq<Record>, course: Id): (r: seq<Record>)
    ensures forall x :: x in r <==> x in rs && Field(x.doc, "course") == Some(Str(course))
    ensures |r| <= |rs|
  {
    if rs == [] then []
    else
      var rest := ReviewsOf(rs[1..], course);
      assert forall x :: x in rs <==> x == rs[0] || x in rs[1..];
      (if Field(rs[0].doc, "course") == Some(Str(course)) then [rs[0]] else []) + rest
  }

  /** The values `$avg: '$rating'` reads: numeric ratings only, so a review
      without a rating (or with a null one) is not averaged. */
  function Ratings(rs: seq<Record>): (xs: seq<real>)
    ensures |xs| <= |rs|
  {
    if rs == [] then []
    else (match Field(rs[0].doc, "rating") case Some(Num(n)) => [n] case _ => []) + Ratings(rs[1..])
  }

  function Sum(xs: seq<real>): real
  {
    if xs == [] then 0.0 else xs[0] + Sum(xs[1..])
  }

  /** One `$group` result: `nRating` and `avgRating` (null when no review
      of the group has a numeric rating). */
  datatype Stats = Stats(nRating: nat, avgRating: Option<real>)

  /** The pipeline's output: no group when no review matched. */
  function Aggregate(reviews: Table, course: Id): seq<Stats>
    requires WellFormed(reviews)
  {
    var rs := ReviewsOf(Rows(reviews), course);
    if rs == [] then []
    else
      var xs := Ratings(rs);
      [Stats(|rs|, if xs == [] then None else Some(Sum(xs) / (|xs| as real)))]
  }

  /** The update written to the course: the first group's figures, or
      `(0, 4.5)` when there is none. */
  function RatingsUpdate(stats: seq<Stats>): Doc
  {
    if |stats| > 0 then
      map["ratingsQuantity" := Num(stats[0].nRating as real),
          "ratingsAverage" := match stats[0].avgRating case Some(a) => Num(a) case None => Null]
    else map["ratingsQuantity" := Num(0.0), "ratingsAverage" := Num(4.5)]
  }

  /** `Review.calcAverageRatings(courseId)`: `Course.findByIdAndUpdate`
      with the aggregate; a course that no longer exists is left alone. */
  method CalcAverageRatings(db: Database, courseId: Id)
    requires db.Valid()
    modifies db
    ensures db.Valid()
    ensures db.courses == Patch(old(db.courses), courseId, RatingsUpdate(Aggregate(old(db.reviews), courseId)))
    ensures db.reviews == old(db.reviews) && db.media == old(db.media) && db.users == old(db.users)
  {
    var stats := Aggregate(db.reviews, courseId);
    var update := RatingsUpdate(stats);
    PatchWellFormed(db.courses, courseId, update);
    db.courses := Patch(db.courses, courseId, update);
  }

  // ---------------------------------------------------------------------
  // What the aggregate means
  // ---------------------------------------------------------------------

  /** With at least one review, the quantity is the number of the course's
      reviews and the average is the arithmetic mean of their ratings. */
  lemma AggregateOfReviewedCourse(reviews: Table, course: Id)
    requires WellFormed(reviews)
    requires ReviewsOf(Rows(reviews), course) != []
    ensures var u := RatingsUpdate(Aggregate(reviews, course));
      var rs := ReviewsOf(Rows(reviews), course);
      var xs := Ratings(rs);
      u["ratingsQuantity"] == Num(|rs| as real)
      && u["ratingsAverage"] == (if xs == [] then Null else Num(Sum(xs) / (|xs| as real)))
  {
    var rs := ReviewsOf(Rows(reviews), course);
    var xs := Ratings(rs);
    var avg := if xs == [] then None else Some(Sum(xs) / (|xs| as real));
    assert Aggregate(reviews, course) == [Stats(|rs|, avg)];
  }

  /** With no review the course gets exactly `(0, 4.5)`. */
  lemma AggregateOfUnreviewedCourse(reviews: Table, course: Id)
    requires WellFormed(reviews)
    requires forall r :: r in reviews.rows ==> Field(reviews.rows[r], "course") != Some(Str(course))
    ensures RatingsUpdate(Aggregate(reviews, course)) == map["ratingsQuantity" := Num(0.0), "ratingsAverage" := Num(4.5)]
  {
    var rs := ReviewsOf(Rows(reviews), course);
    forall x | x in Rows(reviews) ensures Field(x.doc, "course") != Some(Str(course)) {
      var i :| 0 <= i < |Rows(reviews)| && Rows(reviews)[i] == x;
      assert reviews.order[i] in reviews.rows;
    }
  }

  /** Every review counts: when all of them carry a rating, the average is
      the sum of the ratings over the number of reviews. */
  lemma AllRatedAverage(reviews: Table, course: Id)
    requires WellFormed(reviews)
    requires ReviewsOf(Rows(reviews), course) != []
    requires forall x :: x in ReviewsOf(Rows(reviews), course) ==> Field(x.doc, "rating").Some? && Field(x.doc, "rating").value.Num?
    ensures var rs := ReviewsOf(Rows(reviews), course);
      RatingsUpdate(Aggregate(reviews, course))["ratingsAverage"] == Num(Sum(Ratings(rs)) / (|rs| as real))
  {
    var rs := ReviewsOf(Rows(reviews), course);
    AllRatedLength(rs);
  }

  lemma {:induction false} AllRatedLength(rs: seq<Record>)
    requires forall x :: x in rs ==> Field(x.doc, "rating").Some? && Field(x.doc, "rating").value.Num?
    ensures |Ratings(rs)| == |rs|
  {
    if rs != [] {
      assert rs[0] in rs;
      assert forall x :: x in rs[1..] ==> x in rs;
      AllRatedLength(rs[1..]);
    }
  }

  lemma {:induction false} SumBounds(xs: seq<real>)
    requires forall i :: 0 <= i < |xs| ==> 1.0 <= xs[i] <= 5.0
    ensures |xs| as real <= Sum(xs) <= 5.0 * (|xs| as real)
  {
    if xs != [] {
      assert forall i :: 0 <= i < |xs[1..]| ==> xs[1..][i] == xs[i + 1];
      SumBounds(xs[1..]);
    }
  }

  lemma {:induction false} RatingsInRange(rs: seq<Record>)
    requires forall k :: 0 <= k < |rs| ==> ReviewValid(rs[k].doc)
    ensures forall i :: 0 <= i < |Ratings(rs)| ==> 1.0 <= Ratings(rs)[i] <= 5.0
  {
    if rs != [] {
      assert forall k :: 0 <= k < |rs[1..]| ==> rs[1..][k] == rs[k + 1];
      RatingsInRange(rs[1..]);
      ReviewValidMeans(rs[0].doc);
    }
  }

  /** Scaling by a positive `n` keeps a factor's side of 1 and of 5. */
  lemma ScaleOrder(a: real, n: real)
    requires n > 0.0
    ensures n <= a * n ==> 1.0 <= a
    ensures a * n <= 5.0 * n ==> a <= 5.0
  {
    if a < 1.0 {
      assert (1.0 - a) * n > 0.0;
      assert (1.0 - a) * n == n - a * n;
    }
    if a > 5.0 {
      assert (a - 5.0) * n > 0.0;
      assert (a - 5.0) * n == a * n - 5.0 * n;
    }
  }

  /** A total between `n` and `5n` over `n > 0` items averages into [1, 5]. */
  lemma QuotientInRange(s: real, n: real)
    requires n > 0.0 && n <= s <= 5.0 * n
    ensures 1.0 <= s / n <= 5.0
  {
    var a := s / n;
    assert a * n == s;
    ScaleOrder(a, n);
  }

  /** A mean of values in [1, 5] lies in [1, 5]. */
  lemma MeanInRange(xs: seq<real>)
    requires xs != []
    requires forall i :: 0 <= i < |xs| ==> 1.0 <= xs[i] <= 5.0
    ensures 1.0 <= Sum(xs) / (|xs| as real) <= 5.0
  {
    SumBounds(xs);
    QuotientInRange(Sum(xs), |xs| as real);
  }

  /** The reviews the pipeline matches are stored ones, so they are valid. */
  lemma MatchedReviewsValid(reviews: Table, course: Id)
    requires TableValid(Review, reviews)
    ensures forall k :: 0 <= k < |ReviewsOf(Rows(reviews), course)| ==> ReviewValid(ReviewsOf(Rows(reviews), course)[k].doc)
  {
    var rs := ReviewsOf(Rows(reviews), course);
    forall k | 0 <= k < |rs| ensures ReviewValid(rs[k].doc) {
      assert rs[k] in rs;
      var i :| 0 <= i < |Rows(reviews)| && Rows(reviews)[i] == rs[k];
      assert reviews.order[i] in reviews.rows;
    }
  }

  /** Since stored ratings lie in [1, 5], so does every average written. */
  lemma AverageInRange(reviews: Table, course: Id)
    requires TableValid(Review, reviews)
    ensures var u := RatingsUpdate(Aggregate(reviews, course));
      u["ratingsAverage"].Num? ==> 1.0 <= u["ratingsAverage"].n <= 5.0
  {
    var rs := ReviewsOf(Rows(reviews), course);
    if rs != [] {
      AggregateOfReviewedCourse(reviews, course);
      MatchedReviewsValid(reviews, course);
      var xs := Ratings(rs);
      RatingsInRange(rs);
      if xs != [] {
        MeanInRange(xs);
      }
    }
  }

  /** Recomputing writes only `ratingsQuantity` and `ratingsAverage` of the
      course passed in; every other course, and every other field, keeps its
      value. */
  lemma RecomputeTouchesOnlyItsCourse(courses: Table, reviews: Table, course: Id)
    requires WellFormed(courses) && WellFormed(reviews)
    ensures var after := Patch(courses, course, RatingsUpdate(Aggregate(reviews, course)));
      (forall c :: c != course ==> Get(after, c) == Get(courses, c))
      && (course in courses.rows ==>
            forall f :: f != "ratingsQuantity" && f != "ratingsAverage" ==> Field(after.rows[course], f) == Field(courses.rows[course], f))
      && (course !in courses.rows ==> after == courses)
  {
    PatchWellFormed(courses, course, RatingsUpdate(Aggregate(reviews, course)));
  }

  /** Recomputing twice without a review change gives the same courses as
      recomputing once. */
  lemma RecomputeIdempotent(courses: Table, reviews: Table, course: Id)
    requires WellFormed(reviews)
    ensures var u := RatingsUpdate(Aggregate(reviews, course));
      Patch(Patch(courses, course, u), course, u) == Patch(courses, course, u)
  {
    var u := RatingsUpdate(Aggregate(reviews, course));
    if course in courses.rows {
      var d := courses.rows[course];
      assert Merge(Merge(d, u), u) == Merge(d, u);
    }
  }

  // ---------------------------------------------------------------------
  // The hooks
  // ---------------------------------------------------------------------

  /** The exception the findOneAnd* post hook throws when its pre hook
      captured no review. */
  const NullCapture: Error :=
    Error("TypeError", "Cannot read properties of null (reading 'constructor')", None, None, false, None, "", "", [])

  function CourseOf(d: Doc): Id
    requires IsIdField(d, "course")
  {
    d["course"].s
  }

  /** `Review.create(doc)`, then the post-save hook for the new review's
      course. */
  method SaveReview(db: Database, id: Id, d: Doc) returns (r: Result<Record>)
    requires db.Valid() && id !in db.reviews.rows
    modifies db
    ensures db.Valid()
    ensures Violations(Review, d, true) != [] ==>
      r == Err(ValidationFailure(ModelName(Review) + " validation failed", Violations(Review, d, true)))
    ensures Violations(Review, d, true) == [] ==>
      r == match UniqueViolation(db.engine, db.name, Review, old(db.reviews), id, d)
           case Some(e) => Err(e)
           case None => Ok(Record(id, d))
    ensures r.Err? ==> db.courses == old(db.courses) && db.reviews == old(db.reviews)
    ensures r.Ok? ==>
      r.value == Record(id, d) && IsIdField(d, "course")
      && db.reviews == Insert(old(db.reviews), id, d)
      && db.courses == Patch(old(db.courses), CourseOf(d), RatingsUpdate(Aggregate(db.reviews, CourseOf(d))))
    ensures db.media == old(db.media) && db.users == old(db.users)
  {
    r := db.Create(Review, id, d);
    assert db.TableOf(Course) == old(db.TableOf(Course));
    assert db.TableOf(Media) == old(db.TableOf(Media));
    if r.Ok? {
      ReviewValidMeans(d);
      CalcAverageRatings(db, CourseOf(d));
    }
  }

  /** `Review.findByIdAndUpdate(id, patch)`: the pre hook captures the
      review as it was, the update runs, and the post hook recomputes the
      captured review's course — the course it had before the update. A
      missing review leaves the capture null and the post hook throws. */
  method UpdateReview(db: Database, id: Id, patch: Doc) returns (r: Result<Option<Record>>)
    requires db.Valid()
    modifies db
    ensures db.Valid()
    ensures !IsObjectIdText(id) ==> r == Err(CastFailure(Review, "_id", id))
    ensures IsObjectIdText(id) && Violations(Review, patch, false) != [] ==>
      r == Err(ValidationFailure("Validation failed", Violations(Review, patch, false)))
    ensures IsObjectIdText(id) && Violations(Review, patch, false) == [] && id !in old(db.reviews.rows) ==>
      r == Err(NullCapture)
    ensures IsObjectIdText(id) && Violations(Review, patch, false) == [] && id in old(db.reviews.rows) ==>
      var updated := Merge(old(db.reviews.rows[id]), patch);
      r == match UniqueViolation(db.engine, db.name, Review, old(db.reviews), id, updated)
           case Some(e) => Err(e)
           case None => Ok(Some(Record(id, updated)))
    ensures r.Err? ==> db.courses == old(db.courses) && db.reviews == old(db.reviews)
    ensures r.Ok? ==>
      r.value.Some? && id in old(db.reviews.rows) && IsIdField(old(db.reviews.rows[id]), "course")
      && r.value.value == Record(id, Merge(old(db.reviews.rows[id]), patch))
      && db.reviews == Patch(old(db.reviews), id, patch)
      && var before := CourseOf(old(db.reviews.rows[id]));
         db.courses == Patch(old(db.courses), before, RatingsUpdate(Aggregate(db.reviews, before)))
    ensures db.media == old(db.media) && db.users == old(db.users)
  {
    ghost var reviews0 := db.reviews;
    var captured := db.FindById(Review, id);
    if captured.Err? {
      return Err(captured.error);
    }
    assert captured.value.Some? ==> ReviewValid(reviews0.rows[id]);
    r := db.UpdateById(Review, id, patch);
    assert db.TableOf(Course) == old(db.TableOf(Course));
    assert db.TableOf(Media) == old(db.TableOf(Media));
    if r.Err? {
      return;
    }
    if captured.value.None? {
      return Err(NullCapture);
    }
    var before := captured.value.value.doc;
    assert before == reviews0.rows[id];
    ReviewValidMeans(before);
    assert db.reviews == Patch(reviews0, id, patch);
    CalcAverageRatings(db, CourseOf(before));
  }

  /** `Review.findByIdAndDelete(id)` with the same hooks. `None` is an
      undefined id: the filter `{_id: undefined}` is the empty filter, so
      the hooks capture and the delete removes the first review in natural
      order. */
  method DeleteReview(db: Database, id: Option<Id>) returns (r: Result<Option<Record>>)
    requires db.Valid()
    modifies db
    ensures db.Valid()
    ensures id.Some? && !IsObjectIdText(id.value) ==> r == Err(CastFailure(Review, "_id", id.value))
    ensures id.Some? && IsObjectIdText(id.value) && id.value !in old(db.reviews.rows) ==> r == Err(NullCapture)
    ensures id.Some? && IsObjectIdText(id.value) && id.value in old(db.reviews.rows) ==>
      r == Ok(Some(Record(id.value, old(db.reviews.rows[id.value]))))
    ensures id.None? && old(db.reviews.order) == [] ==> r == Err(NullCapture)
    ensures id.None? && old(db.reviews.order) != [] ==>
      old(db.reviews.order[0]) in old(db.reviews.rows)
      && r == Ok(Some(Record(old(db.reviews.order[0]), old(db.reviews.rows[db.reviews.order[0]]))))
    ensures r.Err? ==> db.courses == old(db.courses) && db.reviews == old(db.reviews)
    ensures r.Ok? ==>
      r.value.Some? && r.value.value.id in old(db.reviews.rows)
      && var target := r.value.value.id;
         && IsIdField(old(db.reviews.rows[target]), "course")
         && r.value.value == Record(target, old(db.reviews.rows[target]))
         && db.reviews == Remove(old(db.reviews), target)
         && var before := CourseOf(old(db.reviews.rows[target]));
            db.courses == Patch(old(db.courses), before, RatingsUpdate(Aggregate(db.reviews, before)))
    ensures db.media == old(db.media) && db.users == old(db.users)
  {
    if id.None? {
      r := DeleteFirstReview(db);
      return;
    }
    var captured := db.FindById(Review, id.value);
    if captured.Err? {
      return Err(captured.error);
    }
    r := db.DeleteById(Review, id.value);
    assert db.TableOf(Course) == old(db.TableOf(Course));
    assert db.TableOf(Media) == old(db.TableOf(Media));
    if r.Err? {
      return;
    }
    if captured.value.None? {
      return Err(NullCapture);
    }
    var before := captured.value.value.doc;
    ReviewValidMeans(before);
    CalcAverageRatings(db, CourseOf(before));
  }

  /** The undefined-id delete: the first review in natural order is
      captured and removed and its course recomputed; with no reviews the
      capture is null and the post hook throws. */
  method DeleteFirstReview(db: Database) returns (r: Result<Option<Record>>)
    requires db.Valid()
    modifies db
    ensures db.Valid()
    ensures old(db.reviews.order) == [] ==>
      r == Err(NullCapture) && db.courses == old(db.courses) && db.reviews == old(db.reviews)
    ensures old(db.reviews.order) != [] ==>
      var first := old(db.reviews.order[0]);
      && first in old(db.reviews.rows)
      && IsIdField(old(db.reviews.rows[first]), "course")
      && r == Ok(Some(Record(first, old(db.reviews.rows[first]))))
      && db.reviews == Remove(old(db.reviews), first)
      && var before := CourseOf(old(db.reviews.rows[first]));
         db.courses == Patch(old(db.courses), before, RatingsUpdate(Aggregate(db.reviews, before)))
    ensures db.media == old(db.media) && db.users == old(db.users)
  {
    ghost var reviews0 := db.reviews;
    var deleted := db.DeleteFirst(Review);
    assert db.TableOf(Course) == old(db.TableOf(Course));
    assert db.TableOf(Media) == old(db.TableOf(Media));
    if deleted.None? {
      return Err(NullCapture);
    }
    var before := deleted.value.doc;
    assert ReviewValid(reviews0.rows[deleted.value.id]);
    ReviewValidMeans(before);
    CalcAverageRatings(db, CourseOf(before));
    r := Ok(deleted);
  }
}
