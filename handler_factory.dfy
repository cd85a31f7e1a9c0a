/** controllers/handlerFactory.js: the generic list, read, create, update and
    delete handlers every model's controller is built from. */
module HandlerFactory {
  import opened Common
  import opened Records
  import opened AppErrors
  import opened ApiFeatures
  import opened Store
  import opened ReviewModel
  import opened Http

  const NoDocument := "No document found with that ID!"

  /** The exception `reqBody.course` throws when the factory was given no
      body. */
  const NoFactoryBody: Error := Thrown("TypeError", "Cannot read properties of undefined (reading 'course')")

  /** The exceptions `split` throws on a `sort` or `fields` value that is an
      object rather than a string. */
  const SortNotString: Error := Thrown("TypeError", "this.queryString.sort.split is not a function")
  const FieldsNotString: Error := Thrown("TypeError", "this.queryString.fields.split is not a function")

  // ---------------------------------------------------------------------
  // getAll
  // ---------------------------------------------------------------------

  /** Whether a path segment of the URL, query string included, is exactly
      `best-seller`. */
  predicate IsBestSellerUrl(url: string)
  {
    "best-seller" in Split(url, '/')
  }

  /** A URL built from slash-free segments is a best-seller URL exactly
      when one of its segments is `best-seller`; a query string glued to
      the last segment hides it. */
  lemma BestSellerRoute(segments: seq<string>)
    requires |segments| >= 1
    requires forall i :: 0 <= i < |segments| ==> '/' !in segments[i]
    ensures IsBestSellerUrl(Join(segments, "/")) <==> "best-seller" in segments
  {
    SplitJoin(segments, '/');
  }

  /** A query string after `best-seller` hides the segment: such a URL
      does not select best-sellers. */
  lemma BestSellerQueryHides(prefix: seq<string>, query: string)
    requires forall i :: 0 <= i < |prefix| ==> '/' !in prefix[i] && prefix[i] != "best-seller"
    requires '/' !in query
    ensures !IsBestSellerUrl(Join(prefix + ["best-seller?" + query], "/"))
  {
    var segments := prefix + ["best-seller?" + query];
    assert segments[|prefix|] == "best-seller?" + query;
    assert forall i :: 0 <= i < |segments| ==> '/' !in segments[i];
    BestSellerRoute(segments);
    assert |"best-seller?" + query| != |"best-seller"|;
    assert forall i :: 0 <= i < |segments| ==> segments[i] != "best-seller";
  }

  /** The filter getAll starts from: empty, or the route's course, and the
      `best-seller` segment replaces either. */
  function BaseFilter(courseId: Option<string>, url: string): (cs: seq<Condition>)
    ensures IsBestSellerUrl(url) ==> cs == [NotFalse("bestseller")]
    ensures !IsBestSellerUrl(url) && courseId.Some? && courseId.value != "" ==> cs == [Equals("course", courseId.value)]
    ensures !IsBestSellerUrl(url) && (courseId.None? || courseId.value == "") ==> cs == []
  {
    if IsBestSellerUrl(url) then [NotFalse("bestseller")]
    else if courseId.Some? && courseId.value != "" then [Equals("course", courseId.value)]
    else []
  }

  /** `req.query.search` when it is truthy. */
  function SearchTerm(qs: seq<Entry>): Option<QValue>
  {
    match Lookup(qs, "search")
    case Some(Text(s)) => if s != "" then Some(Text(s)) else None
    case Some(v) => Some(v)
    case None => None
  }

  /** The query getAll builds: the base filter, then `filter()`,
      `sort()`, `limitFields()` and `paginate()` on an APIFeatures object;
      a `sort` or `fields` parameter that is not a string makes the chain
      throw. */
  method ShapedQuery(req: Request) returns (r: Result<Query>)
    ensures SortSpec(req.query).None? ==> r == Err(SortNotString)
    ensures SortSpec(req.query).Some? && SelectSpec(req.query).None? ==> r == Err(FieldsNotString)
    ensures SortSpec(req.query).Some? && SelectSpec(req.query).Some? ==>
      r == Ok(Shape(FindQuery(BaseFilter(req.Param("courseId"), req.originalUrl)), req.query).value)
  {
    var filter: seq<Condition> := [];
    var courseId := req.Param("courseId");
    if courseId.Some? && courseId.value != "" {
      filter := [Equals("course", courseId.value)];
    }
    if "best-seller" in Split(req.originalUrl, '/') {
      filter := [NotFalse("bestseller")];
    }
    var features := new APIFeatures(FindQuery(filter), req.query);
    features := features.Filter();
    var ok;
    features, ok := features.Sort();
    if !ok {
      return Err(SortNotString);
    }
    features, ok := features.Limit();
    if !ok {
      return Err(FieldsNotString);
    }
    features := features.Paginate();
    assert filter == BaseFilter(req.Param("courseId"), req.originalUrl);
    r := Ok(features.query);
  }

  /** getAll(Model): the shaped query, then either the Atlas text search
      (courses with a `search` parameter) or the query on the model's
      collection. `results` is always the length of the list sent. */
  method GetAll(db: Database, m: Model, req: Request) returns (o: Outcome)
    requires db.Valid()
    ensures o.Sent? ==> o.code == 200 && o.payload.Listed? && o.payload.results == |o.payload.docs| && o.cookie.None?
    ensures o.Failed? || o.Sent?
    ensures SortSpec(req.query).None? ==> o == Failed(SortNotString)
    ensures SortSpec(req.query).Some? && SelectSpec(req.query).None? ==> o == Failed(FieldsNotString)
    ensures SortSpec(req.query).Some? && SelectSpec(req.query).Some? ==>
      var q := Shape(FindQuery(BaseFilter(req.Param("courseId"), req.originalUrl)), req.query).value;
      if m == Course && SearchTerm(req.query).Some? then
        o.Sent? && o.payload.docs == db.engine.search(SearchTerm(req.query).value)
      else
        match Find(db.engine, m, db.TableOf(m), q)
        case Err(e) => o == Failed(e)
        case Ok(docs) => o.Sent? && o.payload.docs == docs
  {
    var shaped := ShapedQuery(req);
    var term := SearchTerm(req.query);
    var found := if shaped.Err? then Err(shaped.error)
                 else if m == Course && term.Some? then Ok(db.engine.search(term.value))
                 else Find(db.engine, m, db.TableOf(m), shaped.value);
    o := match found
      case Err(e) => Failed(e)
      case Ok(docs) => Sent(200, Listed(|docs|, docs), None);
  }

  // ---------------------------------------------------------------------
  // getOne
  // ---------------------------------------------------------------------

  /** getOne(Model): the document with the route's id, a 404 when there is
      none, or the id's CastError. */
  method GetOne(db: Database, m: Model, req: Request) returns (o: Outcome)
    requires db.Valid() && "id" in req.params
    ensures var id := req.params["id"];
      && (!IsObjectIdText(id) ==> o == Failed(CastFailure(m, "_id", id)))
      && (IsObjectIdText(id) && id !in db.TableOf(m).rows ==> o == Failed(NewAppError(NoDocument, Some(404))))
      && (IsObjectIdText(id) && id in db.TableOf(m).rows ==>
            o == Sent(200, Single(Some(Record(id, db.TableOf(m).rows[id]))), None))
  {
    var found := db.FindById(m, req.params["id"]);
    if found.Err? {
      return Failed(found.error);
    }
    if found.value.None? {
      return Failed(NewAppError(NoDocument, Some(404)));
    }
    o := Sent(200, Single(found.value), None);
  }

  // ---------------------------------------------------------------------
  // createOne
  // ---------------------------------------------------------------------

  /** `if (!reqBody.course) reqBody.course = req.params.courseId`. */
  function WithCourse(body: Doc, courseId: Option<string>): (r: Doc)
    ensures Truthy(Field(body, "course")) ==> r == body
    ensures !Truthy(Field(body, "course")) ==>
      Field(r, "course") == (match courseId case Some(c) => Some(Str(c)) case None => None)
    ensures forall k :: k != "course" ==> Field(r, k) == Field(body, k)
  {
    if Truthy(Field(body, "course")) then body
    else SetField(body, "course", match courseId case Some(c) => Some(Str(c)) case None => None)
  }

  /** The handler `createOne(Model, reqBody)` returns. `reqBody` is bound
      when the factory runs, so every request works on the same object and
      the course a request writes into it stays there; the controllers call
      the factory without a body. `id` is the id the new document gets. */
  class CreateOneHandler {
    const model: Model
    var reqBody: Option<Doc>

    constructor (model: Model, reqBody: Option<Doc>)
      ensures this.model == model && this.reqBody == reqBody
    {
      this.model := model;
      this.reqBody := reqBody;
    }

    method Handle(db: Database, req: Request, id: Id) returns (o: Outcome)
      requires db.Valid() && id !in db.TableOf(model).rows
      modifies this, db
      ensures db.Valid() && db.users == old(db.users)
      ensures old(reqBody).None? ==>
        o == Failed(NoFactoryBody) && reqBody == old(reqBody)
        && db.courses == old(db.courses) && db.reviews == old(db.reviews) && db.media == old(db.media)
      ensures old(reqBody).Some? ==> reqBody == Some(WithCourse(old(reqBody).value, req.Param("courseId")))
      ensures o.Failed? ==> db.courses == old(db.courses) && db.reviews == old(db.reviews) && db.media == old(db.media)
      ensures o.Sent? ==>
        reqBody.Some? && o == Sent(201, Single(Some(Record(id, reqBody.value))), None)
        && db.TableOf(model) == Insert(old(db.TableOf(model)), id, reqBody.value)
      ensures reqBody.Some? && Violations(model, reqBody.value, true) != [] ==>
        o == Failed(ValidationFailure(ModelName(model) + " validation failed", Violations(model, reqBody.value, true)))
      ensures reqBody.Some? && Violations(model, reqBody.value, true) == [] ==>
        o == match UniqueViolation(db.engine, db.name, model, old(db.TableOf(model)), id, reqBody.value)
             case Some(e) => Failed(e)
             case None => Sent(201, Single(Some(Record(id, reqBody.value))), None)
      ensures model != Review ==> forall other :: other != model ==> db.TableOf(other) == old(db.TableOf(other))
      ensures model == Review ==> db.media == old(db.media)
      ensures model == Review && o.Sent? ==>
        IsIdField(reqBody.value, "course")
        && db.courses == Patch(old(db.courses), CourseOf(reqBody.value),
                               RatingsUpdate(Aggregate(db.reviews, CourseOf(reqBody.value))))
      ensures o.Sent? || o.Failed?
    {
      if reqBody.None? {
        return Failed(NoFactoryBody);
      }
      reqBody := Some(WithCourse(reqBody.value, req.Param("courseId")));
      var doc := reqBody.value;
      var created: Result<Record>;
      if model == Review {
        created := SaveReview(db, id, doc);
      } else {
        created := db.Create(model, id, doc);
      }
      assert created.Err? ==> db.TableOf(Course) == old(db.TableOf(Course));
      assert created.Err? ==> db.TableOf(Review) == old(db.TableOf(Review));
      assert created.Err? ==> db.TableOf(Media) == old(db.TableOf(Media));
      o := match created
        case Err(e) => Failed(e)
        case Ok(record) => Sent(201, Single(Some(record)), None);
    }
  }

  // ---------------------------------------------------------------------
  // updateOne
  // ---------------------------------------------------------------------

  /** The update updateOne runs: `Model.findByIdAndUpdate(id, body)`, which
      for reviews goes through the review hooks. */
  method UpdateDocument(db: Database, m: Model, id: Id, body: Doc) returns (r: Result<Option<Record>>)
    requires db.Valid()
    modifies db
    ensures db.Valid() && db.users == old(db.users)
    ensures !IsObjectIdText(id) ==> r == Err(CastFailure(m, "_id", id))
    ensures IsObjectIdText(id) && Violations(m, body, false) != [] ==>
      r == Err(ValidationFailure("Validation failed", Violations(m, body, false)))
    ensures IsObjectIdText(id) && Violations(m, body, false) == [] && id !in old(db.TableOf(m)).rows ==>
      r == if m == Review then Err(NullCapture) else Ok(None)
    ensures IsObjectIdText(id) && Violations(m, body, false) == [] && id in old(db.TableOf(m)).rows ==>
      var updated := Merge(old(db.TableOf(m)).rows[id], body);
      r == match UniqueViolation(db.engine, db.name, m, old(db.TableOf(m)), id, updated)
           case Some(e) => Err(e)
           case None => Ok(Some(Record(id, updated)))
    ensures r.Ok? && r.value.Some? ==>
      id in old(db.TableOf(m)).rows
      && r.value.value == Record(id, Merge(old(db.TableOf(m)).rows[id], body))
      && db.TableOf(m) == Patch(old(db.TableOf(m)), id, body)
    ensures (r.Err? || r.value.None?) ==>
      db.courses == old(db.courses) && db.reviews == old(db.reviews) && db.media == old(db.media)
    ensures m != Review ==> forall other :: other != m ==> db.TableOf(other) == old(db.TableOf(other))
    ensures m == Review ==> db.media == old(db.media)
  {
    if m == Review {
      r := UpdateReview(db, id, body);
    } else {
      r := db.UpdateById(m, id, body);
      assert (r.Err? || r.value.None?) ==> db.TableOf(m) == old(db.TableOf(m));
      assert db.TableOf(Review) == old(db.TableOf(Review));
      assert m == Course ==> db.TableOf(Media) == old(db.TableOf(Media));
      assert m == Media ==> db.TableOf(Course) == old(db.TableOf(Course));
    }
  }

  /** updateOne(Model): an uploaded file's name goes into `imageCover`, then
      the route's document gets the body's fields. Reviews go through the
      review hooks, so a missing review is a TypeError rather than a 404. */
  method UpdateOne(db: Database, m: Model, req: Request) returns (o: Outcome)
    requires db.Valid() && "id" in req.params
    modifies db, req
    ensures db.Valid() && db.users == old(db.users)
    ensures req.body == if req.file.Some? then old(req.body)["imageCover" := Str(req.file.value)] else old(req.body)
    ensures req.user == old(req.user)
    ensures var id := req.params["id"];
      && (!IsObjectIdText(id) ==> o == Failed(CastFailure(m, "_id", id)))
      && (IsObjectIdText(id) && Violations(m, req.body, false) != [] ==>
            o == Failed(ValidationFailure("Validation failed", Violations(m, req.body, false))))
      && (IsObjectIdText(id) && Violations(m, req.body, false) == [] && id !in old(db.TableOf(m)).rows ==>
            o == Failed(if m == Review then NullCapture else NewAppError(NoDocument, Some(404))))
      && (IsObjectIdText(id) && Violations(m, req.body, false) == [] && id in old(db.TableOf(m)).rows ==>
            var updated := Merge(old(db.TableOf(m)).rows[id], req.body);
            o == match UniqueViolation(db.engine, db.name, m, old(db.TableOf(m)), id, updated)
                 case Some(e) => Failed(e)
                 case None => Sent(200, Single(Some(Record(id, updated))), None))
      && (o.Sent? ==>
            id in old(db.TableOf(m)).rows
            && o == Sent(200, Single(Some(Record(id, Merge(old(db.TableOf(m)).rows[id], req.body)))), None)
            && db.TableOf(m) == Patch(old(db.TableOf(m)), id, req.body))
    ensures o.Failed? ==> db.courses == old(db.courses) && db.reviews == old(db.reviews) && db.media == old(db.media)
    ensures m != Review ==> forall other :: other != m ==> db.TableOf(other) == old(db.TableOf(other))
    ensures m == Review ==> db.media == old(db.media)
    ensures o.Sent? || o.Failed?
  {
    req.AttachCover();
    var updated := UpdateDocument(db, m, req.params["id"], req.body);
    o := match updated
      case Err(e) => Failed(e)
      case Ok(None) => Failed(NewAppError(NoDocument, Some(404)))
      case Ok(found) => Sent(200, Single(found), None);
  }

  // ---------------------------------------------------------------------
  // deleteOne
  // ---------------------------------------------------------------------

  /** The handler `deleteOne(Model, id)` returns: the id is bound when the
      factory runs (`None` when the controller passes none, as all of them
      do), not taken from the request. */
  class DeleteOneHandler {
    const model: Model
    const id: Option<Id>

    constructor (model: Model, id: Option<Id>)
      ensures this.model == model && this.id == id
    {
      this.model := model;
      this.id := id;
    }

    method Handle(db: Database) returns (o: Outcome)
      requires db.Valid()
      modifies db
      ensures db.Valid() && db.users == old(db.users)
      ensures id.None? && old(db.TableOf(model)).order == [] ==>
        o == Failed(if model == Review then NullCapture else NewAppError(NoDocument, Some(404)))
      ensures id.None? && old(db.TableOf(model)).order != [] ==> o == Sent(204, NoData, None)
      ensures id.Some? && !IsObjectIdText(id.value) ==> o == Failed(CastFailure(model, "_id", id.value))
      ensures id.Some? && IsObjectIdText(id.value) && id.value !in old(db.TableOf(model)).rows ==>
        o == Failed(if model == Review then NullCapture else NewAppError(NoDocument, Some(404)))
      ensures id.Some? && IsObjectIdText(id.value) && id.value in old(db.TableOf(model)).rows ==> o == Sent(204, NoData, None)
      ensures o.Failed? ==> db.courses == old(db.courses) && db.reviews == old(db.reviews) && db.media == old(db.media)
      ensures o.Sent? ==>
        o == Sent(204, NoData, None)
        && (id.None? ==> old(db.TableOf(model)).order != [])
        && var target := if id.Some? then id.value else old(db.TableOf(model)).order[0];
           && target in old(db.TableOf(model)).rows
           && db.TableOf(model) == Remove(old(db.TableOf(model)), target)
      ensures model != Review ==> forall other :: other != model ==> db.TableOf(other) == old(db.TableOf(other))
      ensures model == Review ==> db.media == old(db.media)
      ensures o.Sent? || o.Failed?
    {
      var deleted: Result<Option<Record>>;
      if model == Review {
        deleted := DeleteReview(db, id);
      } else if id.None? {
        var first := db.DeleteFirst(model);
        deleted := Ok(first);
      } else {
        deleted := db.DeleteById(model, id.value);
      }
      assert (deleted.Err? || deleted.value.None?) ==> db.TableOf(Course) == old(db.TableOf(Course));
      assert (deleted.Err? || deleted.value.None?) ==> db.TableOf(Review) == old(db.TableOf(Review));
      assert (deleted.Err? || deleted.value.None?) ==> db.TableOf(Media) == old(db.TableOf(Media));
      o := match deleted
        case Err(e) => Failed(e)
        case Ok(None) => Failed(NewAppError(NoDocument, Some(404)))
        case Ok(Some(_)) => Sent(204, NoData, None);
    }
  }
}
