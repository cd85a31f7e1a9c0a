/** The database as the handlers see it: one table per model (courses,
    reviews, uploads) keeping documents in insertion order, the user
    collection, and what Mongoose does on a read or a write — id casting,
    schema validation, unique indexes, and the evaluation of a shaped query. */
module Store {
  import opened Common
  import opened Records
  import opened AppErrors
  import opened ApiFeatures

  /** What an awaited database call yields: a value, or the error it rejects
      with. */
  datatype Result<T> = Ok(value: T) | Err(error: Error)

  datatype Model = Course | Review | Media

  function ModelName(m: Model): string
  {
    match m
    case Course => "Course"
    case Review => "Review"
    case Media => "Media"
  }

  /** The collection Mongoose derives from the model name. */
  function CollectionName(m: Model): string
  {
    match m
    case Course => "courses"
    case Review => "reviews"
    case Media => "media"
  }

  // ---------------------------------------------------------------------
  // Tables
  // ---------------------------------------------------------------------

  /** A collection: ids in natural (insertion) order and the documents. */
  datatype Table = Table(order: seq<Id>, rows: map<Id, Doc>)

  predicate Distinct(s: seq<Id>)
  {
    forall i, j :: 0 <= i < j < |s| ==> s[i] != s[j]
  }

  predicate WellFormed(t: Table)
  {
    Distinct(t.order) && t.rows.Keys == set x | x in t.order
  }

  function Get(t: Table, id: Id): Option<Doc>
  {
    if id in t.rows then Some(t.rows[id]) else None
  }

  /** The documents in natural order. */
  function Rows(t: Table): (r: seq<Record>)
    requires WellFormed(t)
    ensures |r| == |t.order|
    ensures forall i :: 0 <= i < |r| ==> r[i] == Record(t.order[i], t.rows[t.order[i]])
  {
    seq(|t.order|, i requires 0 <= i < |t.order| => Record(t.order[i], t.rows[t.order[i]]))
  }

  function Insert(t: Table, id: Id, d: Doc): (r: Table)
    requires id !in t.rows
  {
    Table(t.order + [id], t.rows[id := d])
  }

  /** `$set` of every top-level field of `patch`. */
  function Merge(d: Doc, patch: Doc): (r: Doc)
    ensures forall k :: Field(r, k) == if k in patch then Some(patch[k]) else Field(d, k)
  {
    map k | k in d.Keys + patch.Keys :: if k in patch then patch[k] else d[k]
  }

  /** An update by id; a missing id changes nothing. */
  function Patch(t: Table, id: Id, patch: Doc): Table
  {
    if id in t.rows then Table(t.order, t.rows[id := Merge(t.rows[id], patch)]) else t
  }

  function RemoveId(order: seq<Id>, id: Id): (r: seq<Id>)
    ensures forall x :: x in r <==> x in order && x != id
    ensures |r| <= |order|
  {
    if order == [] then []
    else (if order[0] == id then [] else [order[0]]) + RemoveId(order[1..], id)
  }

  function Remove(t: Table, id: Id): Table
  {
    Table(RemoveId(t.order, id), t.rows - {id})
  }

  lemma InsertWellFormed(t: Table, id: Id, d: Doc)
    requires WellFormed(t) && id !in t.rows
    ensures WellFormed(Insert(t, id, d))
    ensures forall x :: Get(Insert(t, id, d), x) == if x == id then Some(d) else Get(t, x)
    ensures Rows(Insert(t, id, d)) == Rows(t) + [Record(id, d)]
  {
  }

  lemma PatchWellFormed(t: Table, id: Id, patch: Doc)
    requires WellFormed(t)
    ensures WellFormed(Patch(t, id, patch))
    ensures forall x :: Get(Patch(t, id, patch), x)
                        == (if x == id && id in t.rows then Some(Merge(t.rows[id], patch)) else Get(t, x))
  {
  }

  lemma {:induction false} RemoveIdDistinct(order: seq<Id>, id: Id)
    requires Distinct(order)
    ensures Distinct(RemoveId(order, id))
  {
    if order != [] {
      var tail := order[1..];
      assert Distinct(tail) by {
        forall i, j | 0 <= i < j < |tail| ensures tail[i] != tail[j] {
          assert tail[i] == order[i + 1] && tail[j] == order[j + 1];
        }
      }
      RemoveIdDistinct(tail, id);
      var rest := RemoveId(tail, id);
      if order[0] != id {
        assert order[0] !in tail by {
          forall k | 0 <= k < |tail| ensures tail[k] != order[0] {
            assert tail[k] == order[k + 1];
          }
        }
        var r := [order[0]] + rest;
        assert RemoveId(order, id) == r;
        forall i, j | 0 <= i < j < |r| ensures r[i] != r[j] {
          if i == 0 {
            assert r[j] == rest[j - 1];
            assert rest[j - 1] in rest;
            assert rest[j - 1] in tail;
          } else {
            assert r[i] == rest[i - 1] && r[j] == rest[j - 1];
          }
        }
      } else {
        assert RemoveId(order, id) == [] + rest == rest;
      }
    }
  }

  /** Deleting by id removes that document and leaves every other one, and
      the order of the rest, as it was. */
  lemma RemoveWellFormed(t: Table, id: Id)
    requires WellFormed(t)
    ensures WellFormed(Remove(t, id))
    ensures forall x :: Get(Remove(t, id), x) == if x == id then None else Get(t, x)
  {
    RemoveIdDistinct(t.order, id);
  }

  // ---------------------------------------------------------------------
  // Casting ids
  // ---------------------------------------------------------------------

  predicate IsHexDigit(c: char)
  {
    ('0' <= c <= '9') || ('a' <= c <= 'f') || ('A' <= c <= 'F')
  }

  /** A string Mongoose casts to an ObjectId: 24 hexadecimal digits. */
  predicate IsObjectIdText(s: string)
  {
    |s| == 24 && forall k :: 0 <= k < |s| ==> IsHexDigit(s[k])
  }

  /** The error a failed ObjectId cast on model `model` rejects with. */
  function CastFailureOn(model: string, path: string, value: string): (e: Error)
    ensures e.name == "CastError" && e.path == path && e.value == value && !e.isOperational
  {
    Error("CastError",
      "Cast to ObjectId failed for value \"" + value + "\" (type string) at path \"" + path + "\" for model \"" + model + "\"",
      None, None, false, None, path, value, [])
  }

  function CastFailure(m: Model, path: string, value: string): (e: Error)
    ensures e.name == "CastError" && e.path == path && e.value == value && !e.isOperational
  {
    CastFailureOn(ModelName(m), path, value)
  }

  /** The fields of a model's schema declared as ObjectId references. */
  predicate IsRefField(m: Model, f: string)
  {
    (m == Review && (f == "course" || f == "user")) || (m == Media && f == "course")
  }

  /** The first equality condition on `_id` or a reference field whose
      value does not cast. */
  function FirstCastFailure(m: Model, cs: seq<Condition>): (r: Option<Error>)
    ensures r.None? <==> forall i :: 0 <= i < |cs| && cs[i].Equals? && (cs[i].field == "_id" || IsRefField(m, cs[i].field))
                                     ==> IsObjectIdText(cs[i].value)
  {
    if cs == [] then None
    else if cs[0].Equals? && (cs[0].field == "_id" || IsRefField(m, cs[0].field)) && !IsObjectIdText(cs[0].value)
    then Some(CastFailure(m, cs[0].field, cs[0].value))
    else
      var rest := FirstCastFailure(m, cs[1..]);
      assert forall i :: 1 <= i < |cs| ==> cs[i] == cs[1..][i - 1];
      rest
  }

  // ---------------------------------------------------------------------
  // Evaluating a query
  // ---------------------------------------------------------------------

  /** What the database does that the model does not spell out: evaluating
      a JSON filter on a document, sorting and projecting, Atlas text search,
      and printing a non-string key value in a duplicate-key message. */
  datatype Engine = Engine(
    jsonMatch: (string, Doc) -> bool,
    arrange: (Option<string>, Option<string>, seq<Record>) -> seq<Record>,
    search: QValue -> seq<Record>,
    render: Val -> string)

  predicate Satisfies(engine: Engine, d: Doc, c: Condition)
  {
    match c
    case Equals(f, v) => Field(d, f) == Some(Str(v))
    case NotFalse(f) => Field(d, f) != Some(Bool(false))
    case Json(text) => engine.jsonMatch(text, d)
  }

  predicate SatisfiesAll(engine: Engine, d: Doc, cs: seq<Condition>)
  {
    forall i :: 0 <= i < |cs| ==> Satisfies(engine, d, cs[i])
  }

  /** The documents matching every condition, in natural order. */
  function Matching(engine: Engine, rs: seq<Record>, cs: seq<Condition>): (r: seq<Record>)
    ensures forall x :: x in r <==> x in rs && SatisfiesAll(engine, x.doc, cs)
    ensures |r| <= |rs|
  {
    if rs == [] then []
    else
      var rest := Matching(engine, rs[1..], cs);
      assert forall x :: x in rs <==> x == rs[0] || x in rs[1..];
      (if SatisfiesAll(engine, rs[0].doc, cs) then [rs[0]] else []) + rest
  }

  /** The server's answer to a negative skip. */
  function NegativeSkip(skip: int): Error
  {
    Error("MongoServerError", "BadValue: skip value must be non-negative, but received: " + DecimalText(skip),
      None, None, false, Some(2), "", "", [])
  }

  /** `skip`/`limit` on a result list. A limit of 0 means no limit and a
      negative limit returns its absolute value of documents. */
  function Window(rs: seq<Record>, skip: Option<int>, limit: Option<int>): (r: Result<seq<Record>>)
    ensures r.Err? <==> skip.Some? && skip.value < 0
  {
    var s := if skip.Some? then skip.value else 0;
    if s < 0 then Err(NegativeSkip(s))
    else
      var from := if s < |rs| then s else |rs|;
      var n := if limit.None? then 0 else if limit.value < 0 then -limit.value else limit.value;
      var to := if n == 0 || from + n > |rs| then |rs| else from + n;
      Ok(rs[from..to])
  }

  /** A page: the `limit` documents after the first `skip`, fewer at the
      end, and none — not an error — past the last page. */
  lemma WindowIsPage(rs: seq<Record>, skip: int, limit: int)
    requires skip >= 0 && limit > 0
    ensures Window(rs, Some(skip), Some(limit)).Ok?
    ensures skip >= |rs| ==> Window(rs, Some(skip), Some(limit)).value == []
    ensures skip + limit <= |rs| ==> Window(rs, Some(skip), Some(limit)).value == rs[skip..skip + limit]
    ensures skip < |rs| < skip + limit ==> Window(rs, Some(skip), Some(limit)).value == rs[skip..]
  {
  }

  /** Awaiting a lazy query on a model's table. */
  function Find(engine: Engine, m: Model, t: Table, q: Query): Result<seq<Record>>
    requires WellFormed(t)
  {
    match FirstCastFailure(m, q.conditions)
    case Some(e) => Err(e)
    case None => Window(engine.arrange(q.sortSpec, q.projection, Matching(engine, Rows(t), q.conditions)), q.skip, q.limit)
  }

  // ---------------------------------------------------------------------
  // Validation
  // ---------------------------------------------------------------------

  datatype Violation = Violation(path: string, message: string)

  /** Mongoose's `required` check: set, not null, not the empty string. */
  predicate IsSet(v: Option<Val>)
  {
    v.Some? && v.value != Null && v.value != Str("")
  }

  /** A `required` path, checked when the whole document is validated or
      when the update sets it. */
  function Required(d: Doc, whole: bool, path: string, message: string): seq<Violation>
  {
    if (whole || path in d) && !IsSet(Field(d, path)) then [Violation(path, message)] else []
  }

  /** A required ObjectId reference: set, and a string that casts. */
  function Reference(d: Doc, whole: bool, path: string, message: string): seq<Violation>
  {
    if !(whole || path in d) then []
    else if !IsSet(Field(d, path)) then [Violation(path, message)]
    else if !(d[path].Str? && IsObjectIdText(d[path].s)) then [Violation(path, "Cast to ObjectId failed at path \"" + path + "\"")]
    else []
  }

  /** The field holds an id string. */
  predicate IsIdField(d: Doc, path: string)
  {
    path in d && d[path].Str? && IsObjectIdText(d[path].s)
  }

  function RatingCheck(d: Doc): seq<Violation>
  {
    match Field(d, "rating")
    case Some(Num(n)) =>
      if n < 1.0 then [Violation("rating", "Path `rating` is less than minimum allowed value (1).")]
      else if n > 5.0 then [Violation("rating", "Path `rating` is more than maximum allowed value (5).")]
      else []
    case Some(Null) => []
    case None => []
    case Some(_) => [Violation("rating", "Cast to Number failed at path \"rating\"")]
  }

  /** Each upload path must be a non-empty string. */
  function MediaItems(items: seq<Val>, from: nat): seq<Violation>
    decreases |items|
  {
    if items == [] then []
    else
      (if items[0] == Null || items[0] == Str("")
       then [Violation("mediaContent." + DecimalText(from), "A course must have a media content.")] else [])
      + MediaItems(items[1..], from + 1)
  }

  /** The schema's validators in path order; `whole` validates a new
      document, otherwise only the paths an update sets are checked. */
  function Violations(m: Model, d: Doc, whole: bool): seq<Violation>
  {
    match m
    case Review =>
      Required(d, whole, "review", "Review can not be empty!")
      + RatingCheck(d)
      + Reference(d, whole, "course", "Review must belong to a course.")
      + Reference(d, whole, "user", "Review must belong to a user.")
    case Course =>
      Required(d, whole, "title", "A course mush have a title.")
      + Required(d, whole, "price", "A course mush have a title.")
    case Media =>
      Required(d, whole, "contentTitle", "A course must have a content title.")
      + (match Field(d, "mediaContent") case Some(List(items)) => MediaItems(items, 0) case _ => [])
  }

  function Messages(vs: seq<Violation>): (r: seq<string>)
    ensures |r| == |vs| && forall i :: 0 <= i < |vs| ==> r[i] == vs[i].message
  {
    seq(|vs|, i requires 0 <= i < |vs| => vs[i].message)
  }

  function Described(vs: seq<Violation>): seq<string>
  {
    seq(|vs|, i requires 0 <= i < |vs| => vs[i].path + ": " + vs[i].message)
  }

  /** The ValidationError a failed save (`<Model> validation failed`) or a
      failed update (`Validation failed`) rejects with. */
  function ValidationFailure(prefix: string, vs: seq<Violation>): (e: Error)
    ensures e.name == "ValidationError" && e.fieldMessages == Messages(vs) && !e.isOperational
  {
    Error("ValidationError", prefix + ": " + Join(Described(vs), ", "), None, None, false, None, "", "", Messages(vs))
  }

  /** A rating a stored review may hold: none, null, or a number in [1, 5]. */
  predicate RatingOk(v: Option<Val>)
  {
    match v
    case Some(Num(n)) => 1.0 <= n <= 5.0
    case Some(Null) => true
    case None => true
    case Some(_) => false
  }

  /** A stored review, field by field: non-empty text, a course id, a user
      id and an acceptable rating. */
  predicate ReviewValid(d: Doc)
  {
    IsSet(Field(d, "review")) && IsIdField(d, "course") && IsIdField(d, "user") && RatingOk(Field(d, "rating"))
  }

  /** The review schema's validators pass on a whole document exactly when
      the document is a valid review. */
  lemma ReviewValidMeans(d: Doc)
    ensures Violations(Review, d, true) == [] <==> ReviewValid(d)
  {
  }

  /** An update validated on its own paths keeps a valid review valid. */
  lemma PatchKeepsReviewValid(d: Doc, patch: Doc)
    requires ReviewValid(d) && Violations(Review, patch, false) == []
    ensures ReviewValid(Merge(d, patch))
  {
    assert Required(patch, false, "review", "Review can not be empty!") == [];
    assert Reference(patch, false, "course", "Review must belong to a course.") == [];
    assert Reference(patch, false, "user", "Review must belong to a user.") == [];
    assert RatingCheck(patch) == [];
  }

  // ---------------------------------------------------------------------
  // Unique indexes
  // ---------------------------------------------------------------------

  /** How a duplicate key prints in the server's message. */
  function KeyText(engine: Engine, m: Model, v: Option<Val>): string
  {
    match v
    case Some(Str(s)) => if m == Review then "ObjectId('" + s + "')" else "\"" + s + "\""
    case Some(x) => engine.render(x)
    case None => "null"
  }

  /** The E11000 error for an index over `fields`, holding `values`. */
  function DuplicateKeyIn(db: string, collection: string, index: string, keys: string): (e: Error)
    ensures e.code == Some(11000) && !e.isOperational
  {
    Error("MongoServerError",
      "E11000 duplicate key error collection: " + db + "." + collection + " index: " + index + " dup key: " + keys,
      None, None, false, Some(11000), "", "", [])
  }

  function DuplicateKey(db: string, m: Model, index: string, keys: string): (e: Error)
    ensures e.code == Some(11000) && !e.isOperational
  {
    DuplicateKeyIn(db, CollectionName(m), index, keys)
  }

  /** Another document of the table holds the same value in `f`. */
  predicate Clash(t: Table, id: Id, d: Doc, f: string)
  {
    exists other :: other in t.rows && other != id && Field(t.rows[other], f) == Field(d, f)
  }

  predicate ClashBoth(t: Table, id: Id, d: Doc)
  {
    exists other :: other in t.rows && other != id
      && Field(t.rows[other], "course") == Field(d, "course") && Field(t.rows[other], "user") == Field(d, "user")
  }

  /** The unique index a write of `d` under `id` would violate: `title` then
      `price` for courses, `(course, user)` for reviews. */
  function UniqueViolation(engine: Engine, db: string, m: Model, t: Table, id: Id, d: Doc): Option<Error>
  {
    match m
    case Course =>
      if Clash(t, id, d, "title") then
        Some(DuplicateKey(db, m, "title_1", "{ title: " + KeyText(engine, m, Field(d, "title")) + " }"))
      else if Clash(t, id, d, "price") then
        Some(DuplicateKey(db, m, "price_1", "{ price: " + KeyText(engine, m, Field(d, "price")) + " }"))
      else None
    case Review =>
      if ClashBoth(t, id, d) then
        Some(DuplicateKey(db, m, "course_1_user_1",
          "{ course: " + KeyText(engine, m, Field(d, "course")) + ", user: " + KeyText(engine, m, Field(d, "user")) + " }"))
      else None
    case Media => None
  }

  /** No two reviews share a (course, user) pair. */
  predicate UniquePairs(t: Table)
  {
    forall a, b :: a in t.rows && b in t.rows && a != b ==>
      Field(t.rows[a], "course") != Field(t.rows[b], "course") || Field(t.rows[a], "user") != Field(t.rows[b], "user")
  }

  /** Writing a document that raises no duplicate-key error keeps the pairs
      unique. */
  lemma WriteKeepsPairsUnique(engine: Engine, db: string, t: Table, id: Id, d: Doc)
    requires UniquePairs(t) && UniqueViolation(engine, db, Review, t, id, d).None?
    ensures UniquePairs(Table(t.order, t.rows[id := d]))
  {
    var rows := t.rows[id := d];
    forall a, b | a in rows && b in rows && a != b
      ensures Field(rows[a], "course") != Field(rows[b], "course") || Field(rows[a], "user") != Field(rows[b], "user")
    {
      if a == id {
        assert !(b in t.rows && b != id && Field(t.rows[b], "course") == Field(d, "course") && Field(t.rows[b], "user") == Field(d, "user"));
      } else if b == id {
        assert !(a in t.rows && a != id && Field(t.rows[a], "course") == Field(d, "course") && Field(t.rows[a], "user") == Field(d, "user"));
      }
    }
  }

  /** A duplicate (course, user) pair is reported with the course id as the
      first quoted value of the message. */
  lemma ReviewDuplicateMessage(engine: Engine, db: string, t: Table, id: Id, d: Doc, course: Id, user: Id)
    requires ClashBoth(t, id, d) && Field(d, "course") == Some(Str(course)) && Field(d, "user") == Some(Str(user))
    ensures UniqueViolation(engine, db, Review, t, id, d) == Some(DuplicateKey(db, Review, "course_1_user_1",
      "{ course: " + ("ObjectId('" + course + "')") + ", user: " + ("ObjectId('" + user + "')") + " }"))
  {
  }

  /** The unique index on the users' `email`. */
  predicate UniqueEmails(users: map<Id, User>)
  {
    forall a, b :: a in users && b in users && a != b ==> users[a].email != users[b].email
  }

  /** The role enum of the user schema. */
  predicate RoleOk(role: string)
  {
    role == "user" || role == "admin"
  }

  /** Every stored account holds one of the schema's roles. */
  predicate RolesKnown(users: map<Id, User>)
  {
    forall id :: id in users ==> RoleOk(users[id].role)
  }

  /** What the database keeps true of one model's table. */
  ghost predicate TableValid(m: Model, t: Table)
  {
    WellFormed(t)
    && (m == Review ==> UniquePairs(t) && forall r :: r in t.rows ==> ReviewValid(t.rows[r]))
  }

  lemma PatchTableValid(engine: Engine, db: string, m: Model, t: Table, id: Id, patch: Doc)
    requires TableValid(m, t) && id in t.rows && Violations(m, patch, false) == []
    requires UniqueViolation(engine, db, m, t, id, Merge(t.rows[id], patch)).None?
    ensures TableValid(m, Patch(t, id, patch))
  {
    PatchWellFormed(t, id, patch);
    if m == Review {
      PatchKeepsReviewValid(t.rows[id], patch);
      WriteKeepsPairsUnique(engine, db, t, id, Merge(t.rows[id], patch));
    }
  }

  lemma InsertTableValid(engine: Engine, db: string, m: Model, t: Table, id: Id, d: Doc)
    requires TableValid(m, t) && id !in t.rows && Violations(m, d, true) == []
    requires UniqueViolation(engine, db, m, t, id, d).None?
    ensures TableValid(m, Insert(t, id, d))
  {
    InsertWellFormed(t, id, d);
    if m == Review {
      ReviewValidMeans(d);
      WriteKeepsPairsUnique(engine, db, t, id, d);
    }
  }

  lemma RemoveTableValid(m: Model, t: Table, id: Id)
    requires TableValid(m, t)
    ensures TableValid(m, Remove(t, id))
  {
    RemoveWellFormed(t, id);
  }

  // ---------------------------------------------------------------------
  // The database
  // ---------------------------------------------------------------------

  /** The connected database: one table per model and the user accounts.
      `name` is the database name the server prints in duplicate-key
      messages; `engine` is the server's own evaluation. */
  class Database {
    var courses: Table
    var reviews: Table
    var media: Table
    var users: map<Id, User>
    const name: string
    const engine: Engine

    constructor (name: string, engine: Engine)
      ensures this.name == name && this.engine == engine
      ensures courses == Table([], map[]) && reviews == Table([], map[]) && media == Table([], map[])
      ensures users == map[]
      ensures Valid()
    {
      this.name := name;
      this.engine := engine;
      courses := Table([], map[]);
      reviews := Table([], map[]);
      media := Table([], map[]);
      users := map[];
    }

    /** The tables are well formed, reviews satisfy their schema and their
        unique index, users are keyed by their own id, hold a schema role
        and have distinct e-mails. */
    ghost predicate Valid()
      reads this
    {
      TableValid(Course, courses) && TableValid(Review, reviews) && TableValid(Media, media)
      && (forall id :: id in users ==> users[id].id == id)
      && RolesKnown(users)
      && UniqueEmails(users)
    }

    function TableOf(m: Model): Table
      reads this
    {
      match m
      case Course => courses
      case Review => reviews
      case Media => media
    }

    method SetTable(m: Model, t: Table)
      modifies this
      ensures TableOf(m) == t
      ensures forall other :: other != m ==> TableOf(other) == old(TableOf(other))
      ensures courses == (if m == Course then t else old(courses))
      ensures reviews == (if m == Review then t else old(reviews))
      ensures media == (if m == Media then t else old(media))
      ensures users == old(users)
    {
      match m
      case Course => courses := t;
      case Review => reviews := t;
      case Media => media := t;
    }

    /** `Model.findById(id)`. */
    method FindById(m: Model, id: Id) returns (r: Result<Option<Record>>)
      requires Valid()
      ensures !IsObjectIdText(id) ==> r == Err(CastFailure(m, "_id", id))
      ensures IsObjectIdText(id) ==> r.Ok? && (r.value.Some? <==> id in TableOf(m).rows)
      ensures r.Ok? && r.value.Some? ==> r.value.value == Record(id, TableOf(m).rows[id])
    {
      if !IsObjectIdText(id) {
        return Err(CastFailure(m, "_id", id));
      }
      var t := TableOf(m);
      if id in t.rows {
        r := Ok(Some(Record(id, t.rows[id])));
      } else {
        r := Ok(None);
      }
    }

    /** `Model.findByIdAndUpdate(id, patch, {new: true, runValidators:
        true})`: the id is cast, the update's own paths are validated, a
        missing document gives null, a unique index may reject the write. */
    method UpdateById(m: Model, id: Id, patch: Doc) returns (r: Result<Option<Record>>)
      requires Valid()
      modifies this
      ensures Valid()
      ensures users == old(users)
      ensures forall other :: other != m ==> TableOf(other) == old(TableOf(other))
      ensures !IsObjectIdText(id) ==> r == Err(CastFailure(m, "_id", id))
      ensures IsObjectIdText(id) && Violations(m, patch, false) != [] ==>
        r == Err(ValidationFailure("Validation failed", Violations(m, patch, false)))
      ensures IsObjectIdText(id) && Violations(m, patch, false) == [] && id !in old(TableOf(m)).rows ==> r == Ok(None)
      ensures r.Ok? ==> (r.value.Some? <==> id in old(TableOf(m)).rows)
      ensures r.Ok? && r.value.Some? ==>
        id in old(TableOf(m)).rows
        && r.value.value == Record(id, Merge(old(TableOf(m)).rows[id], patch))
        && UniqueViolation(engine, name, m, old(TableOf(m)), id, r.value.value.doc).None?
      ensures TableOf(m) == if r.Ok? && r.value.Some? then Patch(old(TableOf(m)), id, patch) else old(TableOf(m))
      ensures r.Err? && IsObjectIdText(id) && Violations(m, patch, false) == [] ==>
        id in old(TableOf(m)).rows
        && UniqueViolation(engine, name, m, old(TableOf(m)), id, Merge(old(TableOf(m)).rows[id], patch)).Some?
        && r == Err(UniqueViolation(engine, name, m, old(TableOf(m)), id, Merge(old(TableOf(m)).rows[id], patch)).value)
    {
      if !IsObjectIdText(id) {
        return Err(CastFailure(m, "_id", id));
      }
      var vs := Violations(m, patch, false);
      if vs != [] {
        return Err(ValidationFailure("Validation failed", vs));
      }
      var t := TableOf(m);
      if id !in t.rows {
        return Ok(None);
      }
      var updated := Merge(t.rows[id], patch);
      var clash := UniqueViolation(engine, name, m, t, id, updated);
      if clash.Some? {
        return Err(clash.value);
      }
      PatchTableValid(engine, name, m, t, id, patch);
      SetTable(m, Patch(t, id, patch));
      r := Ok(Some(Record(id, updated)));
    }

    /** `Model.findByIdAndDelete(id)`. */
    method DeleteById(m: Model, id: Id) returns (r: Result<Option<Record>>)
      requires Valid()
      modifies this
      ensures Valid()
      ensures users == old(users)
      ensures forall other :: other != m ==> TableOf(other) == old(TableOf(other))
      ensures !IsObjectIdText(id) ==> r == Err(CastFailure(m, "_id", id))
      ensures IsObjectIdText(id) ==> r.Ok? && (r.value.Some? <==> id in old(TableOf(m)).rows)
      ensures r.Ok? && r.value.Some? ==> r.value.value == Record(id, old(TableOf(m)).rows[id])
      ensures TableOf(m) == if r.Ok? && r.value.Some? then Remove(old(TableOf(m)), id) else old(TableOf(m))
    {
      if !IsObjectIdText(id) {
        return Err(CastFailure(m, "_id", id));
      }
      var t := TableOf(m);
      if id !in t.rows {
        return Ok(None);
      }
      r := Ok(Some(Record(id, t.rows[id])));
      RemoveTableValid(m, t, id);
      SetTable(m, Remove(t, id));
    }

    /** `Model.findByIdAndDelete(undefined)`: the filter `{_id: undefined}`
        is the empty filter, so the first document in the collection's
        natural order is removed and returned; an empty collection gives
        null. */
    method DeleteFirst(m: Model) returns (r: Option<Record>)
      requires Valid()
      modifies this
      ensures Valid()
      ensures users == old(users)
      ensures forall other :: other != m ==> TableOf(other) == old(TableOf(other))
      ensures old(TableOf(m)).order == [] ==> r.None? && TableOf(m) == old(TableOf(m))
      ensures old(TableOf(m)).order != [] ==>
        var first := old(TableOf(m)).order[0];
        && first in old(TableOf(m)).rows
        && r == Some(Record(first, old(TableOf(m)).rows[first]))
        && TableOf(m) == Remove(old(TableOf(m)), first)
    {
      var t := TableOf(m);
      if t.order == [] {
        return None;
      }
      var first := t.order[0];
      assert first in t.rows;
      r := Some(Record(first, t.rows[first]));
      RemoveTableValid(m, t, first);
      SetTable(m, Remove(t, first));
    }

    /** `Model.create(doc)` under the freshly generated id `id`: the whole
        document is validated, then the unique indexes are checked. */
    method Create(m: Model, id: Id, d: Doc) returns (r: Result<Record>)
      requires Valid() && id !in TableOf(m).rows
      modifies this
      ensures Valid()
      ensures users == old(users)
      ensures forall other :: other != m ==> TableOf(other) == old(TableOf(other))
      ensures Violations(m, d, true) != [] ==>
        r == Err(ValidationFailure(ModelName(m) + " validation failed", Violations(m, d, true)))
      ensures Violations(m, d, true) == [] ==>
        r == match UniqueViolation(engine, name, m, old(TableOf(m)), id, d)
             case Some(e) => Err(e)
             case None => Ok(Record(id, d))
      ensures TableOf(m) == if r.Ok? then Insert(old(TableOf(m)), id, d) else old(TableOf(m))
    {
      var vs := Violations(m, d, true);
      if vs != [] {
        return Err(ValidationFailure(ModelName(m) + " validation failed", vs));
      }
      var t := TableOf(m);
      var clash := UniqueViolation(engine, name, m, t, id, d);
      if clash.Some? {
        return Err(clash.value);
      }
      InsertTableValid(engine, name, m, t, id, d);
      SetTable(m, Insert(t, id, d));
      r := Ok(Record(id, d));
    }
  }
}
