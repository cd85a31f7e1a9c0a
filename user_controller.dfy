/** controllers/userController.js: the `filterObj` whitelist, `updateMe`,
    `deleteMe`, and the not-found handling of `getUser` and `deleteUser`.
    Every user query goes through the pre-find filter, so a deactivated
    account is never found. */
module UserController {
  import opened Common
  import opened Records
  import opened AppErrors
  import opened Store
  import opened UserModel
  import opened Http

  // ---------------------------------------------------------------------
  // filterObj
  // ---------------------------------------------------------------------

  /** The fields of `obj` whose keys are listed in `allowed`. */
  function Pick(obj: Doc, allowed: seq<string>): (r: Doc)
    ensures forall k :: k in r <==> k in obj && k in allowed
    ensures forall k :: k in r ==> r[k] == obj[k]
  {
    map k | k in obj && k in allowed :: obj[k]
  }

  /** filterObj(obj, ...allowedFields): walks the keys of `obj` and copies
      each allowed one into a new object; `obj` itself is a value and is
      left as it was. */
  method FilterObj(obj: Doc, allowed: seq<string>) returns (newObj: Doc)
    ensures newObj == Pick(obj, allowed)
  {
    newObj := map[];
    var keys := obj.Keys;
    while keys != {}
      invariant keys <= obj.Keys
      invariant forall k :: k in newObj <==> k in obj && k !in keys && k in allowed
      invariant forall k :: k in newObj ==> newObj[k] == obj[k]
      decreases keys
    {
      var el :| el in keys;
      if el in allowed {
        newObj := newObj[el := obj[el]];
      }
      keys := keys - {el};
    }
  }

  /** Filtering twice with the same list changes nothing more, and a
      filtered object is never larger than the original. */
  lemma PickIdempotent(obj: Doc, allowed: seq<string>)
    ensures Pick(Pick(obj, allowed), allowed) == Pick(obj, allowed)
    ensures Pick(obj, allowed).Keys <= obj.Keys
  {
    var once := Pick(obj, allowed);
    assert Pick(once, allowed).Keys == once.Keys;
  }

  /** A field outside the list never reaches the result, whatever its value;
      an allowed one is copied as it was. */
  lemma PickField(obj: Doc, allowed: seq<string>, k: string)
    ensures Field(Pick(obj, allowed), k) == if k in allowed then Field(obj, k) else None
  {
  }

  // ---------------------------------------------------------------------
  // Shared
  // ---------------------------------------------------------------------

  const NoUserFound := "No user found with that ID!"
  const PasswordRoute := "This route is not for password update. Please use /updateMyPassword."

  /** `req.user.id` on a request `protect` did not run for. */
  const NoUserObject: Error := Thrown("TypeError", "Cannot read properties of undefined (reading 'id')")

  /** An account as a query returns it: `password` and `active` are
      `select: false`. */
  function Shown(u: User): (r: User)
    ensures r.password.None? && r.active.None?
    ensures r.id == u.id && r.name == u.name && r.email == u.email && r.role == u.role && r.photo == u.photo
  {
    u.(password := None, active := None)
  }

  // ---------------------------------------------------------------------
  // updateMe
  // ---------------------------------------------------------------------

  /** The account after `$set` of the `name` and `email` texts. */
  function Updated(u: User, name: Option<string>, email: Option<string>): (r: User)
    ensures r.name == (if name.Some? then name.value else u.name)
    ensures r.email == (if email.Some? then email.value else u.email)
    ensures r.id == u.id && r.password == u.password && r.passwordConfirm == u.passwordConfirm && r.role == u.role
    ensures r.active == u.active && r.photo == u.photo && r.passwordChangedAt == u.passwordChangedAt
    ensures r.passwordResetToken == u.passwordResetToken && r.passwordResetExpires == u.passwordResetExpires
  {
    u.(name := if name.Some? then name.value else u.name,
       email := if email.Some? then email.value else u.email)
  }

  /** The update validators: only the paths the update sets are checked. */
  function UpdateViolations(name: Option<string>, email: Option<string>, isEmail: string -> bool): (vs: seq<Violation>)
    ensures vs == [] <==> (name.Some? ==> name.value != "") && (email.Some? ==> email.value != "" && isEmail(email.value))
  {
    var probe := User("", if name.Some? then name.value else "", if email.Some? then email.value else "",
                      "", None, None, "", None, None, None, None);
    (if name.Some? then NameCheck(probe) else []) + (if email.Some? then EmailCheck(probe, isEmail) else [])
  }

  /** Another account already holds `email` (the unique index on `email`
      counts deactivated accounts too). */
  predicate EmailTaken(users: map<Id, User>, id: Id, email: string)
  {
    exists other :: other in users && other != id && users[other].email == email
  }

  /** updateMe: a truthy `password` or `passwordConfirm` in the body is
      refused before anything else, with an AppError that has no status
      code; otherwise only `name` and `email` are passed to
      `findByIdAndUpdate` with the update validators on, and the updated
      account (or null) is answered with 200. */
  method UpdateMe(db: Database, req: Request, isEmail: string -> bool) returns (o: Outcome)
    requires db.Valid()
    modifies db
    ensures db.Valid()
    ensures db.courses == old(db.courses) && db.reviews == old(db.reviews) && db.media == old(db.media)
    ensures o.Sent? || o.Failed?
    ensures Truthy(Field(req.body, "password")) || Truthy(Field(req.body, "passwordConfirm")) ==>
      o == Failed(NewAppError(PasswordRoute, None)) && db.users == old(db.users)
    ensures o.Failed? ==> db.users == old(db.users)
    ensures !(Truthy(Field(req.body, "password")) || Truthy(Field(req.body, "passwordConfirm"))) ==>
      var name := BodyText(Pick(req.body, ["name", "email"]), "name");
      var email := BodyText(Pick(req.body, ["name", "email"]), "email");
      if req.user.None? then o == Failed(NoUserObject)
      else
        var id := req.user.value.id;
        if !IsObjectIdText(id) then o == Failed(CastFailureOn("User", "_id", id))
        else if UpdateViolations(name, email, isEmail) != [] then
          o == Failed(ValidationFailure("Validation failed", UpdateViolations(name, email, isEmail)))
        else if !(id in old(db.users) && Visible(old(db.users)[id])) then
          o == Sent(200, Profile(None), None) && db.users == old(db.users)
        else if email.Some? && EmailTaken(old(db.users), id, email.value) then
          o == Failed(DuplicateEmail(db.name, email.value))
        else
          db.users == old(db.users)[id := Updated(old(db.users)[id], name, email)]
          && o == Sent(200, Profile(Some(Shown(db.users[id]))), None)
  {
    if Truthy(Field(req.body, "password")) || Truthy(Field(req.body, "passwordConfirm")) {
      return Failed(NewAppError(PasswordRoute, None));
    }
    var filterBody := FilterObj(req.body, ["name", "email"]);
    if req.user.None? {
      return Failed(NoUserObject);
    }
    var id := req.user.value.id;
    var name, email := BodyText(filterBody, "name"), BodyText(filterBody, "email");
    if !IsObjectIdText(id) {
      return Failed(CastFailureOn("User", "_id", id));
    }
    var vs := UpdateViolations(name, email, isEmail);
    if vs != [] {
      return Failed(ValidationFailure("Validation failed", vs));
    }
    o := SetNameEmail(db, id, name, email);
  }

  /** The write of `findByIdAndUpdate(id, {name, email}, {new: true})` once
      the id has cast and the validators have passed: nothing matches a
      missing or deactivated account (null, with 200), the unique e-mail
      index refuses an address another account holds, and otherwise the
      account is updated and answered with 200. */
  method SetNameEmail(db: Database, id: Id, name: Option<string>, email: Option<string>) returns (o: Outcome)
    requires db.Valid()
    modifies db
    ensures db.Valid()
    ensures db.courses == old(db.courses) && db.reviews == old(db.reviews) && db.media == old(db.media)
    ensures if !(id in old(db.users) && Visible(old(db.users)[id])) then
              o == Sent(200, Profile(None), None) && db.users == old(db.users)
            else if email.Some? && EmailTaken(old(db.users), id, email.value) then
              o == Failed(DuplicateEmail(db.name, email.value)) && db.users == old(db.users)
            else
              db.users == old(db.users)[id := Updated(old(db.users)[id], name, email)]
              && o == Sent(200, Profile(Some(Shown(db.users[id]))), None)
  {
    if !(id in db.users && Visible(db.users[id])) {
      return Sent(200, Profile(None), None);
    }
    if email.Some? && EmailTaken(db.users, id, email.value) {
      return Failed(DuplicateEmail(db.name, email.value));
    }
    var updated := Updated(db.users[id], name, email);
    db.users := db.users[id := updated];
    o := Sent(200, Profile(Some(Shown(updated))), None);
  }

  // ---------------------------------------------------------------------
  // deleteMe
  // ---------------------------------------------------------------------

  /** The soft delete: `active` becomes false and nothing else changes. */
  function Deactivated(u: User): (r: User)
    ensures !Visible(r) && r.active == Some(false)
    ensures r.(active := u.active) == u
  {
    u.(active := Some(false))
  }

  /** deleteMe: `findByIdAndUpdate(req.user.id, {active: false})` on the
      visible account, then 204 whether or not one matched. */
  method DeleteMe(db: Database, req: Request) returns (o: Outcome)
    requires db.Valid()
    modifies db
    ensures db.Valid()
    ensures db.courses == old(db.courses) && db.reviews == old(db.reviews) && db.media == old(db.media)
    ensures req.user.None? ==> o == Failed(NoUserObject) && db.users == old(db.users)
    ensures req.user.Some? && !IsObjectIdText(req.user.value.id) ==>
      o == Failed(CastFailureOn("User", "_id", req.user.value.id)) && db.users == old(db.users)
    ensures req.user.Some? && IsObjectIdText(req.user.value.id) ==>
      var id := req.user.value.id;
      && o == Sent(204, NoData, None)
      && db.users == if id in old(db.users) && Visible(old(db.users)[id])
                     then old(db.users)[id := Deactivated(old(db.users)[id])]
                     else old(db.users)
  {
    if req.user.None? {
      return Failed(NoUserObject);
    }
    var id := req.user.value.id;
    if !IsObjectIdText(id) {
      return Failed(CastFailureOn("User", "_id", id));
    }
    if id in db.users && Visible(db.users[id]) {
      db.users := db.users[id := Deactivated(db.users[id])];
    }
    o := Sent(204, NoData, None);
  }

  /** After the soft delete the account is still stored but no query finds
      it, and every other account is found as before. */
  lemma SoftDeleteHides(users: map<Id, User>, id: Id)
    requires id in users && IsObjectIdText(id)
    ensures var after := users[id := Deactivated(users[id])];
      && id in after && after[id].email == users[id].email
      && FindUser(after, id) == Ok(None)
      && forall other :: other != id ==> FindUser(after, other) == FindUser(users, other)
  {
  }

  // ---------------------------------------------------------------------
  // getUser, deleteUser
  // ---------------------------------------------------------------------

  /** getUser: the id's CastError, 404 when no visible account has it, or
      200 with the account. */
  method GetUser(db: Database, req: Request) returns (o: Outcome)
    requires db.Valid() && "id" in req.params
    ensures o.Sent? || o.Failed?
    ensures var found := FindUser(db.users, req.params["id"]);
      match found
      case Err(e) => o == Failed(e)
      case Ok(None) => o == Failed(NewAppError(NoUserFound, Some(404)))
      case Ok(Some(u)) => o == Sent(200, Profile(Some(Shown(u))), None)
  {
    var user := FindUser(db.users, req.params["id"]);
    if user.Err? {
      return Failed(user.error);
    }
    if user.value.None? {
      return Failed(NewAppError(NoUserFound, Some(404)));
    }
    o := Sent(200, Profile(Some(Shown(user.value.value))), None);
  }

  /** deleteUser: `findByIdAndDelete` on the visible account; 404 when
      there is none, otherwise the account is removed and the answer is
      204. */
  method DeleteUser(db: Database, req: Request) returns (o: Outcome)
    requires db.Valid() && "id" in req.params
    modifies db
    ensures db.Valid()
    ensures db.courses == old(db.courses) && db.reviews == old(db.reviews) && db.media == old(db.media)
    ensures var found := FindUser(old(db.users), req.params["id"]);
      match found
      case Err(e) => o == Failed(e) && db.users == old(db.users)
      case Ok(None) => o == Failed(NewAppError(NoUserFound, Some(404))) && db.users == old(db.users)
      case Ok(Some(u)) => o == Sent(204, NoData, None) && db.users == old(db.users) - {u.id}
  {
    var id := req.params["id"];
    var user := FindUser(db.users, id);
    if user.Err? {
      return Failed(user.error);
    }
    if user.value.None? {
      return Failed(NewAppError(NoUserFound, Some(404)));
    }
    db.users := db.users - {id};
    o := Sent(204, NoData, None);
  }

  /** After deleteUser removed an account, getUser and a second deleteUser
      of that id find nothing (their 404), the account's e-mail is free
      again, and every other account is found as before. */
  lemma DeletedUserNotFound(users: map<Id, User>, id: Id)
    requires IsObjectIdText(id) && id in users
    ensures FindUser(users - {id}, id) == Ok(None)
    ensures forall other :: other != id ==> FindUser(users - {id}, other) == FindUser(users, other)
    ensures UniqueEmails(users) ==> !EmailTaken(users - {id}, id, users[id].email)
  {
  }
}
