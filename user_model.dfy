/** model/userModel.js: the user schema's validators, the two pre-save hooks,
    the pre-find filter that hides deactivated accounts, and the password
    and reset-token methods. Hashing is a function the caller supplies. */
module UserModel {
  import opened Common
  import opened Records
  import opened AppErrors
  import opened Store

  // ---------------------------------------------------------------------
  // Schema
  // ---------------------------------------------------------------------

  /** A string field that is set: Mongoose's `required` on a string. */
  predicate IsText(v: Option<string>)
  {
    v.Some? && v.value != ""
  }

  const MinPasswordLength := 8

  function NameCheck(u: User): seq<Violation>
  {
    if u.name == "" then [Violation("name", "Please tell us your name")] else []
  }

  function EmailCheck(u: User, isEmail: string -> bool): seq<Violation>
  {
    if u.email == "" then [Violation("email", "please provide your email.")]
    else if !isEmail(u.email) then [Violation("email", "Please provide your valid email.")]
    else []
  }

  function PasswordCheck(u: User): seq<Violation>
  {
    if !IsText(u.password) then [Violation("password", "Please provide your password.")]
    else if |u.password.value| < MinPasswordLength then
      [Violation("password", "Path `password` (`" + u.password.value + "`) is shorter than the minimum allowed length (8).")]
    else []
  }

  /** `passwordConfirm` is required and must be `=== this.password`. */
  function ConfirmCheck(u: User): seq<Violation>
  {
    if !IsText(u.passwordConfirm) then [Violation("passwordConfirm", "Please confirm your password.")]
    else if u.passwordConfirm != u.password then [Violation("passwordConfirm", "Passwords are not same")]
    else []
  }

  function RoleCheck(u: User): seq<Violation>
  {
    if !RoleOk(u.role) then
      [Violation("role", "`" + u.role + "` is not a valid enum value for path `role`.")]
    else []
  }

  /** The schema's validators in path order. `isEmail` is validator.js's
      e-mail syntax check. */
  function UserViolations(u: User, isEmail: string -> bool): seq<Violation>
  {
    NameCheck(u) + EmailCheck(u, isEmail) + PasswordCheck(u) + ConfirmCheck(u) + RoleCheck(u)
  }

  /** What a valid new account is, path by path. */
  lemma UserValidMeans(u: User, isEmail: string -> bool)
    ensures UserViolations(u, isEmail) == [] <==>
      u.name != "" && u.email != "" && isEmail(u.email)
      && IsText(u.password) && |u.password.value| >= 8
      && u.passwordConfirm == u.password
      && (u.role == "user" || u.role == "admin")
  {
  }

  /** The confirmation passes exactly when it equals the password. */
  lemma ConfirmIff(u: User)
    requires IsText(u.passwordConfirm)
    ensures ConfirmCheck(u) == [] <==> u.passwordConfirm == u.password
  {
  }

  /** The document `User.create` builds from the fields a sign-up passes:
      schema defaults for `photo`, `role` and `active`. */
  function NewUser(id: Id, name: Option<string>, email: Option<string>, password: Option<string>,
                   passwordConfirm: Option<string>, role: Option<string>): (u: User)
    ensures u.id == id && u.photo == "default.jpg" && u.active == Some(true)
    ensures u.role == (if role.Some? then role.value else "user")
    ensures u.passwordChangedAt.None? && u.passwordResetToken.None? && u.passwordResetExpires.None?
  {
    User(id,
      if name.Some? then name.value else "",
      if email.Some? then email.value else "",
      "default.jpg", password, passwordConfirm,
      if role.Some? then role.value else "user",
      Some(true), None, None, None)
  }

  // ---------------------------------------------------------------------
  // The pre-find filter
  // ---------------------------------------------------------------------

  /** `this.find({active: {$ne: false}})`: only an explicit `false` hides an
      account. */
  predicate Visible(u: User)
  {
    u.active != Some(false)
  }

  /** `User.findById(id)`: the id's CastError, or the account unless it is
      deactivated. */
  function FindUser(users: map<Id, User>, id: string): (r: Result<Option<User>>)
    ensures !IsObjectIdText(id) ==> r.Err? && r.error == CastFailureOn("User", "_id", id)
    ensures IsObjectIdText(id) ==> r.Ok? && (r.value.Some? <==> id in users && Visible(users[id]))
    ensures r.Ok? && r.value.Some? ==> r.value.value == users[id]
  {
    if !IsObjectIdText(id) then Err(CastFailureOn("User", "_id", id))
    else if id in users && Visible(users[id]) then Ok(Some(users[id]))
    else Ok(None)
  }

  /** An account as a query loads it: `active` is `select: false`, so it
      is not part of the loaded document. */
  function Loaded(u: User): (r: User)
    ensures r.active.None?
    ensures r.(active := u.active) == u
  {
    u.(active := None)
  }

  /** `User.findOne({email})`: the visible account with that e-mail. */
  method FindByEmail(db: Database, email: string) returns (r: Option<User>)
    requires db.Valid()
    ensures r.Some? ==> r.value.id in db.users && db.users[r.value.id] == r.value && r.value.email == email && Visible(r.value)
    ensures r.None? <==> forall id :: id in db.users ==> !(db.users[id].email == email && Visible(db.users[id]))
  {
    if exists id :: id in db.users && db.users[id].email == email && Visible(db.users[id]) {
      var id :| id in db.users && db.users[id].email == email && Visible(db.users[id]);
      r := Some(db.users[id]);
    } else {
      r := None;
    }
  }

  /** Whether an account answers `User.findOne({email: v})` for the body
      value `v`. An absent value is `undefined`, which drops the key: the
      filter is then empty and every account answers. A string matches that
      e-mail; other values are taken to match nothing. */
  predicate EmailFilterMatches(v: Option<Val>, u: User)
  {
    match v
    case None => true
    case Some(Str(s)) => u.email == s
    case Some(_) => false
  }

  /** `User.findOne({email: v})` with the query hook: a visible account the
      filter matches. For an empty filter any visible account may be the
      answer, since the model keeps accounts without an order. */
  method FindOne(db: Database, v: Option<Val>) returns (r: Option<User>)
    requires db.Valid()
    ensures r.Some? ==> r.value.id in db.users && db.users[r.value.id] == r.value && EmailFilterMatches(v, r.value) && Visible(r.value)
    ensures r.None? <==> forall id :: id in db.users ==> !(EmailFilterMatches(v, db.users[id]) && Visible(db.users[id]))
  {
    match v
    case Some(Str(email)) =>
      r := FindByEmail(db, email);
    case Some(_) =>
      r := None;
    case None =>
      if exists id :: id in db.users && Visible(db.users[id]) {
        var id :| id in db.users && Visible(db.users[id]);
        r := Some(db.users[id]);
      } else {
        r := None;
      }
  }

  /** At most one account holds an e-mail address. */
  lemma FindByEmailUnique(db: Database, email: string, a: Id, b: Id)
    requires db.Valid()
    requires a in db.users && b in db.users && db.users[a].email == email && db.users[b].email == email
    ensures a == b
  {
  }

  // ---------------------------------------------------------------------
  // Passwords and reset tokens
  // ---------------------------------------------------------------------

  /** JavaScript's `parseInt(x / d, 10)` on integers: division truncating
      toward zero. */
  function TruncDiv(x: int, d: nat): int
    requires d > 0
  {
    if x >= 0 then x / d else -((-x) / d)
  }

  /** `changedPasswordAfter(JWTTimestamp)` as the method computes it (the
      method is `async`, so callers receive a Promise of this value). */
  function ChangedPasswordAfter(u: User, jwtTimestamp: int): bool
  {
    match u.passwordChangedAt
    case None => false
    case Some(t) => jwtTimestamp < TruncDiv(t, 1000)
  }

  /** A token issued in second `iat` predates a change at millisecond `t`
      exactly when the whole second after it had begun by `t`. */
  lemma ChangedPasswordAfterMeans(u: User, iat: int)
    ensures u.passwordChangedAt.None? ==> !ChangedPasswordAfter(u, iat)
    ensures u.passwordChangedAt.Some? && u.passwordChangedAt.value >= 0 ==>
      (ChangedPasswordAfter(u, iat) <==> (iat + 1) * 1000 <= u.passwordChangedAt.value)
  {
  }

  /** The reset window: ten minutes in milliseconds. */
  const ResetWindow := 10 * 60 * 1000

  /** The `findOne` of resetPassword: the stored hash matches and the
      expiry is still ahead (and the account is visible). */
  predicate ResetMatches(u: User, hashed: string, now: int)
  {
    Visible(u) && u.passwordResetToken == Some(hashed)
    && u.passwordResetExpires.Some? && u.passwordResetExpires.value > now
  }

  /** A token created at `issued` is accepted exactly before `issued + 10
      minutes`, and only with its own hash. */
  lemma ResetTokenWindow(u: User, token: string, sha: string -> string, issued: int, now: int)
    requires Visible(u)
    ensures var v := u.(passwordResetToken := Some(sha(token)), passwordResetExpires := Some(issued + ResetWindow));
      (ResetMatches(v, sha(token), now) <==> now < issued + 600000)
      && (forall h :: h != sha(token) ==> !ResetMatches(v, h, now))
  {
  }

  // ---------------------------------------------------------------------
  // A loaded account
  // ---------------------------------------------------------------------

  /** The message bcrypt rejects with when asked to hash `undefined`. */
  const NothingToHash: Error := Thrown("Error", "data and salt arguments required")

  /** The paths `save` writes: each one the document changed. */
  function Apply(stored: User, fields: User, modified: set<string>): (r: User)
    ensures r.id == stored.id && r.name == stored.name && r.email == stored.email && r.role == stored.role
    ensures r.active == stored.active && r.photo == stored.photo
    ensures r.password == if "password" in modified then fields.password else stored.password
    ensures r.passwordConfirm == if "passwordConfirm" in modified then fields.passwordConfirm else stored.passwordConfirm
    ensures r.passwordChangedAt == if "passwordChangedAt" in modified then fields.passwordChangedAt else stored.passwordChangedAt
    ensures r.passwordResetToken == if "passwordResetToken" in modified then fields.passwordResetToken else stored.passwordResetToken
    ensures r.passwordResetExpires == if "passwordResetExpires" in modified then fields.passwordResetExpires else stored.passwordResetExpires
  {
    stored.(
      password := if "password" in modified then fields.password else stored.password,
      passwordConfirm := if "passwordConfirm" in modified then fields.passwordConfirm else stored.passwordConfirm,
      passwordChangedAt := if "passwordChangedAt" in modified then fields.passwordChangedAt else stored.passwordChangedAt,
      passwordResetToken := if "passwordResetToken" in modified then fields.passwordResetToken else stored.passwordResetToken,
      passwordResetExpires := if "passwordResetExpires" in modified then fields.passwordResetExpires else stored.passwordResetExpires)
  }

  /** Saving a document loaded without its password in which only the
      reset fields were assigned writes exactly those fields. */
  lemma ApplyResetOnly(stored: User, token: Option<string>, expires: Option<int>, written: set<string>)
    requires written == (if token != stored.passwordResetToken then {"passwordResetToken"} else {})
                        + (if expires != stored.passwordResetExpires then {"passwordResetExpires"} else {})
    ensures Apply(stored, stored.(password := None, passwordResetToken := token, passwordResetExpires := expires), written)
            == stored.(passwordResetToken := token, passwordResetExpires := expires)
  {
  }

  /** A user document a query returned: its fields (without `password`
      unless the query selected it) and the paths assigned a new value
      since. */
  class UserDocument {
    var fields: User
    var modified: set<string>

    constructor (u: User, withPassword: bool)
      ensures fields == (if withPassword then u else u.(password := None))
      ensures modified == {}
    {
      fields := if withPassword then u else u.(password := None);
      modified := {};
    }

    /** `user.password = p`: Mongoose marks a path modified only when the
        value changes. */
    method SetPassword(p: Option<string>)
      modifies this
      ensures fields == old(fields).(password := p)
      ensures modified == if p != old(fields.password) then old(modified) + {"password"} else old(modified)
    {
      if p != fields.password {
        modified := modified + {"password"};
      }
      fields := fields.(password := p);
    }

    method SetPasswordConfirm(p: Option<string>)
      modifies this
      ensures fields == old(fields).(passwordConfirm := p)
      ensures modified == if p != old(fields.passwordConfirm) then old(modified) + {"passwordConfirm"} else old(modified)
    {
      if p != fields.passwordConfirm {
        modified := modified + {"passwordConfirm"};
      }
      fields := fields.(passwordConfirm := p);
    }

    /** Sets or clears both reset fields. */
    method SetReset(token: Option<string>, expires: Option<int>)
      modifies this
      ensures fields == old(fields).(passwordResetToken := token, passwordResetExpires := expires)
      ensures modified == old(modified)
        + (if token != old(fields.passwordResetToken) then {"passwordResetToken"} else {})
        + (if expires != old(fields.passwordResetExpires) then {"passwordResetExpires"} else {})
    {
      var m := modified;
      if token != fields.passwordResetToken {
        m := m + {"passwordResetToken"};
      }
      if expires != fields.passwordResetExpires {
        m := m + {"passwordResetExpires"};
      }
      modified := m;
      fields := fields.(passwordResetToken := token, passwordResetExpires := expires);
    }

    /** `createPasswordResetToken()`: `token` is the random hex string; its
        hash is stored with an expiry ten minutes after `now`, and the
        plain token is returned. */
    method CreatePasswordResetToken(token: string, sha: string -> string, now: int) returns (r: string)
      modifies this
      ensures r == token
      ensures fields == old(fields).(passwordResetToken := Some(sha(token)), passwordResetExpires := Some(now + ResetWindow))
      ensures modified == old(modified)
        + (if Some(sha(token)) != old(fields.passwordResetToken) then {"passwordResetToken"} else {})
        + (if Some(now + ResetWindow) != old(fields.passwordResetExpires) then {"passwordResetExpires"} else {})
    {
      SetReset(Some(sha(token)), Some(now + ResetWindow));
      r := token;
    }

    /** `save({validateBeforeSave: false})` of the loaded account: the
        first pre-save hook hashes a modified password and clears
        `passwordConfirm`, the second stamps `passwordChangedAt` one second
        in the past; then the modified paths are written. */
    method Save(db: Database, hash: string -> string, now: int) returns (r: Result<User>)
      requires db.Valid()
      modifies this, db
      ensures db.Valid()
      ensures db.courses == old(db.courses) && db.reviews == old(db.reviews) && db.media == old(db.media)
      ensures "password" in old(modified) && old(fields.password).None? ==>
        r == Err(NothingToHash) && db.users == old(db.users)
      ensures "password" in old(modified) && old(fields.password).Some? ==>
        fields == old(fields).(password := Some(hash(old(fields.password).value)), passwordConfirm := None,
                               passwordChangedAt := Some(now - 1000))
      ensures "password" !in old(modified) ==> fields == old(fields)
      ensures r.Ok? ==>
        fields.id in old(db.users) && modified == {}
        && r.value == fields
        && db.users == old(db.users)[fields.id := Apply(old(db.users)[fields.id], fields, old(modified) + PasswordHookPaths(old(fields), old(modified)))]
      ensures r.Err? ==> db.users == old(db.users)
      ensures old(fields.id) in old(db.users) && !("password" in old(modified) && old(fields.password).None?) ==> r.Ok?
    {
      var written := modified;
      if "password" in modified {
        if fields.password.None? {
          return Err(NothingToHash);
        }
        written := written + PasswordHookPaths(fields, modified);
        fields := fields.(password := Some(hash(fields.password.value)), passwordConfirm := None);
        fields := fields.(passwordChangedAt := Some(now - 1000));
      }
      if fields.id !in db.users {
        return Err(Thrown("DocumentNotFoundError", "No document found for query \"{ _id: '" + fields.id + "' }\" on model \"User\""));
      }
      var stored := Apply(db.users[fields.id], fields, written);
      db.users := db.users[fields.id := stored];
      modified := {};
      r := Ok(fields);
    }
  }

  /** The paths the pre-save hooks change when the password was modified:
      `passwordConfirm` only if it had a value, and `passwordChangedAt`. */
  function PasswordHookPaths(fields: User, modified: set<string>): set<string>
  {
    if "password" in modified then
      (if fields.passwordConfirm.Some? then {"passwordConfirm"} else {}) + {"passwordChangedAt"}
    else {}
  }

  /** `User.create(u)` for a sign-up: the whole document is validated, the
      first hook hashes the password and clears `passwordConfirm`, the
      second does nothing for a new document, then the unique e-mail index
      is checked. */
  method CreateUser(db: Database, u: User, hash: string -> string, isEmail: string -> bool) returns (r: Result<User>)
    requires db.Valid() && u.id !in db.users
    modifies db
    ensures db.Valid()
    ensures db.courses == old(db.courses) && db.reviews == old(db.reviews) && db.media == old(db.media)
    ensures UserViolations(u, isEmail) != [] ==>
      r == Err(ValidationFailure("User validation failed", UserViolations(u, isEmail)))
    ensures UserViolations(u, isEmail) == [] && (exists id :: id in old(db.users) && old(db.users)[id].email == u.email) ==>
      r == Err(DuplicateEmail(db.name, u.email))
    ensures UserViolations(u, isEmail) == [] && !(exists id :: id in old(db.users) && old(db.users)[id].email == u.email) ==>
      r.Ok?
    ensures r.Ok? ==>
      UserViolations(u, isEmail) == []
      && r.value == u.(password := Some(hash(u.password.value)), passwordConfirm := None)
      && db.users == old(db.users)[u.id := r.value]
    ensures r.Err? ==> db.users == old(db.users)
  {
    var vs := UserViolations(u, isEmail);
    if vs != [] {
      return Err(ValidationFailure("User validation failed", vs));
    }
    UserValidMeans(u, isEmail);
    var saved := u.(password := Some(hash(u.password.value)), passwordConfirm := None);
    if exists id :: id in db.users && db.users[id].email == u.email {
      return Err(DuplicateEmail(db.name, u.email));
    }
    db.users := db.users[u.id := saved];
    r := Ok(saved);
  }

  /** The E11000 error of the users' e-mail index. */
  function DuplicateEmail(db: string, email: string): (e: Error)
    ensures e.code == Some(11000)
  {
    DuplicateKeyIn(db, "users", "email_1", "{ email: \"" + email + "\" }")
  }
}
