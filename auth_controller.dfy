/** controllers/authController.js: token extraction and the `protect` guard,
    `restrictTo`, sign-up and login, the forgotten-password token life cycle,
    and the response `createSendToken` shapes. Signing, verifying and
    hashing are functions the caller supplies; `now` is `Date.now()`. */
module AuthController {
  import opened Common
  import opened Records
  import opened AppErrors
  import opened Store
  import opened UserModel
  import opened Http

  /** What `jwt.verify` yields for a good token. */
  datatype Claims = Claims(id: string, iat: int)

  /** The process environment the handlers read. */
  datatype Env = Env(nodeEnv: string, cookieDays: int)

  /** The cryptography: JWT signing and verification, bcrypt's hash and
      compare, and SHA-256 in hex. */
  datatype Crypto = Crypto(
    sign: Id -> string,
    verify: string -> Result<Claims>,
    hash: string -> string,
    compare: (string, string) -> bool,
    sha: string -> string)

  const DayMs := 24 * 60 * 60 * 1000

  // ---------------------------------------------------------------------
  // createSendToken
  // ---------------------------------------------------------------------

  /** The `jwt` cookie: HTTP-only, `secure` in production only. */
  function TokenCookie(token: string, env: Env, now: int): (c: Cookie)
    ensures c.name == "jwt" && c.value == token && c.httpOnly
    ensures c.secure <==> env.nodeEnv == "production"
    ensures c.expires == now + env.cookieDays * DayMs
  {
    Cookie("jwt", token, now + env.cookieDays * DayMs, true, env.nodeEnv == "production")
  }

  /** createSendToken(user, code, res): a token for the user's id, the
      cookie, and the user without its password. */
  function SendToken(u: User, code: int, crypto: Crypto, env: Env, now: int): (o: Outcome)
    ensures o.Sent? && o.code == code && o.cookie.Some? && o.payload.Account?
    ensures o.payload.token == crypto.sign(u.id) && o.cookie.value.value == o.payload.token
    ensures o.payload.user == u.(password := None) && o.payload.user.password.None?
    ensures o.cookie.value.secure <==> env.nodeEnv == "production"
  {
    var token := crypto.sign(u.id);
    Sent(code, Account(token, u.(password := None)), Some(TokenCookie(token, env, now)))
  }

  // ---------------------------------------------------------------------
  // protect
  // ---------------------------------------------------------------------

  /** Where `protect` gets its token: a `Bearer` header's second
      space-separated part (possibly undefined), or else `req.cookie.jwt`,
      which throws since Express defines no `req.cookie`. */
  datatype TokenSource = FromHeader(token: Option<string>) | CookieCrash

  const NoCookieObject: Error := Thrown("TypeError", "Cannot read properties of undefined (reading 'jwt')")

  function ExtractToken(authorization: Option<string>): (r: TokenSource)
    ensures r.FromHeader? <==> authorization.Some? && authorization.value != "" && StartsWith(authorization.value, "Bearer")
  {
    match authorization
    case Some(h) =>
      if h != "" && StartsWith(h, "Bearer") then
        var parts := Split(h, ' ');
        FromHeader(if |parts| > 1 then Some(parts[1]) else None)
      else CookieCrash
    case None => CookieCrash
  }

  /** `Bearer <token>` yields the token when it holds no space. */
  lemma BearerToken(token: string)
    requires ' ' !in token
    ensures ExtractToken(Some("Bearer " + token)) == FromHeader(Some(token))
  {
    var h := "Bearer " + token;
    assert h[..6] == "Bearer";
    assert h == "Bearer" + [' '] + token;
    SplitNoSeparator("Bearer", ' ');
    SplitAppend("Bearer", token, ' ');
    SplitNoSeparator(token, ' ');
  }

  const NotLoggedIn := "You are not logged in!. Please login to get access."
  const UserGone := "The user belong to this token does not longer exist!"

  /** protect: the header token is verified and its user looked up; the
      user is put on the request. The password-change check tests a
      Promise, which is always truthy, so it never rejects. */
  method Protect(db: Database, req: Request, crypto: Crypto) returns (o: Outcome)
    requires db.Valid()
    modifies req
    ensures req.body == old(req.body)
    ensures o.Passed? || o.Failed?
    ensures ExtractToken(req.authorization).CookieCrash? ==> o == Failed(NoCookieObject) && req.user == old(req.user)
    ensures ExtractToken(req.authorization).FromHeader? && !IsText(ExtractToken(req.authorization).token) ==>
      o == Failed(NewAppError(NotLoggedIn, Some(401))) && req.user == old(req.user)
    ensures o.Passed? ==>
      var token := ExtractToken(req.authorization).token.value;
      && crypto.verify(token).Ok?
      && var id := crypto.verify(token).value.id;
         id in db.users && FindUser(db.users, id) == Ok(Some(db.users[id])) && req.user == Some(db.users[id])
    ensures ExtractToken(req.authorization).FromHeader? && IsText(ExtractToken(req.authorization).token) ==>
      var token := ExtractToken(req.authorization).token.value;
      match crypto.verify(token)
      case Err(e) => o == Failed(e)
      case Ok(claims) =>
        match FindUser(db.users, claims.id)
        case Err(e) => o == Failed(e)
        case Ok(None) => o == Failed(NewAppError(UserGone, Some(401)))
        case Ok(Some(u)) => o == Passed && req.user == Some(u)
    ensures o.Failed? ==> req.user == old(req.user)
  {
    var source := ExtractToken(req.authorization);
    if source.CookieCrash? {
      return Failed(NoCookieObject);
    }
    var token := source.token;
    if !IsText(token) {
      return Failed(NewAppError(NotLoggedIn, Some(401)));
    }
    var decoded := crypto.verify(token.value);
    if decoded.Err? {
      return Failed(decoded.error);
    }
    var currentUser := FindUser(db.users, decoded.value.id);
    if currentUser.Err? {
      return Failed(currentUser.error);
    }
    if currentUser.value.None? {
      return Failed(NewAppError(UserGone, Some(401)));
    }
    // `!currentUser.changedPasswordAfter(decoded.iat)` negates a Promise.
    req.user := currentUser.value;
    o := Passed;
  }

  /** However recently the password changed, a verified token of an
      existing account passes `protect`: what the check would have
      rejected. */
  lemma StaleTokenAccepted(users: map<Id, User>, claims: Claims)
    requires IsObjectIdText(claims.id) && claims.id in users && Visible(users[claims.id])
    requires claims.iat >= 0
    requires users[claims.id].passwordChangedAt.Some?
    requires (claims.iat + 1) * 1000 <= users[claims.id].passwordChangedAt.value
    ensures FindUser(users, claims.id) == Ok(Some(users[claims.id]))
    ensures ChangedPasswordAfter(users[claims.id], claims.iat)
  {
    var t := users[claims.id].passwordChangedAt.value;
    assert t >= 0;
    ChangedPasswordAfterMeans(users[claims.id], claims.iat);
  }

  // ---------------------------------------------------------------------
  // restrictTo
  // ---------------------------------------------------------------------

  const NoPermission := "You don't have permission to perform this action"
  const NoUserOnRequest: Error := Thrown("TypeError", "Cannot read properties of undefined (reading 'role')")

  /** restrictTo(...roles): passes exactly when the user's role is listed. */
  function RestrictTo(roles: seq<string>, user: Option<User>): (o: Outcome)
    ensures user.None? ==> o == Failed(NoUserOnRequest)
    ensures user.Some? ==> (o == Passed <==> user.value.role in roles)
    ensures user.Some? && user.value.role !in roles ==> o == Failed(NewAppError(NoPermission, Some(403)))
  {
    match user
    case None => Failed(NoUserOnRequest)
    case Some(u) => if u.role in roles then Passed else Failed(NewAppError(NoPermission, Some(403)))
  }

  /** `protect` puts a stored account on the request, and every stored
      account holds a schema role (`Database.Valid` keeps that from the
      sign-up validators on), so `restrictTo('user', 'admin')` passes every
      account `protect` lets through, while `restrictTo('admin')` passes
      exactly the administrators. */
  lemma BothRolesAdmitEveryAccount(users: map<Id, User>, id: Id)
    requires RolesKnown(users) && id in users
    ensures RestrictTo(["user", "admin"], Some(users[id])) == Passed
    ensures RestrictTo(["admin"], Some(users[id])) == Passed <==> users[id].role == "admin"
    ensures users[id].role != "admin" ==> RestrictTo(["admin"], Some(users[id])) == Failed(NewAppError(NoPermission, Some(403)))
  {
  }

  // ---------------------------------------------------------------------
  // signup and login
  // ---------------------------------------------------------------------

  /** signup: `User.create` with the five fields of the body, then a token
      with code 201. */
  method Signup(db: Database, req: Request, id: Id, crypto: Crypto, isEmail: string -> bool, env: Env, now: int)
    returns (o: Outcome)
    requires db.Valid() && id !in db.users
    modifies db
    ensures db.Valid()
    ensures db.courses == old(db.courses) && db.reviews == old(db.reviews) && db.media == old(db.media)
    ensures var u := NewUser(id, BodyText(req.body, "name"), BodyText(req.body, "email"), BodyText(req.body, "password"),
                             BodyText(req.body, "passwordConfirm"), BodyText(req.body, "role"));
      && (UserViolations(u, isEmail) != [] ==>
            o == Failed(ValidationFailure("User validation failed", UserViolations(u, isEmail))))
      && (UserViolations(u, isEmail) == [] && (exists other :: other in old(db.users) && old(db.users)[other].email == u.email) ==>
            o == Failed(DuplicateEmail(db.name, u.email)))
      && (UserViolations(u, isEmail) == [] && !(exists other :: other in old(db.users) && old(db.users)[other].email == u.email) ==>
            o.Sent?)
      && (o.Sent? ==>
            var stored := u.(password := Some(crypto.hash(u.password.value)), passwordConfirm := None);
            db.users == old(db.users)[id := stored] && o == SendToken(stored, 201, crypto, env, now))
    ensures o.Failed? ==> db.users == old(db.users)
    ensures o.Sent? || o.Failed?
  {
    var u := NewUser(id, BodyText(req.body, "name"), BodyText(req.body, "email"), BodyText(req.body, "password"),
                     BodyText(req.body, "passwordConfirm"), BodyText(req.body, "role"));
    var created := CreateUser(db, u, crypto.hash, isEmail);
    o := match created
      case Err(e) => Failed(e)
      case Ok(stored) => SendToken(stored, 201, crypto, env, now);
  }

  const MissingCredentials := "Please provide email and password!"
  const BadCredentials := "Please provide valid email and password"
  const NothingToCompare: Error := Thrown("Error", "data and hash arguments required")

  /** login: both fields required (400); an unknown or deactivated account
      or a wrong password is a 401; otherwise a token with code 200. */
  method Login(db: Database, req: Request, crypto: Crypto, env: Env, now: int) returns (o: Outcome)
    requires db.Valid()
    ensures var email := BodyText(req.body, "email");
      var password := BodyText(req.body, "password");
      && (!IsText(email) || !IsText(password) ==> o == Failed(NewAppError(MissingCredentials, Some(400))))
      && (IsText(email) && IsText(password) && (forall id :: id in db.users ==> !(db.users[id].email == email.value && Visible(db.users[id]))) ==>
            o == Failed(NewAppError(BadCredentials, Some(401))))
      && (o.Sent? ==>
            IsText(email) && IsText(password)
            && exists id :: id in db.users && db.users[id].email == email.value && Visible(db.users[id])
                 && db.users[id].password.Some? && crypto.compare(password.value, db.users[id].password.value)
                 && o == SendToken(Loaded(db.users[id]), 200, crypto, env, now))
    ensures var email := BodyText(req.body, "email");
      var password := BodyText(req.body, "password");
      IsText(email) && IsText(password) ==>
        forall id :: id in db.users && db.users[id].email == email.value && Visible(db.users[id]) ==>
          o == match db.users[id].password
               case None => Failed(NothingToCompare)
               case Some(hash) =>
                 if crypto.compare(password.value, hash) then SendToken(Loaded(db.users[id]), 200, crypto, env, now)
                 else Failed(NewAppError(BadCredentials, Some(401)))
    ensures o.Sent? || o.Failed?
  {
    var email := BodyText(req.body, "email");
    var password := BodyText(req.body, "password");
    if !IsText(email) || !IsText(password) {
      o := Failed(NewAppError(MissingCredentials, Some(400)));
    } else {
      var user := FindByEmail(db, email.value);
      o := match user
        case None => Failed(NewAppError(BadCredentials, Some(401)))
        case Some(u) =>
          match u.password
          case None => Failed(NothingToCompare)
          case Some(hash) =>
            if crypto.compare(password.value, hash) then SendToken(Loaded(u), 200, crypto, env, now)
            else Failed(NewAppError(BadCredentials, Some(401)));
      if user.Some? {
        forall id | id in db.users && db.users[id].email == email.value && Visible(db.users[id])
          ensures id == user.value.id
        {
          FindByEmailUnique(db, email.value, id, user.value.id);
        }
      }
    }
  }

  // ---------------------------------------------------------------------
  // forgotPassword and resetPassword
  // ---------------------------------------------------------------------

  const NoSuchEmail := "No user found with that email address."
  const TokenSent := "Token sent to email!"
  const MailFailed := "There was an error sending email. Try again leter!"
  const BadResetToken := "Invalid token or has expired!"

  /** forgotPassword: a reset token is stored (hashed, ten minutes) for the
      account `User.findOne({email: req.body.email})` finds (any visible
      account when the body has no `email`, see `EmailFilterMatches`); when
      the mail cannot be sent (`mailSent` false) both reset fields are
      cleared again and the answer is a 500. `token` is the random token
      generated. */
  method ForgotPassword(db: Database, req: Request, token: string, crypto: Crypto, now: int, mailSent: bool)
    returns (o: Outcome)
    requires db.Valid()
    modifies db
    ensures db.Valid()
    ensures db.courses == old(db.courses) && db.reviews == old(db.reviews) && db.media == old(db.media)
    ensures o.Sent? || o.Failed?
    ensures (forall id :: id in old(db.users) ==>
               !(EmailFilterMatches(Field(req.body, "email"), old(db.users)[id]) && Visible(old(db.users)[id]))) ==>
      o == Failed(NewAppError(NoSuchEmail, Some(404))) && db.users == old(db.users)
    ensures (exists id :: id in old(db.users) && EmailFilterMatches(Field(req.body, "email"), old(db.users)[id]) && Visible(old(db.users)[id])) ==>
      o != Failed(NewAppError(NoSuchEmail, Some(404)))
    ensures o.Sent? ==>
      o == Sent(200, Note(TokenSent), None)
      && exists id :: id in old(db.users) && EmailFilterMatches(Field(req.body, "email"), old(db.users)[id]) && Visible(old(db.users)[id])
           && db.users == old(db.users)[id := old(db.users)[id].(passwordResetToken := Some(crypto.sha(token)),
                                                                 passwordResetExpires := Some(now + ResetWindow))]
    ensures !mailSent && o != Failed(NewAppError(NoSuchEmail, Some(404))) ==>
      o == Failed(NewAppError(MailFailed, Some(500)))
      && exists id :: id in old(db.users) && EmailFilterMatches(Field(req.body, "email"), old(db.users)[id]) && Visible(old(db.users)[id])
           && db.users == old(db.users)[id := old(db.users)[id].(passwordResetToken := None, passwordResetExpires := None)]
    ensures mailSent && o != Failed(NewAppError(NoSuchEmail, Some(404))) ==> o.Sent?
  {
    var user := FindOne(db, Field(req.body, "email"));
    if user.None? {
      return Failed(NewAppError(NoSuchEmail, Some(404)));
    }
    o := IssueResetToken(db, user.value, token, crypto, now, mailSent);
  }

  /** The part of forgotPassword after the account `u` was found. */
  method IssueResetToken(db: Database, u: User, token: string, crypto: Crypto, now: int, mailSent: bool)
    returns (o: Outcome)
    requires db.Valid() && u.id in db.users && db.users[u.id] == u
    modifies db
    ensures db.Valid()
    ensures db.courses == old(db.courses) && db.reviews == old(db.reviews) && db.media == old(db.media)
    ensures mailSent ==>
      o == Sent(200, Note(TokenSent), None)
      && db.users == old(db.users)[u.id := u.(passwordResetToken := Some(crypto.sha(token)), passwordResetExpires := Some(now + ResetWindow))]
    ensures !mailSent ==>
      o == Failed(NewAppError(MailFailed, Some(500)))
      && db.users == old(db.users)[u.id := u.(passwordResetToken := None, passwordResetExpires := None)]
  {
    var doc := new UserDocument(u, false);
    var resetToken := doc.CreatePasswordResetToken(token, crypto.sha, now);
    SaveResetFields(db, doc, crypto.hash, now);
    if mailSent {
      return Sent(200, Note(TokenSent), None);
    }
    doc.SetReset(None, None);
    SaveResetFields(db, doc, crypto.hash, now);
    o := Failed(NewAppError(MailFailed, Some(500)));
  }

  /** `user.save({validateBeforeSave: false})` of an account loaded
      without its password in which only the reset fields were assigned:
      exactly those fields are written. */
  method SaveResetFields(db: Database, doc: UserDocument, hash: string -> string, now: int)
    requires db.Valid() && doc.fields.id in db.users
    requires var stored := db.users[doc.fields.id];
      && doc.fields == stored.(password := None, passwordResetToken := doc.fields.passwordResetToken,
                                passwordResetExpires := doc.fields.passwordResetExpires)
      && doc.modified == (if doc.fields.passwordResetToken != stored.passwordResetToken then {"passwordResetToken"} else {})
                         + (if doc.fields.passwordResetExpires != stored.passwordResetExpires then {"passwordResetExpires"} else {})
    modifies db, doc
    ensures db.Valid()
    ensures db.courses == old(db.courses) && db.reviews == old(db.reviews) && db.media == old(db.media)
    ensures doc.fields == old(doc.fields) && doc.modified == {}
    ensures db.users == old(db.users)[doc.fields.id := old(db.users)[doc.fields.id].(
      passwordResetToken := doc.fields.passwordResetToken, passwordResetExpires := doc.fields.passwordResetExpires)]
  {
    ApplyResetOnly(db.users[doc.fields.id], doc.fields.passwordResetToken, doc.fields.passwordResetExpires, doc.modified);
    var saved := doc.Save(db, hash, now);
    assert saved.Ok?;
  }

  /** The account resetPassword finds: visible, holding the token's hash,
      and not yet expired. */
  method FindByResetToken(db: Database, hashed: string, now: int) returns (r: Option<User>)
    requires db.Valid()
    ensures r.Some? ==> r.value.id in db.users && db.users[r.value.id] == r.value && ResetMatches(r.value, hashed, now)
    ensures r.None? <==> forall id :: id in db.users ==> !ResetMatches(db.users[id], hashed, now)
  {
    if exists id :: id in db.users && ResetMatches(db.users[id], hashed, now) {
      var id :| id in db.users && ResetMatches(db.users[id], hashed, now);
      r := Some(db.users[id]);
    } else {
      r := None;
    }
  }

  /** resetPassword: the account holding the hash of the route's token,
      still within its window, gets the body's password (hashed, with
      `passwordChangedAt` one second back) and loses both reset fields; the
      save skips validation, so neither the length nor the confirmation is
      checked. */
  method ResetPassword(db: Database, req: Request, crypto: Crypto, env: Env, now: int) returns (o: Outcome)
    requires db.Valid() && "token" in req.params
    modifies db
    ensures db.Valid()
    ensures db.courses == old(db.courses) && db.reviews == old(db.reviews) && db.media == old(db.media)
    ensures o.Sent? || o.Failed?
    ensures var hashed := crypto.sha(req.params["token"]);
      (forall id :: id in old(db.users) ==> !ResetMatches(old(db.users)[id], hashed, now)) ==>
        o == Failed(NewAppError(BadResetToken, Some(400))) && db.users == old(db.users)
    ensures o.Sent? ==>
      exists id :: id in old(db.users) && ResetMatches(old(db.users)[id], crypto.sha(req.params["token"]), now)
        && db.users == old(db.users)[id := Reset(old(db.users)[id], BodyText(req.body, "password"), BodyText(req.body, "passwordConfirm"), crypto.hash, now)]
        && o == SendToken(Loaded(Reset(old(db.users)[id], BodyText(req.body, "password"), BodyText(req.body, "passwordConfirm"), crypto.hash, now)),
                          200, crypto, env, now)
    ensures (exists id :: id in old(db.users) && ResetMatches(old(db.users)[id], crypto.sha(req.params["token"]), now)) ==> o.Sent?
  {
    var hashed := crypto.sha(req.params["token"]);
    var user := FindByResetToken(db, hashed, now);
    if user.None? {
      return Failed(NewAppError(BadResetToken, Some(400)));
    }
    o := SaveReset(db, user.value, BodyText(req.body, "password"), BodyText(req.body, "passwordConfirm"), crypto, env, now);
  }

  /** The part of resetPassword after the account `u` was found: the new
      password `p` and confirmation `pc` are assigned, the reset fields
      cleared, the account saved and a token sent. */
  method SaveReset(db: Database, u: User, p: Option<string>, pc: Option<string>, crypto: Crypto, env: Env, now: int)
    returns (o: Outcome)
    requires db.Valid() && u.id in db.users && db.users[u.id] == u
    modifies db
    ensures db.Valid()
    ensures db.courses == old(db.courses) && db.reviews == old(db.reviews) && db.media == old(db.media)
    ensures db.users == old(db.users)[u.id := Reset(u, p, pc, crypto.hash, now)]
    ensures o == SendToken(Loaded(Reset(u, p, pc, crypto.hash, now)), 200, crypto, env, now)
  {
    var doc := new UserDocument(u, false);
    doc.SetPassword(p);
    doc.SetPasswordConfirm(pc);
    doc.SetReset(None, None);
    ResetWritten(u, p, pc, crypto.hash, now);
    var saved := doc.Save(db, crypto.hash, now);
    assert saved.Ok?;
    assert Loaded(saved.value).(password := None) == Loaded(Reset(u, p, pc, crypto.hash, now)).(password := None);
    o := SendToken(Loaded(saved.value), 200, crypto, env, now);
  }

  /** What resetPassword's save writes for the loaded account `stored`:
      the paths its assignments changed and the paths the hooks changed. */
  lemma ResetWritten(stored: User, p: Option<string>, pc: Option<string>, hash: string -> string, now: int)
    ensures
      var modified := (if p.Some? then {"password"} else {})
        + (if pc != stored.passwordConfirm then {"passwordConfirm"} else {})
        + (if stored.passwordResetToken.Some? then {"passwordResetToken"} else {})
        + (if stored.passwordResetExpires.Some? then {"passwordResetExpires"} else {});
      var fields := stored.(password := p, passwordConfirm := pc, passwordResetToken := None, passwordResetExpires := None);
      var final := if p.Some? then fields.(password := Some(hash(p.value)), passwordConfirm := None, passwordChangedAt := Some(now - 1000)) else fields;
      Apply(stored, final, modified + PasswordHookPaths(fields, modified)) == Reset(stored, p, pc, hash, now)
  {
  }

  /** The stored account after a reset with body password `p` and
      confirmation `pc`. */
  function Reset(u: User, p: Option<string>, pc: Option<string>, hash: string -> string, now: int): (r: User)
    ensures r.passwordResetToken.None? && r.passwordResetExpires.None?
    ensures p.Some? ==> r.password == Some(hash(p.value)) && r.passwordConfirm.None? && r.passwordChangedAt == Some(now - 1000)
    ensures p.None? ==> r.password == u.password && r.passwordConfirm == pc && r.passwordChangedAt == u.passwordChangedAt
    ensures r.id == u.id && r.name == u.name && r.email == u.email && r.role == u.role && r.active == u.active
  {
    var cleared := u.(passwordResetToken := None, passwordResetExpires := None);
    match p
    case Some(pw) => cleared.(password := Some(hash(pw)), passwordConfirm := None, passwordChangedAt := Some(now - 1000))
    case None => cleared.(passwordConfirm := pc)
  }
}
