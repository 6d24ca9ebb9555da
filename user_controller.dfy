/**
 * The account handlers: sign-up, sign-in, change of password, the two steps
 * of a forgotten password (mail a reset token, then reset with it) and
 * self-deactivation, over the user collection.
 *
 * Each handler that changes the collection is a method on it; its new state
 * and its reply are given by a function of the old state (`...Outcome`),
 * about which the lemmas below are stated. Token signing, bcrypt and SHA-256
 * are parameters, the clock is `now` in milliseconds, and the mail transport
 * is reduced to the error it may throw.
 */
module UserController {
  import opened Js
  import opened AppErrors
  import opened UserModel
  import opened Store
  import opened Http
  import opened Auth

  /** NODE_ENV and the cookie lifetime in days (JWT_COOKIE_EXPIRE). */
  datatype Config = Config(nodeEnv: string, cookieExpireDays: int)

  datatype Cookie = Cookie(token: string, expires: int, secure: bool, httpOnly: bool)

  /** A successful answer: its status code and the session cookie it sets. */
  datatype Reply = Reply(statusCode: int, cookie: Option<Cookie>)

  /** The collection after a handler, and its answer or the error it raised. */
  datatype Outcome = Outcome(docs: seq<User>, reply: Result<Reply>)

  const SignInShapeMessage := "Please provide email or password correct"
  const IncorrectLoginMessage := "Incorrect Email or Password"
  const WrongCurrentPasswordMessage := "Your current Password is wrong"
  const NoUserFoundMessage := "No User found"
  const InvalidResetMessage := "token is expire or invalid"

  /** `createSendToken`: a signed token for the id in an http-only cookie
      that expires the configured number of days after now and is secure
      only in production. */
  function CreateSendToken(id: string, statusCode: int, config: Config, now: int, sign: string -> string): (r: Reply)
    ensures r.statusCode == statusCode && r.cookie.Some?
    ensures r.cookie.value.token == sign(id)
    ensures r.cookie.value.expires == now + config.cookieExpireDays * 86400000
    ensures r.cookie.value.secure <==> config.nodeEnv == "PRODUCTION"
    ensures r.cookie.value.httpOnly
  {
    Reply(statusCode, Some(Cookie(sign(id), now + config.cookieExpireDays * 24 * 60 * 60 * 1000,
                                  config.nodeEnv == "PRODUCTION", true)))
  }

  /** `findOne({ email })`: the first user with that email. */
  function EmailIndex(docs: seq<User>, email: string): (r: Option<nat>)
    ensures r.Some? ==> r.value < |docs| && docs[r.value].email == email
    ensures r.None? ==> forall j :: 0 <= j < |docs| ==> docs[j].email != email
  {
    FirstMatch(docs, (u: User) => u.email == email)
  }

  /** The first user holding this reset digest with an expiry after now. */
  function ResetIndex(docs: seq<User>, digest: string, now: int): (r: Option<nat>)
    ensures r.Some? ==> r.value < |docs| && ResetTokenMatches(docs[r.value], digest, now)
    ensures r.Some? ==> forall j :: 0 <= j < r.value ==> !ResetTokenMatches(docs[j], digest, now)
    ensures r.None? ==> forall j :: 0 <= j < |docs| ==> !ResetTokenMatches(docs[j], digest, now)
  {
    FirstMatch(docs, (u: User) => ResetTokenMatches(u, digest, now))
  }

  /** A save with validation of a document whose password was assigned:
      validation runs first, on the plaintext, then the hooks hash it. */
  function ValidatedSave(u: User, isNew: bool, now: int, hash: string -> string): (r: Result<User>)
    ensures r.Err? <==> ValidateUser(u).Some?
    ensures r.Err? ==> r.err == ValidateUser(u).value
    ensures r.Ok? ==> r.value.password == hash(u.password) && r.value.confirmPassword.None?
    ensures r.Ok? ==> r.value.passwordChangeAt == if isNew then u.passwordChangeAt else Some(now - 1000)
  {
    match ValidateUser(u)
    case Some(e) => Err(e)
    case None => Ok(PreSave(u, true, isNew, now, hash))
  }

  // ---------------------------------------------------------------------
  // Sign-up and sign-in
  // ---------------------------------------------------------------------

  /** The fields `signUp` reads from the request body. */
  datatype SignUpBody = SignUpBody(firstName: string, lastName: string, email: string, password: string,
                                   confirmPassword: string, photo: string)

  const DuplicateEmailError := ForeignError("MongoServerError", "E11000 duplicate key error collection: users index: email_1")

  /** `signUp`: a new document from the body's fields with the schema
      defaults; validation first, then the hooks, then the unique index on
      email. */
  function SignUpOutcome(docs: seq<User>, id: string, body: SignUpBody, hash: string -> string, config: Config, now: int,
                         sign: string -> string): Outcome
  {
    var newUser := NewUser(id, body.firstName, body.lastName, body.email, body.photo, body.password, body.confirmPassword);
    match ValidatedSave(newUser, true, now, hash)
    case Err(e) => Outcome(docs, Err(e))
    case Ok(saved) =>
      if EmailIndex(docs, saved.email).Some? then Outcome(docs, Err(DuplicateEmailError))
      else Outcome(docs + [saved], Ok(CreateSendToken(saved.id, 201, config, now, sign)))
  }

  /** A sign-up succeeds exactly when both names and the email are given,
      the password has at least 8 characters, the confirmation equals it and
      nobody has the email yet. It then adds exactly one user, a plain
      active "user" with the hashed password, no confirmation and no
      password-change time, and answers 201 with a cookie for the new id.
      Otherwise it changes nothing and raises the validation error or,
      for a taken email, the duplicate-key error. */
  lemma SignUpEffect(docs: seq<User>, id: string, body: SignUpBody, hash: string -> string, config: Config, now: int,
                     sign: string -> string)
    ensures var o := SignUpOutcome(docs, id, body, hash, config, now, sign);
      o.reply.Ok? <==>
        body.firstName != "" && body.lastName != "" && body.email != ""
        && |body.password| >= 8 && body.confirmPassword == body.password
        && forall u :: u in docs ==> u.email != body.email
    ensures var o := SignUpOutcome(docs, id, body, hash, config, now, sign);
      o.reply.Ok? ==>
        o.reply.value == CreateSendToken(id, 201, config, now, sign)
        && o.docs == docs + [User(id, body.firstName, body.lastName, body.email, body.photo, hash(body.password),
                                  RoleUser, true, None, None, None, None)]
    ensures var o := SignUpOutcome(docs, id, body, hash, config, now, sign);
      o.reply.Err? ==>
        o.docs == docs
        && (var invalid := ValidateUser(NewUser(id, body.firstName, body.lastName, body.email, body.photo,
                                                body.password, body.confirmPassword));
            if invalid.Some? then o.reply.err == invalid.value && o.reply.err.name == "ValidationError"
            else o.reply.err == DuplicateEmailError)
  {
    ValidationMeaning(NewUser(id, body.firstName, body.lastName, body.email, body.photo, body.password, body.confirmPassword));
  }

  method SignUp(users: Collection<User>, id: string, body: SignUpBody, hash: string -> string, config: Config, now: int,
                sign: string -> string) returns (r: Result<Reply>)
    modifies users
    ensures Outcome(users.docs, r) == SignUpOutcome(old(users.docs), id, body, hash, config, now, sign)
  {
    var newUser := NewUser(id, body.firstName, body.lastName, body.email, body.photo, body.password, body.confirmPassword);
    var saved := ValidatedSave(newUser, true, now, hash);
    if saved.Err? {
      return Err(saved.err);
    }
    if EmailIndex(users.docs, saved.value.email).Some? {
      return Err(DuplicateEmailError);
    }
    users.Insert(saved.value);
    r := Ok(CreateSendToken(saved.value.id, 201, config, now, sign));
  }

  /** `signIn`: the body's shape first, then the user by email and the bcrypt
      comparison; the `active` flag is not consulted. */
  function SignIn(docs: seq<User>, email: string, password: string, bodyValid: bool,
                  compare: (string, string) -> bool, config: Config, now: int, sign: string -> string): (r: Result<Reply>)
    ensures !bodyValid ==> r == Err(NewAppError(SignInShapeMessage, 400))
    ensures bodyValid && (forall u :: u in docs ==> u.email != email) ==> r == Err(NewAppError(IncorrectLoginMessage, 401))
    ensures r.Err? ==> r.err in {NewAppError(SignInShapeMessage, 400), NewAppError(IncorrectLoginMessage, 401)}
    ensures r.Ok? ==> bodyValid && exists u :: u in docs && u.email == email && compare(password, u.password)
                                                && r.value == CreateSendToken(u.id, 200, config, now, sign)
    ensures bodyValid && EmailIndex(docs, email).Some? && compare(password, docs[EmailIndex(docs, email).value].password) ==>
              r == Ok(CreateSendToken(docs[EmailIndex(docs, email).value].id, 200, config, now, sign))
    ensures bodyValid && !(EmailIndex(docs, email).Some? && compare(password, docs[EmailIndex(docs, email).value].password)) ==>
              r == Err(NewAppError(IncorrectLoginMessage, 401))
  {
    if !bodyValid then Err(NewAppError(SignInShapeMessage, 400))
    else match EmailIndex(docs, email)
      case None => Err(NewAppError(IncorrectLoginMessage, 401))
      case Some(i) =>
        if !compare(password, docs[i].password) then Err(NewAppError(IncorrectLoginMessage, 401))
        else Ok(CreateSendToken(docs[i].id, 200, config, now, sign))
  }

  // ---------------------------------------------------------------------
  // Change of password
  // ---------------------------------------------------------------------

  /** `updatePassword`: the caller's document is looked up and its current
      password checked; the new password is then saved WITHOUT waiting, so
      the answer is 200 whether or not the save passes validation, and the
      collection changes only when it does. */
  function UpdatePasswordOutcome(docs: seq<User>, idOf: User -> string, id: string, currentPassword: string,
                                 password: string, confirmPassword: string, compare: (string, string) -> bool,
                                 now: int, hash: string -> string): Outcome
  {
    match IndexOf(docs, idOf, id)
    case None => Outcome(docs, Err(NewAppError(WrongCurrentPasswordMessage, 400)))
    case Some(i) =>
      if !compare(currentPassword, docs[i].password) then
        Outcome(docs, Err(NewAppError(WrongCurrentPasswordMessage, 400)))
      else
        var u := docs[i].(password := password, confirmPassword := Some(confirmPassword));
        match ValidatedSave(u, false, now, hash)
        case Err(_) => Outcome(docs, Ok(Reply(200, None)))
        case Ok(saved) => Outcome(docs[i := saved], Ok(Reply(200, None)))
  }

  /** A wrong current password answers 400 and changes nothing; a right one
      always answers 200, and only a valid new password (at least 8
      characters, confirmed) is stored, hashed and dated one second back. */
  lemma UpdatePasswordEffect(docs: seq<User>, idOf: User -> string, id: string, currentPassword: string,
                             password: string, confirmPassword: string, compare: (string, string) -> bool,
                             now: int, hash: string -> string)
    ensures var o := UpdatePasswordOutcome(docs, idOf, id, currentPassword, password, confirmPassword, compare, now, hash);
      var i := IndexOf(docs, idOf, id);
      (i.None? || !compare(currentPassword, docs[i.value].password)) ==>
        o == Outcome(docs, Err(NewAppError(WrongCurrentPasswordMessage, 400)))
    ensures var o := UpdatePasswordOutcome(docs, idOf, id, currentPassword, password, confirmPassword, compare, now, hash);
      var i := IndexOf(docs, idOf, id);
      (i.Some? && compare(currentPassword, docs[i.value].password)) ==>
        o.reply == Ok(Reply(200, None))
        && (o.docs != docs ==> |password| >= 8 && confirmPassword == password)
        && (ValidateUser(docs[i.value].(password := password, confirmPassword := Some(confirmPassword))).None? ==>
              o.docs == docs[i.value := docs[i.value].(password := hash(password), confirmPassword := None,
                                                       passwordChangeAt := Some(now - 1000))])
  {
    var i := IndexOf(docs, idOf, id);
    if i.Some? && compare(currentPassword, docs[i.value].password) {
      ValidationMeaning(docs[i.value].(password := password, confirmPassword := Some(confirmPassword)));
    }
  }

  method UpdatePassword(users: Collection<User>, id: string, currentPassword: string, password: string,
                        confirmPassword: string, compare: (string, string) -> bool, now: int,
                        hash: string -> string) returns (r: Result<Reply>)
    modifies users
    ensures Outcome(users.docs, r) ==
            UpdatePasswordOutcome(old(users.docs), users.idOf, id, currentPassword, password, confirmPassword,
                                  compare, now, hash)
  {
    var i := users.IndexOfId(id);
    if i.None? || !compare(currentPassword, users.docs[i.value].password) {
      return Err(NewAppError(WrongCurrentPasswordMessage, 400));
    }
    var user := users.docs[i.value];
    user := user.(password := password);
    user := user.(confirmPassword := Some(confirmPassword));
    var saved := ValidatedSave(user, false, now, hash);
    if saved.Ok? {
      users.SaveAt(i.value, saved.value);
    }
    r := Ok(Reply(200, None));
  }

  // ---------------------------------------------------------------------
  // Forgotten password
  // ---------------------------------------------------------------------

  /** `forgetPassword`: the user by email gets a reset digest and expiry; if
      the mail cannot be sent both fields are cleared again and the mail
      error is raised. Both saves skip validation and leave the password
      alone, so the hooks change nothing. */
  function ForgetOutcome(docs: seq<User>, email: string, randomToken: string, now: int, sha: string -> string,
                         mailError: Option<ErrorValue>): Outcome
  {
    match EmailIndex(docs, email)
    case None => Outcome(docs, Err(NewAppError(NoUserFoundMessage, 404)))
    case Some(i) =>
      var (user, _) := CreatePasswordResetToken(docs[i], randomToken, now, sha);
      match mailError
      case Some(e) => Outcome(docs[i := user.(passwordResetExpires := None, passwordResetToken := None)], Err(e))
      case None => Outcome(docs[i := user], Ok(Reply(200, None)))
  }

  /** An unknown email answers 404 and changes nothing. A failed mail leaves
      the user without any reset token (an earlier one is dropped too) and
      raises the mail error. A sent mail stores the digest of the mailed
      token, valid for the next ten minutes. No other field changes. */
  lemma ForgetEffect(docs: seq<User>, email: string, randomToken: string, now: int, sha: string -> string,
                     mailError: Option<ErrorValue>, t: int)
    ensures var o := ForgetOutcome(docs, email, randomToken, now, sha, mailError);
      EmailIndex(docs, email).None? ==> o == Outcome(docs, Err(NewAppError(NoUserFoundMessage, 404)))
    ensures var o := ForgetOutcome(docs, email, randomToken, now, sha, mailError);
      var i := EmailIndex(docs, email);
      i.Some? ==>
        |o.docs| == |docs|
        && (forall j :: 0 <= j < |docs| && j != i.value ==> o.docs[j] == docs[j])
        && o.docs[i.value].(passwordResetToken := docs[i.value].passwordResetToken,
                            passwordResetExpires := docs[i.value].passwordResetExpires) == docs[i.value]
        && (mailError.Some? ==>
              (o.reply == Err(mailError.value)
               && o.docs[i.value].passwordResetToken.None? && o.docs[i.value].passwordResetExpires.None?))
        && (mailError.None? ==>
              (o.reply == Ok(Reply(200, None))
               && (ResetTokenMatches(o.docs[i.value], sha(randomToken), t) <==> t < now + 600000)))
  {
    var i := EmailIndex(docs, email);
    if i.Some? {
      ResetTokenWindow(docs[i.value], randomToken, now, sha, t);
    }
  }

  method ForgetPassword(users: Collection<User>, email: string, randomToken: string, now: int,
                        sha: string -> string, mailError: Option<ErrorValue>) returns (r: Result<Reply>)
    modifies users
    ensures Outcome(users.docs, r) == ForgetOutcome(old(users.docs), email, randomToken, now, sha, mailError)
  {
    var i := EmailIndex(users.docs, email);
    if i.None? {
      return Err(NewAppError(NoUserFoundMessage, 404));
    }
    var (user, resetToken) := CreatePasswordResetToken(users.docs[i.value], randomToken, now, sha);
    if mailError.Some? {
      user := user.(passwordResetExpires := None);
      user := user.(passwordResetToken := None);
      users.SaveAt(i.value, user);
      return Err(mailError.value);
    }
    users.SaveAt(i.value, user);
    r := Ok(Reply(200, None));
  }

  /** `resetPassword`: the user holding the digest of the token with an
      unexpired window gets the new password, loses both reset fields and is
      saved with validation; a session token is then issued. */
  function ResetOutcome(docs: seq<User>, token: string, password: string, confirmPassword: string, now: int,
                        sha: string -> string, hash: string -> string, config: Config, sign: string -> string): Outcome
  {
    match ResetIndex(docs, sha(token), now)
    case None => Outcome(docs, Err(NewAppError(InvalidResetMessage, 400)))
    case Some(i) =>
      var u := docs[i].(password := password, confirmPassword := Some(confirmPassword),
                        passwordResetToken := None, passwordResetExpires := None);
      match ValidatedSave(u, false, now, hash)
      case Err(e) => Outcome(docs, Err(e))
      case Ok(saved) => Outcome(docs[i := saved], Ok(CreateSendToken(saved.id, 200, config, now, sign)))
  }

  /** Without a matching unexpired token the reset answers 400 and changes
      nothing; with one it either fails validation and changes nothing, or
      replaces exactly that user's password by its hash, clears the reset
      fields, records the change and answers 200 with a cookie. */
  lemma ResetEffect(docs: seq<User>, token: string, password: string, confirmPassword: string, now: int,
                    sha: string -> string, hash: string -> string, config: Config, sign: string -> string)
    ensures var o := ResetOutcome(docs, token, password, confirmPassword, now, sha, hash, config, sign);
      (forall u :: u in docs ==> !ResetTokenMatches(u, sha(token), now)) ==>
        o == Outcome(docs, Err(NewAppError(InvalidResetMessage, 400)))
    ensures var o := ResetOutcome(docs, token, password, confirmPassword, now, sha, hash, config, sign);
      o.reply.Err? ==> o.docs == docs
    ensures var o := ResetOutcome(docs, token, password, confirmPassword, now, sha, hash, config, sign);
      o.reply.Ok? ==>
        var i := ResetIndex(docs, sha(token), now).value;
        |password| >= 8 && confirmPassword == password
        && o.docs == docs[i := docs[i].(password := hash(password), confirmPassword := None,
                                        passwordResetToken := None, passwordResetExpires := None,
                                        passwordChangeAt := Some(now - 1000))]
        && o.reply.value == CreateSendToken(docs[i].id, 200, config, now, sign)
  {
    var i := ResetIndex(docs, sha(token), now);
    if i.Some? {
      ValidationMeaning(docs[i.value].(password := password, confirmPassword := Some(confirmPassword),
                                       passwordResetToken := None, passwordResetExpires := None));
    } else {
      assert forall j :: 0 <= j < |docs| ==> !ResetTokenMatches(docs[j], sha(token), now);
    }
  }

  method ResetPassword(users: Collection<User>, token: string, password: string, confirmPassword: string,
                       now: int, sha: string -> string, hash: string -> string, config: Config,
                       sign: string -> string) returns (r: Result<Reply>)
    modifies users
    ensures Outcome(users.docs, r) ==
            ResetOutcome(old(users.docs), token, password, confirmPassword, now, sha, hash, config, sign)
  {
    var decode := sha(token);
    var i := ResetIndex(users.docs, decode, now);
    if i.None? {
      return Err(NewAppError(InvalidResetMessage, 400));
    }
    var user := users.docs[i.value];
    user := user.(password := password);
    user := user.(confirmPassword := Some(confirmPassword));
    user := user.(passwordResetToken := None);
    user := user.(passwordResetExpires := None);
    var saved := ValidatedSave(user, false, now, hash);
    if saved.Err? {
      return Err(saved.err);
    }
    users.SaveAt(i.value, saved.value);
    r := Ok(CreateSendToken(saved.value.id, 200, config, now, sign));
  }

  /** The forgotten-password round trip: the token mailed at time `sent`
      resets the password of the same user at any time before the window
      closes, provided no other user holds the same digest and the new
      password is valid; used again afterwards, it is refused. */
  lemma ForgetThenReset(docs: seq<User>, email: string, randomToken: string, sent: int, sha: string -> string,
                        password: string, now: int, hash: string -> string, config: Config, sign: string -> string)
    requires EmailIndex(docs, email).Some?
    requires forall j :: 0 <= j < |docs| && j != EmailIndex(docs, email).value ==>
               docs[j].passwordResetToken != Some(sha(randomToken))
    requires now < sent + 600000
    requires |password| >= 8
    requires var u := docs[EmailIndex(docs, email).value]; u.firstName != "" && u.lastName != "" && u.email != ""
    ensures var mailed := ForgetOutcome(docs, email, randomToken, sent, sha, None);
      var reset := ResetOutcome(mailed.docs, randomToken, password, password, now, sha, hash, config, sign);
      var i := EmailIndex(docs, email).value;
      reset.reply.Ok?
      && reset.docs[i].password == hash(password)
      && reset.docs[i].email == docs[i].email
      && ResetOutcome(reset.docs, randomToken, password, password, now, sha, hash, config, sign).reply
         == Err(NewAppError(InvalidResetMessage, 400))
  {
    var i := EmailIndex(docs, email).value;
    var mailed := ForgetOutcome(docs, email, randomToken, sent, sha, None);
    ForgetEffect(docs, email, randomToken, sent, sha, None, now);
    assert ResetTokenMatches(mailed.docs[i], sha(randomToken), now);
    forall j | 0 <= j < i
      ensures !ResetTokenMatches(mailed.docs[j], sha(randomToken), now)
    {
      assert mailed.docs[j] == docs[j];
    }
    assert ResetIndex(mailed.docs, sha(randomToken), now) == Some(i);
    var u := mailed.docs[i].(password := password, confirmPassword := Some(password),
                             passwordResetToken := None, passwordResetExpires := None);
    ValidationMeaning(u);
    var reset := ResetOutcome(mailed.docs, randomToken, password, password, now, sha, hash, config, sign);
    ResetEffect(mailed.docs, randomToken, password, password, now, sha, hash, config, sign);
    forall v | v in reset.docs
      ensures !ResetTokenMatches(v, sha(randomToken), now)
    {
      var j :| 0 <= j < |reset.docs| && reset.docs[j] == v;
      if j != i {
        assert reset.docs[j] == docs[j];
      }
    }
    ResetEffect(reset.docs, randomToken, password, password, now, sha, hash, config, sign);
  }

  /** After a successful reset, sessions issued more than a second before it
      are refused by `protect` and sessions issued from then on pass. */
  lemma ResetEndsOldSessions(docs: seq<User>, token: string, password: string, now: int, sha: string -> string,
                             hash: string -> string, config: Config, sign: string -> string,
                             oldIssueMs: int, newIat: int)
    requires ResetOutcome(docs, token, password, password, now, sha, hash, config, sign).reply.Ok?
    requires oldIssueMs < now - 1000 && newIat >= now / 1000
    ensures var o := ResetOutcome(docs, token, password, password, now, sha, hash, config, sign);
      var i := ResetIndex(docs, sha(token), now).value;
      IsPasswordChanged(o.docs[i], oldIssueMs / 1000) && !IsPasswordChanged(o.docs[i], newIat)
  {
    ResetEffect(docs, token, password, password, now, sha, hash, config, sign);
    var o := ResetOutcome(docs, token, password, password, now, sha, hash, config, sign);
    var i := ResetIndex(docs, sha(token), now).value;
    TokenBeforeChangeRejected(o.docs[i], now, oldIssueMs);
    TokenAfterChangeAccepted(o.docs[i], now, newIat);
  }

  // ---------------------------------------------------------------------
  // Self-deactivation
  // ---------------------------------------------------------------------

  /** `deleteMe`: the caller's document gets `active = false` and nothing
      else; the answer's status code is 20 as written, whether or not the
      document was found. */
  function DeleteMeOutcome(docs: seq<User>, idOf: User -> string, id: string): Outcome
  {
    match IndexOf(docs, idOf, id)
    case None => Outcome(docs, Ok(Reply(20, None)))
    case Some(i) => Outcome(docs[i := docs[i].(active := false)], Ok(Reply(20, None)))
  }

  method DeleteMe(users: Collection<User>, id: string) returns (r: Result<Reply>)
    modifies users
    ensures Outcome(users.docs, r) == DeleteMeOutcome(old(users.docs), users.idOf, id)
  {
    var _ := users.FindByIdAndUpdate(id, (u: User) => u.(active := false));
    r := Ok(Reply(20, None));
  }

  lemma {:induction false} EmailIndexIgnoresActive(docs: seq<User>, i: nat, email: string)
    requires i < |docs|
    ensures EmailIndex(docs[i := docs[i].(active := false)], email) == EmailIndex(docs, email)
  {
    var docs' := docs[i := docs[i].(active := false)];
    assert forall j :: 0 <= j < |docs| ==> docs'[j].email == docs[j].email;
    match EmailIndex(docs, email)
    case None =>
    case Some(k) =>
      assert docs'[k].email == email;
      assert forall j :: 0 <= j < k ==> docs'[j].email != email;
      match EmailIndex(docs', email)
      case None =>
      case Some(k') =>
        assert k' == k;
  }

  /** Deactivation changes nothing about signing in: the lookup by email
      does not filter on `active`, so a deleted account still signs in. */
  lemma DeletedUserStillSignsIn(docs: seq<User>, idOf: User -> string, id: string, email: string, password: string,
                                bodyValid: bool, compare: (string, string) -> bool, config: Config, now: int,
                                sign: string -> string)
    ensures SignIn(DeleteMeOutcome(docs, idOf, id).docs, email, password, bodyValid, compare, config, now, sign)
         == SignIn(docs, email, password, bodyValid, compare, config, now, sign)
  {
    match IndexOf(docs, idOf, id)
    case None =>
    case Some(i) =>
      EmailIndexIgnoresActive(docs, i, email);
  }
}
