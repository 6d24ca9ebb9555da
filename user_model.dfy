/**
 * The user document: its fields, the role enumeration, the validators, the
 * two pre-save hooks (hash a modified password and drop the confirmation;
 * backdate `passwordChangeAt` on an existing document), the session
 * invalidation test and the reset-token fields.
 *
 * Cryptography is a parameter: `hash` stands for bcrypt's hash and `sha` for
 * the hex SHA-256 digest.
 */
module UserModel {
  import opened Js
  import opened AppErrors

  datatype Role = RoleUser | Admin | LeadGuide | Guide

  function RoleName(r: Role): string
  {
    match r
    case RoleUser => "user"
    case Admin => "admin"
    case LeadGuide => "lead-guide"
    case Guide => "guide"
  }

  /** The enum validator of `role`: exactly the four names are accepted. */
  function ParseRole(s: string): (r: Option<Role>)
    ensures r.Some? <==> s in {"user", "admin", "lead-guide", "guide"}
    ensures r.Some? ==> RoleName(r.value) == s
  {
    if s == "user" then Some(RoleUser)
    else if s == "admin" then Some(Admin)
    else if s == "lead-guide" then Some(LeadGuide)
    else if s == "guide" then Some(Guide)
    else None
  }

  lemma RoleRoundTrip(r: Role)
    ensures ParseRole(RoleName(r)) == Some(r)
  {
  }

  /** A user document. `password` holds the bcrypt hash once saved;
      `confirmPassword` is write-only input; absent optional fields are None. */
  datatype User = User(
    id: string,
    firstName: string,
    lastName: string,
    email: string,
    photo: string,
    password: string,
    role: Role,
    active: bool,
    confirmPassword: Option<string>,
    passwordChangeAt: Option<int>,
    passwordResetToken: Option<string>,
    passwordResetExpires: Option<int>)

  /** A new document with the schema defaults: role "user", active. */
  function NewUser(id: string, firstName: string, lastName: string, email: string, photo: string,
                   password: string, confirmPassword: string): (u: User)
    ensures u.role == RoleUser && RoleName(u.role) == "user" && u.active
    ensures u.passwordChangeAt.None? && u.passwordResetToken.None? && u.passwordResetExpires.None?
    ensures u.password == password && u.confirmPassword == Some(confirmPassword)
  {
    User(id, firstName, lastName, email, photo, password, RoleUser, true, Some(confirmPassword), None, None, None)
  }

  // ---------------------------------------------------------------------
  // Session invalidation
  // ---------------------------------------------------------------------

  /** Math.ceil(ms / 1000) for an integer number of milliseconds. */
  function CeilSeconds(ms: int): (s: int)
    ensures 1000 * (s - 1) < ms <= 1000 * s
  {
    -((-ms) / 1000)
  }

  /** `isPasswordChanged(tokenTime)`: false when the password was never
      changed, else whether the change (rounded up to whole seconds) is
      strictly later than the token's issue time in seconds. */
  function IsPasswordChanged(u: User, tokenTime: int): bool
  {
    u.passwordChangeAt.Some? && CeilSeconds(u.passwordChangeAt.value) > tokenTime
  }

  /** A token issued at or after the second in which the password was saved
      (the hook stores now - 1000) is never treated as stale. */
  lemma TokenAfterChangeAccepted(u: User, now: int, iat: int)
    requires u.passwordChangeAt == Some(now - 1000)
    requires iat >= now / 1000
    ensures !IsPasswordChanged(u, iat)
  {
    var c := CeilSeconds(now - 1000);
    assert 1000 * (now / 1000) <= now;
  }

  /** A token issued more than one second before the change is rejected. */
  lemma TokenBeforeChangeRejected(u: User, now: int, issuedAtMs: int)
    requires u.passwordChangeAt == Some(now - 1000)
    requires issuedAtMs < now - 1000
    ensures IsPasswordChanged(u, issuedAtMs / 1000)
  {
    var c := CeilSeconds(now - 1000);
    assert 1000 * (issuedAtMs / 1000) <= issuedAtMs;
  }

  // ---------------------------------------------------------------------
  // Pre-save hooks
  // ---------------------------------------------------------------------

  /** First hook: when `password` was modified, store its hash and drop the
      confirmation. */
  function HashPasswordHook(u: User, passwordModified: bool, hash: string -> string): User
  {
    if !passwordModified then u else u.(password := hash(u.password), confirmPassword := None)
  }

  /** Second hook: when `password` was modified on a document that is not
      new, record the change one second in the past. */
  function PasswordChangedHook(u: User, passwordModified: bool, isNew: bool, now: int): User
  {
    if !passwordModified || isNew then u else u.(passwordChangeAt := Some(now - 1000))
  }

  /** Both hooks, in the order they are registered. */
  function PreSave(u: User, passwordModified: bool, isNew: bool, now: int, hash: string -> string): User
  {
    PasswordChangedHook(HashPasswordHook(u, passwordModified, hash), passwordModified, isNew, now)
  }

  /** What a save does to the document, field by field. */
  lemma PreSaveEffect(u: User, passwordModified: bool, isNew: bool, now: int, hash: string -> string)
    ensures !passwordModified ==> PreSave(u, passwordModified, isNew, now, hash) == u
    ensures passwordModified ==>
              PreSave(u, passwordModified, isNew, now, hash) ==
              u.(password := hash(u.password), confirmPassword := None,
                 passwordChangeAt := if isNew then u.passwordChangeAt else Some(now - 1000))
  {
  }

  /** After a password change is saved, a token issued at or after that
      moment still passes the password-changed test. */
  lemma SavedChangeKeepsNewTokens(u: User, isNew: bool, now: int, hash: string -> string, iat: int)
    requires iat >= now / 1000
    requires !isNew || u.passwordChangeAt.None?
    ensures !IsPasswordChanged(PreSave(u, true, isNew, now, hash), iat)
  {
    var saved := PreSave(u, true, isNew, now, hash);
    if !isNew {
      TokenAfterChangeAccepted(saved, now, iat);
    }
  }

  // ---------------------------------------------------------------------
  // Reset token
  // ---------------------------------------------------------------------

  const ResetTokenLifetime := 10 * 60 * 1000

  /** `createPasswordResetToken`: the random token is an input; the document
      keeps only its digest and an expiry ten minutes ahead, and the token
      itself is returned. */
  function CreatePasswordResetToken(u: User, randomToken: string, now: int, sha: string -> string): (User, string)
  {
    (u.(passwordResetToken := Some(sha(randomToken)), passwordResetExpires := Some(now + ResetTokenLifetime)), randomToken)
  }

  /** The condition the reset flow looks users up by. */
  predicate ResetTokenMatches(u: User, digest: string, now: int)
  {
    u.passwordResetToken == Some(digest) && u.passwordResetExpires.Some? && u.passwordResetExpires.value > now
  }

  /** The returned token opens the reset flow for exactly the next ten
      minutes: at any time t before now + 600000 ms, and never after. Only
      the two reset fields change. */
  lemma ResetTokenWindow(u: User, randomToken: string, now: int, sha: string -> string, t: int)
    ensures var (u', token) := CreatePasswordResetToken(u, randomToken, now, sha);
      token == randomToken
      && (ResetTokenMatches(u', sha(token), t) <==> t < now + 600000)
      && u'.(passwordResetToken := u.passwordResetToken, passwordResetExpires := u.passwordResetExpires) == u
  {
  }

  // ---------------------------------------------------------------------
  // Validation (run before the hooks when a save validates)
  // ---------------------------------------------------------------------

  function MinLengthMessage(path: string, value: string, min: nat): string
  {
    "Path `" + path + "` (`" + value + "`) is shorter than the minimum allowed length (" + DecimalText(min) + ")."
  }

  /** The failing paths, in schema order, as "path: message". */
  function ValidationFailures(u: User): seq<string>
  {
    (if u.firstName == "" then ["firstName: first name is required"] else [])
    + (if u.lastName == "" then ["lastName: last name is required"] else [])
    + (if u.email == "" then ["email: email is required"] else [])
    + (if u.password == "" then ["password: password is must"]
       else if |u.password| < 8 then ["password: " + MinLengthMessage("password", u.password, 8)]
       else [])
    + (if u.confirmPassword.None? || u.confirmPassword.value == "" then ["confirmPassword: password is must"]
       else if u.confirmPassword.value != u.password then ["confirmPassword: Password not same"]
       else [])
  }

  /** Document validation: a `ValidationError` listing every failing path. */
  function ValidateUser(u: User): (e: Option<ErrorValue>)
    ensures e.None? <==> ValidationFailures(u) == []
    ensures e.Some? ==> e.value.name == "ValidationError" && !e.value.operational
  {
    var failures := ValidationFailures(u);
    if failures == [] then None
    else Some(ForeignError("ValidationError", "User validation failed: " + Join(failures, ", ")))
  }

  /** A document passes validation exactly when its required names are
      present, its password has at least 8 characters and the confirmation
      equals it. */
  lemma ValidationMeaning(u: User)
    ensures ValidateUser(u).None? <==>
      u.firstName != "" && u.lastName != "" && u.email != ""
      && |u.password| >= 8 && u.confirmPassword == Some(u.password)
  {
  }
}
