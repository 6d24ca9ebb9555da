/**
 * The two access-control middlewares: `protect`, which admits a request only
 * with a valid session token of an existing user whose password has not
 * changed since the token was issued, and `restrictTo(roles)`, which admits
 * only users with one of the listed roles.
 *
 * Token verification is a parameter: `verify` maps the cookie's token to the
 * id and issue time (seconds) it carries, or to the error the token library
 * throws.
 */
module Auth {
  import opened Js
  import opened AppErrors
  import opened UserModel
  import opened Store
  import opened Http

  datatype Verification = Verified(id: string, iat: int) | Rejected(err: ErrorValue)

  const NoTokenMessage := "logging to continue"
  const NoUserMessage := "This user are not belong to this token! try login again"
  const PasswordChangedMessage := "Password changed! Please login"
  const NoPermissionMessage := "You don't have a permission to perform this task"

  /** The session token of the request, when the cookie is set and not "". */
  function SessionToken(cookies: map<string, string>): Option<string>
  {
    if "jwt" in cookies && cookies["jwt"] != "" then Some(cookies["jwt"]) else None
  }

  /** The four checks of `protect`, in order: cookie, verification, user
      lookup by the token's id, password change since the token's issue. The
      lookup is a plain find by id, which also finds deactivated users. */
  function ProtectDecision(cookies: map<string, string>, verify: string -> Verification, users: Collection<User>): (r: Result<User>)
    reads users
    ensures SessionToken(cookies).None? ==> r == Err(NewAppError(NoTokenMessage, 401))
    ensures SessionToken(cookies).Some? && verify(SessionToken(cookies).value).Rejected? ==>
              r == Err(verify(SessionToken(cookies).value).err)
    ensures r.Ok? <==>
              SessionToken(cookies).Some? && verify(SessionToken(cookies).value).Verified?
              && users.FindById(verify(SessionToken(cookies).value).id).Some?
              && !IsPasswordChanged(users.FindById(verify(SessionToken(cookies).value).id).value,
                                    verify(SessionToken(cookies).value).iat)
    ensures r.Ok? ==> users.idOf(r.value) == verify(SessionToken(cookies).value).id && r.value in users.docs
  {
    match SessionToken(cookies)
    case None => Err(NewAppError(NoTokenMessage, 401))
    case Some(token) =>
      match verify(token)
      case Rejected(e) => Err(e)
      case Verified(id, iat) =>
        match users.FindById(id)
        case None => Err(NewAppError(NoUserMessage, 401))
        case Some(user) =>
          if IsPasswordChanged(user, iat) then Err(NewAppError(PasswordChangedMessage, 401))
          else Ok(user)
  }

  /** Every refusal of `protect` that is its own answers 401; the only other
      refusal is the token library's own error, passed on unchanged. */
  lemma ProtectRefusals(cookies: map<string, string>, verify: string -> Verification, users: Collection<User>)
    ensures var r := ProtectDecision(cookies, verify, users);
      r.Err? ==>
        (r.err.statusCode == Some(401) && r.err.operational
         && r.err.message in {NoTokenMessage, NoUserMessage, PasswordChangedMessage})
        || (SessionToken(cookies).Some? && verify(SessionToken(cookies).value) == Rejected(r.err))
  {
  }

  /** A token issued at or after the user's last password change is
      accepted as long as the user exists. */
  lemma FreshTokenAdmitted(cookies: map<string, string>, verify: string -> Verification, users: Collection<User>,
                           user: User, now: int)
    requires SessionToken(cookies).Some?
    requires verify(SessionToken(cookies).value).Verified?
    requires users.FindById(verify(SessionToken(cookies).value).id) == Some(user)
    requires user.passwordChangeAt == Some(now - 1000)
    requires verify(SessionToken(cookies).value).iat >= now / 1000
    ensures ProtectDecision(cookies, verify, users) == Ok(user)
  {
    TokenAfterChangeAccepted(user, now, verify(SessionToken(cookies).value).iat);
  }

  /** `protectMiddleware`: on success the user is attached to the request and
      the chain continues; otherwise the chain stops with the error and the
      request is not changed. */
  method Protect(req: Request, verify: string -> Verification, users: Collection<User>) returns (n: Next)
    modifies req
    ensures ProtectDecision(old(req.cookies), verify, users).Ok? ==>
              n == Continue && req.user == Some(ProtectDecision(old(req.cookies), verify, users).value)
    ensures ProtectDecision(old(req.cookies), verify, users).Err? ==>
              n == Halt(ProtectDecision(old(req.cookies), verify, users).err) && req.user == old(req.user)
    ensures req.query == old(req.query) && req.cookies == old(req.cookies) && req.params == old(req.params)
  {
    if "jwt" !in req.cookies || req.cookies["jwt"] == "" {
      return Halt(NewAppError(NoTokenMessage, 401));
    }
    var token := req.cookies["jwt"];
    var decoded := verify(token);
    if decoded.Rejected? {
      return Halt(decoded.err);
    }
    var user := users.FindById(decoded.id);
    if user.None? {
      return Halt(NewAppError(NoUserMessage, 401));
    }
    if IsPasswordChanged(user.value, decoded.iat) {
      return Halt(NewAppError(PasswordChangedMessage, 401));
    }
    req.user := user;
    return Continue;
  }

  /** `restrictTo(roles)`: continues exactly when the attached user's role is
      listed; reading the role of a request without a user throws. */
  function RestrictTo(roles: seq<string>, user: Option<User>): (n: Next)
    ensures user.Some? ==> (n == Continue <==> RoleName(user.value.role) in roles)
    ensures user.Some? && n.Halt? ==> n.err == NewAppError(NoPermissionMessage, 401)
    ensures user.None? ==> n.Halt? && n.err.name == "TypeError" && !n.err.operational
  {
    match user
    case None => Halt(ForeignError("TypeError", "Cannot read properties of undefined (reading 'role')"))
    case Some(u) => if RoleName(u.role) in roles then Continue else Halt(NewAppError(NoPermissionMessage, 401))
  }

  /** An empty role list admits nobody. */
  lemma RestrictToNobody(user: User)
    ensures RestrictTo([], Some(user)) != Continue
  {
  }

  /** The role lists of the routes: creating a tour needs admin or
      lead-guide, changing or deleting one admin or guide, user management
      admin, and writing reviews user or admin. */
  lemma RouteRoles(user: User)
    ensures RestrictTo(["admin", "lead-guide"], Some(user)) == Continue <==> user.role in {Admin, LeadGuide}
    ensures RestrictTo(["admin", "guide"], Some(user)) == Continue <==> user.role in {Admin, Guide}
    ensures RestrictTo(["admin"], Some(user)) == Continue <==> user.role == Admin
    ensures RestrictTo(["user", "admin"], Some(user)) == Continue <==> user.role in {RoleUser, Admin}
  {
    var name := RoleName(user.role);
    assert name == "user" || name == "admin" || name == "lead-guide" || name == "guide";
    assert user.role == RoleUser <==> name == "user";
    assert user.role == Admin <==> name == "admin";
    assert user.role == LeadGuide <==> name == "lead-guide";
    assert user.role == Guide <==> name == "guide";
  }
}
