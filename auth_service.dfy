/**
 * Sessions (server/src/modules/auth/auth.service.ts): checking credentials,
 * issuing a token, reading the token back out of a header, and registering
 * an account.
 */
module AuthService {
  import opened Base
  import opened Jwt
  import Bearer
  import JsStrings
  import RoleGuard
  import UserRoleGuard
  import AuthGuard
  import AdminRoleGuard
  import Users

  const InvalidToken: HttpError := BadRequest("Invalid token")
  const InvalidPassword: HttpError := Unauthorized("Invalid password")
  const NotAccepted: HttpError := Forbidden("You are not accepted user")
  const SignUpFailed: HttpError := BadRequest("Failed to create user")

  /** `bcrypt.compare(plain, hash)`. */
  type Matcher = (string, string) -> bool

  /** What `signIn` returns: the payload and the token signed from it. */
  datatype Session = Session(payload: Payload, accessToken: string)

  /** `validateToken`: the payload of the header's bearer token, or BadRequest for every failure. */
  function ValidateToken(authHeader: Option<string>, verify: Verifier): (r: Result<Payload>)
    ensures r.Err? ==> r.error == InvalidToken
  {
    if authHeader.None? || !JsStrings.StartsWith(authHeader.value, Bearer.Prefix) then Err(InvalidToken)
    else
      var token := Bearer.PrefixedToken(authHeader);
      match verify(token.value)
      case None => Err(InvalidToken)
      case Some(payload) => Ok(payload)
  }

  /**
   * `validateToken` reads the same payload as the base role guard, and, for a
   * non-empty token, the same as the authentication guard.
   */
  lemma ValidateTokenAgrees(authHeader: Option<string>, verify: Verifier)
    ensures ValidateToken(authHeader, verify).Ok? <==> RoleGuard.VerifiedPayload(authHeader, verify).Some?
    ensures ValidateToken(authHeader, verify).Ok? ==>
            Some(ValidateToken(authHeader, verify).value) == RoleGuard.VerifiedPayload(authHeader, verify)
    ensures Bearer.Truthy(Bearer.PrefixedToken(authHeader)) ==>
            (ValidateToken(authHeader, verify).Ok? <==> AuthGuard.Authenticate(authHeader, verify).Ok?)
  {
    AuthGuard.AuthenticatesWithoutRoles(authHeader, verify);
  }

  /** The claims `signIn` puts in a token: email, role and id, nothing else. */
  function Claims(user: Users.PublicUser): Payload
  {
    Payload(user.email, user.id, user.role, None, None)
  }

  /** `signIn`: a PENDING account is refused; any other gets its claims and the token signed from them. */
  function SignIn(user: Users.PublicUser, sign: Signer): (r: Result<Session>)
    ensures r.Err? <==> user.role == PENDING
    ensures r.Err? ==> r.error == NotAccepted
    ensures r.Ok? ==> SameClaims(r.value.payload, Claims(user)) && r.value.payload.iat.None? && r.value.payload.exp.None?
    ensures r.Ok? ==> r.value.accessToken == sign(r.value.payload)
  {
    if user.role == PENDING then Err(NotAccepted)
    else
      var payload := Payload(user.email, user.id, user.role, None, None);
      Ok(Session(payload, sign(payload)))
  }

  /**
   * A session's token, sent back as a bearer header, is read back with the
   * account's claims by `validateToken` and the authentication guard; on the
   * user routes the decision is then the account's role and id alone.
   */
  lemma SessionTokenAccepted(user: Users.PublicUser, sign: Signer, verify: Verifier,
                             roles: seq<Role>, paramsId: Option<string>)
    requires Codec(sign, verify)
    requires SignIn(user, sign).Ok?
    ensures var h := Some(Bearer.Header(SignIn(user, sign).value.accessToken));
            && ValidateToken(h, verify).Ok? && SameClaims(ValidateToken(h, verify).value, Claims(user))
            && AuthGuard.Authenticate(h, verify).Ok?
            && UserRoleGuard.CanActivate(Some(roles), h, paramsId, verify)
               == if user.role == USER && paramsId != Some(user.id) then RoleGuard.Deny
                  else if user.role in roles then RoleGuard.Allow
                  else RoleGuard.Raise(RoleGuard.NoPermission)
  {
    var s := SignIn(user, sign).value;
    var token := s.accessToken;
    var h := Some(Bearer.Header(token));
    assert ' ' !in sign(s.payload) && sign(s.payload) != "" && verify(sign(s.payload)).Some?;
    Bearer.HeaderRoundTrip(token);
    ValidateTokenAgrees(h, verify);
    AuthGuard.AnyRolePasses(token, verify, verify(token).value);
  }

  /** A session token passes the admin guard exactly when the account is ADMIN or SUPERADMIN. */
  lemma SessionTokenAdmin(user: Users.PublicUser, sign: Signer, verify: Verifier)
    requires Codec(sign, verify)
    requires SignIn(user, sign).Ok?
    ensures var h := Some(Bearer.Header(SignIn(user, sign).value.accessToken));
            && AdminRoleGuard.Verified(h, verify).Some?
            && SameClaims(AdminRoleGuard.Verified(h, verify).value, Claims(user))
            && (AdminRoleGuard.Verified(h, verify).value.role in {ADMIN, SUPERADMIN} <==> user.role in {ADMIN, SUPERADMIN})
  {
    var s := SignIn(user, sign).value;
    var token := s.accessToken;
    assert ' ' !in sign(s.payload) && sign(s.payload) != "" && verify(sign(s.payload)).Some?;
    Bearer.HeaderRoundTrip(token);
  }

  /**
   * `validateUser`: an unknown email is the store's NotFound (the `!user`
   * branch is never reached); a password that does not match the stored hash
   * is Unauthorized; otherwise the stored account without its password.
   */
  method ValidateUser(users: Users.UserService, email: string, pass: string, compare: Matcher)
    returns (r: Result<Users.PublicUser>)
    requires users.repo.Valid()
    ensures !Users.EmailTaken(users.repo.rows, email) ==> r == Err(Users.UserNotFound)
    ensures forall k :: k in users.repo.rows && users.repo.rows[k].email == email ==>
              r == if compare(pass, users.repo.rows[k].password) then Ok(Users.WithoutPassword(users.repo.rows[k]))
                   else Err(InvalidPassword)
  {
    var found := users.FindUserByEmail(email);
    if found.Err? {
      return Err(found.error);
    }
    var user := found.value;
    if !compare(pass, user.password) {
      return Err(InvalidPassword);
    }
    return Ok(Users.WithoutPassword(user));
  }

  /**
   * `signUp`: creates the account; every failure, a taken email included,
   * becomes BadRequest; on success the account without its password, with
   * the column's default role.
   */
  method SignUp(users: Users.UserService, dto: Users.CreateUserDto, uuid: string,
                hash: string -> string, fault: Option<string>) returns (r: Result<Users.PublicUser>)
    requires users.repo.Valid() && uuid !in users.repo.rows
    modifies users.repo
    ensures users.repo.Valid()
    ensures r.Err? ==> r.error == SignUpFailed && users.repo.rows == old(users.repo.rows)
    ensures r.Ok? <==> !Users.EmailTaken(old(users.repo.rows), dto.email) && fault.None?
    ensures r.Ok? ==> && r.value.id == uuid && r.value.role == Users.DefaultRole
                      && uuid in users.repo.rows
                      && users.repo.rows == old(users.repo.rows)[uuid := users.repo.rows[uuid]]
                      && Users.CreatedFrom(users.repo.rows[uuid], dto, hash)
                      && r.value == Users.WithoutPassword(users.repo.rows[uuid])
  {
    var created := users.Create(dto, uuid, hash, fault);
    if created.Err? {
      return Err(SignUpFailed);
    }
    return Ok(Users.WithoutPassword(created.value));
  }

  /**
   * With the column default, a freshly registered account is a SUPERADMIN: it
   * signs in at once and its token passes the admin guard.
   */
  lemma RegisteredAccountIsAdmin(user: Users.PublicUser, sign: Signer, verify: Verifier)
    requires Codec(sign, verify)
    requires user.role == Users.DefaultRole
    ensures SignIn(user, sign).Ok?
    ensures var h := Some(Bearer.Header(SignIn(user, sign).value.accessToken));
            AdminRoleGuard.Verified(h, verify).Some? && AdminRoleGuard.Verified(h, verify).value.role == SUPERADMIN
  {
    SessionTokenAdmin(user, sign, verify);
  }
}
