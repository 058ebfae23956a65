/**
 * The admin guard (server/src/modules/user/guards/admin-role.guard.ts): a
 * bearer token that verifies and names the role `admin` or `superadmin`
 * passes. Every failure, the role check's included, surfaces as a plain
 * `UnauthorizedException`.
 */
module AdminRoleGuard {
  import opened Base
  import opened Jwt
  import Bearer
  import RoleGuard
  import Http

  const NotAuthenticated: HttpError := Unauthorized(DefaultUnauthorized)

  /** The role values the guard lets through. */
  const AllowedRoles: seq<string> := ["admin", "superadmin"]

  /** `checkRoles`: whether the role's string value is one of the allowed ones. */
  function CheckRoles(role: string): bool
  {
    role in AllowedRoles
  }

  /** Exactly ADMIN and SUPERADMIN pass the role check. */
  lemma CheckRolesAdmins(r: Role)
    ensures CheckRoles(RoleName(r)) <==> r == ADMIN || r == SUPERADMIN
  {
    assert AllowedRoles == [RoleName(ADMIN), RoleName(SUPERADMIN)];
    if CheckRoles(RoleName(r)) {
      if RoleName(r) == RoleName(ADMIN) {
        RoleNameInjective(r, ADMIN);
      } else {
        RoleNameInjective(r, SUPERADMIN);
      }
    }
  }

  /** The payload the token verifies to, when the extracted token is non-empty. */
  function Verified(authorization: Option<string>, verify: Verifier): (r: Option<Payload>)
    ensures r.Some? ==> RoleGuard.VerifiedPayload(authorization, verify) == r
  {
    var token := Bearer.PrefixedToken(authorization);
    if !Bearer.Truthy(token) then None else verify(token.value)
  }

  /**
   * `canActivate`: a missing, malformed or empty token, a token that does not
   * verify, and a role outside the allowed ones all throw the same
   * `UnauthorizedException`; otherwise the result is true. It never returns
   * false. The payload is attached to the request as soon as it verifies,
   * before the role check, so a refused request still carries it.
   */
  method CanActivate(request: Http.Request, verify: Verifier) returns (r: Result<bool>)
    modifies request
    ensures r != Ok(false)
    ensures r == Ok(true) <==>
              Verified(request.authorization, verify).Some?
              && Verified(request.authorization, verify).value.role in {ADMIN, SUPERADMIN}
    ensures r.Err? ==> r.error == NotAuthenticated
    ensures request.user == if Verified(request.authorization, verify).Some?
                            then Verified(request.authorization, verify) else old(request.user)
  {
    var token := Bearer.PrefixedToken(request.authorization);
    if !Bearer.Truthy(token) {
      return Err(NotAuthenticated);
    }
    var payload := verify(token.value);
    if payload.None? {
      return Err(NotAuthenticated);
    }
    request.user := payload;
    CheckRolesAdmins(payload.value.role);
    if !CheckRoles(RoleName(payload.value.role)) {
      return Err(NotAuthenticated);
    }
    return Ok(true);
  }

  /**
   * For a non-empty token, the admin guard admits exactly what the base role
   * guard admits on a route declaring SUPERADMIN and ADMIN, whatever the
   * ownership hook says.
   */
  lemma AgreesWithRoleGuard(authorization: Option<string>, verify: Verifier,
                            isChangeble: Payload -> RoleGuard.Changeable)
    requires Bearer.Truthy(Bearer.PrefixedToken(authorization))
    ensures (Verified(authorization, verify).Some? && Verified(authorization, verify).value.role in {ADMIN, SUPERADMIN})
            <==> RoleGuard.CanActivate(Some([SUPERADMIN, ADMIN]), authorization, verify, isChangeble) == RoleGuard.Allow
  {
  }

  /** A header whose token is empty, `Bearer ` alone, is refused without consulting the verifier. */
  lemma EmptyTokenRefused(verify: Verifier)
    ensures Bearer.PrefixedToken(Some(Bearer.Header(""))) == Some("")
    ensures Verified(Some(Bearer.Header("")), verify).None?
  {
    Bearer.HeaderRoundTrip("");
  }
}
