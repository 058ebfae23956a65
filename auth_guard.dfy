/**
 * The authentication guard (server/src/modules/auth/guards/auth.guard.ts):
 * any bearer token that verifies passes, whatever its role, and its payload
 * becomes `request.user`.
 */
module AuthGuard {
  import opened Base
  import opened Jwt
  import Bearer
  import RoleGuard
  import Http

  const NotAuthenticated: HttpError := Unauthorized(DefaultUnauthorized)

  /** What `canActivate` concludes from the header: the payload, or the error it throws. */
  function Authenticate(authorization: Option<string>, verify: Verifier): (r: Result<Payload>)
    ensures r.Err? ==> r.error == NotAuthenticated
    ensures r.Ok? ==> RoleGuard.VerifiedPayload(authorization, verify) == Some(r.value)
  {
    var token := Bearer.SplitToken(authorization);
    Bearer.ExtractorsAgree(authorization);
    if !Bearer.Truthy(token) then Err(NotAuthenticated)
    else
      match verify(token.value)
      case None => Err(NotAuthenticated)
      case Some(payload) => Ok(payload)
  }

  /**
   * `canActivate`: on success `request.user` is the payload and the result is
   * true; otherwise it throws and `request.user` is left alone. It never
   * returns false.
   */
  method CanActivate(request: Http.Request, verify: Verifier) returns (r: Result<bool>)
    modifies request
    ensures r != Ok(false)
    ensures Authenticate(request.authorization, verify).Ok? ==>
              r == Ok(true) && request.user == Some(Authenticate(request.authorization, verify).value)
    ensures Authenticate(request.authorization, verify).Err? ==>
              r == Err(NotAuthenticated) && request.user == old(request.user)
  {
    var token := Bearer.SplitToken(request.authorization);
    if !Bearer.Truthy(token) {
      return Err(NotAuthenticated);
    }
    var payload := verify(token.value);
    if payload.None? {
      return Err(NotAuthenticated);
    }
    request.user := payload;
    return Ok(true);
  }

  /**
   * The guard passes exactly when the header's bearer token is non-empty and
   * verifies, the same token the role guards read; no role is consulted.
   */
  lemma AuthenticatesWithoutRoles(authorization: Option<string>, verify: Verifier)
    ensures Authenticate(authorization, verify).Ok?
            <==> Bearer.Truthy(Bearer.PrefixedToken(authorization)) && RoleGuard.VerifiedPayload(authorization, verify).Some?
  {
    Bearer.ExtractorsAgree(authorization);
  }

  /** A client's header carrying a token that verifies passes, whatever role the token names. */
  lemma AnyRolePasses(token: string, verify: Verifier, payload: Payload)
    requires token != "" && ' ' !in token && verify(token) == Some(payload)
    ensures Authenticate(Some(Bearer.Header(token)), verify) == Ok(payload)
  {
    Bearer.HeaderRoundTrip(token);
  }
}
