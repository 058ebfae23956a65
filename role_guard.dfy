/**
 * The base role guard (server/src/modules/app/guards/role.guard.ts): the
 * decision engine every resource guard inherits. It takes the roles a route
 * declares, the Authorization header, the token verifier and the resource's
 * ownership hook `isChangeble`, and either lets the request through (`true`),
 * refuses it (`false`), or throws.
 */
module RoleGuard {
  import opened Base
  import opened Jwt
  import Bearer

  /** How a Promise returned by an async hook would settle, were it awaited. */
  datatype Settlement = Fulfilled(value: bool) | Rejected(error: HttpError)

  /** What `isChangeble` returns: a boolean, or, for an `async` hook, a Promise. */
  datatype Changeable = Sync(value: bool) | AsyncPromise(settles: Settlement)

  /** JavaScript truthiness of the hook's result: every Promise object is truthy. */
  predicate Truthy(c: Changeable)
  {
    match c
    case Sync(b) => b
    case AsyncPromise(_) => true
  }

  /** What `canActivate` does: return true, return false, or throw. */
  datatype Decision = Allow | Deny | Raise(error: HttpError)

  const NotAuthenticated: HttpError := Forbidden("Unauthorized")
  const NoPermission: HttpError := Forbidden("You haven`t permission to this action")

  /** The payload of the header's bearer token, when it has one that verifies. */
  function VerifiedPayload(authorization: Option<string>, verify: Verifier): Option<Payload>
  {
    match Bearer.PrefixedToken(authorization)
    case None => None
    case Some(token) => verify(token)
  }

  /**
   * `canActivate`, in the source's order: no declared roles admits; a missing
   * or malformed header, or a token that does not verify, throws; a USER whose
   * hook result is falsy is refused; a listed role is admitted; anything else
   * throws.
   */
  function CanActivate(requiredRoles: Option<seq<Role>>, authorization: Option<string>,
                       verify: Verifier, isChangeble: Payload -> Changeable): Decision
  {
    match requiredRoles
    case None => Allow
    case Some(roles) =>
      match VerifiedPayload(authorization, verify)
      case None => Raise(NotAuthenticated)
      case Some(payload) =>
        if payload.role == USER && !Truthy(isChangeble(payload)) then Deny
        else if payload.role in roles then Allow
        else Raise(NoPermission)
  }

  /**
   * The documented access policy: a role listed for the route is admitted,
   * and a USER only when the ownership check holds as well.
   */
  predicate Permits(roles: seq<Role>, role: Role, owns: bool)
  {
    role in roles && (role == USER ==> owns)
  }

  /** With no declared roles the guard admits without looking at the header. */
  lemma UndeclaredRolesAdmit(authorization: Option<string>, verify: Verifier, isChangeble: Payload -> Changeable)
    ensures CanActivate(None, authorization, verify, isChangeble) == Allow
  {
  }

  /** A declared but empty role list admits nobody. */
  lemma EmptyRolesAdmitNobody(authorization: Option<string>, verify: Verifier, isChangeble: Payload -> Changeable)
    ensures CanActivate(Some([]), authorization, verify, isChangeble) != Allow
  {
  }

  /** On a guarded route, the guard throws `Forbidden('Unauthorized')` exactly when no payload verifies. */
  lemma UnauthenticatedForbidden(roles: seq<Role>, authorization: Option<string>, verify: Verifier,
                                 isChangeble: Payload -> Changeable)
    ensures CanActivate(Some(roles), authorization, verify, isChangeble) == Raise(NotAuthenticated)
            <==> VerifiedPayload(authorization, verify).None?
  {
  }

  /** The guard never admits a role outside a declared list. */
  lemma AdmitsOnlyListedRoles(roles: seq<Role>, authorization: Option<string>, verify: Verifier,
                              isChangeble: Payload -> Changeable)
    requires CanActivate(Some(roles), authorization, verify, isChangeble) == Allow
    ensures VerifiedPayload(authorization, verify).Some?
    ensures VerifiedPayload(authorization, verify).value.role in roles
  {
  }

  /**
   * With a synchronous hook the guard follows the documented policy: it admits
   * exactly what `Permits` allows, returns false exactly for a USER whose hook
   * says no, and throws otherwise.
   */
  lemma SyncHookFollowsPolicy(roles: seq<Role>, authorization: Option<string>, verify: Verifier,
                              isChangeble: Payload -> Changeable, payload: Payload)
    requires VerifiedPayload(authorization, verify) == Some(payload)
    requires isChangeble(payload).Sync?
    ensures CanActivate(Some(roles), authorization, verify, isChangeble) == Allow
            <==> Permits(roles, payload.role, isChangeble(payload).value)
    ensures CanActivate(Some(roles), authorization, verify, isChangeble) == Deny
            <==> payload.role == USER && !isChangeble(payload).value
    ensures CanActivate(Some(roles), authorization, verify, isChangeble) in {Allow, Deny, Raise(NoPermission)}
  {
  }

  /** A USER whose hook says no gets false, even when USER is listed. */
  lemma UserWithoutOwnershipRefused(roles: seq<Role>, authorization: Option<string>, verify: Verifier,
                                    isChangeble: Payload -> Changeable, payload: Payload)
    requires VerifiedPayload(authorization, verify) == Some(payload)
    requires payload.role == USER && !Truthy(isChangeble(payload))
    ensures CanActivate(Some(roles), authorization, verify, isChangeble) == Deny
  {
  }

  /** A USER whose hook result is truthy is admitted exactly when USER is listed, and gets a throw otherwise. */
  lemma UserWithOwnershipByList(roles: seq<Role>, authorization: Option<string>, verify: Verifier,
                                isChangeble: Payload -> Changeable, payload: Payload)
    requires VerifiedPayload(authorization, verify) == Some(payload)
    requires payload.role == USER && Truthy(isChangeble(payload))
    ensures CanActivate(Some(roles), authorization, verify, isChangeble)
            == if USER in roles then Allow else Raise(NoPermission)
  {
  }

  /** For every role but USER the hook never matters: listed admits, unlisted throws. */
  lemma OtherRolesIgnoreHook(roles: seq<Role>, authorization: Option<string>, verify: Verifier,
                             isChangeble: Payload -> Changeable, other: Payload -> Changeable, payload: Payload)
    requires VerifiedPayload(authorization, verify) == Some(payload)
    requires payload.role != USER
    ensures CanActivate(Some(roles), authorization, verify, isChangeble)
            == CanActivate(Some(roles), authorization, verify, other)
            == if payload.role in roles then Allow else Raise(NoPermission)
  {
  }

  /**
   * A hook that returns a Promise never causes the USER refusal: the
   * decision is role membership alone, however the Promise would settle.
   */
  lemma PromiseNeverRefuses(roles: seq<Role>, authorization: Option<string>, verify: Verifier,
                            isChangeble: Payload -> Changeable, payload: Payload)
    requires VerifiedPayload(authorization, verify) == Some(payload)
    requires isChangeble(payload).AsyncPromise?
    ensures CanActivate(Some(roles), authorization, verify, isChangeble) != Deny
    ensures CanActivate(Some(roles), authorization, verify, isChangeble) == Allow <==> payload.role in roles
  {
  }

  /** The hook's value once awaited: its boolean, or the error its Promise rejects with. */
  function Await(c: Changeable): Result<bool>
  {
    match c
    case Sync(b) => Ok(b)
    case AsyncPromise(Fulfilled(b)) => Ok(b)
    case AsyncPromise(Rejected(e)) => Err(e)
  }

  /**
   * The engine as its ownership rule evidently intends it: the hook's result
   * is awaited before it is tested, and an error it raises is thrown.
   */
  function CanActivateAwaited(requiredRoles: Option<seq<Role>>, authorization: Option<string>,
                              verify: Verifier, isChangeble: Payload -> Changeable): Decision
  {
    match requiredRoles
    case None => Allow
    case Some(roles) =>
      match VerifiedPayload(authorization, verify)
      case None => Raise(NotAuthenticated)
      case Some(payload) =>
        match Await(isChangeble(payload))
        case Err(e) => Raise(e)
        case Ok(owns) =>
          if payload.role == USER && !owns then Deny
          else if payload.role in roles then Allow
          else Raise(NoPermission)
  }

  /** With a synchronous hook, awaiting changes nothing: both engines decide alike. */
  lemma AwaitedAgreesOnSync(requiredRoles: Option<seq<Role>>, authorization: Option<string>,
                            verify: Verifier, isChangeble: Payload -> Changeable)
    requires forall p :: isChangeble(p).Sync?
    ensures CanActivateAwaited(requiredRoles, authorization, verify, isChangeble)
            == CanActivate(requiredRoles, authorization, verify, isChangeble)
  {
  }

  /** Whatever the hook, the awaiting engine admits exactly what the documented policy allows. */
  lemma AwaitedFollowsPolicy(roles: seq<Role>, authorization: Option<string>, verify: Verifier,
                             isChangeble: Payload -> Changeable, payload: Payload)
    requires VerifiedPayload(authorization, verify) == Some(payload)
    ensures CanActivateAwaited(Some(roles), authorization, verify, isChangeble) == Allow
            <==> Await(isChangeble(payload)).Ok? && Permits(roles, payload.role, Await(isChangeble(payload)).value)
    ensures Await(isChangeble(payload)).Err? ==>
            CanActivateAwaited(Some(roles), authorization, verify, isChangeble)
            == Raise(Await(isChangeble(payload)).error)
  {
  }
}
