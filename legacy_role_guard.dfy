/**
 * The older role guard of the user module
 * (server/src/modules/user/guards/role.guard.ts). It verifies no token: it
 * reads the account an earlier guard attached as `request.user`, lets a USER
 * through on their own id even when USER is not listed, and otherwise
 * admits by role or throws; it never returns false.
 */
module LegacyRoleGuard {
  import opened Base
  import opened Jwt
  import RoleGuard
  import UserRoleGuard

  const NoPermission: HttpError := Forbidden("You don`t have permission to perform")

  /** `user.role` on a request with no attached user. */
  const NoUser: HttpError := TypeError("Cannot read properties of undefined (reading 'role')")

  /** `canActivate` over the declared roles, `request.user` and `request.params.id`. */
  function CanActivate(requiredRoles: Option<seq<Role>>, user: Option<Payload>, paramsId: Option<string>)
    : RoleGuard.Decision
  {
    match requiredRoles
    case None => RoleGuard.Allow
    case Some(roles) =>
      match user
      case None => RoleGuard.Raise(NoUser)
      case Some(u) =>
        if u.role == USER && paramsId == Some(u.id) then RoleGuard.Allow
        else if u.role in roles then RoleGuard.Allow
        else RoleGuard.Raise(NoPermission)
  }

  /** No declared roles admits, whoever asks. */
  lemma UndeclaredRolesAdmit(user: Option<Payload>, paramsId: Option<string>)
    ensures CanActivate(None, user, paramsId) == RoleGuard.Allow
  {
  }

  /** A USER on their own id is admitted even when USER is not among the declared roles. */
  lemma SelfBypass(roles: seq<Role>, user: Payload)
    requires user.role == USER
    ensures CanActivate(Some(roles), Some(user), Some(user.id)) == RoleGuard.Allow
  {
  }

  /** Apart from that bypass, a request is admitted exactly when its role is listed, and throws otherwise. */
  lemma AdmitsByRole(roles: seq<Role>, user: Payload, paramsId: Option<string>)
    requires !(user.role == USER && paramsId == Some(user.id))
    ensures CanActivate(Some(roles), Some(user), paramsId)
            == if user.role in roles then RoleGuard.Allow else RoleGuard.Raise(NoPermission)
  {
  }

  /** This guard never returns false. */
  lemma NeverDenies(requiredRoles: Option<seq<Role>>, user: Option<Payload>, paramsId: Option<string>)
    ensures CanActivate(requiredRoles, user, paramsId) != RoleGuard.Deny
  {
  }

  /**
   * Where the two generations disagree, for the account the token names: on
   * a route listing USER, the older guard lets a USER act on someone else's
   * id, which the newer guard refuses; on a route not listing USER, the older
   * guard lets a USER act on their own id, which the newer guard forbids.
   */
  lemma DiffersFromUserRoleGuard(roles: seq<Role>, authorization: Option<string>, verify: Verifier,
                                 payload: Payload, otherId: string)
    requires RoleGuard.VerifiedPayload(authorization, verify) == Some(payload)
    requires payload.role == USER && otherId != payload.id
    ensures USER in roles ==>
      && CanActivate(Some(roles), Some(payload), Some(otherId)) == RoleGuard.Allow
      && UserRoleGuard.CanActivate(Some(roles), authorization, Some(otherId), verify) == RoleGuard.Deny
    ensures USER !in roles ==>
      && CanActivate(Some(roles), Some(payload), Some(payload.id)) == RoleGuard.Allow
      && UserRoleGuard.CanActivate(Some(roles), authorization, Some(payload.id), verify)
         == RoleGuard.Raise(RoleGuard.NoPermission)
  {
  }
}
