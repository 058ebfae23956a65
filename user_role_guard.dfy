/**
 * The user routes' guard (server/src/modules/user/guards/user-role.guard.ts):
 * the base role guard with a synchronous ownership hook that holds when the
 * token's account id is the route's `:id`.
 */
module UserRoleGuard {
  import opened Base
  import opened Jwt
  import RoleGuard

  /**
   * `payload.id == request.params.id`; the route parameter is `undefined` on
   * routes without `:id`, and then the comparison is false.
   */
  function IsChangeble(payload: Payload, paramsId: Option<string>): RoleGuard.Changeable
  {
    RoleGuard.Sync(paramsId == Some(payload.id))
  }

  /** The guard's decision for a request. */
  function CanActivate(requiredRoles: Option<seq<Role>>, authorization: Option<string>,
                       paramsId: Option<string>, verify: Verifier): RoleGuard.Decision
  {
    RoleGuard.CanActivate(requiredRoles, authorization, verify, p => IsChangeble(p, paramsId))
  }

  /** Ownership is synchronous and holds exactly when the ids are equal. */
  lemma SelfMatch(payload: Payload, paramsId: Option<string>)
    ensures IsChangeble(payload, paramsId).Sync?
    ensures RoleGuard.Truthy(IsChangeble(payload, paramsId)) <==> paramsId == Some(payload.id)
  {
  }

  /** A USER acting on their own id is admitted exactly when the route lists USER, and refused with the permission error otherwise. */
  lemma UserOnOwnAccount(roles: seq<Role>, authorization: Option<string>, verify: Verifier, payload: Payload)
    requires RoleGuard.VerifiedPayload(authorization, verify) == Some(payload)
    requires payload.role == USER
    ensures CanActivate(Some(roles), authorization, Some(payload.id), verify)
            == if USER in roles then RoleGuard.Allow else RoleGuard.Raise(RoleGuard.NoPermission)
  {
  }

  /** A USER acting on any other id (or on a route without one) gets false, whatever the roles. */
  lemma UserOnOtherAccount(roles: seq<Role>, authorization: Option<string>, paramsId: Option<string>,
                           verify: Verifier, payload: Payload)
    requires RoleGuard.VerifiedPayload(authorization, verify) == Some(payload)
    requires payload.role == USER && paramsId != Some(payload.id)
    ensures CanActivate(Some(roles), authorization, paramsId, verify) == RoleGuard.Deny
  {
  }

  /** For every other role the route id is irrelevant: only membership in the list decides. */
  lemma OthersDecidedByRole(roles: seq<Role>, authorization: Option<string>, paramsId: Option<string>,
                            verify: Verifier, payload: Payload)
    requires RoleGuard.VerifiedPayload(authorization, verify) == Some(payload)
    requires payload.role != USER
    ensures CanActivate(Some(roles), authorization, paramsId, verify)
            == if payload.role in roles then RoleGuard.Allow else RoleGuard.Raise(RoleGuard.NoPermission)
  {
  }
}
