/**
 * The product role guard
 * (server/src/modules/product/guards/product-role.guard.ts), which no route of
 * this tree mounts (the product controller uses the authentication guard
 * alone): the base role
 * guard with an `async` ownership hook that looks the route's product up and
 * compares its creator with the token's account. Being `async`, the hook hands
 * the engine a Promise, which is truthy before it settles.
 */
module ProductRoleGuard {
  import opened Base
  import opened Jwt
  import RoleGuard
  import Products

  /** `isChangeble` for a lookup result: a Promise that settles with the creator match or rejects with the lookup's error. */
  function IsChangeble(lookup: Result<Products.Product>, payload: Payload): RoleGuard.Changeable
  {
    RoleGuard.AsyncPromise(
      match lookup
      case Ok(product) => RoleGuard.Fulfilled(payload.id == product.creatorId)
      case Err(e) => RoleGuard.Rejected(e))
  }

  /** The hook over the product table for the route's `:id`. */
  function Hook(products: Products.ProductService, productId: string): Payload -> RoleGuard.Changeable
    reads products
    requires products.Valid()
  {
    var lookup := products.GetProductById(productId);
    (p: Payload) => IsChangeble(lookup, p)
  }

  /** The guard's decision as written: the engine tests the Promise's truthiness. */
  function CanActivate(products: Products.ProductService, requiredRoles: Option<seq<Role>>,
                       authorization: Option<string>, productId: string, verify: Verifier): RoleGuard.Decision
    reads products
    requires products.Valid()
  {
    RoleGuard.CanActivate(requiredRoles, authorization, verify, Hook(products, productId))
  }

  /** The guard's decision with the hook awaited, as the ownership rule intends. */
  function CanActivateAwaited(products: Products.ProductService, requiredRoles: Option<seq<Role>>,
                              authorization: Option<string>, productId: string, verify: Verifier): RoleGuard.Decision
    reads products
    requires products.Valid()
  {
    RoleGuard.CanActivateAwaited(requiredRoles, authorization, verify, Hook(products, productId))
  }

  /** Awaited, the hook yields the creator match for a stored product and NotFound otherwise. */
  lemma AwaitedHook(products: Products.ProductService, productId: string, payload: Payload)
    requires products.Valid()
    ensures Hook(products, productId)(payload).AsyncPromise?
    ensures productId in products.rows ==>
            RoleGuard.Await(Hook(products, productId)(payload)) == Ok(payload.id == products.rows[productId].creatorId)
    ensures productId !in products.rows ==>
            RoleGuard.Await(Hook(products, productId)(payload)) == Err(Products.ProductNotFound)
  {
  }

  /** As written, the decision is role membership alone: ownership and the product's existence never matter. */
  lemma AsWrittenRoleMembershipOnly(products: Products.ProductService, roles: seq<Role>,
                                    authorization: Option<string>, productId: string, verify: Verifier, payload: Payload)
    requires products.Valid()
    requires RoleGuard.VerifiedPayload(authorization, verify) == Some(payload)
    ensures CanActivate(products, Some(roles), authorization, productId, verify)
            == if payload.role in roles then RoleGuard.Allow else RoleGuard.Raise(RoleGuard.NoPermission)
  {
    RoleGuard.PromiseNeverRefuses(roles, authorization, verify, Hook(products, productId), payload);
  }

  /**
   * As written, a USER is admitted to a product someone else created, and to
   * a product that does not exist, whenever the route lists USER.
   */
  lemma AsWrittenAdmitsNonOwner(products: Products.ProductService, roles: seq<Role>,
                                authorization: Option<string>, productId: string, verify: Verifier, payload: Payload)
    requires products.Valid()
    requires RoleGuard.VerifiedPayload(authorization, verify) == Some(payload)
    requires payload.role == USER && USER in roles
    requires productId in products.rows ==> products.rows[productId].creatorId != payload.id
    ensures !(RoleGuard.Await(Hook(products, productId)(payload)) == Ok(true))
    ensures CanActivate(products, Some(roles), authorization, productId, verify) == RoleGuard.Allow
  {
    AsWrittenRoleMembershipOnly(products, roles, authorization, productId, verify, payload);
  }

  /** Awaited, a USER is admitted exactly when USER is listed and they created the product. */
  lemma AwaitedUserNeedsOwnership(products: Products.ProductService, roles: seq<Role>,
                                  authorization: Option<string>, productId: string, verify: Verifier, payload: Payload)
    requires products.Valid()
    requires RoleGuard.VerifiedPayload(authorization, verify) == Some(payload)
    requires payload.role == USER
    ensures CanActivateAwaited(products, Some(roles), authorization, productId, verify) == RoleGuard.Allow
            <==> USER in roles && productId in products.rows && products.rows[productId].creatorId == payload.id
    ensures productId in products.rows && products.rows[productId].creatorId != payload.id ==>
            CanActivateAwaited(products, Some(roles), authorization, productId, verify) == RoleGuard.Deny
  {
    AwaitedHook(products, productId, payload);
    RoleGuard.AwaitedFollowsPolicy(roles, authorization, verify, Hook(products, productId), payload);
  }

  /** Awaited, a missing product is NotFound for every caller on a guarded route. */
  lemma AwaitedMissingProductNotFound(products: Products.ProductService, roles: seq<Role>,
                                      authorization: Option<string>, productId: string, verify: Verifier, payload: Payload)
    requires products.Valid() && productId !in products.rows
    requires RoleGuard.VerifiedPayload(authorization, verify) == Some(payload)
    ensures CanActivateAwaited(products, Some(roles), authorization, productId, verify)
            == RoleGuard.Raise(Products.ProductNotFound)
  {
    AwaitedHook(products, productId, payload);
  }

  /** For a stored product and any role but USER, awaiting does not change the decision. */
  lemma AwaitedKeepsOtherRoles(products: Products.ProductService, requiredRoles: Option<seq<Role>>,
                               authorization: Option<string>, productId: string, verify: Verifier, payload: Payload)
    requires products.Valid() && productId in products.rows
    requires RoleGuard.VerifiedPayload(authorization, verify) == Some(payload)
    requires payload.role != USER
    ensures CanActivateAwaited(products, requiredRoles, authorization, productId, verify)
            == CanActivate(products, requiredRoles, authorization, productId, verify)
  {
    AwaitedHook(products, productId, payload);
  }
}
