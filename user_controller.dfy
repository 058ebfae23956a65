/**
 * The user routes (server/src/modules/user/user.controller.ts): which roles
 * each route declares for the user role guard, and how each handler turns
 * the service's outcome into the HTTP error the client sees.
 */
module UserController {
  import opened Base
  import opened Jwt
  import RoleGuard
  import UserRoleGuard
  import AuthService
  import Users

  datatype Route =
    | CreateUserRoute   // POST /user
    | CreateAdminRoute  // POST /user/admin
    | FindAllRoute      // GET /user
    | FindOneRoute      // GET /user/:id
    | UpdateRoute       // PATCH /user/:id
    | RemoveRoute       // DELETE /user/:id

  /** The routes behind `@UseGuards(UserRoleGuard)`. */
  predicate Guarded(route: Route)
  {
    !(route.FindAllRoute? || route.FindOneRoute?)
  }

  /** The `@Roles(...)` list of each route, None where there is none. */
  function RequiredRoles(route: Route): Option<seq<Role>>
  {
    match route
    case CreateUserRoute => Some([SUPERADMIN, ADMIN])
    case CreateAdminRoute => Some([SUPERADMIN])
    case FindAllRoute => None
    case FindOneRoute => None
    case UpdateRoute => Some([SUPERADMIN, ADMIN, USER])
    case RemoveRoute => Some([SUPERADMIN, ADMIN, USER])
  }

  /** Whether a request reaches the handler: unguarded routes always, guarded ones as the guard decides. */
  function Admission(route: Route, authorization: Option<string>, paramsId: Option<string>,
                     verify: Verifier): RoleGuard.Decision
  {
    if !Guarded(route) then RoleGuard.Allow
    else UserRoleGuard.CanActivate(RequiredRoles(route), authorization, paramsId, verify)
  }

  /** PENDING is in no role list: a PENDING account never reaches a guarded handler. */
  lemma PendingNeverAdmitted(route: Route, authorization: Option<string>, paramsId: Option<string>,
                             verify: Verifier)
    requires Guarded(route)
    requires RoleGuard.VerifiedPayload(authorization, verify).Some?
    requires RoleGuard.VerifiedPayload(authorization, verify).value.role == PENDING
    ensures Admission(route, authorization, paramsId, verify) == RoleGuard.Raise(RoleGuard.NoPermission)
  {
  }

  /** A USER reaches a guarded handler exactly on PATCH or DELETE of their own id. */
  lemma UserOnlyOnOwnAccount(route: Route, authorization: Option<string>, paramsId: Option<string>,
                             verify: Verifier, payload: Payload)
    requires Guarded(route)
    requires RoleGuard.VerifiedPayload(authorization, verify) == Some(payload)
    requires payload.role == USER
    ensures Admission(route, authorization, paramsId, verify) == RoleGuard.Allow
            <==> (route.UpdateRoute? || route.RemoveRoute?) && paramsId == Some(payload.id)
  {
  }

  /**
   * ADMIN reaches every guarded handler but POST /user/admin, and SUPERADMIN
   * every guarded handler, whatever the route's id.
   */
  lemma AdminsByTable(route: Route, authorization: Option<string>, paramsId: Option<string>,
                      verify: Verifier, payload: Payload)
    requires Guarded(route)
    requires RoleGuard.VerifiedPayload(authorization, verify) == Some(payload)
    requires payload.role == ADMIN || payload.role == SUPERADMIN
    ensures Admission(route, authorization, paramsId, verify) == RoleGuard.Allow
            <==> payload.role == SUPERADMIN || !route.CreateAdminRoute?
    ensures Admission(route, authorization, paramsId, verify) != RoleGuard.Deny
  {
    UserRoleGuard.OthersDecidedByRole(RequiredRoles(route).value, authorization, paramsId, verify, payload);
  }

  /** The GET routes admit every request, with or without a header. */
  lemma ReadsUnguarded(route: Route, authorization: Option<string>, paramsId: Option<string>, verify: Verifier)
    requires route.FindAllRoute? || route.FindOneRoute?
    ensures Admission(route, authorization, paramsId, verify) == RoleGuard.Allow
  {
  }

  const CreateUserFailed: HttpError := BadRequest("Failed to create user")
  const CreateAdminFailed: HttpError := BadRequest("Failed to create admin")
  const UsersNotFound: HttpError := NotFound("Users not found")
  const FindUserFailed: HttpError := BadRequest("Failed to find user")
  const UpdateUserFailed: HttpError := BadRequest("Failed to update user")
  const DeleteUserFailed: HttpError := BadRequest("Failed to delete user")
  const UserDeleted: string := "User deleted successfully"

  /** The handlers of `UserController`, over the user service. */
  class Controller {
    const users: Users.UserService

    constructor(users: Users.UserService)
      ensures this.users == users
    {
      this.users := users;
    }

    /** `createUser`: the service's create, every failure reported as BadRequest. */
    method CreateUser(dto: Users.CreateUserDto, uuid: string, hash: string -> string, fault: Option<string>)
      returns (r: Result<Users.User>)
      requires users.repo.Valid() && uuid !in users.repo.rows
      modifies users.repo
      ensures users.repo.Valid()
      ensures r.Err? ==> r.error == CreateUserFailed && users.repo.rows == old(users.repo.rows)
      ensures r.Ok? <==> !Users.EmailTaken(old(users.repo.rows), dto.email) && fault.None?
      ensures r.Ok? ==> && r.value.id == uuid && Users.CreatedFrom(r.value, dto, hash)
                        && users.repo.rows == old(users.repo.rows)[uuid := r.value]
    {
      var created := users.Create(dto, uuid, hash, fault);
      if created.Err? {
        return Err(CreateUserFailed);
      }
      return created;
    }

    /**
     * `createAdmin`: creates the account, reads the requester's token, then
     * promotes the account to ADMIN through `updateUser` with all its fields.
     * Any failure is BadRequest; a failure after the create leaves the new
     * account stored with the default role.
     */
    method CreateAdmin(dto: Users.CreateUserDto, authorization: Option<string>, verify: Verifier,
                       uuid: string, hash: string -> string, createFault: Option<string>, updateFault: Option<string>)
      returns (r: Result<Users.User>)
      requires users.repo.Valid() && uuid !in users.repo.rows
      modifies users.repo
      ensures users.repo.Valid()
      ensures r.Err? ==> r.error == CreateAdminFailed
      ensures r.Ok? <==> && !Users.EmailTaken(old(users.repo.rows), dto.email) && createFault.None?
                         && AuthService.ValidateToken(authorization, verify).Ok?
                         && AuthService.ValidateToken(authorization, verify).value.role != USER
                         && updateFault.None?
      ensures r.Ok? ==> && r.value.id == uuid && r.value.role == ADMIN
                        && Users.CreatedFrom(r.value.(role := Users.DefaultRole), dto, hash)
                        && users.repo.rows == old(users.repo.rows)[uuid := r.value]
      ensures r.Err? && !Users.EmailTaken(old(users.repo.rows), dto.email) && createFault.None? ==>
                && uuid in users.repo.rows && Users.CreatedFrom(users.repo.rows[uuid], dto, hash)
                && users.repo.rows == old(users.repo.rows)[uuid := users.repo.rows[uuid]]
      ensures r.Err? && (Users.EmailTaken(old(users.repo.rows), dto.email) || createFault.Some?) ==>
                users.repo.rows == old(users.repo.rows)
    {
      var created := users.Create(dto, uuid, hash, createFault);
      if created.Err? {
        return Err(CreateAdminFailed);
      }
      var user := created.value;
      ghost var stored := users.repo.rows;
      assert stored == old(users.repo.rows)[uuid := user];
      var updateData := Users.AllFields(user).(role := Users.Given(ADMIN));
      var payload := AuthService.ValidateToken(authorization, verify);
      if payload.Err? {
        return Err(CreateAdminFailed);
      }
      Users.OverlayAllFields(user, user, ADMIN);
      Users.OwnEmailNotTakenByOther(stored, uuid);
      var updated := users.UpdateUser(user.id, updateData, payload.value, updateFault);
      if updated.Err? {
        return Err(CreateAdminFailed);
      }
      assert updated.value == user.(role := ADMIN);
      assert stored[uuid := updated.value] == old(users.repo.rows)[uuid := updated.value];
      return updated;
    }

    /** `findAll`: every account, or NotFound when the query fails. */
    method FindAll(fault: Option<string>) returns (r: Result<seq<Users.User>>)
      requires users.repo.Valid()
      ensures fault.Some? <==> r.Err?
      ensures r.Err? ==> r.error == UsersNotFound
      ensures r.Ok? ==> && |r.value| == |users.repo.rows|
                        && (forall u :: u in r.value <==> u in users.repo.rows.Values)
    {
      if fault.Some? {
        return Err(UsersNotFound);
      }
      var all := users.FindAllUsers();
      return Ok(all);
    }

    /** `findOne`: the account, NotFound kept as NotFound, any other failure BadRequest. */
    method FindOne(id: string, fault: Option<string>) returns (r: Result<Users.User>)
      requires users.repo.Valid()
      ensures fault.Some? ==> r == Err(FindUserFailed)
      ensures fault.None? ==> r == users.FindUserById(id)
      ensures r.Ok? ==> id in users.repo.rows && r.value == users.repo.rows[id]
    {
      if fault.Some? {
        return Err(FindUserFailed);
      }
      var found := users.FindUserById(id);
      if found.Err? {
        match found.error
        case NotFound(message) => return Err(NotFound(message));
        case _ => return Err(FindUserFailed);
      }
      return found;
    }

    /**
     * `updateUser`: reads the requester's token, then updates. It succeeds
     * exactly when the token is valid, the account exists, a USER caller
     * keeps the role USER, the new email is nobody else's and the save
     * works; every failure is BadRequest.
     */
    method Update(id: string, dto: Users.UpdateUserDto, authorization: Option<string>, verify: Verifier,
                  fault: Option<string>) returns (r: Result<Users.User>)
      requires users.repo.Valid()
      modifies users.repo
      ensures users.repo.Valid()
      ensures r.Err? ==> r.error == UpdateUserFailed && users.repo.rows == old(users.repo.rows)
      ensures r.Ok? <==> && AuthService.ValidateToken(authorization, verify).Ok? && id in old(users.repo.rows)
                         && !(AuthService.ValidateToken(authorization, verify).value.role == USER && dto.role != Users.Given(USER))
                         && !Users.NullsRequired(dto)
                         && !Users.EmailTakenByOther(old(users.repo.rows), id, Users.Overlay(old(users.repo.rows)[id], dto).value.email)
                         && fault.None?
      ensures r.Ok? ==> && AuthService.ValidateToken(authorization, verify).Ok? && id in old(users.repo.rows)
                        && Users.Overlay(old(users.repo.rows)[id], dto) == Some(r.value)
                        && users.repo.rows == old(users.repo.rows)[id := r.value]
      ensures r.Ok? && AuthService.ValidateToken(authorization, verify).value.role == USER ==> r.value.role == USER
    {
      var payload := AuthService.ValidateToken(authorization, verify);
      if payload.Err? {
        return Err(UpdateUserFailed);
      }
      var updated := users.UpdateUser(id, dto, payload.value, fault);
      if updated.Err? {
        return Err(UpdateUserFailed);
      }
      return updated;
    }

    /** `remove`: deletes the account and reports success, or BadRequest. */
    method Remove(id: string, fault: Option<string>) returns (r: Result<string>)
      requires users.repo.Valid()
      modifies users.repo
      ensures users.repo.Valid()
      ensures r.Ok? <==> id in old(users.repo.rows) && fault.None?
      ensures r.Ok? ==> r.value == UserDeleted && users.repo.rows == old(users.repo.rows) - {id}
      ensures r.Err? ==> r.error == DeleteUserFailed && users.repo.rows == old(users.repo.rows)
    {
      var removed := users.RemoveUser(id, fault);
      if removed.Err? {
        return Err(DeleteUserFailed);
      }
      return Ok(UserDeleted);
    }
  }
}
