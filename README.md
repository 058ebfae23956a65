# Authorization core of the NestJS shop server, in Dafny

This project models the part of the server that decides who may do what:

- the **base role guard** (`app/guards/role.guard.ts`), the decision engine that
  reads a route's `@Roles(...)`, verifies the bearer token and consults the
  resource's ownership hook `isChangeble`, and its three users: the user route
  guard (ownership = the route's `:id` is the caller's id), the product role
  guard (ownership = the caller created the product, looked up by an `async`
  hook; no route in this tree mounts it, since the product controller is
  guarded by the authentication guard alone), and the older user-module role
  guard that reads `request.user`;
- the **authentication guard** and the **admin guard**, which both extract the
  token after `Bearer ` and verify it, and differ in what they require of it;
- the **auth service**: checking credentials, issuing a session token,
  reading a token back out of a header, registering an account;
- the **user service** and **user controller**: create, list, find, update and
  delete accounts over a table with a unique email column, and the HTTP error
  each handler reports;
- the **product service**: create, list, find, update and delete products;
- the **moderation bot**: the pending-account pages it renders, the callback
  data its buttons carry, and the approve/reject operations behind them.

The token library, the password hash and the database are not modelled as
code: signing and verifying are function parameters (`Jwt.Signer`,
`Jwt.Verifier`, with `Jwt.Codec` saying that a verifier accepts what the
signer produced), hashing and comparing are function parameters, and each
table is a `map` from id to record held in a class (`Users.UserRepository`,
`Products.ProductService`) whose methods change it in place. Where a
service method catches a database failure and turns it into an HTTP error
(create, update and delete of users and products, and the user controller's
list and find handlers),
the failure is a `fault: Option<string>` parameter, so that error path is
reachable in the model; the lookups and the other bot operations are modelled
without a failing database (see "## Left out"). Nest's exceptions are
`Base.HttpError`, thrown exceptions are `Err` results, and a guard's outcome is
`RoleGuard.Decision` (`Allow` = returns true, `Deny` = returns false,
`Raise` = throws). JavaScript behaviour the code relies on is written out:
`startsWith`, `split`, `parseInt` and string concatenation are in `JsStrings`;
a Promise is truthy (`RoleGuard.Truthy`); `null` in a template literal prints
as `null` (`Bot.Text`); the spread overlay `{ ...user, ...dto }` is
`Users.Overlay`.

Three behaviours of the code that a reader might not expect, and which the
model keeps as written:

- The product role guard's hook (`isChangeble`,
  `server/src/modules/product/guards/product-role.guard.ts:23-26`) compares
  the token's account id with the product's creator, and the base guard
  returns false for a USER whose hook result is falsy
  (`server/src/modules/app/guards/role.guard.ts:49-51`). The hook is `async`,
  so the base guard tests a Promise, which is always truthy; as written,
  ownership is never checked (see "## Findings"). No route mounts this guard,
  so the defect is latent. The class's doc comment
  (`product-role.guard.ts:8-12`) reads "Grants access if the user has the
  required role or if the user is a regular user trying to perform an action
  on their own ID"; that "or" is a bypass the code does not implement, and the
  correction does not model it: it awaits the hook inside the base guard's
  own rule.
- The user entity declares `SUPERADMIN` as the column default of `role`
  (`server/src/modules/user/entities/user.entity.ts:21-26`) and `create` does
  not set a role, so every newly registered account is a `SUPERADMIN`
  (`AuthService.RegisteredAccountIsAdmin` states the consequence).
- `updateUser` writes the DTO's `password` field verbatim, without hashing
  it; the model does the same (`Users.Overlay`).
- `@IsOptional()` lets an explicit `null` through validation, and the spread
  `{ ...user, ...dto }` copies it: a `null` surname clears the stored one,
  and a `null` for any other column makes the save fail on that column's
  NOT NULL constraint (`Users.Field`, `Users.Overlay`).

## Model

| member | source | states |
|---|---|---|
| RoleGuard.UndeclaredRolesAdmit | server/src/modules/app/guards/role.guard.ts:21-28 | a route with no declared roles is admitted, whatever the header |
| RoleGuard.EmptyRolesAdmitNobody | server/src/modules/app/guards/role.guard.ts:21-58 | a declared but empty role list admits nobody |
| RoleGuard.UnauthenticatedForbidden | server/src/modules/app/guards/role.guard.ts:30-47 | on a guarded route the guard throws Forbidden('Unauthorized') exactly when the header has no `Bearer ` token that verifies |
| RoleGuard.AdmitsOnlyListedRoles | server/src/modules/app/guards/role.guard.ts:49-58 | whenever the guard admits, a token verified and its role is in the declared list |
| RoleGuard.SyncHookFollowsPolicy | server/src/modules/app/guards/role.guard.ts:49-58 | with a boolean hook, admitted iff the role is listed and, for USER, the hook holds; false iff a USER's hook says no; otherwise Forbidden with the permission message |
| RoleGuard.UserWithoutOwnershipRefused | server/src/modules/app/guards/role.guard.ts:49-51 | a USER whose hook result is falsy gets false, even when USER is listed |
| RoleGuard.UserWithOwnershipByList | server/src/modules/app/guards/role.guard.ts:49-58 | a USER whose hook result is truthy is admitted iff USER is listed, and gets the permission error otherwise |
| RoleGuard.OtherRolesIgnoreHook | server/src/modules/app/guards/role.guard.ts:49-58 | for every role but USER the hook is irrelevant: listed admits, unlisted throws |
| RoleGuard.PromiseNeverRefuses | server/src/modules/app/guards/role.guard.ts:49-64 | a hook that returns a Promise never yields false; the decision is role membership alone |
| RoleGuard.AwaitedAgreesOnSync | server/src/modules/app/guards/role.guard.ts:49-64 | the corrected engine, which awaits the hook, decides exactly as the original one for boolean hooks |
| RoleGuard.AwaitedFollowsPolicy | server/src/modules/app/guards/role.guard.ts:49-64 | the corrected engine admits exactly what the ownership policy permits, and throws the hook's own error when it rejects |
| UserRoleGuard.SelfMatch | server/src/modules/user/guards/user-role.guard.ts:18-20 | the user hook holds exactly when the route's `:id` is the token's account id |
| UserRoleGuard.UserOnOwnAccount | server/src/modules/user/guards/user-role.guard.ts:18-20 | a USER on their own id is admitted when USER is listed and gets the permission error when it is not |
| UserRoleGuard.UserOnOtherAccount | server/src/modules/user/guards/user-role.guard.ts:18-20 | a USER on any other id, or with no id in the route, gets false |
| UserRoleGuard.OthersDecidedByRole | server/src/modules/user/guards/user-role.guard.ts:18-20 | for ADMIN, SUPERADMIN and PENDING the decision is list membership whatever the id |
| LegacyRoleGuard.UndeclaredRolesAdmit | server/src/modules/user/guards/role.guard.ts:21-28 | with no declared roles the older guard admits |
| LegacyRoleGuard.SelfBypass | server/src/modules/user/guards/role.guard.ts:30-36 | a USER on their own id is admitted even when USER is not listed |
| LegacyRoleGuard.AdmitsByRole | server/src/modules/user/guards/role.guard.ts:30-44 | apart from that bypass, admitted iff the attached user's role is listed, Forbidden otherwise |
| LegacyRoleGuard.NeverDenies | server/src/modules/user/guards/role.guard.ts:20-45 | the older guard never returns false |
| LegacyRoleGuard.DiffersFromUserRoleGuard | server/src/modules/user/guards/role.guard.ts:30-44 | where the two guard generations disagree: a USER on another id where USER is listed, and on their own id where it is not |
| Bearer.PrefixedToken | server/src/modules/user/guards/admin-role.guard.ts:44-48 | a token is extracted exactly when the header exists and starts with `Bearer ` |
| Bearer.ExtractorsAgree | server/src/modules/auth/guards/auth.guard.ts:56-62 | the split-on-space extractor and the prefix extractor return the same token for every header |
| Bearer.HeaderRoundTrip | server/src/modules/auth/guards/auth.guard.ts:56-62 | a token without spaces sent as `Bearer <token>` is extracted unchanged by both extractors |
| JsStrings.SplitJoin | server/src/modules/auth/guards/auth.guard.ts:58 | `split` loses nothing: joining the pieces with the separator gives back the string |
| JsStrings.JoinSplit | server/src/modules/bot/bot.service.ts:99-103 | splitting lines joined with a separator none of them contains gives back the lines |
| JsStrings.ParseIntNatToString | server/src/modules/bot/bot.service.ts:56 | `parseInt` reads back the decimal text of every natural number |
| Tables.FindOne | server/src/modules/user/user.service.ts:89-93 | `findOne`: a matching row when there is one, none exactly when no row matches |
| Tables.FindAll | server/src/modules/bot/bot.service.ts:146-148 | `find`: each matching row exactly once, and no other row |
| Users.PasswordStripRoundTrip | server/src/modules/auth/auth.service.ts:37-38 | removing the password field loses no other field |
| Users.Overlay | server/src/modules/user/user.service.ts:122-125 | the spread overlay: each field sent in the DTO replaces the stored one, a `null` surname clears it, absent fields and the id stay; none when a `null` lands in a column that is not nullable |
| Users.OverlayLaws | server/src/modules/user/user.service.ts:122-125 | an empty DTO changes nothing, and applying the same DTO twice is applying it once |
| Users.OverlayAllFields | server/src/modules/user/user.controller.ts:62-72 | writing back every field of a record with a new role gives that record with the new role |
| Users.StoreNewKeepsWellFormed | server/src/modules/user/entities/user.entity.ts:9-10 | storing a fresh id with an untaken email keeps ids matching keys and emails unique |
| Users.ReplaceKeepsWellFormed | server/src/modules/user/entities/user.entity.ts:9-10 | replacing a record by one whose email no other record has keeps the table well formed |
| Users.RemoveKeepsWellFormed | server/src/modules/user/entities/user.entity.ts:9-10 | removing records keeps the table well formed |
| Users.UserService.Create | server/src/modules/user/user.service.ts:34-55 | a taken email is Conflict and changes nothing; a failed save is InternalServerError and changes nothing; otherwise the record (hashed password, default role) is stored under the new id |
| Users.UserService.FindAllUsers | server/src/modules/user/user.service.ts:61-63 | every stored record exactly once |
| Users.UserService.FindUserById | server/src/modules/user/user.service.ts:71-81 | the record stored under the id, NotFound('User not found') exactly when there is none |
| Users.UserService.FindUserByEmail | server/src/modules/user/user.service.ts:89-93 | the unique record with that email, NotFound exactly when there is none |
| Users.UserService.UpdateUser | server/src/modules/user/user.service.ts:104-131 | NotFound for an unknown id; a USER asking for any role but USER (an omitted or `null` role included) is refused; a `null` for a NOT NULL column or an email another record holds fails the save; otherwise the record becomes the overlay of the DTO, and nothing changes on failure |
| Users.UserService.RemoveUser | server/src/modules/user/user.service.ts:140-154 | NotFound for an unknown id, InternalServerError on a failed delete; the record is removed exactly on success |
| Products.RevisedLaws | server/src/modules/product/product.service.ts:57-60 | an update keeps id and creator, the last update wins, and writing back the stored fields changes nothing |
| Products.ProductService.CreateProduct | server/src/modules/product/product.service.ts:27-38 | the product is stored with the DTO's fields and the creator's id, or BadRequest with nothing stored |
| Products.ProductService.GetProductById | server/src/modules/product/product.service.ts:100-112 | the product stored under the id, NotFound('Product not found') exactly when there is none |
| Products.ProductService.UpdateProduct | server/src/modules/product/product.service.ts:47-64 | NotFound for an unknown id; the driver's error passes through uncaught; otherwise the product's three fields are replaced |
| Products.ProductService.DeleteProduct | server/src/modules/product/product.service.ts:71-83 | NotFound for an unknown id; the product is removed exactly on success |
| Products.ProductService.GetAllProducts | server/src/modules/product/product.service.ts:89-92 | every product exactly once, without its creator |
| ProductRoleGuard.AwaitedHook | server/src/modules/product/guards/product-role.guard.ts:23-26 | the hook returns a Promise that settles with "the caller created the product", or rejects with NotFound for a missing product |
| ProductRoleGuard.AsWrittenRoleMembershipOnly | server/src/modules/product/guards/product-role.guard.ts:23-26 | as written, the decision is role membership alone: ownership and the product's existence never matter |
| ProductRoleGuard.AsWrittenAdmitsNonOwner | server/src/modules/product/guards/product-role.guard.ts:23-26 | as written, a USER is admitted to a product they did not create, or that does not exist, whenever USER is listed |
| ProductRoleGuard.AwaitedUserNeedsOwnership | server/src/modules/product/guards/product-role.guard.ts:23-26 | corrected: a USER is admitted iff USER is listed and they created the product; a stored product of someone else gives false |
| ProductRoleGuard.AwaitedMissingProductNotFound | server/src/modules/product/guards/product-role.guard.ts:23-26 | corrected: a missing product is NotFound for every authenticated caller |
| ProductRoleGuard.AwaitedKeepsOtherRoles | server/src/modules/product/guards/product-role.guard.ts:23-26 | for a stored product and any role but USER, the correction changes no decision |
| AuthGuard.Authenticate | server/src/modules/auth/guards/auth.guard.ts:25-49 | a failure is always Unauthorized('Unauthorized'); a success is the payload of the header's bearer token |
| AuthGuard.CanActivate | server/src/modules/auth/guards/auth.guard.ts:25-49 | never false; true with `request.user` set to the payload, or Unauthorized with `request.user` untouched |
| AuthGuard.AuthenticatesWithoutRoles | server/src/modules/auth/guards/auth.guard.ts:25-49 | passes exactly for a non-empty bearer token that verifies; no role is consulted |
| AuthGuard.AnyRolePasses | server/src/modules/auth/guards/auth.guard.ts:25-49 | a verifying token sent as `Bearer <token>` passes with its payload, whatever its role |
| AdminRoleGuard.CheckRolesAdmins | server/src/modules/user/guards/admin-role.guard.ts:50-53 | exactly ADMIN and SUPERADMIN pass the role check |
| AdminRoleGuard.Verified | server/src/modules/user/guards/admin-role.guard.ts:19-29 | a payload found by the admin guard is the one the base role guard reads |
| AdminRoleGuard.CanActivate | server/src/modules/user/guards/admin-role.guard.ts:18-42 | never false; true iff a non-empty token verifies with role ADMIN or SUPERADMIN; every failure is Unauthorized('Unauthorized'); `request.user` is set whenever the token verifies, even when the role is refused |
| AdminRoleGuard.AgreesWithRoleGuard | server/src/modules/user/guards/admin-role.guard.ts:18-42 | for a non-empty token the admin guard admits exactly what the base guard admits on a route declaring SUPERADMIN and ADMIN |
| AdminRoleGuard.EmptyTokenRefused | server/src/modules/user/guards/admin-role.guard.ts:20-21 | `Bearer ` with an empty token is refused without consulting the verifier |
| AuthService.ValidateToken | server/src/modules/auth/auth.service.ts:48-59 | every failure is BadRequest('Invalid token') |
| AuthService.ValidateTokenAgrees | server/src/modules/auth/auth.service.ts:48-59 | `validateToken` reads the payload the base role guard reads, and, for a non-empty token, accepts exactly what the authentication guard accepts |
| AuthService.SignIn | server/src/modules/auth/auth.service.ts:67-82 | refused with Forbidden iff the account is PENDING; otherwise a token signed from exactly the email, id and role |
| AuthService.SessionTokenAccepted | server/src/modules/auth/auth.service.ts:67-82 | a session token sent back as a bearer header is read back with the account's claims by `validateToken` and the authentication guard, and the user guard then decides by the account's role and id |
| AuthService.SessionTokenAdmin | server/src/modules/auth/auth.service.ts:67-82 | a session token passes the admin guard iff the account is ADMIN or SUPERADMIN |
| AuthService.ValidateUser | server/src/modules/auth/auth.service.ts:28-40 | an unknown email is the store's NotFound; a wrong password is Unauthorized; otherwise the account without its password |
| AuthService.SignUp | server/src/modules/auth/auth.service.ts:89-101 | every failure, a taken email included, is BadRequest and stores nothing; success stores the account with the default role and returns it without its password |
| AuthService.RegisteredAccountIsAdmin | server/src/modules/user/entities/user.entity.ts:21-26 | with the column default, a new account signs in at once and its token passes the admin guard |
| UserController.PendingNeverAdmitted | server/src/modules/user/user.controller.ts:38-150 | a PENDING account never reaches a guarded user route |
| UserController.UserOnlyOnOwnAccount | server/src/modules/user/user.controller.ts:122-150 | a USER reaches a guarded user route exactly on PATCH or DELETE of their own id |
| UserController.AdminsByTable | server/src/modules/user/user.controller.ts:38-150 | ADMIN reaches every guarded user route but POST /user/admin, SUPERADMIN every one, whatever the id |
| UserController.ReadsUnguarded | server/src/modules/user/user.controller.ts:85-112 | the two GET routes admit every request, with or without a header |
| UserController.Controller.CreateUser | server/src/modules/user/user.controller.ts:41-48 | the service's create, every failure reported as BadRequest('Failed to create user') |
| UserController.Controller.CreateAdmin | server/src/modules/user/user.controller.ts:60-78 | creates, reads the caller's token and promotes to ADMIN; succeeds iff all three steps do; a failure after the create leaves the new account stored with the default role |
| UserController.Controller.FindAll | server/src/modules/user/user.controller.ts:86-92 | every account, or NotFound('Users not found') when the query fails |
| UserController.Controller.FindOne | server/src/modules/user/user.controller.ts:102-112 | the service's lookup with NotFound kept, any other failure BadRequest |
| UserController.Controller.Update | server/src/modules/user/user.controller.ts:125-138 | succeeds exactly when the token validates, the id is stored, a USER caller keeps the role USER, the DTO sends no `null` for a NOT NULL column, no other record holds the resulting email and the save succeeds; every failure is BadRequest with nothing changed |
| UserController.Controller.Remove | server/src/modules/user/user.controller.ts:150-157 | the success message exactly when the account existed and the delete succeeded; otherwise BadRequest with nothing changed |
| Bot.SecondPiece | server/src/modules/bot/bot.service.ts:56 | `data.split('_')[1]` is the text between the first and second underscore |
| Bot.AtMostOneCommand | server/src/modules/bot/bot.service.ts:43-80 | every callback asks for at most one action |
| Bot.ButtonRoundTrip | server/src/modules/bot/bot.service.ts:105-116 | every button's callback data is parsed back into exactly the action the button stands for |
| Bot.PageButtonRoundTrip | server/src/modules/bot/bot.service.ts:55-57 | `page_N` is read back as page N |
| Bot.ConfirmButtonRoundTrip | server/src/modules/bot/bot.service.ts:62-64 | `confirm_X` is read back as confirming X |
| Bot.RejectButtonRoundTrip | server/src/modules/bot/bot.service.ts:71-73 | `reject_X` is read back as rejecting X |
| Bot.BulkButtonsRoundTrip | server/src/modules/bot/bot.service.ts:43-53 | `add_all` and `remove_all` are read back as the bulk actions |
| Bot.CardReadsBack | server/src/modules/bot/bot.service.ts:99-103 | an account card read line by line gives back its header, blank line and four fields |
| Bot.CardMessage | server/src/modules/bot/bot.service.ts:99-103 | the message built with `+=` is the card's lines joined by line breaks |
| Bot.ConfirmedAll | server/src/modules/bot/bot.service.ts:145-154 | approving all keeps every account and leaves none PENDING |
| Bot.RejectedAll | server/src/modules/bot/bot.service.ts:156-162 | rejecting all removes exactly the PENDING accounts and leaves the others as they were |
| Bot.ConfirmedAllLaws | server/src/modules/bot/bot.service.ts:145-162 | approving all changes only PENDING accounts, to USER; it is idempotent; rejecting all afterwards removes nothing |
| Bot.BotService.GetPendingUsers | server/src/modules/bot/bot.service.ts:121-129 | a page before the first is the driver's OFFSET error; otherwise the count of PENDING accounts and at most `limit` distinct PENDING accounts of the table, as many as remain after the skipped pages |
| Bot.Keyboard | server/src/modules/bot/bot.service.ts:105-116 | the four fixed buttons in order, then exactly previous-page (when the page is past the first) followed by next-page (when pages remain) |
| Bot.PendingWindow | server/src/modules/bot/bot.service.ts:122-126 | `findAndCount` with skip and take: the count of PENDING accounts and a window of up to `limit` distinct PENDING accounts, after `skip` of them, each stored under its own id |
| Bot.BotService.RenderUserPage | server/src/modules/bot/bot.service.ts:86-119 | a page before the first is the OFFSET error; past the last page, the empty message and no buttons; otherwise the card of a stored PENDING account with its page number and page count, the four fixed buttons for that account, then previous-page when past the first and next-page when pages remain (`PageScreen`) |
| Bot.BotService.ConfirmMember | server/src/modules/bot/bot.service.ts:131-137 | an unknown id is Error('User not found'); otherwise the account becomes USER and nothing else changes |
| Bot.BotService.RejectMember | server/src/modules/bot/bot.service.ts:139-143 | an unknown id is Error('User not found'); otherwise exactly that account is removed |
| Bot.BotService.ConfirmAllMembers | server/src/modules/bot/bot.service.ts:145-154 | the table becomes `ConfirmedAll` of the old table |
| Bot.BotService.RejectAllMembers | server/src/modules/bot/bot.service.ts:156-162 | the table becomes `RejectedAll` of the old table |
| Bot.BotService.HandleCallback | server/src/modules/bot/bot.service.ts:40-81 | each parsed action has its effect on the table; `page_N` shows page N's screen (`PageScreen`), a successful confirm or reject shows page 1 of the new table, an unknown id is Error('User not found') with nothing changed; unrecognised data changes nothing |

## Left out

- Token signing and verification (JwtService), secrets and expiry: a `Signer` and a `Verifier` parameter; `iat`/`exp` are carried but never checked, as the guards do not check them beyond the library.
- One `Verifier` stands for both `jwtService.verify(token)` (the secret the JWT module was registered with; base role guard and `validateToken`) and `verifyAsync(token, { secret })` with the secret read from configuration (authentication and admin guards): the two secrets are taken to be the same. AuthService.ValidateTokenAgrees, AdminRoleGuard.AgreesWithRoleGuard and AuthService.SessionTokenAccepted hold only under this assumption.
- bcrypt hashing and comparison: function parameters; their cost and salt are not modelled.
- The database: each table is a map; query failures are `fault` parameters only where the service catches them; the exact text of the driver's unique-index message is a constant of the model, not the driver's.
- Users.UserService.FindUserById, Users.UserService.FindUserByEmail, Users.UserService.FindAllUsers, Products.ProductService.GetProductById and Products.ProductService.GetAllProducts: a failing query (a lost connection, or an `:id` that is not a uuid for the uuid column) is not modelled, so these never fail for a reason other than a missing row; in particular `ProductRoleGuard.AwaitedHook` cannot reject with a query error.
- Bot.BotService.ConfirmMember, Bot.BotService.RejectMember and Bot.BotService.RejectAllMembers: a failing lookup, save or remove is not modelled; Bot.BotService.GetPendingUsers fails only for a negative OFFSET.
- Users.UserService.FindUserById: the `relations: ['products']` option of the lookup (server/src/modules/user/user.service.ts:74) is dropped, because the user entity declares no `products` relation; the model returns the stored record alone.
- Request bodies are taken to hold only the DTO's fields. The global `ValidationPipe` (server/src/main.ts:8) has no `whitelist`, so extra body fields survive into `{ ...dto, password }` and `{ ...user, ...dto }`: a PATCH body `{"role":"user","id":"<other id>"}` from a USER on their own id would carry an `id` into the overlay. Users.UserService.Create's default role, AuthService.RegisteredAccountIsAdmin and Users.Overlay's id preservation hold only under this assumption.
- TypeORM's behaviour for an `undefined` value in a `where` clause is not modelled: ids and emails are always present strings.
- Concurrency and interleaving of awaited calls: every operation runs alone; two requests creating the same email at once are not modelled.
- Unhandled Promise rejections: a rejected hook Promise in the product guard is not awaited by the code, so its later rejection has no effect on the decision in the model.
- Nest's request pipeline, reflector and module wiring: the declared roles are a parameter (`Option<seq<Role>>`), and the route's `:id` is `Option<string>`.
- Passport strategies, the auth and product controllers, configuration and bootstrap are not part of this model.
- The role enums' files are not part of this model. The guards, services and DTOs use `Role` (`role.enum`); the user entity and the bot use `UserRole` (`user-role.enum`); `Base.Role` stands for both, so their values are taken to be the same lower-case names, which is what the admin guard compares against.
- The update-product DTO's file is not part of this model; it is taken to carry title, description and price.
- Products.Product.price: a `real`, not an IEEE double; no rounding is modelled.
- The product's `creator` relation is kept as the creator's id; the relation's cascade options are not modelled.
- The Telegram API: sending messages, answering callbacks and the keyboard's row layout are left out; the model returns the screen (message and buttons in order) the bot would show. A handler that throws (for example `confirm_<id>` for an account already removed) is an `Err` result here; the bot installs no `bot.catch`, and the library's default error handler then stops polling, so the bot stops answering everyone. That is library behaviour and is not modelled.
- Bot.BotService.ConfirmAllMembers: save failures part-way through the loop are not modelled; every save succeeds.
- Bot.BotService.GetPendingUsers: a NaN page (`parseInt` of a non-number) is taken to fail like a negative OFFSET.
- Bot.BotService.RenderUserPage: which PENDING account the page shows is not fixed, because the query has no `order`; the model states only that it is a PENDING account.

## Findings

| source | as written | input that shows it | evidently intended | confidence | as-written member | corrected member |
|---|---|---|---|---|---|---|
| server/src/modules/product/guards/product-role.guard.ts:23-26 | the ownership hook is `async`, so the base guard's `!this.isChangeble(...)` tests a Promise, which is always truthy; a USER is admitted by role alone | a USER token for account "u2" on a route declaring USER, for product "p1" created by "u1" (or no product "p1" at all) | the hook's result is awaited, so the base guard's USER rule (server/src/modules/app/guards/role.guard.ts:49-51) applies to the creator match at line 25: the USER gets false for someone else's product and NotFound for a missing one | not executed; high (latent: no route of this tree mounts the product role guard) | ProductRoleGuard.AsWrittenAdmitsNonOwner | ProductRoleGuard.AwaitedUserNeedsOwnership |
