# Role-based access control of a coffee-shop backend, in Dafny

This project models the access-control layer of a multi-tenant coffee-shop
backend. It covers the user, brand, location and authentication services: who may
list, view, edit, delete, create, invite and attach users, brands and locations;
and the few table writes those checks guard.

Users have one of four roles: `SuperAdmin`, `Owner`, `Manager` and `Staff`.
Access follows the ownership chain owner → brand → location → manager/staff.
Staff are attached to locations through LocationStaff rows.

## Layout

- `schema.dfy` (module `Schema`): roles, errors and results; the rows of the
  four tables (users, brands, locations, LocationStaff); and `Snapshot`, the
  tables as one value. `Valid` is the database invariant: positive
  user ids, unique emails, and foreign keys that point at existing
  rows. The file also holds the walks over the ownership chain: owned brands,
  locations of brands, managed locations, staff locations and staff of
  locations.
- `database.dfy` (module `Database`): class `Store`. Its fields are the tables
  and the two autoincrement counters. The services update these fields in place.
- `user_service.dfy`, `brand_service.dfy`, `location_service.dfy`,
  `auth_service.dfy`: one module per service.
  - Read operations are pure functions of a `Snapshot`.
  - Each operation that writes to the store has two parts. The first is a pure
    transition `…Step` that gives the result and the next snapshot. The second
    is a method on a `Store`. The method updates the fields, keeps `Valid`, and
    is proved to land exactly on that transition.

Errors are `Forbidden` and `NotFound`, the two exceptions the services raise on
purpose, plus `Unhandled`. `Unhandled` stands for an exception a service does not
catch, which the framework turns into a server error. The model has three such
cases: a violated unique or foreign-key constraint on insert, and `getMe` on a
user with no profile row.

Outside inputs become parameters:
- the configured administrator credentials (`AuthConfig`);
- the bcrypt comparison (`passwordMatches`);
- the hashes bcrypt would produce;
- the temporary password.

Tokens are the claims they carry (`Claims`).

Three behaviours of the code a reader may not expect:
- The update permission check lets the caller (self) and the super admin through
  before it looks the target up. It is not the visibility rule used as is.
  `CheckAgreesWithFindOne` shows that the two agree on existing targets.
- `update` and `remove` turn database failures into NotFound. They do not pass
  them on unchanged.
- The location listing decides by the role stored in the caller's user row, not
  by the token's role. An id with no row is NotFound unless it is −1.

Assumptions about the database schema, which is not part of this model:
- Emails are unique. The sign-in lookup relies on this.
- A user has at most one profile row. The services read the profile relation as a
  list (`UserProfile[0]`), but update it by `userId` as a unique key, so the
  model takes a list relation holding zero or one row per user (`profile:
  Option<Profile>`). `AuthService.GetMe`, `UserService.UpdateStep` and
  `UserService.PatchProfile` depend on this.
- Ids come from a sequence starting at 1. An insert the database rejects (a
  missing brand owner, a taken email on invite) still uses up the next id, so the
  counter advances on those failures too. A check that refuses before any insert
  leaves the counter alone.
- Ids are unbounded integers. The ORM's 32-bit `Int` and the overflow of its
  sequence are not modelled.
- Owner, brand and manager ids in requests are integers. The validation pipe's
  `@IsNumber` would also accept a fractional id, which the database then rejects.
  Such ids are not modelled.
- Foreign keys take the ORM's default referential actions:
  - Required relations restrict deletion: a brand's owner, a location's brand, and
    both sides of a LocationStaff row. Deleting a row that one of these still
    refers to fails, and the service's catch reports it as NotFound.
  - The optional manager relation of a location is set to null. Deleting a user
    who manages locations succeeds and clears those locations' manager.

Request bodies pass the validation pipe, and an optional field may arrive as JSON
`null`. The ORM writes NULL for it. So edit requests (`UpdateUserDto`,
`LocationPatch`, `BrandPatch`) tell a missing field (`Absent`) from a null one
(`Null`) and from a value (`Set`).

The update DTOs of brands and locations are not part of this model. Their fields
are taken to be optional copies of the create DTOs' fields (a partial type). The
model keeps the fields it needs: `BrandPatch` has name and owner id, and
`LocationPatch` has name, brand id and manager id.

## Model

| member | source | states |
|---|---|---|
| `UserService.FindAll` | src/user/user.service.ts:9-104 | every listed user exists and matches the role filter; a super admin lists every matching user; staff list at most themselves; an existing caller who matches the filter always lists itself |
| `UserService.FindAllMatchesFindOne` | src/user/user.service.ts:9-182 | for every role, a user is in the unfiltered listing exactly when the single lookup lets the caller view it |
| `UserService.FindAllFilter` | src/user/user.service.ts:10 | the role filter narrows the unfiltered listing to the users of that role and changes nothing else |
| `UserService.FindOne` | src/user/user.service.ts:106-182 | a missing target is NotFound for every role; a refused existing target is always Forbidden; a success returns the stored row; an existing target is always visible to itself and to a super admin |
| `UserService.UserBrands` | src/user/user.service.ts:143-147 | exactly the brands of the locations the user staffs or manages |
| `UserService.OwnerVisibility` | src/user/user.service.ts:135-156 | an owner sees an existing user exactly when it is the owner itself, or the user staffs or manages a location of a brand the owner owns |
| `UserService.ManagerVisibility` | src/user/user.service.ts:158-175 | a manager sees an existing user exactly when it is the manager itself, or the user staffs a location the manager manages |
| `UserService.ManagerIgnoresManagedLocations` | src/user/user.service.ts:164-168 | another user with no staff rows is Forbidden to every manager, whatever locations that user manages |
| `UserService.OwnerChainScenario` | src/user/user.service.ts:135-175 | owner O, location 10 of O's brand, manager M and staff S at location 10: O and M may view S; an owner of another brand may not |
| `UserService.CheckUserAccessPermission` | src/user/user.service.ts:337-404 | self access and the super admin succeed without looking the target up; otherwise a missing target is NotFound; a refused existing target is always Forbidden; staff are refused anyone else |
| `UserService.CheckAgreesWithFindOne` | src/user/user.service.ts:337-404 | for an existing target, the update permission succeeds exactly when the single lookup does |
| `UserService.AnyTruthy` | src/user/user.service.ts:190 | the profile is written only when the first name, last name or phone number is a non-empty string; null and empty fields do not count |
| `UserService.PatchProfile` | src/user/user.service.ts:191-198 | names are overwritten only by truthy values; a present phone number is always written, so null clears it and "" stores ""; a missing phone number keeps the old one |
| `UserService.PatchProfileIdempotent` | src/user/user.service.ts:187-199 | applying the same profile patch twice gives the same profile as applying it once |
| `UserService.UpdateStep` | src/user/user.service.ts:184-216 | permission failures pass through unchanged. The update succeeds exactly when the permission check passes, the user exists and, if some field is truthy, the user has a profile. Every other failure is NotFound with the store untouched. A success rewrites only the target's profile: it is patched when some field is truthy and left alone otherwise. Email, password, role and refresh hash stay |
| `UserService.UpdateIdempotent` | src/user/user.service.ts:184-216 | repeating a successful update gives the same result and leaves the same store |
| `UserService.UpdatePreservesValid` | src/user/user.service.ts:184-216 | update keeps the database invariant |
| `UserService.Update` | src/user/user.service.ts:184-216 | the method's result and new tables are those of `UpdateStep`; the invariant and both counters are kept |
| `UserService.RemoveStep` | src/user/user.service.ts:218-234 | Forbidden exactly for callers that are not super admins. A super admin asking for a missing id gets NotFound, and the store is unchanged. A user that still owns a brand or has a staff row gives NotFound, and its profile is already deleted. Otherwise exactly that user row is removed, and the locations it managed lose their manager |
| `UserService.RemovePreservesValid` | src/user/user.service.ts:218-234 | remove keeps the database invariant: only users no required relation refers to are deleted, and their managed locations are cleared |
| `Schema.ClearManager` | src/user/user.service.ts:229-231 | after a user is deleted, no location names it as manager; those that did have no manager; every other location, and every name and brand, is unchanged |
| `UserService.Remove` | src/user/user.service.ts:218-234 | the method's result and new tables are those of `RemoveStep` |
| `UserService.AssignToBrandStep` | src/user/user.service.ts:236-267 | it succeeds exactly for a super admin, an existing owner user and an existing brand; a success sets only that brand's owner id; a failure changes nothing |
| `UserService.AssignToBrandOrder` | src/user/user.service.ts:236-261 | the checks run in order: role (Forbidden), user exists (NotFound), user is an owner (Forbidden), brand exists (NotFound) |
| `UserService.AssignToBrandPreservesValid` | src/user/user.service.ts:236-267 | assigning a brand keeps the database invariant |
| `UserService.AssignToBrand` | src/user/user.service.ts:236-267 | the method's result and new tables are those of `AssignToBrandStep` |
| `UserService.MayAssignAt` | src/user/user.service.ts:289-301 | a super admin may always assign; managers and staff may never assign; an owner may assign exactly at locations whose brand it owns |
| `UserService.AssignToLocationStep` | src/user/user.service.ts:269-335 | a missing user or location is NotFound before any authorisation. Then only a super admin, or the owner of the location's brand, may assign, and anyone else is Forbidden. Once those checks pass, the assignment succeeds exactly when the user's role fits (manager for a manager assignment, staff otherwise), and a mismatch is Forbidden. A manager assignment sets only that location's manager id. A staff assignment of an existing pair reports AlreadyAssigned and adds nothing; otherwise exactly one new pair is added |
| `UserService.StaffAssignmentIdempotent` | src/user/user.service.ts:317-333 | after a successful staff assignment, the same assignment reports AlreadyAssigned and leaves the store as it is |
| `UserService.OwnerOutsideOwnBrandsForbidden` | src/user/user.service.ts:290-298 | an owner is Forbidden to assign anyone at a location whose brand it does not own |
| `UserService.AssignToLocationPreservesValid` | src/user/user.service.ts:269-335 | assigning to a location keeps the database invariant |
| `UserService.AssignToLocation` | src/user/user.service.ts:269-335 | the method's result and new tables are those of `AssignToLocationStep` |
| `BrandService.NewBrandOwner` | src/brand/brand.service.ts:10-29 | Forbidden exactly for roles other than owner and super admin. A super admin with a non-zero (truthy) owner id gets that owner. In every other permitted case the caller owns the new brand: an owner always, and a super admin whose owner id is 0 |
| `BrandService.CreateStep` | src/brand/brand.service.ts:10-30 | it succeeds exactly when the caller may create and the chosen owner has a user row. Role refusal is Forbidden; an owner id with no user row is an uncaught constraint error. A success inserts exactly one brand, under the new id, with the requested name and the chosen owner |
| `BrandService.OwnerCannotCreateForOthers` | src/brand/brand.service.ts:15-29 | an existing owner who asks for another owner id still gets a brand owned by itself |
| `BrandService.CreatePreservesValid` | src/brand/brand.service.ts:10-30 | create keeps the database invariant |
| `BrandService.Create` | src/brand/brand.service.ts:10-30 | the method's result and new tables are those of `CreateStep` at the next brand id. The counter advances when the insert is attempted, whether it succeeds or fails on the owner's foreign key, and not on a role refusal |
| `BrandService.FindAll` | src/brand/brand.service.ts:32-78 | only existing brands are listed; a super admin lists all of them; an owner lists exactly the brands whose owner id is the caller |
| `BrandService.FindAllAlongChain` | src/brand/brand.service.ts:42-74 | staff list exactly the brands of the locations they work at; managers list exactly the brands of the locations they manage |
| `BrandService.SuperAdminSeesEverything` | src/brand/brand.service.ts:34-35 | whatever any caller lists, a super admin lists too |
| `BrandService.FindOne` | src/brand/brand.service.ts:80-100 | NotFound exactly for a missing brand, the stored row otherwise |
| `BrandService.ApplyBrandPatch` | src/brand/brand.service.ts:107-110 | the fields that are set overwrite the row; missing fields keep their columns |
| `BrandService.PatchAccepted` | src/brand/brand.service.ts:107-110 | the database accepts a brand patch only when neither required column is null and a new owner exists |
| `BrandService.UpdateStep` | src/brand/brand.service.ts:102-114 | every role other than owner is Forbidden, the super admin included. For an owner, success needs only an existing brand and a patch the database accepts: no null column, and any new owner exists. Any other failure is NotFound. A success changes only that brand |
| `BrandService.UpdateChecksRoleOnly` | src/brand/brand.service.ts:102-114 | an owner may edit, and even take over, a brand owned by someone else; the super admin is Forbidden |
| `BrandService.UpdatePreservesValid` | src/brand/brand.service.ts:102-114 | brand update keeps the database invariant |
| `BrandService.Update` | src/brand/brand.service.ts:102-114 | the method's result and new tables are those of `UpdateStep` |
| `BrandService.RemoveStep` | src/brand/brand.service.ts:116-127 | Forbidden unless the role is owner, and ownership is not checked; a missing brand, or one that has locations, is NotFound; a success removes only that brand |
| `BrandService.RemovePreservesValid` | src/brand/brand.service.ts:116-127 | brand removal keeps the database invariant |
| `BrandService.Remove` | src/brand/brand.service.ts:116-127 | the method's result and new tables are those of `RemoveStep` |
| `LocationService.FindAll` | src/location/location.service.ts:16-79 | an id with no row other than −1 is NotFound; stored staff and managers are Forbidden; a stored owner gets exactly the locations of brands it owns; a stored super admin and −1 get every location |
| `LocationService.OwnerLocations` | src/location/location.service.ts:31-36 | exactly the locations of the brands the owner owns |
| `LocationService.OwnerListingsAgree` | src/location/location.service.ts:30-55 | an owner's location listing is exactly the locations of the brands in its brand listing |
| `LocationService.FindOne` | src/location/location.service.ts:81-112 | NotFound exactly for a missing location, the stored row otherwise |
| `LocationService.FindByBrand` | src/location/location.service.ts:135-150 | exactly the locations whose brand id is the given one; an unknown brand gives none |
| `LocationService.OwnerListingIsUnionOfBrands` | src/location/location.service.ts:30-55 | an owner's location listing is the union of the per-brand listings over the brands it owns |
| `LocationService.FindLocationUsers` | src/location/location.service.ts:152-180 | NotFound exactly for a missing location; otherwise exactly the users with a LocationStaff row for it |
| `LocationService.StaffIdsCount` | src/location/location.service.ts:176 | staff rows of one location have pairwise different staff ids, so they give as many users as rows |
| `LocationService.FindLocationUsersOnePerRow` | src/location/location.service.ts:152-180 | one staff user per LocationStaff row of the location; under the foreign keys every one exists |
| `LocationService.ApplyLocationPatch` | src/location/location.service.ts:116-119 | present fields overwrite the row, with null stored as a missing name or manager; missing fields keep their columns |
| `LocationService.PatchAccepted` | src/location/location.service.ts:116-119 | the database accepts a location patch only when the brand is not null and the brand and manager it names exist |
| `LocationService.UpdateStep` | src/location/location.service.ts:114-123 | it succeeds exactly when the location exists and the database accepts the patch: no null brand, and the brand and manager named exist. Every failure is NotFound and changes nothing. A success changes only that location. A null manager unassigns it |
| `LocationService.UpdatePreservesValid` | src/location/location.service.ts:114-123 | location update keeps the database invariant |
| `LocationService.Update` | src/location/location.service.ts:114-123 | the method's result and new tables are those of `UpdateStep` |
| `LocationService.RemoveStep` | src/location/location.service.ts:125-133 | it succeeds exactly for an existing location without staff rows; every failure is NotFound and changes nothing; a success removes only that location |
| `LocationService.RemovePreservesValid` | src/location/location.service.ts:125-133 | location removal keeps the database invariant |
| `LocationService.Remove` | src/location/location.service.ts:125-133 | the method's result and new tables are those of `RemoveStep` |
| `AuthService.Authenticate` | src/auth/auth.service.ts:44-58 | the configured credentials give claims for id −1 as super admin. An unknown email is Forbidden. Every other failure is also Forbidden. A stored user signs in only with its own email and a matching password, and gets its own id, email and role |
| `AuthService.SignInFindsTheUser` | src/auth/auth.service.ts:50-60 | with unique emails, a user who gives its email and a matching password gets claims for exactly its id and role |
| `AuthService.SignInStep` | src/auth/auth.service.ts:44-64 | the result is `Authenticate`'s. Administrator and failed sign-ins do not touch the store. A successful stored sign-in writes the refresh hash into that user's row only |
| `AuthService.SignInPreservesValid` | src/auth/auth.service.ts:188-198 | writing the refresh hash keeps the database invariant |
| `AuthService.SignIn` | src/auth/auth.service.ts:44-64 | the method's result and new tables are those of `SignInStep` |
| `AuthService.AllowedInviteeRoles` | src/auth/auth.service.ts:84-89 | only super admins and owners have roles to hand out; a super admin hands out exactly [owner]; an owner exactly [manager, staff], in that order; nobody hands out super admin |
| `AuthService.InviteeRole` | src/auth/auth.service.ts:66-97 | only an existing super admin or owner may invite, and any other inviter is Forbidden; the invitee gets the first role of the inviter's allowed list |
| `AuthService.InviteeRoleChoice` | src/auth/auth.service.ts:83-97 | a super admin invites an owner; an owner invites a manager even though staff is also allowed; no invitee is ever staff or super admin |
| `AuthService.AdminCannotInvite` | src/auth/auth.service.ts:66-71 | the token-only administrator (id −1) has no row and so is Forbidden to invite |
| `AuthService.InviteStep` | src/auth/auth.service.ts:66-113 | it succeeds exactly when the gate passes and the email is free. A gate failure is Forbidden and creates nothing. A taken email is an uncaught constraint error. A success adds exactly one row: the chosen role, the temporary hash and the profile "Invited User". It returns that email, role and temporary password |
| `AuthService.InvitePreservesValid` | src/auth/auth.service.ts:66-113 | inviting keeps the database invariant, unique emails included |
| `AuthService.InviteUser` | src/auth/auth.service.ts:66-113 | the method's result and new tables are those of `InviteStep` at the next user id. The counter advances when the insert is attempted, whether it succeeds or fails on a taken email, and not on a gate refusal |
| `AuthService.GetMe` | src/auth/auth.service.ts:115-160 | id −1 gets the synthetic super admin "Super Admin"; a missing row is Forbidden; otherwise it returns the row's id, email, role and profile names, and a row without a profile fails uncaught |
| `AuthService.LogoutStep` | src/auth/auth.service.ts:162-174 | only the given user's refresh hash is cleared; every other row and table is unchanged; a missing user changes nothing |
| `AuthService.LogoutIdempotent` | src/auth/auth.service.ts:162-174 | logging out twice is the same as logging out once |
| `AuthService.LogoutPreservesValid` | src/auth/auth.service.ts:162-174 | logout keeps the database invariant |
| `AuthService.Logout` | src/auth/auth.service.ts:162-174 | the method's new tables are those of `LogoutStep` |
| `AuthService.RefreshTokens` | src/auth/auth.service.ts:176-186 | it succeeds exactly when the user exists and holds a non-empty refresh hash, and is Forbidden otherwise |
| `AuthService.NoRefreshAfterLogout` | src/auth/auth.service.ts:162-186 | after logout the refresh gate is Forbidden |
| `AuthService.CreateUserStep` | src/auth/auth.service.ts:200-232 | Forbidden, with the store unchanged, exactly when the caller is not a super admin (the controller's gate) or the email is taken. Otherwise exactly one row is added with the given email, role, names and password hash |
| `AuthService.CreatedUserCanSignIn` | src/auth/auth.service.ts:44-63 | a user created with a fresh email signs in with that email and its password, and gets its new id and role, unless the email and password are both the configured administrator's |
| `AuthService.CreateUserPreservesValid` | src/auth/auth.service.ts:200-232 | createUser keeps the database invariant, unique emails included |
| `AuthService.CreateUser` | src/auth/auth.service.ts:200-232 | the method's result and new tables are those of `CreateUserStep` at the next user id |

## Left out

- Controllers, Swagger decorators and DTO validation. The one inline controller
  gate, the super-admin-only createUser (src/auth/auth.controller.ts:77-79), is
  part of `AuthService.CreateUserStep`.
- The menu service. It is ORM create/read/update/delete with NotFound mapping and
  holds no access decision.
- Location `create`. It passes the request straight to the ORM with no check.
- bcrypt hashing and comparison, JWT signing and expiry, and the `Math.random`
  temporary password. Each arrives as a parameter.
- Timestamps (`createdAt`, `updatedAt`).
- The access-token and refresh-token strategies and the "Bearer " header split.
- Floating-point and address fields of locations (coordinates, accuracy, address,
  city and the rest). A location keeps its name, brand id and manager id.
- Relations the services include in their answers (profile, brand, locations,
  LocationStaff rows). The listings return ids, and the lookups return the stored
  row.
- The `orderBy role asc` ordering of the user listings.
- UserService.FindAll: the role filter is a `Role`. The query string itself is free
  text, and an unrecognised role makes the ORM throw an uncaught validation error.
  That error is not modelled.
- Concurrency and stale reads. Each call is atomic over one snapshot.
- BrandService.FindAll: the `default` branch that refuses an unrecognised role is
  not modelled. Roles are a closed enumeration, and every token carries one of the
  four roles: the stored role, or SUPER_ADMIN for the configured administrator.
  The never-true `if (!staff)` check in
  the staff branch is left out for the same kind of reason.
- AuthService.RefreshTokens: the refresh token argument is never compared with the
  stored hash, and the call returns nothing. So the model only states the gate.
- Menus, templates and other tables that refer to brands and locations are not
  part of this model. Their restraints on deleting a brand or a location are not
  modelled.
