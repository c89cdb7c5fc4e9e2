# ROL event management: role-based access control

This project models the role-based access control core of the ROL event
management platform in Dafny and proves properties of it. There are seven
ROL staff roles (owner, platform admin, customer service, and the tournament
and league directors and coordinators) and three esports-organization roles.

The model covers these parts:

- **Permission tables** (`Config`, `AltConfig`). The base permission set
  grants read on five resources and switches off two features. The role
  hierarchy lists the roles each role inherits. Each role's permission set
  is the base set with some entries widened. The alternative library ships
  the same tables again; `AltConfig.TablesAgree` proves the two copies equal.
- **The evaluator** (`Evaluator`). It answers resource and feature lookups
  and decides role inheritance recursively. It also builds a role's
  effective permissions by merging in every inherited role's set. That merge
  is an imperative loop, proved equal to a fold (`MergeAll`), and the fold is
  characterised key by key and action by action.
- **The alternative evaluator** (`AltEvaluator`). It covers role management
  (which roles a role may manage), lookups in a role's own set, and the list
  of resources a role can reach.
- **The server guard** (`StaffRows`, `RouteGuard`). The guard first resolves
  the request's session, user and staff row. It then redirects to `/auth`,
  `/private` or `/unauthorized`, or lets the request through. This depends
  on the path prefix, the role list attached to that prefix (checked through
  inheritance) and, for organization pages, the member's organization.
- **The client stores.** `StaffStore` holds the staff-member cell, updated
  when the user changes, and the role predicates built on inheritance.
  `AltStaffStore` holds the same predicates written as literal name lists.
  `PermissionStore` holds the permission cell and the five derived flags.

Inputs that come from outside are parameters of the model:

- whether a session exists;
- the outcome of validating the token;
- the rows returned by the `staff_members` query;
- whether the client query failed.

Notes on the code's behaviour:

- A signed-out request for `/admin/...` is sent to `/unauthorized`. Only
  `/private` requires a session.
- The base permission set grants `read` on every resource.
- `inheritsRole` has no cycle guard. It terminates because the shipped
  hierarchy only ever goes down in rank (`Config.HierarchyDescends`).

## Model

| member | source | states |
|---|---|---|
| Types.RoleNamesDistinct | src/lib/types/enums.ts:1-15 | the seven staff role names are pairwise different, and no staff role has an organization role's name |
| Config.HierarchyDescends | src/lib/permissions/config.ts:55-76 | every role has a hierarchy entry, and every role it lists ranks strictly lower |
| Config.HierarchyShape | src/lib/permissions/config.ts:55-76 | no role lists itself; no role lists the owner; the listed relation is transitively closed |
| Config.HierarchyEdge | src/lib/permissions/config.ts:55-76 | the only roles that list other roles are the owner, the platform admin, and each director listing its own coordinator |
| Config.BaseResourceCases | src/lib/permissions/config.ts:5-52 | the base resources are exactly rol_staff, tournaments, leagues, teams and esports_orgs |
| Config.BaseFeatureCases | src/lib/permissions/config.ts:5-52 | the base features are exactly viewAnalytics and manageSettings |
| Config.BaseIsReadOnly | src/lib/permissions/config.ts:5-52 | the base set grants only read on each resource and switches every feature off |
| Config.StaffKeys | src/lib/permissions/config.ts:79-160 | every staff role has an entry, with exactly the base resource keys and the base feature keys |
| Config.OrgKeys | src/lib/permissions/config.ts:163-193 | every organization role has an entry, with exactly the base keys |
| Config.RolStaffColumn | src/lib/permissions/config.ts:83-98 | the rol_staff grant of each role: CRUD for the owner, create/read/update for the platform admin, read for the rest |
| Config.TournamentsColumn | src/lib/permissions/config.ts:84-145 | the tournaments grant of each role, the coordinator getting read and update |
| Config.LeaguesColumn | src/lib/permissions/config.ts:85-154 | the leagues grant of each role, the coordinator getting read and update |
| Config.TeamsColumn | src/lib/permissions/config.ts:86-133 | the teams grant of each role |
| Config.EsportsOrgsColumn | src/lib/permissions/config.ts:87-136 | the esports_orgs grant of each role |
| Config.ViewAnalyticsColumn | src/lib/permissions/config.ts:91-157 | viewAnalytics is on for the owner, the platform admin and both directors, and keeps the base name and description |
| Config.ManageSettingsColumn | src/lib/permissions/config.ts:92-107 | manageSettings is on for the owner and the platform admin only |
| Config.StaffActionsFacts | src/lib/permissions/config.ts:79-160 | every staff grant includes read and lists no action twice |
| Config.StaffEntry | src/lib/permissions/config.ts:79-160 | each staff entry is the base entry with only its action list replaced, by the column grant; it includes read and has no repeats |
| Config.StaffFeature | src/lib/permissions/config.ts:89-158 | each staff feature is the base feature with only `allowed` changed |
| Config.OrgEntry | src/lib/permissions/config.ts:163-193 | each organization entry is the base entry with its actions replaced: teams is CRUD, create/read/update or read by role, every other resource read |
| Config.OrgFeature | src/lib/permissions/config.ts:163-193 | viewAnalytics is on for the organization owner and manager; everything else is off |
| Config.DominatesIntro | src/lib/permissions/config.ts:79-193 | entry-wise widening of actions and features, over the same keys and descriptions, makes one set dominate another |
| Config.StaffSetsSpreadBase | src/lib/permissions/config.ts:79-160 | every staff set is built by spreading the base: it dominates the base set |
| Config.OrgSetsSpreadBase | src/lib/permissions/config.ts:163-193 | every organization set dominates the base set |
| Config.EveryRoleReads | src/lib/permissions/config.ts:83-187 | every staff role and every organization role can read every base resource |
| Config.RolStaffGrants | src/lib/permissions/config.ts:83-158 | the owner has CRUD on rol_staff; the platform admin cannot delete staff; the league coordinator can only read |
| Config.MonotoneAt | src/lib/permissions/config.ts:55-160 | a role grants on each resource every action that any role it inherits grants |
| Config.MonotoneFeatureAt | src/lib/permissions/config.ts:55-160 | a feature allowed for an inherited role is allowed for the inheriting role |
| Config.HierarchyMonotone | src/lib/permissions/config.ts:55-160 | each role's set dominates the set of every role it inherits |
| Config.OrgTeamsShrink | src/lib/permissions/config.ts:163-193 | teams grants go down from organization owner to manager to staff, and each set dominates the next |
| Config.OrgShrinks | src/lib/permissions/config.ts:163-193 | the same domination for each adjacent pair of organization roles |
| AltConfig.TablesAgree | AltLib/lib/permissions/config.ts:4-192 | the alternative library's base set, hierarchy, staff table and organization table equal the main ones |
| AltConfig.KeyOrderIsKeys | AltLib/lib/permissions/config.ts:4-51 | the declared resource key order lists exactly each role's resource keys |
| AltConfig.KeyOrderDistinct | AltLib/lib/permissions/config.ts:4-51 | the declared key order has no repeats |
| AltConfig.HierarchyEntries | AltLib/lib/permissions/config.ts:54-75 | the owner lists six roles and the platform admin five; each director lists its coordinator; the others list none |
| AltConfig.CoordinatorAndSupportEntries | AltLib/lib/permissions/config.ts:129-149 | the tournament coordinator gets read and update on tournaments and read elsewhere; customer service keeps the base features, all off |
| AltConfig.ManageSettingsOnlyTop | AltLib/lib/permissions/config.ts:91-106 | manageSettings is allowed exactly for the owner and the platform admin |
| Evaluator.HasResourcePermission | src/lib/permissions/utils.ts:7-19 | true exactly when the resource is a base resource and the role's column grant lists the action; read on a base resource always holds |
| Evaluator.HasFeaturePermission | src/lib/permissions/utils.ts:24-35 | viewAnalytics holds exactly for the owner, the platform admin and both directors; manageSettings for the owner and the platform admin; an unknown feature never holds |
| Evaluator.InheritsRole | src/lib/permissions/utils.ts:40-49 | a role inherits itself, never inherits a different role of equal or higher rank, and the recursion terminates by rank |
| Evaluator.InheritsRoleIsReachability | src/lib/permissions/utils.ts:40-49 | inheritance holds exactly when a hierarchy path leads from the role to the target |
| Evaluator.CoveringPath | src/lib/permissions/utils.ts:44-48 | when inheritance holds, a path from the role to the target exists |
| Evaluator.PathCovers | src/lib/permissions/utils.ts:44-48 | every hierarchy path gives inheritance from its first role to its last |
| Evaluator.InheritsRoleIsListed | src/lib/permissions/utils.ts:40-49 | on the shipped hierarchy, inheritance is equality or direct listing |
| Evaluator.InheritsRoleTransitive | src/lib/permissions/utils.ts:40-49 | inheritance is transitive |
| Evaluator.OwnerCoversLeagueCoordinator | src/lib/permissions/utils.ts:44-48 | the owner inherits the league coordinator and not the other way round |
| Evaluator.Dedup | src/lib/permissions/utils.ts:71-76 | `[...new Set(s)]` keeps exactly the actions of `s`, without repeats, and leaves a repeat-free list unchanged |
| Evaluator.DedupAbsorbs | src/lib/permissions/utils.ts:71-77 | merging in actions that are already present leaves a repeat-free list as it was |
| Evaluator.UnionActions | src/lib/permissions/utils.ts:71-76 | the merged action list holds exactly the actions of either list, without repeats |
| Evaluator.MergeResources | src/lib/permissions/utils.ts:67-79 | the merged resource map has the keys of both maps |
| Evaluator.MergeFeatures | src/lib/permissions/utils.ts:82-86 | the merged feature map has the keys of both maps |
| Evaluator.SetsOf | src/lib/permissions/utils.ts:63-64 | the table entries of a role list, in list order |
| Evaluator.InheritedSets | src/lib/permissions/utils.ts:56-64 | the sets of the listed roles, one per hierarchy entry, in order |
| Evaluator.EveryRoleHasASet | src/lib/permissions/config.ts:79-160 | every staff role has an entry in the table |
| Evaluator.MergeResourcesStep | src/lib/permissions/utils.ts:67-79 | handling one more inherited resource key extends the merge by that key |
| Evaluator.MergeFeaturesStep | src/lib/permissions/utils.ts:82-86 | handling one more inherited feature key extends the merge by that key |
| Evaluator.MergeResourcesInto | src/lib/permissions/utils.ts:67-79 | the in-place loop over the inherited resource entries computes the resource merge |
| Evaluator.MergeFeaturesInto | src/lib/permissions/utils.ts:82-86 | the in-place loop over the inherited feature entries computes the feature merge |
| Evaluator.MergeInherited | src/lib/permissions/utils.ts:63-87 | the loop over the inherited roles folds every inherited set into a copy of the direct set, in list order |
| Evaluator.GetAllPermissions | src/lib/permissions/utils.ts:54-90 | the role's permissions are its own set with each inherited set merged in |
| Evaluator.MergeAllResources | src/lib/permissions/utils.ts:63-79 | after merging, a resource is present exactly when it is in the start set or in some merged set, and lists an action exactly when the start entry or some merged entry does |
| Evaluator.MergeAllDistinct | src/lib/permissions/utils.ts:71-77 | merging keeps every action list free of repeats |
| Evaluator.MergeAllFeatures | src/lib/permissions/utils.ts:82-86 | after merging, a feature is present exactly when it is in the start set or some merged set, and allowed exactly when the start set or some merged set allows it |
| Evaluator.MergeDominated | src/lib/permissions/utils.ts:63-87 | merging in a set that the accumulator dominates changes nothing |
| Evaluator.MergeAllDominated | src/lib/permissions/utils.ts:63-87 | merging in any number of dominated sets changes nothing |
| Evaluator.MergeAddsNothing | src/lib/permissions/utils.ts:54-90 | on the shipped tables, a role's merged permissions equal its own set |
| Evaluator.MergedGrantsAreOwn | src/lib/permissions/utils.ts:54-90 | lookups in the merged set agree with the role's own resource and feature lookups |
| Evaluator.HasAnyResourcePermission | src/lib/permissions/utils.ts:95-101 | true exactly when some listed action is granted |
| Evaluator.HasAllResourcePermissions | src/lib/permissions/utils.ts:106-112 | true exactly when every listed action is granted |
| Evaluator.DeleteGrants | src/lib/permissions/config.ts:79-160 | delete is granted exactly to the owner on all five resources and to the platform admin on tournaments and leagues |
| Evaluator.CreateGrants | src/lib/permissions/config.ts:79-160 | create on tournaments is exactly the owner, the platform admin and the tournament director; leagues likewise with the league director; rol_staff only the owner and the platform admin |
| AltEvaluator.CanManageRole | AltLib/lib/permissions/utils.ts:8-10 | a role manages exactly the other roles it inherits, and never the owner |
| AltEvaluator.GetManageableRoles | AltLib/lib/permissions/utils.ts:42-44 | the user's hierarchy list itself, in its order: exactly the roles the user can manage, each once, all of lower rank |
| AltEvaluator.OwnerManagesEveryone | AltLib/lib/permissions/utils.ts:8-10 | the owner manages every other role; customer service and the coordinators manage none |
| AltEvaluator.HasResourcePermission | AltLib/lib/permissions/utils.ts:15-22 | agrees with the main evaluator's resource lookup |
| AltEvaluator.HasFeaturePermission | AltLib/lib/permissions/utils.ts:27-30 | agrees with the main evaluator's feature lookup |
| AltEvaluator.GetRolePermissions | AltLib/lib/permissions/utils.ts:35-37 | the role's table entry: the base keys, each resource granting the role's column of actions, and dominating the base set |
| AltEvaluator.HasAnyResourcePermission | AltLib/lib/permissions/utils.ts:49-52 | true exactly for the base resources, and exactly when some action is granted on the resource |
| AltEvaluator.NonEmptyKeys | AltLib/lib/permissions/utils.ts:59-61 | keeps exactly the keys whose entry lists some action, and never more keys than given |
| AltEvaluator.GetAccessibleResources | AltLib/lib/permissions/utils.ts:57-62 | lists exactly the resources the role has some permission on |
| AltEvaluator.NonEmptyKeysKeepsAll | AltLib/lib/permissions/utils.ts:59-61 | a filter that rejects no key returns the key list unchanged |
| AltEvaluator.EveryResourceAccessible | AltLib/lib/permissions/utils.ts:57-62 | every role reaches all five resources, in declaration order, each listed once |
| StaffRows.MatchingRowsOne | src/hooks.server.ts:41-45 | when exactly one row of the user is selected, it is the only row of that user |
| StaffRows.MatchingRows | src/hooks.server.ts:41-45 | exactly the rows with the given user id: none when no row matches, the one row when exactly one does |
| StaffRows.SingleRow | src/hooks.server.ts:41-45 | `.single()` returns a row exactly when one row of that user exists, and then that row; several or no matching rows give nothing |
| RouteGuard.SafeGetSession | src/hooks.server.ts:22-53 | no session or a failed token check clears session, user and staff row; a validated user gets the single-row lookup of their id, which is a row of their own |
| RouteGuard.FindRoute | src/hooks.server.ts:80-100 | nothing is found exactly when no pattern matches; a found pattern is in the list and matches |
| RouteGuard.RoutePrefixesExclusive | src/hooks.server.ts:80-100 | at most one protected prefix matches any path |
| RouteGuard.TakeUntilSlash | src/hooks.server.ts:116-118 | the longest prefix without a slash |
| RouteGuard.OrgSegment | src/hooks.server.ts:116-118 | the captured organization id is non-empty, slash-free and follows `/organizations/`; nothing is captured exactly when the path lacks that prefix or the segment is empty |
| RouteGuard.TakeUntilSlashOf | src/hooks.server.ts:116-118 | a slash-free id followed by nothing or a slash part is taken whole |
| RouteGuard.OrgSegmentOf | src/hooks.server.ts:116-118 | `/organizations/<id>` followed by nothing or a slash part captures `<id>` |
| RouteGuard.AnyRoleCovered | src/hooks.server.ts:104-107 | some required role is inherited by the member's role |
| RouteGuard.HasRouteAccess | src/hooks.server.ts:102-108 | access needs a staff row whose role inherits some required role |
| RouteGuard.HasOrgAccess | src/hooks.server.ts:119-124 | the owner and the platform admin reach every organization; other staff only their own; no staff row reaches none |
| RouteGuard.AuthGuard | src/hooks.server.ts:62-132 | every redirect is a 303 to /auth, /private or /unauthorized; /auth exactly for a signed-out /private request; /private exactly for a signed-in /auth request |
| RouteGuard.PrefixesDisjoint | src/hooks.server.ts:68-116 | /private, /auth, organization paths and the protected prefixes never overlap |
| RouteGuard.RouteRolesClosed | src/hooks.server.ts:80-108 | each pattern's role list is closed under inheritance: a role covers a listed role exactly when it is itself listed |
| RouteGuard.ProtectedRouteAccess | src/hooks.server.ts:99-113 | on a protected path the request passes exactly when the member's role is in the pattern's list, and is otherwise sent to /unauthorized |
| RouteGuard.SignedOutAdminIsUnauthorized | src/hooks.server.ts:22-112 | a signed-out /admin/ request, or one with a failed token check, goes to /unauthorized |
| RouteGuard.DefaultResolve | src/hooks.server.ts:62-131 | a request that no redirect rule catches (no sign-in redirect, no protected prefix, no organization segment) is let through |
| RouteGuard.EmptyOrgSegmentUnchecked | src/hooks.server.ts:116-131 | `/organizations//x` has an empty segment, captures nothing and passes without an organization check |
| RouteGuard.BareAdminPasses | src/hooks.server.ts:80-100 | `/admin` without a trailing slash matches no pattern and passes |
| RouteGuard.OrgRouteAccess | src/hooks.server.ts:115-129 | an organization page passes exactly when the member has access to that organization, and is otherwise sent to /unauthorized |
| RouteGuard.OtherOrganizationDenied | src/hooks.server.ts:115-129 | a director of one organization is refused another organization's pages |
| RouteGuard.OwnOrganizationAdmitted | src/hooks.server.ts:115-129 | a director is admitted to their own organization's pages |
| RouteGuard.TournamentPageByRole | src/hooks.server.ts:85-112 | customer service is refused a tournament page; the platform admin, the tournament director and the tournament coordinator are admitted |
| StaffStore.StaffMemberStore.constructor | src/lib/stores/staff.ts:17 | the cell starts empty |
| StaffStore.StaffMemberStore.OnUserChange | src/lib/stores/staff.ts:20-36 | the cell holds a row exactly when a user is signed in, the query did not fail and it returned a single row; that row belongs to the user |
| StaffStore.HasRole | src/lib/stores/staff.ts:39-41 | true exactly when there is a member with that role |
| StaffStore.IsOwner | src/lib/stores/staff.ts:43-45 | the member's role is owner |
| StaffStore.IsPlatformAdmin | src/lib/stores/staff.ts:47-49 | exactly the owner and the platform admin |
| StaffStore.IsTournamentStaff | src/lib/stores/staff.ts:51-56 | exactly the owner, the platform admin and the tournament director and coordinator |
| StaffStore.IsLeagueStaff | src/lib/stores/staff.ts:58-63 | exactly the owner, the platform admin and the league director and coordinator |
| StaffStore.IsCustomerService | src/lib/stores/staff.ts:65-67 | exactly the owner, the platform admin and customer service |
| StaffStore.PredicatesNested | src/lib/stores/staff.ts:43-67 | the owner passes the platform admin check, and a platform admin passes the tournament, league and customer service checks; an empty cell passes none |
| StaffStore.PredicatesMatchGuard | src/lib/stores/staff.ts:47-63 | the client predicates admit exactly the members the server guard admits to tournament, league and admin pages |
| AltStaffStore.RoleName | AltLib/lib/stores/staff.ts:36-54 | the empty name stands for exactly "no member" |
| AltStaffStore.IsOwner | AltLib/lib/stores/staff.ts:32-34 | agrees with the inheritance-based owner check |
| AltStaffStore.IsPlatformAdmin | AltLib/lib/stores/staff.ts:36-38 | agrees with the inheritance-based platform admin check |
| AltStaffStore.IsOrgManager | AltLib/lib/stores/staff.ts:40-42 | the extra `org_manager` name is never a staff role, so the check is the platform admin check |
| AltStaffStore.IsTournamentStaff | AltLib/lib/stores/staff.ts:44-46 | agrees with the inheritance-based tournament staff check |
| AltStaffStore.IsLeagueStaff | AltLib/lib/stores/staff.ts:48-50 | agrees with the inheritance-based league staff check |
| AltStaffStore.IsCustomerService | AltLib/lib/stores/staff.ts:52-54 | agrees with the inheritance-based customer service check |
| AltStaffStore.NoMemberNoRole | AltLib/lib/stores/staff.ts:36-54 | without a member every name-list check is false |
| PermissionStore.PermissionStore.constructor | AltLib/lib/stores/permissions.ts:7 | the cell starts empty |
| PermissionStore.PermissionStore.SetRole | AltLib/lib/stores/permissions.ts:11-14 | the cell holds the role's own set, which is one of the table's sets |
| PermissionStore.PermissionStore.Reset | AltLib/lib/stores/permissions.ts:15 | the cell is emptied |
| PermissionStore.Lists | AltLib/lib/stores/permissions.ts:24-35 | true only for a held set with the key, and then exactly when its entry lists the action |
| PermissionStore.Allows | AltLib/lib/stores/permissions.ts:39-45 | true only for a held set with the feature, and then exactly when it is allowed |
| PermissionStore.CanManageStaff | AltLib/lib/stores/permissions.ts:22-25 | the flag as written, over key `staff`: it can hold only if the held set has that key |
| PermissionStore.CanManageRolStaff | AltLib/lib/stores/permissions.ts:22-25 | the flag over the key `rol_staff`: it can hold only if the held set has that key |
| PermissionStore.CanManageTournaments | AltLib/lib/stores/permissions.ts:27-30 | it can hold only if the held set has a tournaments entry |
| PermissionStore.CanManageLeagues | AltLib/lib/stores/permissions.ts:32-35 | it can hold only if the held set has a leagues entry |
| PermissionStore.CanViewAnalytics | AltLib/lib/stores/permissions.ts:37-40 | it can hold only if the held set has a viewAnalytics entry |
| PermissionStore.CanManageSettings | AltLib/lib/stores/permissions.ts:42-45 | it can hold only if the held set has a manageSettings entry |
| PermissionStore.EmptyCellNoFlags | AltLib/lib/stores/permissions.ts:7-45 | an empty cell, as at the start and after a reset, switches every flag off |
| PermissionStore.CanManageStaffNeverHolds | AltLib/lib/stores/permissions.ts:22-25 | as written, the staff flag is off whatever role is loaded |
| PermissionStore.ValidStoreFacts | AltLib/lib/stores/permissions.ts:7-25 | a store that keeps its invariant holds nothing or a set with exactly the base keys, and its staff flag is off |
| PermissionStore.FlagsForRole | AltLib/lib/stores/permissions.ts:22-45 | for a loaded role: staff management exactly for the owner and the platform admin; tournament and league creation exactly for them and the matching director; the two feature flags as the evaluator reports them |

## Left out

- Session cookies, the auth server's token check and the database are not modelled. Their outcomes are inputs: a session flag, a `UserLookup` result, the list of `staff_members` rows, and a query-failed flag. The Supabase client and the response-header filter are not modelled.
- The Svelte store machinery is not modelled: subscriptions, derived-store recomputation and the asynchronous query. Each cell is a class field, and each derived store is a function of the cell's value.
- The alternative library's staff subscription (AltLib/lib/stores/staff.ts:9-25) and its `hasRole` (lines 28-30) are the same as the main library's. They are modelled once, in `StaffStore`.
- Route regular expressions are replaced by prefix tests and a slash-free segment function. Each replacement matches the languages of `^\/admin\/.*`, `^\/tournaments\/.*`, `^\/leagues\/.*`, `^\/staff\/.*` and `^\/organizations\/([^/]+)`.
- Evaluator.HasResourcePermission: the main library takes the action as any string. The model admits only the four CRUD actions; any other string is in no table and would always give false.
- Evaluator.HasResourcePermission: a resource name that is an inherited `Object.prototype` property (`constructor`, `toString`, `__proto__`, ...) finds a truthy non-entry, and the source then throws a `TypeError` on `.actions.includes`. The model treats such a name as an absent key and returns false. The same holds for `Evaluator.HasAnyResourcePermission` and `Evaluator.HasAllResourcePermissions`, which call it.
- AltEvaluator.HasResourcePermission: for an inherited `Object.prototype` property name, `?.` does not short-circuit and `.actions.includes` throws a `TypeError`. The model returns false.
- AltEvaluator.HasAnyResourcePermission: for an inherited `Object.prototype` property name, `.actions.length` throws a `TypeError`. The model returns false.
- Evaluator.HasResourcePermission, Evaluator.HasFeaturePermission: the "role has no table entry" branches are modelled but unreachable, because the tables are total over the role type.
- Evaluator.InheritsRole: the model is defined over the shipped hierarchy only. Termination rests on the rank measure, because the source has no guard against a cyclic hierarchy.
- Evaluator.MergeResourcesInto, Evaluator.MergeFeaturesInto: `Object.entries` order is not modelled. Keys are taken in an arbitrary order; the result does not depend on it.
- AltEvaluator.GetAccessibleResources: `Object.keys` order is modelled as the declaration order of the base resource literal (`AltConfig.ResourceKeyOrder`).
- Permission names, descriptions and resource labels are carried as strings but play no part in any decision.
- `Types.StaffMember` keeps every column of the `staff_members` row. The optional `notes` field of the alternative library's `StaffMember` interface (AltLib/lib/types.ts:133) is not modelled.
- Because the tables are constants, calling `getAllPermissions` leaves them unchanged and repeated calls agree. This follows from its contract, which ties the result to a function of the role.
- StaffRows.SingleRow: the error that `.single()` reports for several matching rows is not modelled; the model gives no row, as the client library gives no data.

## Findings

| source | as written | input that shows it | evidently intended | confidence | as-written member | corrected member |
|---|---|---|---|---|---|---|
| AltLib/lib/stores/permissions.ts:22-25 | `canManageStaff` reads the resource key `staff`, which no permission table defines | `setRole('owner')`: the owner has create on `rol_staff`, yet the flag is false, for every role | read the key `rol_staff` | not executed | PermissionStore.CanManageStaffNeverHolds | PermissionStore.FlagsForRole |
