/**
 * The closed role universes, the CRUD actions and the shapes of a permission set,
 * as declared by the application's type files.
 */
module Types {

  datatype Option<T> = None | Some(value: T)

  /** Platform staff roles (the `StaffRole` enum). */
  datatype StaffRole =
    | Owner
    | PlatformAdmin
    | CustomerService
    | TournamentDirector
    | TournamentCoordinator
    | LeagueDirector
    | LeagueCoordinator

  /** Roles inside one esports organization (the `OrgRole` enum). */
  datatype OrgRole = OrgOwner | OrgManager | OrgStaff

  /** The four actions a resource permission may list. */
  datatype Action = Create | Read | Update | Delete

  /** The string value each staff role carries at run time. */
  function StaffRoleName(r: StaffRole): string
  {
    match r
    case Owner => "owner"
    case PlatformAdmin => "platform_admin"
    case CustomerService => "customer_service"
    case TournamentDirector => "tournament_director"
    case TournamentCoordinator => "tournament_coordinator"
    case LeagueDirector => "league_director"
    case LeagueCoordinator => "league_coordinator"
  }

  /** The string value each organization role carries at run time. */
  function OrgRoleName(r: OrgRole): string
  {
    match r
    case OrgOwner => "org_owner"
    case OrgManager => "org_manager"
    case OrgStaff => "org_staff"
  }

  /** Distinct roles have distinct names, and no staff role is named like an org role. */
  lemma RoleNamesDistinct()
    ensures forall a, b :: StaffRoleName(a) == StaffRoleName(b) ==> a == b
    ensures forall a, o :: StaffRoleName(a) != OrgRoleName(o)
  {
  }

  datatype ResourcePermission = ResourcePermission(
    name: string,
    description: string,
    resource: string,
    actions: seq<Action>)

  datatype FeaturePermission = FeaturePermission(
    name: string,
    description: string,
    feature: string,
    allowed: bool)

  /** Resource key to CRUD grant, feature key to flag. */
  datatype PermissionSet = PermissionSet(
    resources: map<string, ResourcePermission>,
    features: map<string, FeaturePermission>)

  /** A row of the `staff_members` table. */
  datatype StaffMember = StaffMember(
    id: string,
    userId: string,
    role: StaffRole,
    organizationId: Option<string>,
    createdAt: Option<string>,
    updatedAt: Option<string>)
}
