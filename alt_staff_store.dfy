/**
 * The alternative library's role predicates: membership of the member's
 * role name in a literal list of names, with the empty name standing for
 * "no member". Each agrees with the inheritance-based predicate of the same
 * name.
 */
module AltStaffStore {
  import opened Types
  import StaffStore

  /** The member's role name, or the empty name without a member. */
  function RoleName(member: Option<StaffMember>): (name: string)
    ensures member.None? <==> name == ""
  {
    if member.Some? then StaffRoleName(member.value.role) else ""
  }

  function IsOwner(member: Option<StaffMember>): (b: bool)
    ensures b <==> StaffStore.IsOwner(member)
  {
    RoleNamesDistinct();
    member.Some? && StaffRoleName(member.value.role) == "owner"
  }

  function IsPlatformAdmin(member: Option<StaffMember>): (b: bool)
    ensures b <==> StaffStore.IsPlatformAdmin(member)
  {
    RoleNamesDistinct();
    RoleName(member) in ["owner", "platform_admin"]
  }

  /** Lists the organization manager too, a name no staff role carries. */
  function IsOrgManager(member: Option<StaffMember>): (b: bool)
    ensures b <==> IsPlatformAdmin(member)
  {
    RoleNamesDistinct();
    assert StaffRoleName(Owner) != OrgRoleName(OrgManager);
    RoleName(member) in ["owner", "platform_admin", "org_manager"]
  }

  function IsTournamentStaff(member: Option<StaffMember>): (b: bool)
    ensures b <==> StaffStore.IsTournamentStaff(member)
  {
    RoleNamesDistinct();
    RoleName(member) in ["owner", "platform_admin", "tournament_director", "tournament_coordinator"]
  }

  function IsLeagueStaff(member: Option<StaffMember>): (b: bool)
    ensures b <==> StaffStore.IsLeagueStaff(member)
  {
    RoleNamesDistinct();
    RoleName(member) in ["owner", "platform_admin", "league_director", "league_coordinator"]
  }

  function IsCustomerService(member: Option<StaffMember>): (b: bool)
    ensures b <==> StaffStore.IsCustomerService(member)
  {
    RoleNamesDistinct();
    RoleName(member) in ["owner", "platform_admin", "customer_service"]
  }

  /** Without a member every list predicate is false: the empty name is in no list. */
  lemma NoMemberNoRole()
    ensures !IsPlatformAdmin(None) && !IsOrgManager(None) && !IsTournamentStaff(None)
    ensures !IsLeagueStaff(None) && !IsCustomerService(None) && !IsOwner(None)
  {
    assert RoleName(None) == "";
  }
}
