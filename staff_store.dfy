/**
 * The client-side staff store: the cell holding the signed-in user's staff
 * row, refreshed whenever the user changes, and the role predicates derived
 * from it through role inheritance.
 */
module StaffStore {
  import opened Types
  import opened Config
  import opened StaffRows
  import Evaluator
  import RouteGuard

  /** The `staffMember` cell; it starts empty. */
  class StaffMemberStore {
    var member: Option<StaffMember>

    constructor ()
      ensures member == None
    {
      member := None;
    }

    /**
     * The subscription callback for a user change. A signed-in user gets the
     * single row the lookup returns, provided the query did not fail; no
     * user, no row or a failed query empties the cell.
     */
    method OnUserChange(user: Option<string>, rows: seq<StaffMember>, failed: bool)
      modifies this
      ensures member.Some? <==> user.Some? && !failed && SingleRow(rows, user.value).Some?
      ensures member.Some? ==> member.value in rows && member.value.userId == user.value
      ensures member.Some? ==> member == SingleRow(rows, user.value)
    {
      if user.Some? {
        var data := SingleRow(rows, user.value);
        if data.Some? && !failed {
          member := data;
        } else {
          member := None;
        }
      } else {
        member := None;
      }
    }
  }

  /** Whether the member's own role is `role`; false without a member. */
  function HasRole(member: Option<StaffMember>, role: StaffRole): (b: bool)
    ensures b ==> member.Some?
    ensures member.Some? ==> (b <==> member.value.role == role)
  {
    member.Some? && member.value.role == role
  }

  function IsOwner(member: Option<StaffMember>): (b: bool)
    ensures b <==> HasRole(member, Owner)
  {
    member.Some? && member.value.role == Owner
  }

  /** Inherits the platform admin: exactly the owner and the platform admin. */
  function IsPlatformAdmin(member: Option<StaffMember>): (b: bool)
    ensures b <==> member.Some? && member.value.role in {Owner, PlatformAdmin}
  {
    if member.None? then false
    else
      var r := member.value.role;
      HierarchyDescends(r);
      Evaluator.InheritsRoleIsListed(r, PlatformAdmin);
      Evaluator.InheritsRole(r, PlatformAdmin)
  }

  /** Inherits a tournament director or coordinator. */
  function IsTournamentStaff(member: Option<StaffMember>): (b: bool)
    ensures b <==> member.Some? && member.value.role in {Owner, PlatformAdmin, TournamentDirector, TournamentCoordinator}
  {
    if member.None? then false
    else
      var r := member.value.role;
      HierarchyDescends(r);
      Evaluator.InheritsRoleIsListed(r, TournamentDirector);
      Evaluator.InheritsRoleIsListed(r, TournamentCoordinator);
      Evaluator.InheritsRole(r, TournamentDirector) || Evaluator.InheritsRole(r, TournamentCoordinator)
  }

  /** Inherits a league director or coordinator. */
  function IsLeagueStaff(member: Option<StaffMember>): (b: bool)
    ensures b <==> member.Some? && member.value.role in {Owner, PlatformAdmin, LeagueDirector, LeagueCoordinator}
  {
    if member.None? then false
    else
      var r := member.value.role;
      HierarchyDescends(r);
      Evaluator.InheritsRoleIsListed(r, LeagueDirector);
      Evaluator.InheritsRoleIsListed(r, LeagueCoordinator);
      Evaluator.InheritsRole(r, LeagueDirector) || Evaluator.InheritsRole(r, LeagueCoordinator)
  }

  /** Inherits customer service. */
  function IsCustomerService(member: Option<StaffMember>): (b: bool)
    ensures b <==> member.Some? && member.value.role in {Owner, PlatformAdmin, CustomerService}
  {
    if member.None? then false
    else
      var r := member.value.role;
      HierarchyDescends(r);
      Evaluator.InheritsRoleIsListed(r, CustomerService);
      Evaluator.InheritsRole(r, CustomerService)
  }

  /**
   * The predicates nest as the hierarchy does: the owner is a platform
   * admin, and a platform admin counts as tournament staff, league staff and
   * customer service. An empty cell satisfies none of them.
   */
  lemma PredicatesNested(member: Option<StaffMember>)
    ensures IsOwner(member) ==> IsPlatformAdmin(member)
    ensures IsPlatformAdmin(member) ==> IsTournamentStaff(member) && IsLeagueStaff(member) && IsCustomerService(member)
    ensures member.None? ==>
      !IsOwner(member) && !IsPlatformAdmin(member) && !IsTournamentStaff(member) && !IsLeagueStaff(member) && !IsCustomerService(member)
  {
  }

  /**
   * The client predicates match the server guard: tournament staff are
   * exactly the members the guard lets into `/tournaments/...`, league staff
   * into `/leagues/...`, and platform admins into `/admin/...`.
   */
  lemma PredicatesMatchGuard(path: string, locals: RouteGuard.Locals)
    ensures RouteGuard.StartsWith(path, "/tournaments/") ==>
      (RouteGuard.AuthGuard(path, locals) == RouteGuard.Resolve <==> IsTournamentStaff(locals.staffMember))
    ensures RouteGuard.StartsWith(path, "/leagues/") ==>
      (RouteGuard.AuthGuard(path, locals) == RouteGuard.Resolve <==> IsLeagueStaff(locals.staffMember))
    ensures RouteGuard.StartsWith(path, "/admin/") ==>
      (RouteGuard.AuthGuard(path, locals) == RouteGuard.Resolve <==> IsPlatformAdmin(locals.staffMember))
  {
    if RouteGuard.StartsWith(path, "/tournaments/") {
      RouteGuard.ProtectedRouteAccess(path, locals, 1);
    }
    if RouteGuard.StartsWith(path, "/leagues/") {
      RouteGuard.ProtectedRouteAccess(path, locals, 2);
    }
    if RouteGuard.StartsWith(path, "/admin/") {
      RouteGuard.ProtectedRouteAccess(path, locals, 0);
    }
  }
}
