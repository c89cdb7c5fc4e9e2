/**
 * The alternative library's permission store: one cell holding the current
 * role's permission set, or nothing, set by role and cleared by reset, and
 * the five flags derived from it.
 */
module PermissionStore {
  import opened Types
  import opened AltConfig
  import AltEvaluator
  import Config
  import Evaluator

  /** The writable permission cell; it starts empty. */
  class PermissionStore {
    var permissions: Option<PermissionSet>

    /** The cell is empty or holds one role's set from the table. */
    ghost predicate Valid()
      reads this
    {
      permissions.Some? ==> exists r :: r in RolePermissions && permissions.value == RolePermissions[r]
    }

    constructor ()
      ensures permissions == None
      ensures Valid()
    {
      permissions := None;
    }

    /** Loads the role's own permission set. */
    method SetRole(role: StaffRole)
      modifies this
      ensures permissions == Some(AltEvaluator.GetRolePermissions(role))
      ensures Valid()
    {
      var p := AltEvaluator.GetRolePermissions(role);
      permissions := Some(p);
      assert role in RolePermissions && p == RolePermissions[role];
    }

    method Reset()
      modifies this
      ensures permissions == None
      ensures Valid()
    {
      permissions := None;
    }
  }

  /** `action` is listed for `resource` in the held set; an empty cell or absent key lists nothing. */
  function Lists(p: Option<PermissionSet>, resource: string, action: Action): (b: bool)
    ensures b ==> p.Some? && resource in p.value.resources
    ensures p.Some? && resource in p.value.resources ==> (b <==> action in p.value.resources[resource].actions)
  {
    match p
    case None => false
    case Some(ps) => if resource in ps.resources then action in ps.resources[resource].actions else false
  }

  /** `feature` is switched on in the held set; an empty cell or absent key is off. */
  function Allows(p: Option<PermissionSet>, feature: string): (b: bool)
    ensures b ==> p.Some? && feature in p.value.features
    ensures p.Some? && feature in p.value.features ==> (b <==> p.value.features[feature].allowed)
  {
    match p
    case None => false
    case Some(ps) => if feature in ps.features then ps.features[feature].allowed else false
  }

  /** Reads the resource key `staff`, which no table defines. */
  function CanManageStaff(p: Option<PermissionSet>): (b: bool)
    ensures b ==> p.Some? && "staff" in p.value.resources
  {
    Lists(p, "staff", Create)
  }

  /** The staff flag over the key the tables actually use for staff management. */
  function CanManageRolStaff(p: Option<PermissionSet>): (b: bool)
    ensures b ==> p.Some? && "rol_staff" in p.value.resources
  {
    Lists(p, "rol_staff", Create)
  }

  function CanManageTournaments(p: Option<PermissionSet>): (b: bool)
    ensures b ==> p.Some? && "tournaments" in p.value.resources
  {
    Lists(p, "tournaments", Create)
  }

  function CanManageLeagues(p: Option<PermissionSet>): (b: bool)
    ensures b ==> p.Some? && "leagues" in p.value.resources
  {
    Lists(p, "leagues", Create)
  }

  function CanViewAnalytics(p: Option<PermissionSet>): (b: bool)
    ensures b ==> p.Some? && "viewAnalytics" in p.value.features
  {
    Allows(p, "viewAnalytics")
  }

  function CanManageSettings(p: Option<PermissionSet>): (b: bool)
    ensures b ==> p.Some? && "manageSettings" in p.value.features
  {
    Allows(p, "manageSettings")
  }

  /** An empty cell, as at start and after reset, switches every flag off. */
  lemma EmptyCellNoFlags()
    ensures !CanManageStaff(None) && !CanManageRolStaff(None) && !CanManageTournaments(None)
    ensures !CanManageLeagues(None) && !CanViewAnalytics(None) && !CanManageSettings(None)
  {
  }

  /** As written, the staff flag is off whatever role is loaded. */
  lemma CanManageStaffNeverHolds(role: StaffRole)
    ensures !CanManageStaff(Some(AltEvaluator.GetRolePermissions(role)))
  {
    assert "staff" !in BaseResources;
  }

  /**
   * Any store that keeps its invariant holds a table set or nothing, so its
   * staff flag is off and a held set has exactly the base keys.
   */
  lemma ValidStoreFacts(s: PermissionStore)
    requires s.Valid()
    ensures !CanManageStaff(s.permissions)
    ensures s.permissions.Some? ==>
      s.permissions.value.resources.Keys == BaseResources.Keys && s.permissions.value.features.Keys == BaseFeatures.Keys
  {
    if s.permissions.Some? {
      var r :| r in RolePermissions && s.permissions.value == RolePermissions[r];
      assert AltEvaluator.GetRolePermissions(r) == s.permissions.value by { TablesAgree(); }
      CanManageStaffNeverHolds(r);
    }
  }

  /**
   * The flags for a loaded role: staff management over `rol_staff` for the
   * owner and the platform admin, tournament and league creation for them
   * and the matching director, and the two features as the evaluator reports
   * them.
   */
  lemma FlagsForRole(role: StaffRole)
    ensures var p := Some(AltEvaluator.GetRolePermissions(role));
      && (CanManageRolStaff(p) <==> role in {Owner, PlatformAdmin})
      && (CanManageTournaments(p) <==> role in {Owner, PlatformAdmin, TournamentDirector})
      && (CanManageLeagues(p) <==> role in {Owner, PlatformAdmin, LeagueDirector})
      && (CanViewAnalytics(p) <==> AltEvaluator.HasFeaturePermission(role, "viewAnalytics"))
      && (CanManageSettings(p) <==> AltEvaluator.HasFeaturePermission(role, "manageSettings"))
  {
    Evaluator.CreateGrants(role);
    assert AltEvaluator.HasResourcePermission(role, "rol_staff", Create) <==> role in {Owner, PlatformAdmin};
    assert AltEvaluator.HasResourcePermission(role, "tournaments", Create) <==> role in {Owner, PlatformAdmin, TournamentDirector};
    assert AltEvaluator.HasResourcePermission(role, "leagues", Create) <==> role in {Owner, PlatformAdmin, LeagueDirector};
  }
}
