/**
 * The second copy of the permission tables, the one the alternative evaluator
 * and the permission store read. It is written out again, in the same spread
 * form, and proved equal to the first copy entry for entry.
 */
module AltConfig {
  import opened Types
  import Config

  const BaseResources: map<string, ResourcePermission> := map[
    "rol_staff" := ResourcePermission("ROL Staff Management", "Manage ROL platform staff members", "rol_staff", [Read]),
    "tournaments" := ResourcePermission("Tournament Management", "Manage tournaments and their settings", "tournaments", [Read]),
    "leagues" := ResourcePermission("League Management", "Manage leagues and their settings", "leagues", [Read]),
    "teams" := ResourcePermission("Team Management", "View teams and their rosters", "teams", [Read]),
    "esports_orgs" := ResourcePermission("Esports Organizations", "View esports organizations", "esports_orgs", [Read])
  ]

  const BaseFeatures: map<string, FeaturePermission> := map[
    "viewAnalytics" := FeaturePermission("View Analytics", "Access to ROL platform analytics", "analytics", false),
    "manageSettings" := FeaturePermission("Manage Settings", "Access to ROL platform settings", "settings", false)
  ]

  const BasePermissions: PermissionSet := PermissionSet(BaseResources, BaseFeatures)

  /** `{ ...base.resources[key], actions }` */
  function Grant(key: string, actions: seq<Action>): ResourcePermission
    requires key in BaseResources
  {
    BaseResources[key].(actions := actions)
  }

  /** `{ ...base.features[key], allowed: true }` */
  function Enable(key: string): FeaturePermission
    requires key in BaseFeatures
  {
    BaseFeatures[key].(allowed := true)
  }

  const CRUD: seq<Action> := [Create, Read, Update, Delete]

  const RoleHierarchy: map<StaffRole, seq<StaffRole>> := map[
    Owner := [PlatformAdmin, CustomerService, TournamentDirector, TournamentCoordinator, LeagueDirector, LeagueCoordinator],
    PlatformAdmin := [CustomerService, TournamentDirector, TournamentCoordinator, LeagueDirector, LeagueCoordinator],
    TournamentDirector := [TournamentCoordinator],
    LeagueDirector := [LeagueCoordinator],
    CustomerService := [],
    TournamentCoordinator := [],
    LeagueCoordinator := []
  ]

  const RolePermissions: map<StaffRole, PermissionSet> := map[
    Owner := PermissionSet(
      BaseResources + map[
        "rol_staff" := Grant("rol_staff", CRUD),
        "tournaments" := Grant("tournaments", CRUD),
        "leagues" := Grant("leagues", CRUD),
        "teams" := Grant("teams", [Read, Update, Delete]),
        "esports_orgs" := Grant("esports_orgs", [Read, Update, Delete])],
      BaseFeatures + map[
        "viewAnalytics" := Enable("viewAnalytics"),
        "manageSettings" := Enable("manageSettings")]),
    PlatformAdmin := PermissionSet(
      BaseResources + map[
        "rol_staff" := Grant("rol_staff", [Create, Read, Update]),
        "tournaments" := Grant("tournaments", CRUD),
        "leagues" := Grant("leagues", CRUD),
        "teams" := Grant("teams", [Read, Update]),
        "esports_orgs" := Grant("esports_orgs", [Read])],
      BaseFeatures + map[
        "viewAnalytics" := Enable("viewAnalytics"),
        "manageSettings" := Enable("manageSettings")]),
    TournamentDirector := PermissionSet(
      BaseResources + map["tournaments" := Grant("tournaments", [Create, Read, Update])],
      BaseFeatures + map["viewAnalytics" := Enable("viewAnalytics")]),
    LeagueDirector := PermissionSet(
      BaseResources + map["leagues" := Grant("leagues", [Create, Read, Update])],
      BaseFeatures + map["viewAnalytics" := Enable("viewAnalytics")]),
    CustomerService := PermissionSet(
      BaseResources + map[
        "teams" := Grant("teams", [Read]),
        "tournaments" := Grant("tournaments", [Read]),
        "leagues" := Grant("leagues", [Read]),
        "esports_orgs" := Grant("esports_orgs", [Read])],
      BaseFeatures),
    TournamentCoordinator := PermissionSet(
      BaseResources + map["tournaments" := Grant("tournaments", [Read, Update])],
      BaseFeatures),
    LeagueCoordinator := PermissionSet(
      BaseResources + map["leagues" := Grant("leagues", [Read, Update])],
      BaseFeatures)
  ]

  const OrgPermissions: map<OrgRole, PermissionSet> := map[
    OrgOwner := PermissionSet(
      BaseResources + map["teams" := Grant("teams", CRUD)],
      BaseFeatures + map["viewAnalytics" := Enable("viewAnalytics")]),
    OrgManager := PermissionSet(
      BaseResources + map["teams" := Grant("teams", [Create, Read, Update])],
      BaseFeatures + map["viewAnalytics" := Enable("viewAnalytics")]),
    OrgStaff := PermissionSet(
      BaseResources + map["teams" := Grant("teams", [Read])],
      BaseFeatures)
  ]

  /**
   * Object key order of every resource map: the order of the base literal,
   * which the spreads keep because every override replaces an existing key.
   */
  const ResourceKeyOrder: seq<string> := ["rol_staff", "tournaments", "leagues", "teams", "esports_orgs"]

  /** The four tables agree with the first copy entry for entry. */
  lemma TablesAgree()
    ensures BasePermissions == Config.BasePermissions
    ensures RoleHierarchy == Config.RoleHierarchy
    ensures RolePermissions == Config.RolePermissions
    ensures OrgPermissions == Config.OrgPermissions
  {
  }

  /** The key order lists each resource key of every staff role, once. */
  lemma KeyOrderIsKeys(r: StaffRole)
    ensures r in RolePermissions
    ensures forall k :: k in ResourceKeyOrder <==> k in RolePermissions[r].resources
  {
    TablesAgree();
    Config.StaffKeys(r);
    Config.BaseIsReadOnly();
    assert forall k :: k in ResourceKeyOrder <==> k in {"rol_staff", "tournaments", "leagues", "teams", "esports_orgs"};
  }

  lemma KeyOrderDistinct()
    ensures forall i, j :: 0 <= i < j < |ResourceKeyOrder| ==> ResourceKeyOrder[i] != ResourceKeyOrder[j]
  {
  }

  /** Owner and platform admin list six and five roles, each director its coordinator, the rest none. */
  lemma HierarchyEntries()
    ensures |RoleHierarchy[Owner]| == 6 && |RoleHierarchy[PlatformAdmin]| == 5
    ensures RoleHierarchy[TournamentDirector] == [TournamentCoordinator]
    ensures RoleHierarchy[LeagueDirector] == [LeagueCoordinator]
    ensures RoleHierarchy[CustomerService] == [] && RoleHierarchy[TournamentCoordinator] == []
    ensures RoleHierarchy[LeagueCoordinator] == []
  {
  }

  /**
   * The tournament coordinator reads and updates tournaments and only reads
   * the rest; customer service keeps the base features, all switched off.
   */
  lemma CoordinatorAndSupportEntries(k: string)
    requires k in BaseResources
    ensures k in RolePermissions[TournamentCoordinator].resources
    ensures RolePermissions[TournamentCoordinator].resources[k].actions == if k == "tournaments" then [Read, Update] else [Read]
    ensures RolePermissions[CustomerService].features == BaseFeatures
    ensures forall f :: f in RolePermissions[CustomerService].features ==> !RolePermissions[CustomerService].features[f].allowed
  {
    TablesAgree();
    Config.BaseResourceCases(k);
    Config.RolStaffColumn(TournamentCoordinator);
    Config.TournamentsColumn(TournamentCoordinator);
    Config.LeaguesColumn(TournamentCoordinator);
    Config.TeamsColumn(TournamentCoordinator);
    Config.EsportsOrgsColumn(TournamentCoordinator);
    Config.BaseIsReadOnly();
  }

  /** Settings management is switched on for the owner and the platform admin only. */
  lemma ManageSettingsOnlyTop(r: StaffRole)
    ensures "manageSettings" in RolePermissions[r].features
    ensures RolePermissions[r].features["manageSettings"].allowed <==> r in {Owner, PlatformAdmin}
  {
    TablesAgree();
    Config.ManageSettingsColumn(r);
  }
}
