/**
 * The constant permission tables of the application: the shared base set,
 * the staff role hierarchy, one permission set per staff role and one per
 * organization role. Each role's set is the base set with some entries
 * overridden, exactly as the object spreads build it.
 */
module Config {
  import opened Types

  const BaseResources: map<string, ResourcePermission> := map[
    "rol_staff" := ResourcePermission("ROL Staff Management", "Manage ROL platform staff members", "rol_staff", [Read]),
    "tournaments" := ResourcePermission("Tournament Management", "Manage tournaments and their settings", "tournaments", [Read]),
    "leagues" := ResourcePermission("League Management", "Manage leagues and their settings", "leagues", [Read]),
    "teams" := ResourcePermission("Team Management", "View teams and their rosters", "teams", [Read]),
    "esports_orgs" := ResourcePermission("Esports Organizations", "View esports organizations", "esports_orgs", [Read])
  ]

  const BaseFeatures: map<string, FeaturePermission> := map[
    "viewAnalytics" := FeaturePermission("View Analytics", "Access to ROL platform analytics", "analytics", false),
    "manageSettings" := FeaturePermission("Manage Settings", "Access to ROL platform settings", "settings", false)
  ]

  const BasePermissions: PermissionSet := PermissionSet(BaseResources, BaseFeatures)

  /** `{ ...base.resources[key], actions }` */
  function Grant(key: string, actions: seq<Action>): ResourcePermission
    requires key in BaseResources
  {
    BaseResources[key].(actions := actions)
  }

  /** `{ ...base.features[key], allowed: true }` */
  function Enable(key: string): FeaturePermission
    requires key in BaseFeatures
  {
    BaseFeatures[key].(allowed := true)
  }

  const CRUD: seq<Action> := [Create, Read, Update, Delete]

  const RoleHierarchy: map<StaffRole, seq<StaffRole>> := map[
    Owner := [PlatformAdmin, CustomerService, TournamentDirector, TournamentCoordinator, LeagueDirector, LeagueCoordinator],
    PlatformAdmin := [CustomerService, TournamentDirector, TournamentCoordinator, LeagueDirector, LeagueCoordinator],
    TournamentDirector := [TournamentCoordinator],
    LeagueDirector := [LeagueCoordinator],
    CustomerService := [],
    TournamentCoordinator := [],
    LeagueCoordinator := []
  ]

  const RolePermissions: map<StaffRole, PermissionSet> := map[
    Owner := PermissionSet(
      BaseResources + map[
        "rol_staff" := Grant("rol_staff", CRUD),
        "tournaments" := Grant("tournaments", CRUD),
        "leagues" := Grant("leagues", CRUD),
        "teams" := Grant("teams", [Read, Update, Delete]),
        "esports_orgs" := Grant("esports_orgs", [Read, Update, Delete])],
      BaseFeatures + map[
        "viewAnalytics" := Enable("viewAnalytics"),
        "manageSettings" := Enable("manageSettings")]),
    PlatformAdmin := PermissionSet(
      BaseResources + map[
        "rol_staff" := Grant("rol_staff", [Create, Read, Update]),
        "tournaments" := Grant("tournaments", CRUD),
        "leagues" := Grant("leagues", CRUD),
        "teams" := Grant("teams", [Read, Update]),
        "esports_orgs" := Grant("esports_orgs", [Read])],
      BaseFeatures + map[
        "viewAnalytics" := Enable("viewAnalytics"),
        "manageSettings" := Enable("manageSettings")]),
    TournamentDirector := PermissionSet(
      BaseResources + map["tournaments" := Grant("tournaments", [Create, Read, Update])],
      BaseFeatures + map["viewAnalytics" := Enable("viewAnalytics")]),
    LeagueDirector := PermissionSet(
      BaseResources + map["leagues" := Grant("leagues", [Create, Read, Update])],
      BaseFeatures + map["viewAnalytics" := Enable("viewAnalytics")]),
    CustomerService := PermissionSet(
      BaseResources + map[
        "teams" := Grant("teams", [Read]),
        "tournaments" := Grant("tournaments", [Read]),
        "leagues" := Grant("leagues", [Read]),
        "esports_orgs" := Grant("esports_orgs", [Read])],
      BaseFeatures),
    TournamentCoordinator := PermissionSet(
      BaseResources + map["tournaments" := Grant("tournaments", [Read, Update])],
      BaseFeatures),
    LeagueCoordinator := PermissionSet(
      BaseResources + map["leagues" := Grant("leagues", [Read, Update])],
      BaseFeatures)
  ]

  const OrgPermissions: map<OrgRole, PermissionSet> := map[
    OrgOwner := PermissionSet(
      BaseResources + map["teams" := Grant("teams", CRUD)],
      BaseFeatures + map["viewAnalytics" := Enable("viewAnalytics")]),
    OrgManager := PermissionSet(
      BaseResources + map["teams" := Grant("teams", [Create, Read, Update])],
      BaseFeatures + map["viewAnalytics" := Enable("viewAnalytics")]),
    OrgStaff := PermissionSet(
      BaseResources + map["teams" := Grant("teams", [Read])],
      BaseFeatures)
  ]

  /** Position in the hierarchy: every inherited role ranks strictly lower. */
  function Rank(r: StaffRole): nat
  {
    match r
    case Owner => 3
    case PlatformAdmin => 2
    case TournamentDirector | LeagueDirector => 1
    case CustomerService | TournamentCoordinator | LeagueCoordinator => 0
  }

  /** The hierarchy has an entry for every role and only goes down in rank. */
  lemma HierarchyDescends(r: StaffRole)
    ensures r in RoleHierarchy
    ensures forall s :: s in RoleHierarchy[r] ==> Rank(s) < Rank(r)
  {
  }

  /** No action appears twice in a list. */
  predicate Distinct(s: seq<Action>)
  {
    forall i, j :: 0 <= i < j < |s| ==> s[i] != s[j]
  }

  /** The two entries are the same base entry with possibly different grants. */
  ghost predicate SameResource(p: ResourcePermission, q: ResourcePermission)
  {
    q == p.(actions := q.actions)
  }

  ghost predicate SameFeature(p: FeaturePermission, q: FeaturePermission)
  {
    q == p.(allowed := q.allowed)
  }

  /**
   * `q` is `p` with some grants withdrawn: the same keys, the same names and
   * descriptions, actions a subset of `p`'s, and a feature allowed only if `p`
   * allows it.
   */
  ghost predicate Dominates(p: PermissionSet, q: PermissionSet)
  {
    && q.resources.Keys == p.resources.Keys
    && q.features.Keys == p.features.Keys
    && (forall k :: k in q.resources ==>
          && SameResource(p.resources[k], q.resources[k])
          && (forall a :: a in q.resources[k].actions ==> a in p.resources[k].actions))
    && (forall f :: f in q.features ==>
          && SameFeature(p.features[f], q.features[f])
          && (q.features[f].allowed ==> p.features[f].allowed))
  }

  lemma BaseResourceCases(k: string)
    requires k in BaseResources
    ensures k == "rol_staff" || k == "tournaments" || k == "leagues" || k == "teams" || k == "esports_orgs"
  {
  }

  lemma BaseFeatureCases(f: string)
    requires f in BaseFeatures
    ensures f == "viewAnalytics" || f == "manageSettings"
  {
  }

  /** Every base resource grants exactly `read`, and every base feature is off. */
  lemma BaseIsReadOnly()
    ensures BaseResources.Keys == {"rol_staff", "tournaments", "leagues", "teams", "esports_orgs"}
    ensures BaseFeatures.Keys == {"viewAnalytics", "manageSettings"}
    ensures forall k :: k in BaseResources ==> BaseResources[k].actions == [Read]
    ensures forall f :: f in BaseFeatures ==> !BaseFeatures[f].allowed
  {
  }

  /** Every staff role's set has exactly the five base resources and the two base features. */
  lemma StaffKeys(r: StaffRole)
    ensures r in RolePermissions
    ensures RolePermissions[r].resources.Keys == BaseResources.Keys
    ensures RolePermissions[r].features.Keys == BaseFeatures.Keys
  {
  }

  /** The same for every organization role. */
  lemma OrgKeys(o: OrgRole)
    ensures o in OrgPermissions
    ensures OrgPermissions[o].resources.Keys == BaseResources.Keys
    ensures OrgPermissions[o].features.Keys == BaseFeatures.Keys
  {
  }

  // The staff table read column by column: what each role is granted on one key.

  lemma RolStaffColumn(r: StaffRole)
    ensures "rol_staff" in RolePermissions[r].resources
    ensures RolePermissions[r].resources["rol_staff"] == Grant("rol_staff",
      match r
      case Owner => CRUD
      case PlatformAdmin => [Create, Read, Update]
      case _ => [Read])
  {
  }

  lemma TournamentsColumn(r: StaffRole)
    ensures "tournaments" in RolePermissions[r].resources
    ensures RolePermissions[r].resources["tournaments"] == Grant("tournaments",
      match r
      case Owner | PlatformAdmin => CRUD
      case TournamentDirector => [Create, Read, Update]
      case TournamentCoordinator => [Read, Update]
      case _ => [Read])
  {
  }

  lemma LeaguesColumn(r: StaffRole)
    ensures "leagues" in RolePermissions[r].resources
    ensures RolePermissions[r].resources["leagues"] == Grant("leagues",
      match r
      case Owner | PlatformAdmin => CRUD
      case LeagueDirector => [Create, Read, Update]
      case LeagueCoordinator => [Read, Update]
      case _ => [Read])
  {
  }

  lemma TeamsColumn(r: StaffRole)
    ensures "teams" in RolePermissions[r].resources
    ensures RolePermissions[r].resources["teams"] == Grant("teams",
      match r
      case Owner => [Read, Update, Delete]
      case PlatformAdmin => [Read, Update]
      case _ => [Read])
  {
  }

  lemma EsportsOrgsColumn(r: StaffRole)
    ensures "esports_orgs" in RolePermissions[r].resources
    ensures RolePermissions[r].resources["esports_orgs"] == Grant("esports_orgs",
      match r
      case Owner => [Read, Update, Delete]
      case _ => [Read])
  {
  }

  /** Exactly the owner, the platform admin and the two directors may view analytics. */
  lemma ViewAnalyticsColumn(r: StaffRole)
    ensures "viewAnalytics" in RolePermissions[r].features
    ensures RolePermissions[r].features["viewAnalytics"]
         == BaseFeatures["viewAnalytics"].(allowed := r in {Owner, PlatformAdmin, TournamentDirector, LeagueDirector})
  {
  }

  /** Exactly the owner and the platform admin may manage settings. */
  lemma ManageSettingsColumn(r: StaffRole)
    ensures "manageSettings" in RolePermissions[r].features
    ensures RolePermissions[r].features["manageSettings"]
         == BaseFeatures["manageSettings"].(allowed := r in {Owner, PlatformAdmin})
  {
  }

  /**
   * The staff table restated column by column: what each role is granted on
   * each base resource. `StaffEntry` proves it equal to the table.
   */
  function StaffActions(r: StaffRole, k: string): seq<Action>
  {
    if k == "rol_staff" then
      match r
      case Owner => CRUD
      case PlatformAdmin => [Create, Read, Update]
      case _ => [Read]
    else if k == "tournaments" then
      match r
      case Owner | PlatformAdmin => CRUD
      case TournamentDirector => [Create, Read, Update]
      case TournamentCoordinator => [Read, Update]
      case _ => [Read]
    else if k == "leagues" then
      match r
      case Owner | PlatformAdmin => CRUD
      case LeagueDirector => [Create, Read, Update]
      case LeagueCoordinator => [Read, Update]
      case _ => [Read]
    else if k == "teams" then
      match r
      case Owner => [Read, Update, Delete]
      case PlatformAdmin => [Read, Update]
      case _ => [Read]
    else
      match r
      case Owner => [Read, Update, Delete]
      case _ => [Read]
  }

  /** Every grant includes read and repeats no action. */
  lemma StaffActionsFacts(r: StaffRole, k: string)
    ensures Read in StaffActions(r, k)
    ensures Distinct(StaffActions(r, k))
  {
  }

  /** An entry of a staff role's set is the base entry with its own grant. */
  lemma StaffEntry(r: StaffRole, k: string)
    requires k in BaseResources
    ensures k in RolePermissions[r].resources
    ensures RolePermissions[r].resources[k] == Grant(k, RolePermissions[r].resources[k].actions)
    ensures RolePermissions[r].resources[k].actions == StaffActions(r, k)
    ensures Read in RolePermissions[r].resources[k].actions
    ensures Distinct(RolePermissions[r].resources[k].actions)
  {
    BaseResourceCases(k);
    StaffActionsFacts(r, k);
    if k == "rol_staff" { RolStaffColumn(r); }
    else if k == "tournaments" { TournamentsColumn(r); }
    else if k == "leagues" { LeaguesColumn(r); }
    else if k == "teams" { TeamsColumn(r); }
    else { EsportsOrgsColumn(r); }
  }

  /** A feature of a staff role's set is the base feature with its own flag. */
  lemma StaffFeature(r: StaffRole, f: string)
    requires f in BaseFeatures
    ensures f in RolePermissions[r].features
    ensures RolePermissions[r].features[f] == BaseFeatures[f].(allowed := RolePermissions[r].features[f].allowed)
  {
    BaseFeatureCases(f);
    if f == "viewAnalytics" { ViewAnalyticsColumn(r); } else { ManageSettingsColumn(r); }
  }

  /** The org table read column by column. */
  lemma OrgEntry(o: OrgRole, k: string)
    requires k in BaseResources
    ensures k in OrgPermissions[o].resources
    ensures OrgPermissions[o].resources[k] == Grant(k, OrgPermissions[o].resources[k].actions)
    ensures OrgPermissions[o].resources[k].actions
         == if k == "teams" then (match o case OrgOwner => CRUD case OrgManager => [Create, Read, Update] case OrgStaff => [Read])
            else [Read]
  {
    BaseResourceCases(k);
  }

  lemma OrgFeature(o: OrgRole, f: string)
    requires f in BaseFeatures
    ensures f in OrgPermissions[o].features
    ensures OrgPermissions[o].features[f] == BaseFeatures[f].(allowed := f == "viewAnalytics" && o != OrgStaff)
  {
    BaseFeatureCases(f);
  }

  /** Pointwise form of `Dominates`. */
  lemma DominatesIntro(p: PermissionSet, q: PermissionSet)
    requires q.resources.Keys == p.resources.Keys
    requires q.features.Keys == p.features.Keys
    requires forall k :: k in q.resources ==> SameResource(p.resources[k], q.resources[k])
    requires forall k, a :: k in q.resources && a in q.resources[k].actions ==> a in p.resources[k].actions
    requires forall f :: f in q.features ==> SameFeature(p.features[f], q.features[f])
    requires forall f :: f in q.features && q.features[f].allowed ==> p.features[f].allowed
    ensures Dominates(p, q)
  {
  }

  /**
   * Every staff role's set is the base set with only grants changed: all five
   * resource keys, both feature keys, the base names and descriptions, and at
   * least the base grants.
   */
  lemma StaffSetsSpreadBase(r: StaffRole)
    ensures r in RolePermissions
    ensures Dominates(RolePermissions[r], BasePermissions)
  {
    StaffKeys(r);
    var p := RolePermissions[r];
    forall k | k in BaseResources
      ensures SameResource(p.resources[k], BaseResources[k])
      ensures forall a :: a in BaseResources[k].actions ==> a in p.resources[k].actions
    {
      StaffEntry(r, k);
      BaseIsReadOnly();
    }
    forall f | f in BaseFeatures ensures SameFeature(p.features[f], BaseFeatures[f]) {
      StaffFeature(r, f);
    }
    BaseIsReadOnly();
    assert Dominates(p, BasePermissions);
  }

  /** The same for every organization role. */
  lemma OrgSetsSpreadBase(o: OrgRole)
    ensures o in OrgPermissions
    ensures Dominates(OrgPermissions[o], BasePermissions)
  {
    OrgKeys(o);
    var p := OrgPermissions[o];
    forall k | k in BaseResources
      ensures SameResource(p.resources[k], BaseResources[k])
      ensures forall a :: a in BaseResources[k].actions ==> a in p.resources[k].actions
    {
      OrgEntry(o, k);
      BaseIsReadOnly();
    }
    forall f | f in BaseFeatures ensures SameFeature(p.features[f], BaseFeatures[f]) {
      OrgFeature(o, f);
    }
    BaseIsReadOnly();
    assert Dominates(p, BasePermissions);
  }

  /** Every staff role and every org role may read every resource. */
  lemma EveryRoleReads(r: StaffRole, o: OrgRole, k: string)
    requires k in BaseResources
    ensures Read in RolePermissions[r].resources[k].actions
    ensures Read in OrgPermissions[o].resources[k].actions
  {
    StaffEntry(r, k);
    OrgEntry(o, k);
  }

  /** The grants on `rol_staff`: full CRUD for the owner, no delete for the platform admin. */
  lemma RolStaffGrants()
    ensures RolePermissions[Owner].resources["rol_staff"].actions == [Create, Read, Update, Delete]
    ensures Delete !in RolePermissions[PlatformAdmin].resources["rol_staff"].actions
    ensures RolePermissions[LeagueCoordinator].resources["rol_staff"].actions == [Read]
  {
    RolStaffColumn(Owner);
    RolStaffColumn(PlatformAdmin);
    RolStaffColumn(LeagueCoordinator);
  }

  /**
   * No role lists itself, nobody lists the owner, and the lists are already
   * transitively closed.
   */
  lemma HierarchyShape(r: StaffRole)
    ensures r in RoleHierarchy && r !in RoleHierarchy[r]
    ensures Owner !in RoleHierarchy[r]
    ensures forall s, t :: s in RoleHierarchy[r] && t in RoleHierarchy[s] ==> t in RoleHierarchy[r]
  {
  }

  /** Below the platform admin, each director lists only its own coordinator. */
  lemma HierarchyEdge(r: StaffRole, s: StaffRole)
    requires r in RoleHierarchy && s in RoleHierarchy[r]
    ensures || r in {Owner, PlatformAdmin}
            || (r == TournamentDirector && s == TournamentCoordinator)
            || (r == LeagueDirector && s == LeagueCoordinator)
  {
  }

  /** One key of the monotonicity of grants down the hierarchy. */
  lemma MonotoneAt(r: StaffRole, s: StaffRole, k: string)
    requires s in RoleHierarchy[r]
    requires k in BaseResources
    ensures k in RolePermissions[r].resources && k in RolePermissions[s].resources
    ensures forall a :: a in RolePermissions[s].resources[k].actions ==> a in RolePermissions[r].resources[k].actions
  {
    BaseResourceCases(k);
    if k == "rol_staff" { RolStaffColumn(r); RolStaffColumn(s); }
    else if k == "tournaments" { TournamentsColumn(r); TournamentsColumn(s); }
    else if k == "leagues" { LeaguesColumn(r); LeaguesColumn(s); }
    else if k == "teams" { TeamsColumn(r); TeamsColumn(s); }
    else { EsportsOrgsColumn(r); EsportsOrgsColumn(s); }
  }

  lemma MonotoneFeatureAt(r: StaffRole, s: StaffRole, f: string)
    requires s in RoleHierarchy[r]
    requires f in BaseFeatures
    ensures f in RolePermissions[r].features && f in RolePermissions[s].features
    ensures RolePermissions[s].features[f].allowed ==> RolePermissions[r].features[f].allowed
  {
    BaseFeatureCases(f);
    if f == "viewAnalytics" { ViewAnalyticsColumn(r); ViewAnalyticsColumn(s); }
    else { ManageSettingsColumn(r); ManageSettingsColumn(s); }
  }

  /** A role's grants include those of every role in its hierarchy list. */
  lemma HierarchyMonotone(r: StaffRole, s: StaffRole)
    requires s in RoleHierarchy[r]
    ensures Dominates(RolePermissions[r], RolePermissions[s])
  {
    StaffKeys(r);
    StaffKeys(s);
    var p, q := RolePermissions[r], RolePermissions[s];
    forall k | k in q.resources ensures SameResource(p.resources[k], q.resources[k]) {
      StaffEntry(r, k);
      StaffEntry(s, k);
    }
    forall k, a | k in q.resources && a in q.resources[k].actions ensures a in p.resources[k].actions {
      MonotoneAt(r, s, k);
    }
    forall f | f in q.features ensures SameFeature(p.features[f], q.features[f]) {
      StaffFeature(r, f);
      StaffFeature(s, f);
    }
    forall f | f in q.features && q.features[f].allowed ensures p.features[f].allowed {
      MonotoneFeatureAt(r, s, f);
    }
    DominatesIntro(p, q);
  }

  /** The `teams` grants of the org roles shrink from owner to manager to staff. */
  lemma OrgTeamsShrink()
    ensures OrgPermissions[OrgOwner].resources["teams"].actions == [Create, Read, Update, Delete]
    ensures OrgPermissions[OrgManager].resources["teams"].actions == [Create, Read, Update]
    ensures OrgPermissions[OrgStaff].resources["teams"].actions == [Read]
    ensures Dominates(OrgPermissions[OrgOwner], OrgPermissions[OrgManager])
    ensures Dominates(OrgPermissions[OrgManager], OrgPermissions[OrgStaff])
  {
    OrgShrinks(OrgOwner, OrgManager);
    OrgShrinks(OrgManager, OrgStaff);
  }

  lemma OrgShrinks(o: OrgRole, o': OrgRole)
    requires (o, o') in {(OrgOwner, OrgManager), (OrgManager, OrgStaff)}
    ensures OrgPermissions[o].resources["teams"].actions
         == (match o case OrgOwner => CRUD case OrgManager => [Create, Read, Update] case OrgStaff => [Read])
    ensures OrgPermissions[o'].resources["teams"].actions
         == (match o' case OrgOwner => CRUD case OrgManager => [Create, Read, Update] case OrgStaff => [Read])
    ensures Dominates(OrgPermissions[o], OrgPermissions[o'])
  {
    OrgKeys(o);
    OrgKeys(o');
    OrgEntry(o, "teams");
    OrgEntry(o', "teams");
    var p, q := OrgPermissions[o], OrgPermissions[o'];
    forall k | k in q.resources ensures SameResource(p.resources[k], q.resources[k]) {
      OrgEntry(o, k);
      OrgEntry(o', k);
    }
    forall k, a | k in q.resources && a in q.resources[k].actions ensures a in p.resources[k].actions {
      OrgEntry(o, k);
      OrgEntry(o', k);
    }
    forall f | f in q.features ensures SameFeature(p.features[f], q.features[f]) && (q.features[f].allowed ==> p.features[f].allowed) {
      OrgFeature(o, f);
      OrgFeature(o', f);
    }
    DominatesIntro(p, q);
  }
}
