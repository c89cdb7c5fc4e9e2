/**
 * The permission utilities of the alternative library: role management
 * through the listed hierarchy only, lookups in the role's own set, and the
 * resource listings built from it. Lookups of a missing key yield `false`.
 */
module AltEvaluator {
  import opened Types
  import opened AltConfig
  import Config
  import Evaluator

  /**
   * A role manages exactly the roles its hierarchy entry lists: the roles it
   * strictly inherits, never itself and never the owner.
   */
  function CanManageRole(userRole: StaffRole, targetRole: StaffRole): (b: bool)
    ensures b <==> userRole != targetRole && Evaluator.InheritsRole(userRole, targetRole)
    ensures b ==> targetRole != Owner
  {
    TablesAgree();
    Config.HierarchyShape(userRole);
    Evaluator.InheritsRoleIsListed(userRole, targetRole);
    var listed := if userRole in RoleHierarchy then Some(RoleHierarchy[userRole]) else None;
    if listed.None? then false else targetRole in listed.value
  }

  /** The roles a user may manage, in hierarchy order; an unlisted role manages none. */
  function GetManageableRoles(userRole: StaffRole): (rs: seq<StaffRole>)
    ensures userRole in Config.RoleHierarchy && rs == Config.RoleHierarchy[userRole]
    ensures forall t :: t in rs <==> CanManageRole(userRole, t)
    ensures forall i, j :: 0 <= i < j < |rs| ==> rs[i] != rs[j]
    ensures forall t :: t in rs ==> Config.Rank(t) < Config.Rank(userRole)
  {
    TablesAgree();
    Config.HierarchyDescends(userRole);
    if userRole in RoleHierarchy then RoleHierarchy[userRole] else []
  }

  /** The owner manages every other role; the coordinators and customer service manage none. */
  lemma OwnerManagesEveryone(t: StaffRole)
    ensures CanManageRole(Owner, t) <==> t != Owner
    ensures GetManageableRoles(CustomerService) == []
    ensures GetManageableRoles(TournamentCoordinator) == [] && GetManageableRoles(LeagueCoordinator) == []
  {
    TablesAgree();
  }

  /** Whether the role's own set lists `action` on `resource`; an absent key grants nothing. */
  function HasResourcePermission(userRole: StaffRole, resource: string, action: Action): (b: bool)
    ensures b <==> Evaluator.HasResourcePermission(userRole, resource, action)
  {
    TablesAgree();
    Config.StaffKeys(userRole);
    var permissions := RolePermissions[userRole];
    if resource in permissions.resources then action in permissions.resources[resource].actions else false
  }

  /** Whether the role's own set has `feature` switched on; an absent key is off. */
  function HasFeaturePermission(userRole: StaffRole, feature: string): (b: bool)
    ensures b <==> Evaluator.HasFeaturePermission(userRole, feature)
  {
    TablesAgree();
    Config.StaffKeys(userRole);
    var permissions := RolePermissions[userRole];
    if feature in permissions.features then permissions.features[feature].allowed else false
  }

  /**
   * The role's own set: the table entry, over the five base resources and
   * two base features, granting the role's column of actions and at least
   * as permissive as the base.
   */
  function GetRolePermissions(role: StaffRole): (p: PermissionSet)
    ensures role in Config.RolePermissions && p == Config.RolePermissions[role]
    ensures p.resources.Keys == BaseResources.Keys && p.features.Keys == BaseFeatures.Keys
    ensures forall k :: k in p.resources ==> p.resources[k].actions == Config.StaffActions(role, k)
    ensures Config.Dominates(p, BasePermissions)
  {
    TablesAgree();
    Config.StaffKeys(role);
    forall k | k in RolePermissions[role].resources
      ensures RolePermissions[role].resources[k].actions == Config.StaffActions(role, k)
    {
      Config.StaffEntry(role, k);
    }
    Config.StaffSetsSpreadBase(role);
    RolePermissions[role]
  }

  /** Whether the role's entry for `resource` lists any action at all. */
  function HasAnyResourcePermission(userRole: StaffRole, resource: string): (b: bool)
    ensures b <==> resource in BaseResources
    ensures b <==> exists a :: HasResourcePermission(userRole, resource, a)
  {
    TablesAgree();
    Config.StaffKeys(userRole);
    var permissions := RolePermissions[userRole];
    if resource in permissions.resources then
      Config.StaffEntry(userRole, resource);
      assert HasResourcePermission(userRole, resource, Read);
      |permissions.resources[resource].actions| > 0
    else false
  }

  /** The keys of `keys` whose entry in `resources` lists some action. */
  function NonEmptyKeys(resources: map<string, ResourcePermission>, keys: seq<string>): (r: seq<string>)
    ensures forall k :: k in r <==> k in keys && k in resources && |resources[k].actions| > 0
    ensures |r| <= |keys|
  {
    if keys == [] then []
    else
      var rest := NonEmptyKeys(resources, keys[1..]);
      if keys[0] in resources && |resources[keys[0]].actions| > 0 then [keys[0]] + rest else rest
  }

  /** The resources the role holds any action on; `EveryResourceAccessible` gives their order. */
  function GetAccessibleResources(userRole: StaffRole): (rs: seq<string>)
    ensures forall k :: k in rs <==> HasAnyResourcePermission(userRole, k)
  {
    KeyOrderIsKeys(userRole);
    NonEmptyKeys(RolePermissions[userRole].resources, ResourceKeyOrder)
  }

  /** A filter that rejects nothing returns its keys unchanged. */
  lemma {:induction false} NonEmptyKeysKeepsAll(resources: map<string, ResourcePermission>, keys: seq<string>)
    requires forall i :: 0 <= i < |keys| ==> keys[i] in resources && |resources[keys[i]].actions| > 0
    ensures NonEmptyKeys(resources, keys) == keys
  {
    if keys != [] {
      NonEmptyKeysKeepsAll(resources, keys[1..]);
    }
  }

  /** Every role reaches all five resources, listed once each in declaration order. */
  lemma EveryResourceAccessible(userRole: StaffRole)
    ensures GetAccessibleResources(userRole) == ResourceKeyOrder
    ensures var rs := GetAccessibleResources(userRole);
      forall i, j :: 0 <= i < j < |rs| ==> rs[i] != rs[j]
  {
    KeyOrderDistinct();
    KeyOrderIsKeys(userRole);
    TablesAgree();
    forall i | 0 <= i < |ResourceKeyOrder|
      ensures ResourceKeyOrder[i] in RolePermissions[userRole].resources
      ensures |RolePermissions[userRole].resources[ResourceKeyOrder[i]].actions| > 0
    {
      Config.StaffKeys(userRole);
      Config.StaffEntry(userRole, ResourceKeyOrder[i]);
    }
    NonEmptyKeysKeepsAll(RolePermissions[userRole].resources, ResourceKeyOrder);
  }
}
