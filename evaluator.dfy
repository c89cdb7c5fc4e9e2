/**
 * The permission evaluator that the route guard and the inheritance-based
 * staff predicates use: lookups in a role's own set, transitive role
 * inheritance over the hierarchy, and the one-level merge of a role's set
 * with the sets of the roles it lists.
 */
module Evaluator {
  import opened Types
  import opened Config

  /** Whether the role's own set lists `action` on `resource`; a missing role or key grants nothing. */
  function HasResourcePermission(role: StaffRole, resource: string, action: Action): (b: bool)
    ensures b <==> resource in BaseResources && action in StaffActions(role, resource)
    ensures resource in BaseResources && action == Read ==> b
  {
    StaffKeys(role);
    var permissions := if role in RolePermissions then Some(RolePermissions[role]) else None;
    if permissions.None? then false
    else if resource !in permissions.value.resources then false
    else
      StaffEntry(role, resource);
      action in permissions.value.resources[resource].actions
  }

  /** Whether the role's own set has `feature` switched on. */
  function HasFeaturePermission(role: StaffRole, feature: string): (b: bool)
    ensures b <==> || (feature == "viewAnalytics" && role in {Owner, PlatformAdmin, TournamentDirector, LeagueDirector})
                   || (feature == "manageSettings" && role in {Owner, PlatformAdmin})
  {
    StaffKeys(role);
    ViewAnalyticsColumn(role);
    ManageSettingsColumn(role);
    BaseIsReadOnly();
    var permissions := if role in RolePermissions then Some(RolePermissions[role]) else None;
    if permissions.None? then false
    else if feature !in permissions.value.features then false
    else permissions.value.features[feature].allowed
  }

  /**
   * Whether `role` covers `target`: itself, a role it lists, or anything a
   * listed role covers. The recursion has no cycle guard; it ends because
   * every listed role ranks lower.
   */
  function InheritsRole(role: StaffRole, target: StaffRole): (b: bool)
    decreases Rank(role)
    ensures role == target ==> b
    ensures role != target && Rank(role) <= Rank(target) ==> !b
  {
    if role == target then true
    else
      HierarchyDescends(role);
      var inherited := if role in RoleHierarchy then RoleHierarchy[role] else [];
      target in inherited || exists i :: 0 <= i < |inherited| && InheritsRole(inherited[i], target)
  }

  /** `p` is a walk along hierarchy edges. */
  ghost predicate Path(p: seq<StaffRole>)
  {
    && |p| > 0
    && forall i :: 0 <= i < |p| - 1 ==> p[i] in RoleHierarchy && p[i + 1] in RoleHierarchy[p[i]]
  }

  /** On the shipped hierarchy, covering is reachability along its edges. */
  lemma InheritsRoleIsReachability(role: StaffRole, target: StaffRole)
    ensures InheritsRole(role, target) <==> exists p :: Path(p) && p[0] == role && p[|p| - 1] == target
  {
    if InheritsRole(role, target) {
      var p := CoveringPath(role, target);
    }
    if exists p :: Path(p) && p[0] == role && p[|p| - 1] == target {
      var p :| Path(p) && p[0] == role && p[|p| - 1] == target;
      PathCovers(p);
    }
  }

  /** A walk witnessing that `role` covers `target`. */
  lemma {:induction false} CoveringPath(role: StaffRole, target: StaffRole) returns (p: seq<StaffRole>)
    requires InheritsRole(role, target)
    ensures Path(p) && p[0] == role && p[|p| - 1] == target
    decreases Rank(role)
  {
    if role == target {
      p := [role];
    } else {
      HierarchyDescends(role);
      var inherited := RoleHierarchy[role];
      var i :| 0 <= i < |inherited| && InheritsRole(inherited[i], target);
      var q := CoveringPath(inherited[i], target);
      p := [role] + q;
      assert forall j :: 1 <= j < |p| ==> p[j] == q[j - 1];
    }
  }

  lemma {:induction false} PathCovers(p: seq<StaffRole>)
    requires Path(p)
    ensures InheritsRole(p[0], p[|p| - 1])
    decreases |p|
  {
    if |p| > 1 {
      var q := p[1..];
      assert Path(q);
      PathCovers(q);
      HierarchyDescends(p[0]);
      var inherited := RoleHierarchy[p[0]];
      var i :| 0 <= i < |inherited| && inherited[i] == p[1];
      assert InheritsRole(inherited[i], p[|p| - 1]);
    }
  }

  /**
   * On the shipped hierarchy, whose lists are already closed, covering is
   * being the role itself or being in its list.
   */
  lemma {:induction false} InheritsRoleIsListed(role: StaffRole, target: StaffRole)
    ensures InheritsRole(role, target) <==> role == target || target in RoleHierarchy[role]
    decreases Rank(role)
  {
    HierarchyShape(role);
    if role != target && InheritsRole(role, target) && target !in RoleHierarchy[role] {
      var inherited := RoleHierarchy[role];
      var i :| 0 <= i < |inherited| && InheritsRole(inherited[i], target);
      HierarchyDescends(role);
      InheritsRoleIsListed(inherited[i], target);
      assert false;
    }
  }

  /** Covering is transitive. */
  lemma InheritsRoleTransitive(a: StaffRole, b: StaffRole, c: StaffRole)
    requires InheritsRole(a, b) && InheritsRole(b, c)
    ensures InheritsRole(a, c)
  {
    InheritsRoleIsListed(a, b);
    InheritsRoleIsListed(b, c);
    InheritsRoleIsListed(a, c);
    HierarchyShape(a);
  }

  /** The owner covers the league coordinator; the reverse does not hold. */
  lemma OwnerCoversLeagueCoordinator()
    ensures InheritsRole(Owner, LeagueCoordinator)
    ensures !InheritsRole(LeagueCoordinator, Owner)
  {
  }

  // ---- getAllPermissions ----

  /** No repeats, first occurrence kept: `[...new Set(s)]`. */
  function Dedup(s: seq<Action>): (d: seq<Action>)
    ensures forall a :: a in d <==> a in s
    ensures Distinct(d)
    ensures Distinct(s) ==> d == s
    decreases |s|
  {
    if s == [] then []
    else
      var d := Dedup(s[..|s| - 1]);
      if s[|s| - 1] in d then d else d + [s[|s| - 1]]
  }

  /** Deduplicating `a + b` gives `a` back when `a` has no repeats and already holds `b`. */
  lemma {:induction false} DedupAbsorbs(a: seq<Action>, b: seq<Action>)
    requires Distinct(a)
    requires forall x :: x in b ==> x in a
    ensures Dedup(a + b) == a
    decreases |b|
  {
    if b == [] {
      assert a + b == a;
    } else {
      var c := a + b;
      var front := b[..|b| - 1];
      assert c[..|c| - 1] == a + front;
      DedupAbsorbs(a, front);
      var last := c[|c| - 1];
      assert last == b[|b| - 1];
      assert last in Dedup(a + front);
    }
  }

  /** The action union of one merge step. */
  function UnionActions(a: seq<Action>, b: seq<Action>): (u: seq<Action>)
    ensures forall x :: x in u <==> x in a || x in b
    ensures Distinct(u)
  {
    Dedup(a + b)
  }

  /** Merge the resources of one inherited set into the accumulator. */
  function MergeResources(acc: map<string, ResourcePermission>, inc: map<string, ResourcePermission>)
    : (m: map<string, ResourcePermission>)
    ensures m.Keys == acc.Keys + inc.Keys
  {
    map k | k in acc.Keys + inc.Keys ::
      if k !in inc then acc[k]
      else if k !in acc then inc[k]
      else inc[k].(actions := UnionActions(acc[k].actions, inc[k].actions))
  }

  /** Merge the features of one inherited set: an entry is taken if missing or allowed. */
  function MergeFeatures(acc: map<string, FeaturePermission>, inc: map<string, FeaturePermission>)
    : (m: map<string, FeaturePermission>)
    ensures m.Keys == acc.Keys + inc.Keys
  {
    map f | f in acc.Keys + inc.Keys ::
      if f in inc && (f !in acc || inc[f].allowed) then inc[f] else acc[f]
  }

  function Merge(acc: PermissionSet, p: PermissionSet): PermissionSet
  {
    PermissionSet(MergeResources(acc.resources, p.resources), MergeFeatures(acc.features, p.features))
  }

  /** Merge the sets in list order. */
  function MergeAll(acc: PermissionSet, ps: seq<PermissionSet>): PermissionSet
    decreases |ps|
  {
    if ps == [] then acc else Merge(MergeAll(acc, ps[..|ps| - 1]), ps[|ps| - 1])
  }

  /** The table entry of every role in a list. */
  function SetsOf(table: map<StaffRole, PermissionSet>, roles: seq<StaffRole>): (ps: seq<PermissionSet>)
    requires forall r :: r in roles ==> r in table
    ensures |ps| == |roles|
    ensures forall i :: 0 <= i < |roles| ==> ps[i] == table[roles[i]]
  {
    if roles == [] then [] else [table[roles[0]]] + SetsOf(table, roles[1..])
  }

  /** The sets of the roles a role lists. */
  function InheritedSets(role: StaffRole): (ps: seq<PermissionSet>)
    ensures role in RoleHierarchy
    ensures |ps| == |RoleHierarchy[role]|
    ensures forall i :: 0 <= i < |ps| ==> ps[i] == RolePermissions[RoleHierarchy[role][i]]
  {
    HierarchyDescends(role);
    EveryRoleHasASet();
    SetsOf(RolePermissions, RoleHierarchy[role])
  }

  lemma EveryRoleHasASet()
    ensures forall r :: r in RolePermissions
  {
    forall r ensures r in RolePermissions {
      StaffKeys(r);
    }
  }

  lemma MergeResourcesStep(acc: map<string, ResourcePermission>, inc: map<string, ResourcePermission>,
                           rest: set<string>, k: string)
    requires k in rest && rest <= inc.Keys
    ensures var m := MergeResources(acc, inc - rest);
      MergeResources(acc, inc - (rest - {k}))
        == m[k := if k !in m then inc[k] else inc[k].(actions := UnionActions(m[k].actions, inc[k].actions))]
  {
    var m := MergeResources(acc, inc - rest);
    var m' := MergeResources(acc, inc - (rest - {k}));
    var n := m[k := if k !in m then inc[k] else inc[k].(actions := UnionActions(m[k].actions, inc[k].actions))];
    assert m'.Keys == n.Keys;
    forall j | j in m' ensures m'[j] == n[j] {
      if j != k {
        assert (j in inc - rest) <==> (j in inc - (rest - {k}));
      }
    }
  }

  lemma MergeFeaturesStep(acc: map<string, FeaturePermission>, inc: map<string, FeaturePermission>,
                          rest: set<string>, f: string)
    requires f in rest && rest <= inc.Keys
    ensures var m := MergeFeatures(acc, inc - rest);
      MergeFeatures(acc, inc - (rest - {f}))
        == if f !in m || inc[f].allowed then m[f := inc[f]] else m
  {
    var m := MergeFeatures(acc, inc - rest);
    var m' := MergeFeatures(acc, inc - (rest - {f}));
    var n := if f !in m || inc[f].allowed then m[f := inc[f]] else m;
    assert m'.Keys == n.Keys;
    forall j | j in m' ensures m'[j] == n[j] {
      if j != f {
        assert (j in inc - rest) <==> (j in inc - (rest - {f}));
      }
    }
  }

  /** The resource callback of `getAllPermissions`, over one inherited set. */
  method MergeResourcesInto(resources: map<string, ResourcePermission>, inherited: map<string, ResourcePermission>)
    returns (merged: map<string, ResourcePermission>)
    ensures merged == MergeResources(resources, inherited)
  {
    merged := resources;
    var entries := inherited.Keys;
    while entries != {}
      invariant entries <= inherited.Keys
      invariant merged == MergeResources(resources, inherited - entries)
      decreases entries
    {
      var k :| k in entries;
      var permissions := inherited[k];
      MergeResourcesStep(resources, inherited, entries, k);
      if k !in merged {
        merged := merged[k := permissions];
      } else {
        merged := merged[k := permissions.(actions := UnionActions(merged[k].actions, permissions.actions))];
      }
      entries := entries - {k};
    }
    assert inherited - {} == inherited;
  }

  /** The feature callback of `getAllPermissions`, over one inherited set. */
  method MergeFeaturesInto(features: map<string, FeaturePermission>, inherited: map<string, FeaturePermission>)
    returns (merged: map<string, FeaturePermission>)
    ensures merged == MergeFeatures(features, inherited)
  {
    merged := features;
    var entries := inherited.Keys;
    while entries != {}
      invariant entries <= inherited.Keys
      invariant merged == MergeFeatures(features, inherited - entries)
      decreases entries
    {
      var f :| f in entries;
      var permission := inherited[f];
      MergeFeaturesStep(features, inherited, entries, f);
      if f !in merged || permission.allowed {
        merged := merged[f := permission];
      }
      entries := entries - {f};
    }
    assert inherited - {} == inherited;
  }

  /**
   * `getAllPermissions`: copy the role's own maps, then for each listed role
   * overwrite entries of the copies, unioning actions and taking any allowed
   * feature.
   */
  method GetAllPermissions(role: StaffRole) returns (all: PermissionSet)
    ensures all == MergeAll(RolePermissions[role], InheritedSets(role))
  {
    StaffKeys(role);
    HierarchyDescends(role);
    EveryRoleHasASet();
    var inherited := if role in RoleHierarchy then RoleHierarchy[role] else [];
    all := MergeInherited(RolePermissions, RolePermissions[role], inherited);
  }

  /** The loop of `getAllPermissions` over the listed roles, for any permission table. */
  method MergeInherited(table: map<StaffRole, PermissionSet>, direct: PermissionSet, inherited: seq<StaffRole>)
    returns (all: PermissionSet)
    requires forall r :: r in inherited ==> r in table
    ensures all == MergeAll(direct, SetsOf(table, inherited))
  {
    ghost var sets := SetsOf(table, inherited);
    var resources := direct.resources;
    var features := direct.features;
    for i := 0 to |inherited|
      invariant PermissionSet(resources, features) == MergeAll(direct, sets[..i])
    {
      var inheritedPermissions := table[inherited[i]];
      resources := MergeResourcesInto(resources, inheritedPermissions.resources);
      features := MergeFeaturesInto(features, inheritedPermissions.features);
      assert sets[..i + 1][..i] == sets[..i];
    }
    assert sets[..|inherited|] == sets;
    all := PermissionSet(resources, features);
  }

  // ---- what the merge computes ----

  /** Some set of the list has key `k` granting `a`. */
  ghost predicate SomeGrants(ps: seq<PermissionSet>, k: string, a: Action)
  {
    exists i :: 0 <= i < |ps| && k in ps[i].resources && a in ps[i].resources[k].actions
  }

  ghost predicate SomeHasResource(ps: seq<PermissionSet>, k: string)
  {
    exists i :: 0 <= i < |ps| && k in ps[i].resources
  }

  ghost predicate SomeAllows(ps: seq<PermissionSet>, f: string)
  {
    exists i :: 0 <= i < |ps| && f in ps[i].features && ps[i].features[f].allowed
  }

  ghost predicate SomeHasFeature(ps: seq<PermissionSet>, f: string)
  {
    exists i :: 0 <= i < |ps| && f in ps[i].features
  }

  ghost predicate ListsDistinct(p: PermissionSet)
  {
    forall k :: k in p.resources ==> Distinct(p.resources[k].actions)
  }

  /**
   * Per resource key, the merged actions are the union of the role's own
   * actions and those of every merged set, with no repeats when the inputs
   * have none.
   */
  lemma {:induction false} MergeAllResources(acc: PermissionSet, ps: seq<PermissionSet>, k: string, a: Action)
    ensures k in MergeAll(acc, ps).resources <==> k in acc.resources || SomeHasResource(ps, k)
    ensures k in MergeAll(acc, ps).resources ==>
      (a in MergeAll(acc, ps).resources[k].actions <==>
        (k in acc.resources && a in acc.resources[k].actions) || SomeGrants(ps, k, a))
    decreases |ps|
  {
    if ps != [] {
      var front, last := ps[..|ps| - 1], ps[|ps| - 1];
      MergeAllResources(acc, front, k, a);
      var m := MergeAll(acc, front);
      assert MergeAll(acc, ps) == Merge(m, last);
      assert SomeHasResource(ps, k) <==> SomeHasResource(front, k) || k in last.resources by {
        if SomeHasResource(ps, k) {
          var i :| 0 <= i < |ps| && k in ps[i].resources;
          if i < |front| { assert front[i] == ps[i]; }
        }
        if SomeHasResource(front, k) {
          var i :| 0 <= i < |front| && k in front[i].resources;
          assert ps[i] == front[i];
        }
      }
      assert SomeGrants(ps, k, a) <==> SomeGrants(front, k, a) || (k in last.resources && a in last.resources[k].actions) by {
        if SomeGrants(ps, k, a) {
          var i :| 0 <= i < |ps| && k in ps[i].resources && a in ps[i].resources[k].actions;
          if i < |front| { assert front[i] == ps[i]; }
        }
        if SomeGrants(front, k, a) {
          var i :| 0 <= i < |front| && k in front[i].resources && a in front[i].resources[k].actions;
          assert ps[i] == front[i];
        }
      }
    }
  }

  /** The merged lists repeat no action if no input list does. */
  lemma {:induction false} MergeAllDistinct(acc: PermissionSet, ps: seq<PermissionSet>)
    requires ListsDistinct(acc)
    requires forall i :: 0 <= i < |ps| ==> ListsDistinct(ps[i])
    ensures ListsDistinct(MergeAll(acc, ps))
    decreases |ps|
  {
    if ps != [] {
      MergeAllDistinct(acc, ps[..|ps| - 1]);
    }
  }

  /** A merged feature is allowed iff the role's own entry or some merged entry allows it. */
  lemma {:induction false} MergeAllFeatures(acc: PermissionSet, ps: seq<PermissionSet>, f: string)
    ensures f in MergeAll(acc, ps).features <==> f in acc.features || SomeHasFeature(ps, f)
    ensures f in MergeAll(acc, ps).features ==>
      (MergeAll(acc, ps).features[f].allowed <==>
        (f in acc.features && acc.features[f].allowed) || SomeAllows(ps, f))
    decreases |ps|
  {
    if ps != [] {
      var front, last := ps[..|ps| - 1], ps[|ps| - 1];
      MergeAllFeatures(acc, front, f);
      assert SomeHasFeature(ps, f) <==> SomeHasFeature(front, f) || f in last.features by {
        if SomeHasFeature(ps, f) {
          var i :| 0 <= i < |ps| && f in ps[i].features;
          if i < |front| { assert front[i] == ps[i]; }
        }
        if SomeHasFeature(front, f) {
          var i :| 0 <= i < |front| && f in front[i].features;
          assert ps[i] == front[i];
        }
      }
      assert SomeAllows(ps, f) <==> SomeAllows(front, f) || (f in last.features && last.features[f].allowed) by {
        if SomeAllows(ps, f) {
          var i :| 0 <= i < |ps| && f in ps[i].features && ps[i].features[f].allowed;
          if i < |front| { assert front[i] == ps[i]; }
        }
        if SomeAllows(front, f) {
          var i :| 0 <= i < |front| && f in front[i].features && front[i].features[f].allowed;
          assert ps[i] == front[i];
        }
      }
    }
  }

  /** Merging a set that grants no more than the accumulator changes nothing. */
  lemma MergeDominated(acc: PermissionSet, p: PermissionSet)
    requires Dominates(acc, p)
    requires ListsDistinct(acc)
    ensures Merge(acc, p) == acc
  {
    var r := MergeResources(acc.resources, p.resources);
    forall k | k in r ensures r[k] == acc.resources[k] {
      DedupAbsorbs(acc.resources[k].actions, p.resources[k].actions);
    }
    assert r == acc.resources;
    var f := MergeFeatures(acc.features, p.features);
    assert f == acc.features;
  }

  lemma {:induction false} MergeAllDominated(acc: PermissionSet, ps: seq<PermissionSet>)
    requires forall i :: 0 <= i < |ps| ==> Dominates(acc, ps[i])
    requires ListsDistinct(acc)
    ensures MergeAll(acc, ps) == acc
    decreases |ps|
  {
    if ps != [] {
      MergeAllDominated(acc, ps[..|ps| - 1]);
      MergeDominated(acc, ps[|ps| - 1]);
    }
  }

  /**
   * On the shipped tables the one-level merge adds nothing: every role's
   * merged set is its own set.
   */
  lemma MergeAddsNothing(role: StaffRole)
    ensures MergeAll(RolePermissions[role], InheritedSets(role)) == RolePermissions[role]
  {
    StaffKeys(role);
    HierarchyDescends(role);
    var inherited := RoleHierarchy[role];
    var sets := InheritedSets(role);
    forall i | 0 <= i < |sets| ensures Dominates(RolePermissions[role], sets[i]) {
      HierarchyMonotone(role, inherited[i]);
    }
    forall k | k in RolePermissions[role].resources ensures Distinct(RolePermissions[role].resources[k].actions) {
      StaffEntry(role, k);
    }
    MergeAllDominated(RolePermissions[role], sets);
  }

  // ---- checks over several actions ----

  /** Whether the role holds at least one of `actions` on `resource`; false for no actions. */
  function HasAnyResourcePermission(role: StaffRole, resource: string, actions: seq<Action>): (b: bool)
    ensures b <==> exists i :: 0 <= i < |actions| && HasResourcePermission(role, resource, actions[i])
  {
    if actions == [] then false
    else HasResourcePermission(role, resource, actions[0])
         || HasAnyResourcePermission(role, resource, actions[1..])
  }

  /** Whether the role holds every one of `actions` on `resource`; true for no actions. */
  function HasAllResourcePermissions(role: StaffRole, resource: string, actions: seq<Action>): (b: bool)
    ensures b <==> forall i :: 0 <= i < |actions| ==> HasResourcePermission(role, resource, actions[i])
  {
    if actions == [] then true
    else HasResourcePermission(role, resource, actions[0])
         && HasAllResourcePermissions(role, resource, actions[1..])
  }

  /** Only the owner deletes staff, teams and organizations; the platform admin also deletes competitions. */
  lemma DeleteGrants(role: StaffRole, resource: string)
    ensures HasResourcePermission(role, resource, Delete) <==>
      || (role == Owner && resource in {"rol_staff", "tournaments", "leagues", "teams", "esports_orgs"})
      || (role == PlatformAdmin && resource in {"tournaments", "leagues"})
  {
    StaffKeys(role);
    BaseIsReadOnly();
    if resource in BaseResources {
      BaseResourceCases(resource);
      RolStaffColumn(role);
      TournamentsColumn(role);
      LeaguesColumn(role);
      TeamsColumn(role);
      EsportsOrgsColumn(role);
    }
  }

  /** Who may create tournaments and leagues. */
  lemma CreateGrants(role: StaffRole)
    ensures HasResourcePermission(role, "tournaments", Create) <==> role in {Owner, PlatformAdmin, TournamentDirector}
    ensures HasResourcePermission(role, "leagues", Create) <==> role in {Owner, PlatformAdmin, LeagueDirector}
    ensures HasResourcePermission(role, "rol_staff", Create) <==> role in {Owner, PlatformAdmin}
  {
    StaffKeys(role);
    RolStaffColumn(role);
    TournamentsColumn(role);
    LeaguesColumn(role);
  }

  /**
   * A grant the merged set holds is one the role's own set holds: the
   * inheritance merge never changes a lookup.
   */
  lemma MergedGrantsAreOwn(role: StaffRole, resource: string, action: Action, feature: string)
    ensures var all := MergeAll(RolePermissions[role], InheritedSets(role));
      && ((resource in all.resources && action in all.resources[resource].actions) <==>
            HasResourcePermission(role, resource, action))
      && ((feature in all.features && all.features[feature].allowed) <==>
            HasFeaturePermission(role, feature))
  {
    MergeAddsNothing(role);
  }
}
