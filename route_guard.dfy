/**
 * The server request hooks: resolving the caller's session and staff row
 * into request locals, then the authentication guard that redirects or lets
 * the request through. The session store, the token check and the
 * `staff_members` query are inputs.
 */
module RouteGuard {
  import opened Types
  import opened Config
  import Evaluator
  import opened StaffRows

  /** What the guard does with a request. */
  datatype Decision = Resolve | Redirect(status: int, location: string)

  /** The result of validating the session token with the auth server. */
  datatype UserLookup = UserError | NoUser | UserFound(id: string)

  /** The request locals the guard reads. */
  datatype Locals = Locals(session: bool, user: Option<string>, staffMember: Option<StaffMember>)

  /**
   * The locals after `safeGetSession`: no session, or a token that fails
   * validation, gives no session, no user and no staff row; a validated user
   * gets their single staff row, if any.
   */
  function SafeGetSession(hasSession: bool, lookup: UserLookup, rows: seq<StaffMember>): (l: Locals)
    ensures l.session <==> hasSession && !lookup.UserError?
    ensures l.user.Some? <==> hasSession && lookup.UserFound?
    ensures l.user.Some? ==> lookup == UserFound(l.user.value)
    ensures l.staffMember.Some? ==> l.user.Some? && l.staffMember.value in rows && l.staffMember.value.userId == l.user.value
    ensures hasSession && lookup.UserFound? ==> l.staffMember == SingleRow(rows, lookup.id)
  {
    if !hasSession then Locals(false, None, None)
    else if lookup.UserError? then Locals(false, None, None)
    else if lookup.UserFound? then Locals(true, Some(lookup.id), SingleRow(rows, lookup.id))
    else Locals(true, None, None)
  }

  // ---- path matching ----

  predicate StartsWith(s: string, prefix: string)
  {
    |prefix| <= |s| && s[..|prefix|] == prefix
  }

  /** A role-protected path prefix and the roles it admits. */
  datatype RoutePattern = RoutePattern(prefix: string, roles: seq<StaffRole>)

  /** The protected areas, in the order the guard tries them. */
  const RoutePatterns: seq<RoutePattern> := [
    RoutePattern("/admin/", [Owner, PlatformAdmin]),
    RoutePattern("/tournaments/", [Owner, PlatformAdmin, TournamentDirector, TournamentCoordinator]),
    RoutePattern("/leagues/", [Owner, PlatformAdmin, LeagueDirector, LeagueCoordinator]),
    RoutePattern("/staff/", [Owner, PlatformAdmin])
  ]

  /** The first pattern whose prefix `path` starts with. */
  function FindRoute(routes: seq<RoutePattern>, path: string): (r: Option<RoutePattern>)
    ensures r.None? <==> forall i :: 0 <= i < |routes| ==> !StartsWith(path, routes[i].prefix)
    ensures r.Some? ==> exists i :: && 0 <= i < |routes| && routes[i] == r.value && StartsWith(path, r.value.prefix)
                                    && forall j :: 0 <= j < i ==> !StartsWith(path, routes[j].prefix)
  {
    if routes == [] then None
    else if StartsWith(path, routes[0].prefix) then Some(routes[0])
    else
      var r := FindRoute(routes[1..], path);
      assert r.Some? ==> exists i :: && 1 <= i < |routes| && routes[i] == r.value && StartsWith(path, r.value.prefix)
                                     && forall j :: 0 <= j < i ==> !StartsWith(path, routes[j].prefix) by {
        if r.Some? {
          var i :| 0 <= i < |routes| - 1 && routes[1..][i] == r.value && StartsWith(path, r.value.prefix)
            && forall j :: 0 <= j < i ==> !StartsWith(path, routes[1..][j].prefix);
          assert forall j :: 1 <= j < i + 1 ==> routes[j] == routes[1..][j - 1];
        }
      }
      assert r.None? ==> forall i :: 1 <= i < |routes| ==> !StartsWith(path, routes[i].prefix) by {
        if r.None? {
          forall i | 1 <= i < |routes| ensures !StartsWith(path, routes[i].prefix) {
            assert routes[i] == routes[1..][i - 1];
          }
        }
      }
      r
  }

  /** The longest prefix of `s` that holds no slash. */
  function TakeUntilSlash(s: string): (t: string)
    ensures |t| <= |s| && t == s[..|t|]
    ensures '/' !in t
    ensures |t| == |s| || s[|t|] == '/'
  {
    if s == [] || s[0] == '/' then []
    else [s[0]] + TakeUntilSlash(s[1..])
  }

  const OrgPrefix: string := "/organizations/"

  /**
   * The organization id of an organization route: the non-empty run of
   * non-slash characters right after the prefix.
   */
  function OrgSegment(path: string): (o: Option<string>)
    ensures o.Some? ==> |o.value| > 0 && '/' !in o.value && StartsWith(path, OrgPrefix + o.value)
    ensures o.Some? ==> |path| == |OrgPrefix| + |o.value| || path[|OrgPrefix| + |o.value|] == '/'
    ensures o.None? <==> !StartsWith(path, OrgPrefix) || |path| == |OrgPrefix| || path[|OrgPrefix|] == '/'
  {
    if !StartsWith(path, OrgPrefix) then None
    else
      var id := TakeUntilSlash(path[|OrgPrefix|..]);
      assert path[..|OrgPrefix| + |id|] == OrgPrefix + id by {
        assert path == path[..|OrgPrefix|] + path[|OrgPrefix|..];
        assert path[..|OrgPrefix| + |id|] == path[..|OrgPrefix|] + path[|OrgPrefix|..][..|id|];
      }
      if id == [] then None else Some(id)
  }

  // ---- the guard ----

  /** Whether a required role is the member's role or one it covers. */
  function AnyRoleCovered(role: StaffRole, required: seq<StaffRole>): (b: bool)
    ensures b <==> exists i :: 0 <= i < |required| && Evaluator.InheritsRole(role, required[i])
  {
    if required == [] then false
    else role == required[0] || Evaluator.InheritsRole(role, required[0])
         || AnyRoleCovered(role, required[1..])
  }

  /** Staff access to a protected area: a staff row whose role covers a required role. */
  function HasRouteAccess(staff: Option<StaffMember>, required: seq<StaffRole>): (b: bool)
    ensures b <==> staff.Some? && exists r :: r in required && Evaluator.InheritsRole(staff.value.role, r)
  {
    if staff.None? then false
    else
      var b := AnyRoleCovered(staff.value.role, required);
      assert b ==> exists r :: r in required && Evaluator.InheritsRole(staff.value.role, r);
      assert (exists r :: r in required && Evaluator.InheritsRole(staff.value.role, r)) ==> b by {
        if exists r :: r in required && Evaluator.InheritsRole(staff.value.role, r) {
          var r :| r in required && Evaluator.InheritsRole(staff.value.role, r);
          var i :| 0 <= i < |required| && required[i] == r;
        }
      }
      b
  }

  /** Organization access: the owner and the platform admin see all, others only their own. */
  function HasOrgAccess(staff: Option<StaffMember>, orgId: string): (b: bool)
    ensures b ==> staff.Some?
    ensures staff.Some? && staff.value.role in {Owner, PlatformAdmin} ==> b
    ensures staff.Some? && staff.value.role !in {Owner, PlatformAdmin} ==> (b <==> staff.value.organizationId == Some(orgId))
  {
    staff.Some? && (staff.value.role in [Owner, PlatformAdmin] || staff.value.organizationId == Some(orgId))
  }

  /** The authentication guard, redirect by redirect in the order they fire. */
  function AuthGuard(path: string, locals: Locals): (d: Decision)
    ensures d.Redirect? ==> d.status == 303 && d.location in {"/auth", "/private", "/unauthorized"}
    ensures d == Redirect(303, "/auth") <==> !locals.session && StartsWith(path, "/private")
    ensures d == Redirect(303, "/private") <==> locals.session && path == "/auth"
  {
    if !locals.session && StartsWith(path, "/private") then Redirect(303, "/auth")
    else if locals.session && path == "/auth" then Redirect(303, "/private")
    else
      var matched := FindRoute(RoutePatterns, path);
      if matched.Some? && !HasRouteAccess(locals.staffMember, matched.value.roles) then Redirect(303, "/unauthorized")
      else
        var org := OrgSegment(path);
        if org.Some? && !HasOrgAccess(locals.staffMember, org.value) then Redirect(303, "/unauthorized")
        else Resolve
  }

  // ---- what the guard enforces ----

  /** Distinct first characters after the slash keep the areas apart. */
  lemma PrefixesDisjoint(path: string)
    ensures StartsWith(path, "/private") ==> forall i :: 0 <= i < |RoutePatterns| ==> !StartsWith(path, RoutePatterns[i].prefix)
    ensures StartsWith(path, OrgPrefix) ==> forall i :: 0 <= i < |RoutePatterns| ==> !StartsWith(path, RoutePatterns[i].prefix)
    ensures StartsWith(path, OrgPrefix) ==> !StartsWith(path, "/private") && path != "/auth"
    ensures forall i :: 0 <= i < |RoutePatterns| && StartsWith(path, RoutePatterns[i].prefix) ==>
      !StartsWith(path, "/private") && path != "/auth" && !StartsWith(path, OrgPrefix)
  {
    forall i | 0 <= i < |RoutePatterns| && StartsWith(path, RoutePatterns[i].prefix)
      ensures !StartsWith(path, "/private") && path != "/auth" && !StartsWith(path, OrgPrefix)
    {
      assert path[1] == RoutePatterns[i].prefix[1];
    }
    if StartsWith(path, "/private") || StartsWith(path, OrgPrefix) {
      assert path[1] in {'p', 'o'};
      forall i | 0 <= i < |RoutePatterns| ensures !StartsWith(path, RoutePatterns[i].prefix) {
        assert RoutePatterns[i].prefix[1] in {'a', 't', 'l', 's'};
      }
    }
  }

  /** A path lies in at most one protected area. */
  lemma RoutePrefixesExclusive(path: string, i: int, j: int)
    requires 0 <= i < |RoutePatterns| && StartsWith(path, RoutePatterns[i].prefix)
    requires 0 <= j < |RoutePatterns| && StartsWith(path, RoutePatterns[j].prefix)
    ensures i == j
  {
    assert path[1] == RoutePatterns[i].prefix[1];
    assert path[1] == RoutePatterns[j].prefix[1];
  }

  /**
   * Each area's role list already holds every role that covers one of its
   * roles, so the inheritance check admits no one beyond the list itself.
   */
  lemma RouteRolesClosed(i: int, role: StaffRole)
    requires 0 <= i < |RoutePatterns|
    ensures (exists r :: r in RoutePatterns[i].roles && Evaluator.InheritsRole(role, r)) <==> role in RoutePatterns[i].roles
  {
    var roles := RoutePatterns[i].roles;
    assert Owner in roles && PlatformAdmin in roles;
    assert TournamentCoordinator in roles ==> TournamentDirector in roles;
    assert LeagueCoordinator in roles ==> LeagueDirector in roles;
    if role in roles {
      assert Evaluator.InheritsRole(role, role);
    }
    if exists r :: r in roles && Evaluator.InheritsRole(role, r) {
      var r :| r in roles && Evaluator.InheritsRole(role, r);
      Evaluator.InheritsRoleIsListed(role, r);
      if role != r {
        HierarchyEdge(role, r);
      }
    }
  }

  /**
   * A request that no rule catches is let through: not a signed-out request
   * for the private area, not a signed-in one for the sign-in page, outside
   * every protected area and with no organization segment.
   */
  lemma DefaultResolve(path: string, locals: Locals)
    requires locals.session || !StartsWith(path, "/private")
    requires !locals.session || path != "/auth"
    requires forall i :: 0 <= i < |RoutePatterns| ==> !StartsWith(path, RoutePatterns[i].prefix)
    requires OrgSegment(path).None?
    ensures AuthGuard(path, locals) == Resolve
  {
  }

  /** An empty organization segment captures nothing, so `/organizations//x` is not checked. */
  lemma EmptyOrgSegmentUnchecked(locals: Locals)
    ensures AuthGuard("/organizations//x", locals) == Resolve
  {
    var path := "/organizations//x";
    assert StartsWith(path, OrgPrefix) && path[|OrgPrefix|] == '/';
    PrefixesDisjoint(path);
    DefaultResolve(path, locals);
  }

  /** A protected area lets a request through exactly when the staff row's role is listed for it. */
  lemma ProtectedRouteAccess(path: string, locals: Locals, i: int)
    requires 0 <= i < |RoutePatterns| && StartsWith(path, RoutePatterns[i].prefix)
    ensures AuthGuard(path, locals) == Resolve <==>
      locals.staffMember.Some? && locals.staffMember.value.role in RoutePatterns[i].roles
    ensures AuthGuard(path, locals) != Resolve ==> AuthGuard(path, locals) == Redirect(303, "/unauthorized")
  {
    PrefixesDisjoint(path);
    var matched := FindRoute(RoutePatterns, path);
    var k :| 0 <= k < |RoutePatterns| && RoutePatterns[k] == matched.value && StartsWith(path, matched.value.prefix)
      && forall j :: 0 <= j < k ==> !StartsWith(path, RoutePatterns[j].prefix);
    RoutePrefixesExclusive(path, k, i);
    if locals.staffMember.Some? {
      RouteRolesClosed(i, locals.staffMember.value.role);
    }
    var org := OrgSegment(path);
    assert org.None?;
  }

  /**
   * No session means no staff row, so a signed-out caller of `/admin/...`
   * lands on the unauthorized page, not the sign-in page.
   */
  lemma SignedOutAdminIsUnauthorized(path: string, hasSession: bool, lookup: UserLookup, rows: seq<StaffMember>)
    requires StartsWith(path, "/admin/")
    requires !hasSession || lookup.UserError?
    ensures AuthGuard(path, SafeGetSession(hasSession, lookup, rows)) == Redirect(303, "/unauthorized")
  {
    ProtectedRouteAccess(path, SafeGetSession(hasSession, lookup, rows), 0);
  }

  /** Only the prefix with its trailing slash is protected: `/admin` itself passes. */
  lemma BareAdminPasses(locals: Locals)
    ensures AuthGuard("/admin", locals) == Resolve
  {
    var path := "/admin";
    forall i | 0 <= i < |RoutePatterns| ensures !StartsWith(path, RoutePatterns[i].prefix) {
      if i == 0 {
        assert |path| < |RoutePatterns[0].prefix|;
      } else {
        assert path[1] != RoutePatterns[i].prefix[1];
      }
    }
    assert !StartsWith(path, OrgPrefix) by {
      assert |path| < |OrgPrefix|;
    }
  }

  /**
   * An organization route lets a request through exactly for the owner, the
   * platform admin and staff belonging to that organization.
   */
  lemma OrgRouteAccess(path: string, locals: Locals, orgId: string)
    requires OrgSegment(path) == Some(orgId)
    ensures AuthGuard(path, locals) == Resolve <==>
      && locals.staffMember.Some?
      && (locals.staffMember.value.role in {Owner, PlatformAdmin} || locals.staffMember.value.organizationId == Some(orgId))
    ensures AuthGuard(path, locals) != Resolve ==> AuthGuard(path, locals) == Redirect(303, "/unauthorized")
  {
    PrefixesDisjoint(path);
  }

  /** The segment of `/organizations/<id>` followed by nothing or by a slash is `<id>`. */
  lemma OrgSegmentOf(id: string, rest: string)
    requires |id| > 0 && '/' !in id
    requires rest == [] || rest[0] == '/'
    ensures OrgSegment(OrgPrefix + id + rest) == Some(id)
  {
    var path := OrgPrefix + id + rest;
    assert path[..|OrgPrefix|] == OrgPrefix;
    assert path[|OrgPrefix|..] == id + rest;
    TakeUntilSlashOf(id, rest);
  }

  lemma {:induction false} TakeUntilSlashOf(id: string, rest: string)
    requires '/' !in id
    requires rest == [] || rest[0] == '/'
    ensures TakeUntilSlash(id + rest) == id
  {
    if id == [] {
      assert id + rest == rest;
    } else {
      assert (id + rest)[0] == id[0];
      assert (id + rest)[1..] == id[1..] + rest;
      TakeUntilSlashOf(id[1..], rest);
    }
  }

  /** A tournament director of one organization is turned away from another's pages. */
  lemma OtherOrganizationDenied(m: StaffMember)
    requires m.role == TournamentDirector && m.organizationId == Some("org-1")
    ensures AuthGuard("/organizations/org-2/teams", Locals(true, Some(m.userId), Some(m))) == Redirect(303, "/unauthorized")
  {
    var l := Locals(true, Some(m.userId), Some(m));
    OrgSegmentOf("org-2", "/teams");
    assert OrgPrefix + "org-2" + "/teams" == "/organizations/org-2/teams";
    OrgRouteAccess("/organizations/org-2/teams", l, "org-2");
  }

  /** ... and let into their own organization's pages. */
  lemma OwnOrganizationAdmitted(m: StaffMember)
    requires m.role == TournamentDirector && m.organizationId == Some("org-1")
    ensures AuthGuard("/organizations/org-1/teams", Locals(true, Some(m.userId), Some(m))) == Resolve
  {
    var l := Locals(true, Some(m.userId), Some(m));
    OrgSegmentOf("org-1", "/teams");
    assert OrgPrefix + "org-1" + "/teams" == "/organizations/org-1/teams";
    OrgRouteAccess("/organizations/org-1/teams", l, "org-1");
  }

  /** Customer service may not open tournament pages; the platform admin may. */
  lemma TournamentPageByRole(m: StaffMember, l: Locals)
    requires l.staffMember == Some(m)
    ensures m.role == CustomerService ==> AuthGuard("/tournaments/5", l) == Redirect(303, "/unauthorized")
    ensures m.role in {PlatformAdmin, TournamentDirector, TournamentCoordinator} ==> AuthGuard("/tournaments/5", l) == Resolve
  {
    assert StartsWith("/tournaments/5", RoutePatterns[1].prefix);
    ProtectedRouteAccess("/tournaments/5", l, 1);
  }
}
