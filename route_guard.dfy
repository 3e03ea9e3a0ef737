/** The route guard and the application's route table. A guarded route
    names the roles it admits; the guard waits while the session loads,
    sends a visitor without an account or profile to the login page, and
    sends a signed-in user of another role to that role's own dashboard. */
module RouteGuard {
  import opened Wrappers
  import opened Types

  datatype Decision = ShowSpinner | RedirectTo(path: string) | RenderChildren

  /** Whether the profile's role is one of `allowed`. */
  predicate Admits(allowed: seq<Role>, role: string)
  {
    exists i :: 0 <= i < |allowed| && RoleName(allowed[i]) == role
  }

  /** Where a user of a given role is sent when a route refuses them. */
  function RoleHome(role: string): (path: string)
    ensures ParseRole(role).Some? ==> path == "/" + role
    ensures ParseRole(role).None? ==> path == "/"
  {
    match role
    case "admin" => "/admin"
    case "volunteer" => "/volunteer"
    case "ndrf" => "/ndrf"
    case _ => "/"
  }

  /** `ProtectedRoute`, given the session state. */
  function Guard(loading: bool, currentUser: Option<string>, profile: Option<User>, allowed: seq<Role>): (d: Decision)
    ensures d == ShowSpinner <==> loading
    ensures d == RenderChildren <==> !loading && currentUser.Some? && profile.Some? && Admits(allowed, profile.value.role)
    ensures !loading && (currentUser.None? || profile.None?) ==> d == RedirectTo("/login")
    ensures !loading && currentUser.Some? && profile.Some? && !Admits(allowed, profile.value.role) ==>
      d == RedirectTo(RoleHome(profile.value.role))
  {
    if loading then ShowSpinner
    else if currentUser.None? || profile.None? then RedirectTo("/login")
    else if !Admits(allowed, profile.value.role) then RedirectTo(RoleHome(profile.value.role))
    else RenderChildren
  }

  /** The application's routes that the guard protects, with the roles each
      admits; every other route is public. */
  const GuardedRoutes: seq<(string, seq<Role>)> := [
    ("/admin", [Admin]), ("/admin/report/:id", [Admin]),
    ("/volunteer", [Volunteer]), ("/volunteer/report/:id", [Volunteer]),
    ("/ndrf", [Ndrf]), ("/ndrf/report/:id", [Ndrf])
  ]

  /** The roles a route admits, or none for a public route. */
  function RouteRoles(path: string): (r: Option<seq<Role>>)
    ensures r.Some? <==> exists i :: 0 <= i < |GuardedRoutes| && GuardedRoutes[i].0 == path
  {
    RouteRolesIn(GuardedRoutes, path)
  }

  function RouteRolesIn(routes: seq<(string, seq<Role>)>, path: string): (r: Option<seq<Role>>)
    ensures r.Some? <==> exists i :: 0 <= i < |routes| && routes[i].0 == path
    ensures r.Some? ==> exists i :: 0 <= i < |routes| && routes[i] == (path, r.value)
  {
    if routes == [] then None
    else if routes[0].0 == path then Some(routes[0].1)
    else
      var r := RouteRolesIn(routes[1..], path);
      assert r.Some? ==> exists i :: 0 <= i < |routes[1..]| && routes[1..][i] == (path, r.value);
      r
  }

  /** Every role's home is a route admitting exactly that role, and the other
      redirect targets are public. */
  lemma HomesAreOwnRoutes(role: Role)
    ensures RouteRoles(RoleHome(RoleName(role))) == Some([role])
    ensures RouteRoles("/login").None? && RouteRoles("/").None?
  {
    PublicPaths();
    match role
    case Admin =>
      assert RoleHome("admin") == GuardedRoutes[0].0;
    case Volunteer =>
      assert RoleHome("volunteer") == GuardedRoutes[2].0;
      assert RouteRolesIn(GuardedRoutes, "/volunteer") == RouteRolesIn(GuardedRoutes[2..], "/volunteer");
    case Ndrf =>
      assert RoleHome("ndrf") == GuardedRoutes[4].0;
      assert RouteRolesIn(GuardedRoutes, "/ndrf") == RouteRolesIn(GuardedRoutes[2..], "/ndrf")
        == RouteRolesIn(GuardedRoutes[4..], "/ndrf");
  }

  /** Neither "/login" nor "/" is in the route table. */
  lemma PublicPaths()
    ensures RouteRoles("/login").None? && RouteRoles("/").None?
  {
    assert forall i :: 0 <= i < |GuardedRoutes| ==> GuardedRoutes[i].0 != "/login" && GuardedRoutes[i].0 != "/";
  }

  /** No redirect loop: whatever route refuses a settled session, the route
      it is sent to is public or renders for that session. */
  lemma {:induction false} RedirectsSettle(currentUser: Option<string>, profile: Option<User>, path: string)
    requires RouteRoles(path).Some?
    ensures match Guard(false, currentUser, profile, RouteRoles(path).value)
      case RedirectTo(target) =>
        RouteRoles(target).None? || Guard(false, currentUser, profile, RouteRoles(target).value) == RenderChildren
      case _ => true
  {
    var d := Guard(false, currentUser, profile, RouteRoles(path).value);
    if d.RedirectTo? {
      HomesAreOwnRoutes(Admin);
      if currentUser.Some? && profile.Some? {
        var parsed := ParseRole(profile.value.role);
        if parsed.Some? {
          HomesAreOwnRoutes(parsed.value);
          assert RoleName(parsed.value) == profile.value.role;
          assert Admits([parsed.value], profile.value.role) by {
            assert RoleName([parsed.value][0]) == profile.value.role;
          }
        }
      }
    }
  }

  /** Under the provider, which shows its children only once loading is
      over, the guard never shows its spinner. */
  lemma NoSpinnerUnderProvider(loading: bool, currentUser: Option<string>, profile: Option<User>, allowed: seq<Role>)
    requires !loading
    ensures Guard(loading, currentUser, profile, allowed) != ShowSpinner
  {
  }

  /** A profile whose role is not one of the three names is refused by every
      guarded route and sent to the home page. */
  lemma UnknownRoleGoesHome(currentUser: string, profile: User, path: string)
    requires RouteRoles(path).Some? && ParseRole(profile.role).None?
    ensures Guard(false, Some(currentUser), Some(profile), RouteRoles(path).value) == RedirectTo("/")
  {
    var allowed := RouteRoles(path).value;
    if Admits(allowed, profile.role) {
      var i :| 0 <= i < |allowed| && RoleName(allowed[i]) == profile.role;
      RoleNameRoundTrip(allowed[i]);
    }
  }
}
