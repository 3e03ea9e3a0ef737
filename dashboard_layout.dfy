/** The dashboard frame: the sidebar links for the profile's role, which of
    them is highlighted for the current path, and signing out. The role is
    the profile's stored string, so an unrecognised role still gets the two
    common links under its own base path. */
module DashboardLayout {
  import opened Wrappers
  import opened Types
  import Text
  import AuthSession

  datatype NavLink = NavLink(caption: string, href: string)

  /** The base path of the role's pages. */
  function BaseUrl(role: string): (base: string)
    ensures |base| == |role| + 1 && base[0] == '/' && base[1..] == role
  {
    "/" + role
  }

  /** `getNavLinks`: two common links, then two per recognised role. */
  function NavLinks(role: string): (links: seq<NavLink>)
    ensures |links| == if ParseRole(role).Some? then 4 else 2
    ensures links[0] == NavLink("Dashboard", BaseUrl(role))
    ensures links[1] == NavLink("Disaster Reports", BaseUrl(role) + "/reports")
  {
    var base := BaseUrl(role);
    var common := [NavLink("Dashboard", base), NavLink("Disaster Reports", base + "/reports")];
    match role
    case "admin" => common + [NavLink("User Management", base + "/users"), NavLink("Settings", base + "/settings")]
    case "volunteer" => common + [NavLink("My Assignments", base + "/assignments"),
                                  NavLink("Notifications", base + "/notifications")]
    case "ndrf" => common + [NavLink("Rescue Operations", base + "/operations"), NavLink("Reports", base + "/reports")]
    case _ => common
  }

  /** `isActive`: the dashboard link only on its exact path, the others on
      every path they prefix; either way a highlighted link's target is a
      prefix of the path. */
  predicate IsActive(pathname: string, base: string, href: string)
    ensures IsActive(pathname, base, href) ==> Text.StartsWith(pathname, href)
    ensures href != base ==> (IsActive(pathname, base, href) <==> Text.StartsWith(pathname, href))
  {
    if href == base then pathname == base else Text.StartsWith(pathname, href)
  }

  /** The sidebar, each link with whether it is highlighted; the frame
      renders nothing without a profile. */
  function Sidebar(profile: Option<User>, pathname: string): (items: Option<seq<(NavLink, bool)>>)
    ensures profile.None? <==> items.None?
    ensures items.Some? ==> (|items.value| == |NavLinks(profile.value.role)|
      && forall i :: 0 <= i < |items.value| ==> (items.value[i].0 == NavLinks(profile.value.role)[i]
        && (items.value[i].1 <==> IsActive(pathname, BaseUrl(profile.value.role), items.value[i].0.href))))
  {
    if profile.None? then None
    else
      var links := NavLinks(profile.value.role);
      var base := BaseUrl(profile.value.role);
      Some(seq(|links|, i requires 0 <= i < |links| => (links[i], IsActive(pathname, base, links[i].href))))
  }

  /** Every link stays under the role's base path, and only the first one
      is the base path itself. */
  lemma LinksUnderBase(role: string)
    ensures forall l :: l in NavLinks(role) ==> Text.StartsWith(l.href, BaseUrl(role))
    ensures forall i :: 1 <= i < |NavLinks(role)| ==> |NavLinks(role)[i].href| > |BaseUrl(role)|
  {
    var base := BaseUrl(role);
    var links := NavLinks(role);
    var rests := match role
      case "admin" => ["", "/reports", "/users", "/settings"]
      case "volunteer" => ["", "/reports", "/assignments", "/notifications"]
      case "ndrf" => ["", "/reports", "/operations", "/reports"]
      case _ => ["", "/reports"];
    assert |links| == |rests|;
    forall i | 0 <= i < |links|
      ensures Text.StartsWith(links[i].href, base) && (i >= 1 ==> |links[i].href| > |base|)
    {
      assert links[i].href == base + rests[i];
      assert (base + rests[i])[..|base|] == base;
    }
  }

  /** On the role's base path only the dashboard link is highlighted. */
  lemma OnlyDashboardAtBase(role: string)
    ensures IsActive(BaseUrl(role), BaseUrl(role), NavLinks(role)[0].href)
    ensures forall i :: 1 <= i < |NavLinks(role)| ==> !IsActive(BaseUrl(role), BaseUrl(role), NavLinks(role)[i].href)
  {
    LinksUnderBase(role);
  }

  /** The NDRF sidebar lists the same target twice ("Disaster Reports" and
      "Reports"), so the two are always highlighted together. */
  lemma NdrfReportsLinkTwice(pathname: string)
    ensures var links := NavLinks("ndrf");
      links[1].href == links[3].href && links[1].caption != links[3].caption
      && (IsActive(pathname, BaseUrl("ndrf"), links[1].href) <==> IsActive(pathname, BaseUrl("ndrf"), links[3].href))
  {
  }

  /** On a report's detail page no sidebar link is highlighted: the reports
      link ends in "/reports", the detail path continues with "/report/". */
  lemma NothingActiveOnDetails(role: Role, id: string)
    ensures var base := BaseUrl(RoleName(role));
      var path := base + "/report/" + id;
      forall l :: l in NavLinks(RoleName(role)) ==> !IsActive(path, base, l.href)
  {
    var base := BaseUrl(RoleName(role));
    var path := base + "/report/" + id;
    var links := NavLinks(RoleName(role));
    var rests := match role
      case Admin => ["", "/reports", "/users", "/settings"]
      case Volunteer => ["", "/reports", "/assignments", "/notifications"]
      case Ndrf => ["", "/reports", "/operations", "/reports"];
    assert |links| == |rests|;
    forall i | 0 <= i < |links| ensures !IsActive(path, base, links[i].href) {
      if i == 0 {
        assert |path| > |base|;
      } else {
        assert links[i].href == base + rests[i];
        if rests[i] == "/reports" {
          SuffixMisses(base, rests[i], id, 7);
        } else {
          assert rests[i][1] != 'r';
          SuffixMisses(base, rests[i], id, 1);
        }
      }
    }
  }

  /** A link `base + rest` whose suffix leaves "/report/" at position `k`
      does not prefix the detail path. */
  lemma SuffixMisses(base: string, rest: string, id: string, k: nat)
    requires k < |rest| && k < 8 && rest[k] != "/report/"[k]
    ensures !Text.StartsWith(base + "/report/" + id, base + rest)
  {
    var path := base + "/report/" + id;
    assert path[|base| + k] == "/report/"[k];
    assert (base + rest)[|base| + k] == rest[k];
    PrefixDiffers(path, base + rest, |base| + k);
  }

  /** A string that differs from `prefix` at a position both have does not
      start with `prefix`. */
  lemma PrefixDiffers(s: string, prefix: string, k: nat)
    requires k < |s| && k < |prefix| && s[k] != prefix[k]
    ensures !Text.StartsWith(s, prefix)
  {
  }

  class Layout {
    const session: AuthSession.Session
    var navigatedTo: Option<string>

    constructor (session: AuthSession.Session)
      ensures this.session == session && navigatedTo.None?
    {
      this.session := session;
      navigatedTo := None;
    }

    /** `handleSignOut`: signs out and, once signed out, goes to the home
        page; a failure is only logged. */
    method HandleSignOut() returns (r: Outcome)
      requires session.Valid()
      modifies this`navigatedTo, session`authUser, session`userProfile
      ensures session.Valid()
      ensures r.Pass? ==> navigatedTo == Some("/") && session.authUser.None? && session.userProfile.None?
      ensures r.Fail? ==> navigatedTo == old(navigatedTo) && session.userProfile == old(session.userProfile)
    {
      r := session.SignOut();
      if r.Pass? {
        navigatedTo := Some("/");
      }
    }
  }
}
