/** The navigation sidebar: which link is highlighted for the current path, and when a click closes it. */
module Sidebar {
  import opened Common

  datatype NavItem = NavItem(name: string, href: string)

  const Navigation: seq<NavItem> := [
    NavItem("Dashboard", "/"),
    NavItem("Meetings", "/meetings"),
    NavItem("Tasks", "/tasks"),
    NavItem("Review", "/review"),
    NavItem("Settings", "/settings")
  ]

  /** `s.startsWith(prefix)`. */
  predicate StartsWith(s: string, prefix: string) {
    |prefix| <= |s| && s[..|prefix|] == prefix
  }

  /** A link is highlighted on its own path and, except for the root, on every path it is a plain prefix of. */
  function IsActive(pathname: string, href: string): (r: bool)
    ensures href == "/" ==> (r <==> pathname == "/")
    ensures href != "/" ==> (r <==> StartsWith(pathname, href))
  {
    pathname == href || (href != "/" && StartsWith(pathname, href))
  }

  /** The dashboard link is highlighted on "/" and nowhere else. */
  lemma RootActiveOnlyOnRoot(pathname: string)
    ensures IsActive(pathname, Navigation[0].href) <==> pathname == "/"
  {
  }

  /** Every other link is highlighted exactly on its own path and the paths beneath it. */
  lemma OtherItemsActiveOnPrefix(pathname: string, i: nat)
    requires 1 <= i < |Navigation|
    ensures IsActive(pathname, Navigation[i].href) <==> StartsWith(pathname, Navigation[i].href)
  {
  }

  /** The live meeting page keeps Meetings highlighted. */
  lemma LiveMeetingHighlightsMeetings()
    ensures IsActive("/meetings/live", Navigation[1].href)
  {
    assert "/meetings/live"[..9] == "/meetings";
  }

  /** The match is by characters, not path segments: "/tasksX" still highlights Tasks. */
  lemma PrefixIsNotSegmentAware()
    ensures IsActive("/tasksX", Navigation[2].href)
  {
    assert "/tasksX"[..6] == "/tasks";
  }

  /**
   * Whatever the path, at most one link is highlighted: the root link only
   * on "/", where no other href fits, and the other hrefs already differ in
   * their second character, so a path can start with only one of them.
   */
  lemma AtMostOneActive(pathname: string, i: nat, j: nat)
    requires i < j < |Navigation|
    requires IsActive(pathname, Navigation[i].href)
    ensures !IsActive(pathname, Navigation[j].href)
  {
    var a := Navigation[i].href;
    var b := Navigation[j].href;
    assert |b| > 1 && b != "/";
    if i == 0 {
      assert pathname == "/";
    } else {
      assert |a| > 1 && StartsWith(pathname, a);
      assert pathname[1] == a[1];
      assert a[1] != b[1];
    }
  }

  /** Whether the sidebar is still open after a link click: `isMobile && close()`. */
  function OpenAfterClick(isMobile: Option<bool>, open: bool): (r: bool)
    ensures isMobile == Some(true) ==> !r
    ensures isMobile != Some(true) ==> r == open
  {
    match isMobile
    case Some(true) => false
    case _ => open
  }
}
