/**
 * The site navigation of `src/components/Navigation.tsx`: the five nav items,
 * the highlight of the active one, the click handler that starts a page
 * transition and closes the menu, and the mobile menu's open/closed flag.
 */
module Navigation {
  import opened Wrappers
  import PageTransition
  import App
  import Runtime

  datatype NavItem = NavItem(name: string, path: string)

  /** `navItems`, in display order. */
  const NavItems: seq<NavItem> := [
    NavItem("Home", "/"),
    NavItem("About", "/about"),
    NavItem("Services", "/services"),
    NavItem("Demo", "/demo"),
    NavItem("Contact", "/contact")
  ]

  /** The target of both "Get Started" buttons. */
  const GetStartedPath: string := "/contact"

  /** `isActive(path)`: the item for `path` is highlighted at `pathname`. */
  function IsActive(pathname: string, path: string): (r: bool)
    ensures r <==> pathname == path
  {
    pathname == path
  }

  /** The highlight of each nav item: at most one item is active, and one is
      exactly when the location is one of the five table paths. */
  function ActiveFlags(pathname: string): (r: seq<bool>)
    ensures |r| == |NavItems|
    ensures forall i, j :: 0 <= i < j < |r| && r[i] ==> !r[j]
    ensures (exists i :: 0 <= i < |r| && r[i]) <==> pathname in PageTransition.LoadingMessages
  {
    var r := seq(|NavItems|, i requires 0 <= i < |NavItems| => IsActive(pathname, NavItems[i].path));
    assert pathname == "/" ==> r[0];
    assert pathname == "/about" ==> r[1];
    assert pathname == "/services" ==> r[2];
    assert pathname == "/demo" ==> r[3];
    assert pathname == "/contact" ==> r[4];
    r
  }

  function Paths(items: seq<NavItem>): (r: seq<string>)
    ensures |r| == |items|
    ensures forall i :: 0 <= i < |r| ==> r[i] == items[i].path
  {
    if items == [] then [] else [items[0].path] + Paths(items[1..])
  }

  /** The click targets of the desktop bar: each item, then "Get Started".
      Every target is a key of the message table, so a nav click never shows
      the fallback message, and "Get Started" goes to /contact. */
  function DesktopTargets(): (r: seq<string>)
    ensures |r| == |NavItems| + 1
    ensures forall i :: 0 <= i < |r| ==> r[i] in PageTransition.LoadingMessages
    ensures forall i :: 0 <= i < |r| ==> PageTransition.ResolveMessage(r[i], None) != PageTransition.FallbackMessage
    ensures r[|r| - 1] == "/contact"
  {
    Paths(NavItems) + [GetStartedPath]
  }

  /** The click targets of the mobile menu: the same buttons, rendered only
      while the menu is open. */
  function MobileTargets(isOpen: bool): (r: seq<string>)
    ensures r == [] <==> !isOpen
    ensures isOpen ==> r == DesktopTargets()
  {
    if isOpen then Paths(NavItems) + [GetStartedPath] else []
  }

  /** The nav paths are distinct and are exactly the keys of the message table. */
  lemma NavPathsAreTableKeys()
    ensures forall i, j :: 0 <= i < j < |NavItems| ==> NavItems[i].path != NavItems[j].path
    ensures (set i | 0 <= i < |NavItems| :: NavItems[i].path) == PageTransition.LoadingMessages.Keys
  {
    var s := set i | 0 <= i < |NavItems| :: NavItems[i].path;
    assert NavItems[0].path in s && NavItems[1].path in s && NavItems[2].path in s;
    assert NavItems[3].path in s && NavItems[4].path in s;
  }

  /** The navigation bar's own state: whether the mobile menu is open. */
  class NavigationBar {
    var isOpen: bool

    constructor ()
      ensures !isOpen
    {
      isOpen := false;
    }

    /** The menu button: `setIsOpen(!isOpen)`. */
    method ToggleMenu()
      modifies this
      ensures isOpen == !old(isOpen)
    {
      isOpen := !isOpen;
    }

    /** The logo: a plain link to "/", with no page transition. Every page
        renders its own bar, so leaving another page for Home replaces this
        bar by Home's, whose menu starts closed; on Home the menu is kept. */
    method ClickLogo(app: Runtime.AppRuntime)
      modifies this, app
      ensures app.World() == old(app.World()).(route := "/")
      ensures isOpen <==> old(isOpen) && App.RouteElement(old(app.route)) == App.Home
    {
      if App.RouteElement(app.route) != App.Home {
        isOpen := false;
      }
      app.FollowLink("/");
    }

    /** `handleNavigation(path)`: a transition without an explicit message,
        then the menu closes. */
    method HandleNavigation(path: string, app: Runtime.AppRuntime)
      modifies this, app, app.store
      ensures app.World() == App.NavigateWithLoading(old(app.World()), path, None)
      ensures !isOpen
    {
      app.NavigateWithLoading(path, None);
      isOpen := false;
    }
  }
}
