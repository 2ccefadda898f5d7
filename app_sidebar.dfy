/** The sidebar's menu: marking the group that holds the current path as
    active, in place on the shared navigation constant. */
module AppSidebar {
  import opened Wrappers

  datatype NavItem = NavItem(title: string, url: string)

  /** A top-level menu group; its `isActive` flag is updated in place. */
  class NavGroup {
    const title: string
    const url: string
    var isActive: bool
    const items: seq<NavItem>

    constructor (title: string, url: string, isActive: bool, items: seq<NavItem>)
      ensures this.title == title && this.url == url && this.isActive == isActive && this.items == items
    {
      this.title, this.url, this.isActive, this.items := title, url, isActive, items;
    }
  }

  /** `item.items.find(i => i.url === pathname)`: the first sub-item whose
      url is the path, if any. */
  function FindByUrl(items: seq<NavItem>, pathname: string): (found: Option<NavItem>)
    ensures found.Some? ==> found.value in items && found.value.url == pathname
    ensures found.Some? ==> exists k :: 0 <= k < |items| && items[k] == found.value
                                        && forall j :: 0 <= j < k ==> items[j].url != pathname
    ensures found.None? <==> forall i :: i in items ==> i.url != pathname
  {
    if items == [] then None
    else if items[0].url == pathname then Some(items[0])
    else FindByUrl(items[1..], pathname)
  }

  /** The initial `nav_links.navMain`: one inactive "Dashboard" group whose
      only sub-item is the overview at `/`. */
  method InitialNavMain() returns (navMain: seq<NavGroup>)
    ensures |navMain| == 1 && fresh(navMain[0])
    ensures !navMain[0].isActive && navMain[0].items == [NavItem("Overview", "/")]
  {
    var dashboard := new NavGroup("Dashboard", "#", false, [NavItem("Overview", "/")]);
    navMain := [dashboard];
  }

  /** The `navMain.map(...)` in `AppSidebar`: every group with a sub-item at
      the current path is set active, in place; no flag is ever cleared; the
      menu is the same groups in the same order. */
  method NavMenu(navMain: seq<NavGroup>, pathname: string) returns (menu: seq<NavGroup>)
    modifies set g | g in navMain
    ensures menu == navMain
    ensures forall i :: 0 <= i < |navMain| ==>
      navMain[i].isActive == (old(navMain[i].isActive) || FindByUrl(navMain[i].items, pathname).Some?)
  {
    menu := [];
    var k := 0;
    while k < |navMain|
      invariant 0 <= k <= |navMain|
      invariant menu == navMain[..k]
      invariant forall i :: 0 <= i < |navMain| ==>
        navMain[i].isActive ==> old(navMain[i].isActive) || FindByUrl(navMain[i].items, pathname).Some?
      invariant forall i :: 0 <= i < |navMain| ==> old(navMain[i].isActive) ==> navMain[i].isActive
      invariant forall i :: 0 <= i < k ==>
        navMain[i].isActive == (old(navMain[i].isActive) || FindByUrl(navMain[i].items, pathname).Some?)
    {
      var item := navMain[k];
      var find := FindByUrl(item.items, pathname);
      if find.Some? {
        item.isActive := true;
      }
      menu := menu + [item];
      k := k + 1;
    }
  }

  /** Two renders in a row, at two paths: since flags are never cleared, a
      group activated by the first render is still active after the second. */
  method RenderTwice(navMain: seq<NavGroup>, first: string, second: string)
    modifies set g | g in navMain
    ensures forall i :: 0 <= i < |navMain| ==>
      navMain[i].isActive == (old(navMain[i].isActive)
        || FindByUrl(navMain[i].items, first).Some? || FindByUrl(navMain[i].items, second).Some?)
  {
    var menu := NavMenu(navMain, first);
    menu := NavMenu(navMain, second);
  }
}
