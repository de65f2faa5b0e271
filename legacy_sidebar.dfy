/** The root app's `AppSidebar`: the same five destinations, always all
    shown, with the active one styled as primary. */
module LegacySidebar {
  import opened Text
  import ClientSidebar

  datatype MenuItem = MenuItem(title: string, url: string)

  const MenuItems: seq<MenuItem> := [
    MenuItem("Dashboard", "/dashboard"),
    MenuItem("Shipments", "/shipments"),
    MenuItem("Inventory", "/inventory"),
    MenuItem("Warehouses", "/warehouses"),
    MenuItem("Users", "/users")
  ]

  /** `isActive`, written as a conditional expression. */
  predicate IsActive(pathname: string, path: string) {
    (path == "/dashboard" && pathname == path) || (path != "/dashboard" && StartsWith(pathname, path))
  }

  /** Both sidebars highlight the same entries. */
  lemma SameActivation(pathname: string, path: string)
    ensures IsActive(pathname, path) <==> ClientSidebar.IsActive(pathname, path)
  {
  }

  const Primary := "bg-[hsl(var(--primary))] text-[hsl(var(--primary-foreground))]"
  const Muted := "hover:bg-[hsl(var(--muted))] text-[hsl(var(--muted-foreground))] hover:text-[hsl(var(--foreground))]"

  /** `getNavCls` */
  function NavCls(active: bool): string {
    if active then Primary else Muted
  }

  datatype Link = Link(title: string, url: string, cls: string)

  /** `menuItems.map(...)`: one link per item, no filtering. */
  function Links(pathname: string): (r: seq<Link>)
    ensures |r| == |MenuItems|
    ensures forall i :: 0 <= i < |r| ==> r[i].title == MenuItems[i].title && r[i].url == MenuItems[i].url
    ensures forall i :: 0 <= i < |r| ==> (r[i].cls == Primary <==> IsActive(pathname, MenuItems[i].url))
  {
    seq(|MenuItems|, i requires 0 <= i < |MenuItems| =>
      Link(MenuItems[i].title, MenuItems[i].url, NavCls(IsActive(pathname, MenuItems[i].url))))
  }

  /** On the dashboard itself only the dashboard link is primary, and under
      "/shipments/" only the shipments link is. */
  lemma OneActiveLink()
    ensures forall i :: 0 <= i < |MenuItems| ==> (Links("/dashboard")[i].cls == Primary <==> i == 0)
    ensures forall i :: 0 <= i < |MenuItems| ==> (Links("/shipments/tracking")[i].cls == Primary <==> i == 1)
  {
    var d := "/dashboard";
    NotPrefixAt(d, "/shipments", 1);
    NotPrefixAt(d, "/inventory", 1);
    NotPrefixAt(d, "/warehouses", 1);
    NotPrefixAt(d, "/users", 1);
    var t := "/shipments/tracking";
    assert t[..|"/shipments"|] == "/shipments";
    NotPrefixAt(t, "/dashboard", 1);
    NotPrefixAt(t, "/inventory", 1);
    NotPrefixAt(t, "/warehouses", 1);
    NotPrefixAt(t, "/users", 1);
  }
}
