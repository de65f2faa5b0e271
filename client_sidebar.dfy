/** The client app's `AppSidebar`: a fixed menu filtered by the signed-in
    role, with the current page's entry highlighted. */
module ClientSidebar {
  import opened Wrappers
  import opened Text
  import opened Seqs
  import opened Browser

  datatype MenuItem = MenuItem(title: string, url: string, roles: seq<string>)

  const Everyone: seq<string> := ["Admin", "Manager", "WarehouseStaff"]

  const Dashboard := MenuItem("Dashboard", "/dashboard", Everyone)
  const Shipments := MenuItem("Shipments", "/shipments", Everyone)
  const Inventory := MenuItem("Inventory", "/inventory", Everyone)
  const Warehouses := MenuItem("Warehouses", "/warehouses", Everyone)
  const Users := MenuItem("Users", "/users", ["Admin", "Manager"])

  const MenuItems: seq<MenuItem> := [Dashboard, Shipments, Inventory, Warehouses, Users]

  /** The filter callback `role && item.roles.includes(role)`. */
  function ShownTo(role: Option<string>): MenuItem -> bool {
    (item: MenuItem) => HasToken(role) && role.value in item.roles
  }

  /** `menuItems.filter(...)` */
  function Visible(role: Option<string>): seq<MenuItem> {
    Filter(MenuItems, ShownTo(role))
  }

  /** An item is shown exactly when the role is set and listed on the item;
      the shown items keep the menu's order. */
  lemma VisibleMeaning(role: Option<string>, item: MenuItem)
    ensures item in Visible(role) <==> item in MenuItems && role.Some? && role.value != [] && role.value in item.roles
    ensures IsSubsequence(Visible(role), MenuItems)
  {
    FilterMembership(MenuItems, ShownTo(role), item);
    FilterIsSubsequence(MenuItems, ShownTo(role));
  }

  /** No role, no menu; "Users" only for Admin and Manager. */
  lemma VisibleByRole(role: Option<string>)
    ensures role.None? ==> Visible(role) == []
    ensures Users in Visible(role) <==> role == Some("Admin") || role == Some("Manager")
  {
    VisibleMeaning(role, Users);
    if role.None? {
      assert forall i :: 0 <= i < |MenuItems| ==> !ShownTo(role)(MenuItems[i]);
      NoneShown(MenuItems, ShownTo(role));
    }
  }

  lemma {:induction false} NoneShown<T>(s: seq<T>, p: T -> bool)
    requires forall i :: 0 <= i < |s| ==> !p(s[i])
    ensures Filter(s, p) == []
  {
    if s != [] {
      NoneShown(s[1..], p);
    }
  }

  /** Warehouse staff see the first four entries, in menu order. */
  lemma StaffMenu()
    ensures Visible(Some("WarehouseStaff")) == [Dashboard, Shipments, Inventory, Warehouses]
  {
    var p := ShownTo(Some("WarehouseStaff"));
    var s := MenuItems;
    assert s[4..] == [Users] && [Users][1..] == [];
    assert Filter(s[4..], p) == [];
    assert s[3..][1..] == s[4..];
    assert Filter(s[3..], p) == [Warehouses];
    assert s[2..][1..] == s[3..];
    assert Filter(s[2..], p) == [Inventory, Warehouses];
    assert s[1..][1..] == s[2..];
    assert Filter(s[1..], p) == [Shipments, Inventory, Warehouses];
  }

  /** Admins and managers see the whole menu. */
  lemma FullMenu(role: string)
    requires role == "Admin" || role == "Manager"
    ensures Visible(Some(role)) == MenuItems
  {
    FilterAll(MenuItems, ShownTo(Some(role)));
  }

  /** `isActive`: the dashboard entry needs the exact path, every other
      entry is active anywhere under its url. */
  predicate IsActive(pathname: string, path: string) {
    if path == "/dashboard" then pathname == path else StartsWith(pathname, path)
  }

  lemma Activation()
    ensures forall p :: IsActive(p, Dashboard.url) <==> p == "/dashboard"
    ensures IsActive("/shipments/tracking", Shipments.url)
    ensures !IsActive("/dashboard/settings", Dashboard.url)
  {
    assert "/shipments/tracking"[..|"/shipments"|] == "/shipments";
  }

  /** The `role` state and `fetchUser`. */
  class RoleState {
    var role: Option<string>

    constructor()
      ensures role.None?
    {
      role := None;
    }

    /** Only an ok answer sets the role and only an exception clears it;
        no token or a non-ok answer leave it as it was. */
    method FetchUser(token: Option<string>, reply: MeReply)
      modifies this
      ensures !HasToken(token) || reply.NotOk? ==> role == old(role)
      ensures HasToken(token) && reply.Answered? ==> role == Some(reply.role)
      ensures HasToken(token) && reply.Threw? ==> role.None?
    {
      if !HasToken(token) {
        return;
      }
      match reply {
        case Answered(r) => role := Some(r);
        case NotOk =>
        case Threw => role := None;
      }
    }
  }
}
