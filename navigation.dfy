/**
 * The side navigation: the role table of menu entries, the access rule, the
 * menu a user sees, and the open/closed state of sub-menus and of the mobile menu.
 */
module Navigation {
  import opened Wrappers
  import opened Seqs
  import opened Domain

  /**
   * A menu entry. `roles` is `None` for an entry without role restriction;
   * `children` is `Some` exactly for a parent entry (even with no children).
   */
  datatype MenuItem = MenuItem(title: string, path: Option<string>, roles: Option<seq<string>>, children: Option<seq<MenuItem>>)

  function Link(path: string, title: string, roles: seq<string>): MenuItem
  {
    MenuItem(title, Some(path), Some(roles), None)
  }

  const ADMIN_DASHBOARD := Link("/admin-dashboard", "Dashboard", ["ADMIN", "CEO"])
  const WORKSHOP_DASHBOARD := Link("/workshop-dashboard", "Dashboard", ["WORKSHOP_MANAGER"])
  const SHOP_DASHBOARD := Link("/shop-dashboard", "Dashboard", ["SHOP_MANAGER"])
  const EMPLOYEES := Link("/employee", "Employees", ["ADMIN", "CEO"])
  const USERS := Link("/user", "Users", ["ADMIN", "CEO"])
  const HR_MENU := MenuItem("HR", None, Some(["ADMIN", "CEO"]), Some([EMPLOYEES, USERS]))
  const OVERVIEW := Link("/workshop", "Overview", ["WORKSHOP_MANAGER"])
  const CATEGORIES := Link("/category", "Categories", ["ADMIN", "CEO", "WORKSHOP_MANAGER"])
  const PRODUCTS := Link("/product", "Products", ["ADMIN", "CEO", "WORKSHOP_MANAGER"])
  const INVENTORY := Link("/inventory", "Inventory", ["ADMIN", "CEO", "WORKSHOP_MANAGER", "SHOP_MANAGER"])
  const DISPATCH := Link("/dispatch", "Dispatch", ["ADMIN", "CEO", "WORKSHOP_MANAGER", "SHOP_MANAGER"])
  const WORKSHOP_MENU := MenuItem("Workshop", None, Some(["ADMIN", "CEO", "WORKSHOP_MANAGER"]),
    Some([OVERVIEW, CATEGORIES, PRODUCTS, INVENTORY, DISPATCH]))
  const SHOPS := Link("/shop", "Shop", ["ADMIN", "CEO"])
  const PROFILE := Link("/profile", "Profile", ["ADMIN", "CEO", "WORKSHOP_MANAGER", "SHOP_MANAGER", "USER"])

  /** `allMenuItems`, in the order the navigation lists them; every entry and child names its roles. */
  function AllMenuItems(): (all: seq<MenuItem>)
    ensures |all| == 7
    ensures forall x :: x in all ==> Restricted(x)
  {
    [ADMIN_DASHBOARD, WORKSHOP_DASHBOARD, SHOP_DASHBOARD, HR_MENU, WORKSHOP_MENU, SHOPS, PROFILE]
  }

  /** The user has a usable role: `user && user.role`. */
  predicate HasRole(user: Option<AuthUser>)
  {
    user.Some? && user.value.role.Some? && user.value.role.value != ""
  }

  /** `hasAccess`: unrestricted entries are open to all; otherwise the user's role must be listed. */
  function HasAccess(item: MenuItem, user: Option<AuthUser>): (b: bool)
    ensures item.roles.None? ==> b
    ensures item.roles.Some? && !HasRole(user) ==> !b
    ensures item.roles.Some? && HasRole(user) ==> (b <==> user.value.role.value in item.roles.value)
  {
    if item.roles.None? then true
    else if !HasRole(user) then false
    else user.value.role.value in item.roles.value
  }

  function AccessibleTo(user: Option<AuthUser>): MenuItem -> bool
  {
    (item: MenuItem) => HasAccess(item, user)
  }

  /** The `filter` step: a parent is kept if it or any child is accessible, a link if it is. */
  predicate Shown(item: MenuItem, user: Option<AuthUser>)
    ensures Shown(item, user) <==>
      HasAccess(item, user) || (item.children.Some? && Prune(item, user).children.value != [])
  {
    match item.children
    case Some(cs) => HasAccess(item, user) || exists c :: c in cs && HasAccess(c, user)
    case None => HasAccess(item, user)
  }

  function ShownTo(user: Option<AuthUser>): MenuItem -> bool
  {
    (item: MenuItem) => Shown(item, user)
  }

  /** The `map` step: a parent keeps only its accessible children, in order; a link is unchanged. */
  function Prune(item: MenuItem, user: Option<AuthUser>): (r: MenuItem)
    ensures r.title == item.title && r.path == item.path && r.roles == item.roles
    ensures r.children.Some? == item.children.Some?
    ensures item.children.None? ==> r == item
    ensures item.children.Some? ==>
      IsSubsequence(r.children.value, item.children.value) &&
      (forall c :: c in r.children.value <==> c in item.children.value && HasAccess(c, user)) &&
      (forall c :: multiset(r.children.value)[c] == if HasAccess(c, user) then multiset(item.children.value)[c] else 0)
  {
    match item.children
    case Some(cs) =>
      FilterIsSubsequence(AccessibleTo(user), cs);
      item.(children := Some(Filter(AccessibleTo(user), cs)))
    case None => item
  }

  function PruneFor(user: Option<AuthUser>): MenuItem -> MenuItem
  {
    (item: MenuItem) => Prune(item, user)
  }

  /** `menuItems`: the entries the user is shown, each parent pruned to its accessible children. */
  function MenuItems(all: seq<MenuItem>, user: Option<AuthUser>): (r: seq<MenuItem>)
    ensures |r| <= |all|
    ensures forall y :: y in r ==> exists x :: x in all && Shown(x, user) && y == Prune(x, user)
  {
    var kept := Filter(ShownTo(user), all);
    var r := MapSeq(PruneFor(user), kept);
    forall y | y in r ensures exists x :: x in all && Shown(x, user) && y == Prune(x, user) {
      var i :| 0 <= i < |r| && r[i] == y;
      assert kept[i] in kept;
    }
    r
  }

  /** The part of an entry that pruning leaves alone. */
  function Header(item: MenuItem): MenuItem
  {
    item.(children := None)
  }

  /** Two pruned parents that coincide were both shown or both hidden. */
  lemma PruneDeterminesShown(x: MenuItem, y: MenuItem, user: Option<AuthUser>)
    requires x.children.Some? && y.children.Some? && Prune(x, user) == Prune(y, user)
    ensures Shown(x, user) == Shown(y, user)
  {
    var px, py := Prune(x, user).children.value, Prune(y, user).children.value;
    if exists c :: c in x.children.value && HasAccess(c, user) {
      var c :| c in x.children.value && HasAccess(c, user);
      assert c in px;
    }
    if exists c :: c in y.children.value && HasAccess(c, user) {
      var c :| c in y.children.value && HasAccess(c, user);
      assert c in py;
    }
  }

  /** A link is in the menu exactly when the user may access it. */
  lemma MenuLinkIff(all: seq<MenuItem>, user: Option<AuthUser>, x: MenuItem)
    requires x in all && x.children.None?
    ensures x in MenuItems(all, user) <==> HasAccess(x, user)
  {
    var kept := Filter(ShownTo(user), all);
    var r := MenuItems(all, user);
    assert r == MapSeq(PruneFor(user), kept);
    if HasAccess(x, user) {
      var i :| 0 <= i < |kept| && kept[i] == x;
      assert r[i] == x;
    }
  }

  /** A parent is in the menu exactly when it or one of its children is accessible. */
  lemma MenuParentIff(all: seq<MenuItem>, user: Option<AuthUser>, x: MenuItem)
    requires x in all && x.children.Some?
    ensures Prune(x, user) in MenuItems(all, user) <==>
      HasAccess(x, user) || exists c :: c in x.children.value && HasAccess(c, user)
  {
    var kept := Filter(ShownTo(user), all);
    var r := MenuItems(all, user);
    assert r == MapSeq(PruneFor(user), kept);
    if Shown(x, user) {
      var i :| 0 <= i < |kept| && kept[i] == x;
      assert r[i] == Prune(x, user);
    }
    if Prune(x, user) in r {
      var y :| y in all && Shown(y, user) && Prune(x, user) == Prune(y, user);
      PruneDeterminesShown(x, y, user);
    }
  }

  /** The menu keeps the relative order of the table (compared by the entries' headers). */
  lemma MenuPreservesOrder(all: seq<MenuItem>, user: Option<AuthUser>)
    ensures IsSubsequence(MapSeq(Header, MenuItems(all, user)), MapSeq(Header, all))
  {
    var kept := Filter(ShownTo(user), all);
    var r := MenuItems(all, user);
    FilterIsSubsequence(ShownTo(user), all);
    MapSeqSubsequence(Header, kept, all);
    assert MapSeq(Header, r) == MapSeq(Header, kept);
  }

  /** Every entry of the menu, and every child of a parent, names the roles it is for. */
  predicate Restricted(item: MenuItem)
  {
    item.roles.Some? && (item.children.Some? ==> forall c :: c in item.children.value ==> c.roles.Some?)
  }

  /** A user without a usable role sees nothing of a fully restricted menu, such as the table. */
  lemma NoRoleNoMenu(all: seq<MenuItem>, user: Option<AuthUser>)
    requires !HasRole(user)
    requires forall x :: x in all ==> Restricted(x)
    ensures MenuItems(all, user) == []
  {
  }

  function SignedIn(role: string): Option<AuthUser>
  {
    Some(AuthUser("user", Some(role), "id"))
  }

  lemma ShopManagerAccess(u: Option<AuthUser>)
    requires u == SignedIn("SHOP_MANAGER")
    ensures !HasAccess(WORKSHOP_MENU, u)
    ensures HasAccess(INVENTORY, u) && HasAccess(DISPATCH, u)
    ensures !HasAccess(OVERVIEW, u) && !HasAccess(CATEGORIES, u) && !HasAccess(PRODUCTS, u)
  {
  }

  /**
   * A shop manager is not allowed the Workshop entry itself, yet sees it,
   * reduced to its Inventory and Dispatch children.
   */
  lemma ShopManagerSeesWorkshop(u: Option<AuthUser>)
    requires u == SignedIn("SHOP_MANAGER")
    ensures !HasAccess(WORKSHOP_MENU, u)
    ensures Prune(WORKSHOP_MENU, u) in MenuItems(AllMenuItems(), u)
  {
    ShopManagerAccess(u);
    assert AllMenuItems()[4] == WORKSHOP_MENU;
    assert INVENTORY in WORKSHOP_MENU.children.value;
    MenuParentIff(AllMenuItems(), u, WORKSHOP_MENU);
  }

  lemma ShopManagerWorkshopChildren(u: Option<AuthUser>)
    requires u == SignedIn("SHOP_MANAGER")
    ensures forall c :: c in Prune(WORKSHOP_MENU, u).children.value <==> c == INVENTORY || c == DISPATCH
  {
    ShopManagerAccess(u);
  }

  // ---------------------------------------------------------------------------
  // Sub-menu and mobile-menu state

  /** `openMenus[title]`, an absent key reading as closed. */
  function IsMenuOpen(openMenus: map<string, bool>, title: string): bool
  {
    title in openMenus && openMenus[title]
  }

  /** `{ ...prev, [title]: !prev[title] }`. */
  function Toggled(openMenus: map<string, bool>, title: string): (r: map<string, bool>)
    ensures r.Keys == openMenus.Keys + {title}
    ensures IsMenuOpen(r, title) == !IsMenuOpen(openMenus, title)
    ensures forall k :: k in openMenus && k != title ==> r[k] == openMenus[k]
  {
    openMenus[title := !IsMenuOpen(openMenus, title)]
  }

  /** Toggling a title twice leaves every sub-menu as open or closed as before. */
  lemma ToggleTwice(openMenus: map<string, bool>, title: string, k: string)
    ensures IsMenuOpen(Toggled(Toggled(openMenus, title), title), k) == IsMenuOpen(openMenus, k)
  {
  }

  /** The children a parent entry renders: all of them while its sub-menu is open, none otherwise. */
  function RenderedChildren(item: MenuItem, openMenus: map<string, bool>): (r: seq<MenuItem>)
    requires item.children.Some?
    ensures r == [] || r == item.children.value
    ensures IsMenuOpen(openMenus, item.title) ==> r == item.children.value
    ensures !IsMenuOpen(openMenus, item.title) ==> r == []
  {
    if IsMenuOpen(openMenus, item.title) then item.children.value else []
  }

  /** The navigation's local state: the mobile menu flag and the open sub-menus. */
  class NavigationState {
    var isOpen: bool
    var openMenus: map<string, bool>

    constructor ()
      ensures !isOpen && openMenus == map[]
    {
      isOpen := false;
      openMenus := map[];
    }

    /** `toggleSubMenu(title)`: flips that sub-menu only. */
    method ToggleSubMenu(title: string)
      modifies this
      ensures openMenus == Toggled(old(openMenus), title)
      ensures forall k :: k != title ==> IsMenuOpen(openMenus, k) == IsMenuOpen(old(openMenus), k)
      ensures isOpen == old(isOpen)
    {
      openMenus := Toggled(openMenus, title);
    }

    /** The hamburger button: `setIsOpen(!isOpen)`. */
    method ToggleMobileMenu()
      modifies this
      ensures isOpen == !old(isOpen) && openMenus == old(openMenus)
    {
      isOpen := !isOpen;
    }

    /** Following a link: `setIsOpen(false)`. */
    method CloseMobileMenu()
      modifies this
      ensures !isOpen && openMenus == old(openMenus)
    {
      isOpen := false;
    }
  }
}
