/** The shell around the signed-in pages: the navigation list, the admin badge and the mobile menu. */
module Layout {
  import opened AuthContext
  import ProtectedRoute

  datatype NavItem = NavItem(path: string, caption: string)

  /** The six items every user sees, in order. */
  const BaseItems: seq<NavItem> := [
    NavItem("/dashboard", "Dashboard"),
    NavItem("/wallet", "Wallet"),
    NavItem("/trading", "Trading"),
    NavItem("/copy-trading", "Copy Trading"),
    NavItem("/kyc", "KYC"),
    NavItem("/strategies", "Strategies")
  ]

  const AdminItem: NavItem := NavItem("/admin", "Admin")

  /** `user?.role === 'admin'` */
  predicate IsAdmin(user: UserSlot)
  {
    ProtectedRoute.IsAdmin(user)
  }

  /** `navItems`: the base list, with the Admin item pushed for an admin. */
  function NavItems(user: UserSlot): (r: seq<NavItem>)
    ensures |r| >= 6 && r[..6] == BaseItems
    ensures |r| == 7 <==> IsAdmin(user)
    ensures |r| == 6 <==> !IsAdmin(user)
    ensures |r| == 7 ==> r[6] == AdminItem
    ensures AdminItem in r <==> IsAdmin(user)
  {
    var items := BaseItems;
    if IsAdmin(user) then items + [AdminItem] else items
  }

  /** `location.pathname === item.path`, the same test on desktop and mobile. */
  predicate IsActive(pathname: string, item: NavItem)
  {
    pathname == item.path
  }

  predicate PathsDistinct(items: seq<NavItem>)
  {
    forall i, j :: 0 <= i < j < |items| ==> items[i].path != items[j].path
  }

  /** The indices of the items marked active for `pathname`. */
  function ActiveIndices(items: seq<NavItem>, pathname: string): set<nat>
  {
    set i: nat | i < |items| && IsActive(pathname, items[i])
  }

  lemma {:induction false} NavPathsDistinct(user: UserSlot)
    ensures PathsDistinct(NavItems(user))
  {
    var r := NavItems(user);
    forall i, j | 0 <= i < j < |r| ensures r[i].path != r[j].path {
      assert r[i] in r[..6] + [AdminItem] && r[j] in r[..6] + [AdminItem];
    }
  }

  /** For any pathname at most one item of the list is highlighted. */
  lemma {:induction false} AtMostOneActive(user: UserSlot, pathname: string)
    ensures |ActiveIndices(NavItems(user), pathname)| <= 1
  {
    var items := NavItems(user);
    NavPathsDistinct(user);
    var act := ActiveIndices(items, pathname);
    if act != {} {
      var i :| i in act;
      forall j | j in act ensures j == i {
        assert items[j].path == pathname == items[i].path;
      }
      assert act == {i};
    }
  }

  /**
   * The "Admin" pill next to the e-mail, rendered on desktop and again in the
   * mobile menu: shown exactly for the users who also get the Admin link.
   */
  function AdminBadgeShown(user: UserSlot): (shown: bool)
    ensures shown <==> AdminItem in NavItems(user)
    ensures shown ==> user.Present?
  {
    IsAdmin(user)
  }

  /** The mobile menu's open flag. */
  class MobileMenu {
    var isMobileMenuOpen: bool

    constructor ()
      ensures !isMobileMenuOpen
    {
      isMobileMenuOpen := false;
    }

    /** The menu button. */
    method Toggle()
      modifies this
      ensures isMobileMenuOpen == !old(isMobileMenuOpen)
    {
      isMobileMenuOpen := !isMobileMenuOpen;
    }

    /** Choosing a link in the mobile menu closes it. */
    method FollowLink()
      modifies this
      ensures !isMobileMenuOpen
    {
      isMobileMenuOpen := false;
    }

    /** The mobile logout: the store logs out, then the menu closes. */
    method Logout(auth: AuthProvider, o: Http.Outcome<()>)
      modifies this, auth
      ensures !isMobileMenuOpen
      ensures auth.State() == LogoutStep(old(auth.State()))
    {
      auth.Logout(o);
      isMobileMenuOpen := false;
    }
  }
}
