/** The navigation bar: the menu entries, the mobile menu's open state, and the sign-in redirect. */
module Navbar {
  import opened Js
  import opened Records

  datatype MenuItem = MenuItem(path: string, caption: string)

  /** The entries every visitor sees, in order. */
  const FixedItems: seq<MenuItem> := [
    MenuItem("/", "Inicio"),
    MenuItem("/PeliculasTops", "Peli Tops"),
    MenuItem("/PeliculasKids", "Peli Kids"),
    MenuItem("/PeliAsiaticas", "Peli Asiáticas"),
    MenuItem("/PeliDocumentales", "Peli Docs"),
    MenuItem("/PeliLibros", "Peli Libros"),
    MenuItem("/Contacto", "Contacto")
  ]

  const AccountItem: MenuItem := MenuItem("/dashboard", "Mi Cuenta")

  /** `!!user`. */
  predicate IsAuthenticated(user: Option<AuthUser>)
  {
    user.Some?
  }

  /** `menuItems`: the fixed entries, then "Mi Cuenta" for a signed-in user once loading has finished. */
  function MenuItems(user: Option<AuthUser>, loading: bool): (r: seq<MenuItem>)
    ensures |r| >= |FixedItems| && r[..|FixedItems|] == FixedItems
    ensures |r| == |FixedItems| + 1 <==> IsAuthenticated(user) && !loading
    ensures |r| == |FixedItems| || |r| == |FixedItems| + 1
    ensures |r| > |FixedItems| ==> r[|r| - 1] == AccountItem
  {
    FixedItems + (if IsAuthenticated(user) && !loading then [AccountItem] else [])
  }

  /** The account entry is the only path to "/dashboard" in the menu. */
  lemma DashboardOnlyWhenSignedIn(user: Option<AuthUser>, loading: bool)
    ensures (exists i :: 0 <= i < |MenuItems(user, loading)| && MenuItems(user, loading)[i].path == "/dashboard") <==>
      IsAuthenticated(user) && !loading
  {
    var r := MenuItems(user, loading);
    if IsAuthenticated(user) && !loading {
      assert r[|r| - 1].path == "/dashboard";
    } else {
      assert r == FixedItems;
      forall i | 0 <= i < |r| ensures r[i].path != "/dashboard" {
      }
    }
  }

  class NavbarState {
    var isOpen: bool

    constructor ()
      ensures !isOpen
    {
      isOpen := false;
    }

    /** `toggleMenu`. */
    method ToggleMenu()
      modifies this
      ensures isOpen == !old(isOpen)
    {
      isOpen := !isOpen;
    }

    /** `closeMenu`. */
    method CloseMenu()
      modifies this
      ensures !isOpen
    {
      isOpen := false;
    }

    /** `handleAuthRedirect(path)`: the menu is closed and `target` is where the router goes. */
    method HandleAuthRedirect(path: string) returns (target: string)
      modifies this
      ensures !isOpen && target == path
    {
      CloseMenu();
      target := path;
    }

    /** `handleAbrirLogin`: the router goes to "/login"; unlike the redirect, the menu is left as it is. */
    method HandleAbrirLogin() returns (target: string)
      ensures target == "/login"
    {
      target := "/login";
    }
  }
}
