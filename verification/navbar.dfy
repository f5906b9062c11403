/**
 * The top bar of `src/components/layout/Navbar.jsx`: the account dropdown,
 * the mobile menu, the login links shown to visitors, and logout, which
 * forgets the stored token, clears the session flag and goes home.
 * Navigation is the `location` field.
 */
module Navbar {
  import opened Optional
  import opened App

  datatype Bar = Bar(session: Session, location: string, dropdownOpen: bool, menuOpen: bool)

  /** `handleLogout`. The mobile menu is left as it was. */
  function Logout(b: Bar): (r: Bar)
    ensures r.session.storedToken == None && !r.session.authenticated
    ensures r.location == "/" && !r.dropdownOpen
    ensures r.menuOpen == b.menuOpen
  {
    Bar(Session(None, false), "/", false, b.menuOpen)
  }

  /** Logging out twice is logging out once. */
  lemma LogoutIdempotent(b: Bar)
    ensures Logout(Logout(b)) == Logout(b)
  {
  }

  /** After logout a reload finds no token and stays logged out. */
  lemma LogoutSurvivesReload(b: Bar)
    ensures !Startup(InitialSession(Logout(b).session.storedToken)).authenticated
  {
  }

  /** The account button. */
  function ToggleDropdown(b: Bar): (r: Bar)
    ensures r.dropdownOpen != b.dropdownOpen
    ensures r.(dropdownOpen := b.dropdownOpen) == b
  {
    b.(dropdownOpen := !b.dropdownOpen)
  }

  /** The mobile menu button. */
  function ToggleMenu(b: Bar): (r: Bar)
    ensures r.menuOpen != b.menuOpen
    ensures r.(menuOpen := b.menuOpen) == b
  {
    b.(menuOpen := !b.menuOpen)
  }

  /** Two clicks on either button restore the bar. */
  lemma TogglesAreInvolutions(b: Bar)
    ensures ToggleDropdown(ToggleDropdown(b)) == b
    ensures ToggleMenu(ToggleMenu(b)) == b
  {
  }

  /** A dashboard link of the dropdown: go there and close the dropdown. */
  function ChooseDropdownLink(b: Bar, path: string): (r: Bar)
    ensures r.location == path && !r.dropdownOpen
    ensures r.session == b.session && r.menuOpen == b.menuOpen
  {
    b.(location := path, dropdownOpen := false)
  }

  /** A link of the mobile menu (site page or dashboard page): go there and close the menu. */
  function ChooseMenuLink(b: Bar, path: string): (r: Bar)
    ensures r.location == path && !r.menuOpen
    ensures r.session == b.session && r.dropdownOpen == b.dropdownOpen
  {
    b.(location := path, menuOpen := false)
  }

  /**
   * The desktop Login and Get Started links are shown exactly to a visitor;
   * the mobile pair also needs the menu open (`MenuShowsLoginLinks`).
   */
  predicate ShowsLoginLinks(b: Bar)
  {
    !b.session.authenticated
  }

  /** The dropdown's links and logout button are on screen only when logged in with the dropdown open. */
  predicate ShowsDropdown(b: Bar)
  {
    b.session.authenticated && b.dropdownOpen
  }

  /** The mobile Login and Get Started links: inside the open menu, for a visitor. */
  predicate MenuShowsLoginLinks(b: Bar)
  {
    b.menuOpen && ShowsLoginLinks(b)
  }

  /** Logout from the dropdown hides it and brings back the login links. */
  lemma LogoutShowsLoginLinks(b: Bar)
    ensures ShowsLoginLinks(Logout(b)) && !ShowsDropdown(Logout(b))
  {
  }

  /** A mobile logout leaves the menu open, now listing the login links. */
  lemma MobileLogoutKeepsMenu(b: Bar)
    requires b.menuOpen
    ensures Logout(b).menuOpen && MenuShowsLoginLinks(Logout(b))
  {
  }

  /**
   * On a fresh load the desktop login links are hidden exactly when a
   * non-empty token is stored; the dropdown and the mobile menu start closed.
   */
  lemma StoredTokenHidesLoginLinks(stored: Option<string>, location: string)
    ensures var b := Bar(Startup(InitialSession(stored)), location, false, false);
      (ShowsLoginLinks(b) <==> !TokenPresent(stored)) && !ShowsDropdown(b) && !MenuShowsLoginLinks(b)
  {
  }

  /** For a logged-in user the account button opens and closes the dropdown; for a visitor it shows nothing. */
  lemma AccountButtonShowsDropdown(b: Bar)
    ensures b.session.authenticated ==> (ShowsDropdown(ToggleDropdown(b)) <==> !ShowsDropdown(b))
    ensures !b.session.authenticated ==> !ShowsDropdown(ToggleDropdown(b)) && ShowsLoginLinks(ToggleDropdown(b))
  {
  }

  /** Following a dropdown link closes it, and the login links stay hidden. */
  lemma DropdownLinkClosesDropdown(b: Bar, path: string)
    ensures !ShowsDropdown(ChooseDropdownLink(b, path))
    ensures ShowsLoginLinks(ChooseDropdownLink(b, path)) == ShowsLoginLinks(b)
  {
  }
}
