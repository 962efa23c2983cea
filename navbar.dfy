/**
 * The navigation bar (components/layout/Navbar.js): dropdown and menu
 * flags, the category/location links, search on Enter, the auth flags it
 * clears, and which account links it shows for the session user.
 */
module Navbar {
  import opened Wrappers
  import Text
  import Auth
  import Api

  /** The URL `navigateToJobs(type, value)` opens. */
  function JobsUrl(kind: string, value: string, enc: string -> string): string {
    "/jobs?" + kind + "=" + enc(value)
  }

  /** The account links of the bar. */
  datatype AccountLink = ProfileLink | DashboardLink | LogoutButton | RegisterLink | LoginLink

  /** Profile and Logout for a signed-in user, Dashboard only for an admin; Register and Login otherwise. */
  function AccountLinks(user: Option<Auth.User>): (r: set<AccountLink>)
    ensures DashboardLink in r <==> user.Some? && user.value.role == Auth.AdminRole
    ensures ProfileLink in r <==> user.Some?
    ensures LogoutButton in r <==> user.Some?
    ensures RegisterLink in r <==> user.None?
    ensures LoginLink in r <==> user.None?
  {
    match user
    case None => {RegisterLink, LoginLink}
    case Some(u) => {ProfileLink, LogoutButton} + (if u.role == Auth.AdminRole then {DashboardLink} else {})
  }

  const EnterKey := "Enter"

  class NavbarState {
    var menuOpen: bool
    var categoryOpen: bool
    var locationOpen: bool
    var searchQuery: string
    var isLoggedIn: bool
    var userRole: string
    /** The last `router.push` target. */
    var navigation: Option<string>

    constructor ()
      ensures !menuOpen && !categoryOpen && !locationOpen && searchQuery == ""
      ensures !isLoggedIn && userRole == "" && navigation == None
    {
      menuOpen, categoryOpen, locationOpen := false, false, false;
      searchQuery := "";
      isLoggedIn, userRole := false, "";
      navigation := None;
    }

    method ToggleCategory()
      modifies this`categoryOpen
      ensures categoryOpen == !old(categoryOpen)
    {
      categoryOpen := !categoryOpen;
    }

    method ToggleLocation()
      modifies this`locationOpen
      ensures locationOpen == !old(locationOpen)
    {
      locationOpen := !locationOpen;
    }

    method ToggleMenu()
      modifies this`menuOpen
      ensures menuOpen == !old(menuOpen)
    {
      menuOpen := !menuOpen;
    }

    /** A page link (logo, Home, Jobs, About, Contact) closes the mobile menu. */
    method FollowPageLink()
      modifies this`menuOpen
      ensures !menuOpen
    {
      menuOpen := false;
    }

    /** A mousedown anywhere: each dropdown closes unless the press was inside it. */
    method MouseDown(insideCategory: bool, insideLocation: bool)
      modifies this`categoryOpen, this`locationOpen
      ensures categoryOpen == (old(categoryOpen) && insideCategory)
      ensures locationOpen == (old(locationOpen) && insideLocation)
    {
      if !insideCategory {
        categoryOpen := false;
      }
      if !insideLocation {
        locationOpen := false;
      }
    }

    /** `navigateToJobs(type, value)`: open the filtered listing and close every menu. */
    method NavigateToJobs(kind: string, value: string, enc: string -> string)
      modifies this`navigation, this`categoryOpen, this`locationOpen, this`menuOpen
      ensures navigation == Some(JobsUrl(kind, value, enc))
      ensures !categoryOpen && !locationOpen && !menuOpen
    {
      navigation := Some("/jobs?" + kind + "=" + enc(value));
      categoryOpen := false;
      locationOpen := false;
      menuOpen := false;
    }

    method TypeSearch(value: string)
      modifies this`searchQuery
      ensures searchQuery == value
    {
      searchQuery := value;
    }

    /**
     * `handleSearch`: only Enter with a query that is not blank acts; it
     * searches for the untrimmed query, then clears it and closes the menu.
     */
    method HandleSearch(key: string, enc: string -> string)
      modifies this`navigation, this`searchQuery, this`menuOpen
      ensures key == EnterKey && Text.Trim(old(searchQuery)) != "" ==>
        && navigation == Some("/jobs?search=" + enc(old(searchQuery)))
        && searchQuery == "" && !menuOpen
      ensures key != EnterKey || Text.Trim(old(searchQuery)) == "" ==>
        navigation == old(navigation) && searchQuery == old(searchQuery) && menuOpen == old(menuOpen)
    {
      if key == EnterKey && Text.Trim(searchQuery) != "" {
        navigation := Some("/jobs?search=" + enc(searchQuery));
        searchQuery := "";
        menuOpen := false;
      }
    }

    /** `clearAuthState`: signed out, no role. */
    method ClearAuthState()
      modifies this`isLoggedIn, this`userRole
      ensures !isLoggedIn && userRole == ""
    {
      isLoggedIn := false;
      userRole := "";
    }

    /** `handleLogout`: clear the auth flags, then go to /login. */
    method HandleLogout()
      modifies this`isLoggedIn, this`userRole, this`navigation
      ensures !isLoggedIn && userRole == "" && navigation == Some("/login")
    {
      ClearAuthState();
      navigation := Some("/login");
    }

    /**
     * The desktop Logout button: the session's `logout()` is started and the
     * bar goes to /login at once; the session user is cleared only if the
     * backend confirms.
     */
    method ClickLogout(session: Auth.Session, response: Result<(), Api.ClientError>)
      modifies this`navigation, session
      ensures navigation == Some("/login")
      ensures session.user == if response.Success? then None else old(session.user)
    {
      var _ := session.Logout(response);
      navigation := Some("/login");
    }
  }

  /** A search acts only when the query has a character other than whitespace. */
  lemma SearchActsIffNotBlank(query: string)
    ensures Text.Trim(query) != "" <==> exists i :: 0 <= i < |query| && !Text.IsJsWhitespace(query[i])
  {
    Text.TrimEmptyIffBlank(query);
  }
}
