/**
 * The client application's session state: whether someone is logged in and
 * with which role, kept in step with the role stored in the browser, and the
 * route guards that choose between a page and a redirect.
 */
module App {
  import opened Wrappers

  datatype Page = HomePage | HostelsPage | HostelDetailsPage(id: string) | AboutPage | ContactPage
    | LoginPage | RegisterPage | OwnerDashboardPage | ProfilePage

  datatype Screen = Render(page: Page) | Redirect(to: string)

  /** The element each route renders for the given session. */
  function Resolve(isLoggedIn: bool, userRole: Option<string>, page: Page): (s: Screen)
    ensures page == OwnerDashboardPage ==> (s.Render? <==> userRole == Some("owner"))
    ensures page == ProfilePage ==> (s.Render? <==> isLoggedIn)
    ensures page == LoginPage || page == RegisterPage ==> (s.Render? <==> !isLoggedIn)
    ensures s.Redirect? ==> s.to == (if page == LoginPage || page == RegisterPage then "/" else "/login")
    ensures !(page in {OwnerDashboardPage, ProfilePage, LoginPage, RegisterPage}) ==> s == Render(page)
  {
    match page
    case LoginPage => if isLoggedIn then Redirect("/") else Render(page)
    case RegisterPage => if isLoggedIn then Redirect("/") else Render(page)
    case OwnerDashboardPage => if userRole == Some("owner") then Render(page) else Redirect("/login")
    case ProfilePage => if isLoggedIn then Render(page) else Redirect("/login")
    case _ => Render(page)
  }

  function RoleTitle(role: string): string {
    if role == "owner" then "Hostel Owner" else "Student"
  }

  class Session {
    var isLoggedIn: bool
    var userRole: Option<string>
    /** The role kept in local storage under 'userRole'. */
    var storedRole: Option<string>
    var toastMessage: string
    var showToast: bool

    /** Logged in exactly when a role is set, and then the stored role is that role. */
    predicate Valid()
      reads this
    {
      && (isLoggedIn <==> userRole.Some?)
      && (userRole.Some? ==> storedRole == userRole)
      && (storedRole.Some? && storedRole.value != "" ==> isLoggedIn)
    }

    /** First render followed by the mount effect: a stored, non-empty role
        logs the user back in with that role. */
    constructor(stored: Option<string>)
      ensures Valid()
      ensures storedRole == stored
      ensures isLoggedIn <==> stored.Some? && stored.value != ""
      ensures userRole == (if isLoggedIn then stored else None)
      ensures toastMessage == "" && !showToast
    {
      isLoggedIn := false;
      userRole := None;
      storedRole := stored;
      toastMessage := "";
      showToast := false;
      if stored.Some? && stored.value != "" {
        isLoggedIn := true;
        userRole := stored;
      }
    }

    method HandleLogin(role: string)
      requires Valid()
      modifies this
      ensures Valid()
      ensures storedRole == Some(role) && isLoggedIn && userRole == Some(role)
      ensures toastMessage == "Welcome back! Logged in as " + RoleTitle(role) && showToast
    {
      storedRole := Some(role);
      isLoggedIn := true;
      userRole := Some(role);
      toastMessage := "Welcome back! Logged in as " + RoleTitle(role);
      showToast := true;
    }

    method HandleLogout()
      requires Valid()
      modifies this
      ensures Valid()
      ensures storedRole.None? && !isLoggedIn && userRole.None?
      ensures toastMessage == "Logged out successfully!" && showToast
    {
      storedRole := None;
      isLoggedIn := false;
      userRole := None;
      toastMessage := "Logged out successfully!";
      showToast := true;
    }

    function Show(page: Page): Screen
      reads this
    {
      Resolve(isLoggedIn, userRole, page)
    }
  }

  /** In a consistent session, whoever reaches the owner dashboard is logged
      in, and the login and register pages are never shown to them. */
  lemma DashboardImpliesLoggedIn(isLoggedIn: bool, userRole: Option<string>)
    requires isLoggedIn <==> userRole.Some?
    requires Resolve(isLoggedIn, userRole, OwnerDashboardPage).Render?
    ensures Resolve(isLoggedIn, userRole, ProfilePage).Render?
    ensures Resolve(isLoggedIn, userRole, LoginPage) == Redirect("/")
    ensures Resolve(isLoggedIn, userRole, RegisterPage) == Redirect("/")
  {
  }

  /** A reload rebuilds the session from the stored role alone; a session
      whose role is not empty comes back exactly as it was. */
  method Reload(s: Session) returns (s': Session)
    requires s.Valid() && s.userRole != Some("")
    ensures fresh(s') && s'.Valid()
    ensures s'.isLoggedIn == s.isLoggedIn && s'.userRole == s.userRole && s'.storedRole == s.storedRole
  {
    s' := new Session(s.storedRole);
  }
}
