/**
 * The navigation bar of frontend/src/components/Navbar.tsx: the avatar
 * letter and greeting name, which links show and which is highlighted, and
 * the two steps of signing out.
 */
module Navbar {
  import opened Common
  import opened Text
  import opened Jwt
  import opened Routing
  import opened ProtectedRoute
  import InterestedClientsModal
  import App
  import AuthRoutes

  /** `user?.name` is truthy. */
  predicate HasName(user: Option<SessionUser>)
  {
    user.Some? && user.value.name != ""
  }

  /** `user?.name ? user.name.charAt(0).toUpperCase() : "G"`. */
  function Initial(user: Option<SessionUser>): (r: string)
    ensures |r| == 1
    ensures !HasName(user) ==> r == "G"
    ensures HasName(user) ==> r == [UpperChar(user.value.name[0])]
  {
    if HasName(user) then Upper(user.value.name[..1]) else "G"
  }

  /** `user?.name ? user.name.split(" ")[0] : "Guest"`. */
  function FirstName(user: Option<SessionUser>): string
  {
    if HasName(user) then FirstWord(user.value.name) else "Guest"
  }

  /**
   * Without a name the greeting is "Guest"; otherwise it is the name up to
   * its first space: a prefix of the name, free of spaces, followed by a
   * space or by the end of the name.
   */
  lemma FirstNameMeaning(user: Option<SessionUser>)
    ensures !HasName(user) ==> FirstName(user) == "Guest"
    ensures HasName(user) ==>
      var name := user.value.name;
      var r := FirstName(user);
      && ' ' !in r && |r| <= |name| && name[..|r|] == r
      && (|r| < |name| ==> name[|r|] == ' ')
  {
    if HasName(user) {
      FirstWordMeaning(user.value.name);
    }
  }

  /**
   * The avatar letter agrees with the dialog's badge: for a name that does
   * not start with a space, it is the badge's first character.
   */
  lemma InitialAgreesWithBadge(user: SessionUser)
    requires user.name != "" && user.name[0] != ' '
    ensures Initial(Some(user)) == InterestedClientsModal.Initials(user.name)[..1]
  {
    var name := user.name;
    InterestedClientsModal.InitialsFromFirstTwoWords(name);
    InterestedClientsModal.InitialsOfWords(name);
    FirstWordMeaning(name);
    var words := Split(name, ' ');
    assert FirstWord(name) == words[0];
    assert words[0] != "" && words[0][0] == name[0];
  }

  // ------------------------------------------------------------------ links

  /** `location.pathname === to`. */
  predicate IsActive(pathname: string, to: string)
  {
    pathname == to
  }

  datatype Link = Link(to: string, caption: string)

  /** The links of the bar, in order: Home, then the one page of the user's role. */
  function Links(user: Option<SessionUser>): (r: seq<Link>)
    ensures |r| >= 1 && r[0] == Link("/", "Home")
  {
    [Link("/", "Home")]
    + (if user.Some? && user.value.role == Client then [Link("/my-interests", "My Interests")] else [])
    + (if user.Some? && user.value.role == Agent then [Link("/my-properties", "My Properties")] else [])
  }

  /**
   * "My Interests" shows only to clients and "My Properties" only to agents,
   * so no bar shows both; at most one link is highlighted at a time.
   */
  lemma LinksMeaning(user: Option<SessionUser>, pathname: string)
    ensures Link("/my-interests", "My Interests") in Links(user) <==> user.Some? && user.value.role == Client
    ensures Link("/my-properties", "My Properties") in Links(user) <==> user.Some? && user.value.role == Agent
    ensures |Links(user)| == (if user.Some? then 2 else 1)
    ensures forall i, j :: 0 <= i < j < |Links(user)| ==> !(IsActive(pathname, Links(user)[i].to) && IsActive(pathname, Links(user)[j].to))
  {
  }

  // ---------------------------------------------------------------- sign out

  /** The bar's state and the parts of the app its sign-out touches. */
  class NavbarState {
    var isMobileMenuOpen: bool
    var showLogoutConfirm: bool
    /** The user in the auth slice. */
    var user: Option<SessionUser>
    /** The queries held in the API cache. */
    var cachedQueries: set<string>
    /** The history stack; the last entry is the current location. */
    var history: seq<string>

    predicate Valid()
      reads this
    {
      |history| >= 1
    }

    constructor(user: Option<SessionUser>, start: string)
      ensures Valid() && this.user == user && history == [start]
      ensures !isMobileMenuOpen && !showLogoutConfirm && cachedQueries == {}
    {
      isMobileMenuOpen := false;
      showLogoutConfirm := false;
      this.user := user;
      cachedQueries := {};
      history := [start];
    }

    /** `handleLogoutClick`: closes the mobile menu and asks for confirmation; nothing else changes. */
    method HandleLogoutClick()
      modifies this
      ensures !isMobileMenuOpen && showLogoutConfirm
      ensures user == old(user) && cachedQueries == old(cachedQueries) && history == old(history)
    {
      isMobileMenuOpen := false;
      showLogoutConfirm := true;
    }

    /**
     * `confirmLogout`: whether the logout request succeeded or not, the user
     * is cleared, the cache emptied, the dialog closed, and the current
     * history entry replaced by /login.
     */
    method ConfirmLogout(requestFailed: bool)
      requires Valid()
      modifies this
      ensures Valid()
      ensures user.None? && cachedQueries == {} && !showLogoutConfirm
      ensures history == old(history)[..|old(history)| - 1] + ["/login"]
      ensures |history| == |old(history)| && history[|history| - 1] == "/login"
      ensures isMobileMenuOpen == old(isMobileMenuOpen)
    {
      user := None;
      cachedQueries := {};
      showLogoutConfirm := false;
      history := history[..|history| - 1] + ["/login"];
    }
  }

  /** After signing out the bar greets a guest, shows only Home, and its avatar reads "G". */
  lemma SignedOutBar()
    ensures FirstName(None) == "Guest" && Initial(None) == "G" && Links(None) == [Link("/", "Home")]
  {
  }

  /**
   * The sign-out request, POST /api/v1/auth/logout sent from the local front
   * end, is let through CORS and reaches the inline logout handler with no
   * guard, whatever cookies it carries.
   */
  lemma LogoutRequestReachesInlineHandler(cookies: map<string, TokenText>, now: int)
    ensures App.HandleRequest(Some("http://localhost:5173"), Post, ["api", "v1", "auth", "logout"], cookies, now)
      == App.Routed(Reached(App.AuthApi(AuthRoutes.InlineLogout), None, map[]))
  {
    App.AuthMounted(Post, ["logout"], cookies, now);
    assert App.AuthMount + ["logout"] == ["api", "v1", "auth", "logout"];
    AuthRoutes.LogoutIsInline(cookies, now);
  }
}
