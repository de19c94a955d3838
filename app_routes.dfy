/**
 * The client route table of frontend/src/routes/AppRoutes.tsx: four open
 * pages, two pages behind `ProtectedRoute` with a role, and a catch-all that
 * redirects home. React Router ranks routes by how specific they are; the
 * six paths here do not overlap, so the catch-all is the only fallback. Its
 * matching ignores the case of the static segments; the `:id` parameter
 * keeps the case it was typed in.
 */
module AppRoutes {
  import opened Common
  import opened Text
  import opened ProtectedRoute

  datatype Page =
    | PropertyList
    | PropertyDetail(id: string)
    | LoginPage
    | RegisterPage
    | MyInterestsPage
    | MyPropertiesPage

  /** The `element` of the route a path selects. */
  datatype Element = Open(page: Page) | Guard(role: Role, page: Page) | RedirectHome

  /** Every segment of a path in ASCII lower case. */
  function LowerPath(path: seq<string>): seq<string>
  {
    seq(|path|, i requires 0 <= i < |path| => Lower(path[i]))
  }

  function RouteElement(path: seq<string>): Element
  {
    var low := LowerPath(path);
    if path == [] then Open(PropertyList)
    else if |path| == 2 && low[0] == "property" && path[1] != "" then Open(PropertyDetail(path[1]))
    else if low == ["login"] then Open(LoginPage)
    else if low == ["register"] then Open(RegisterPage)
    else if low == ["my-interests"] then Guard(Client, MyInterestsPage)
    else if low == ["my-properties"] then Guard(Agent, MyPropertiesPage)
    else RedirectHome
  }

  /** The table's own paths are already in lower case. */
  lemma TablePathsLower(id: string)
    ensures LowerPath([]) == []
    ensures LowerPath(["property", id])[0] == "property"
    ensures LowerPath(["login"]) == ["login"] && LowerPath(["register"]) == ["register"]
    ensures LowerPath(["my-interests"]) == ["my-interests"] && LowerPath(["my-properties"]) == ["my-properties"]
  {
    assert Lower("property") == "property";
    assert Lower("login") == "login";
    assert Lower("register") == "register";
    assert Lower("my-interests") == "my-interests";
    assert Lower("my-properties") == "my-properties";
  }

  /** Two paths that differ only in the case of their static segments select the same element. */
  lemma CaseIgnored(p1: seq<string>, p2: seq<string>)
    requires LowerPath(p1) == LowerPath(p2)
    requires |p1| == 2 ==> p1[1] == p2[1]
    ensures RouteElement(p1) == RouteElement(p2)
  {
    assert |p1| == |LowerPath(p1)| == |p2|;
  }

  /** What the browser ends up showing for one render: a spinner, a redirect, or a page. */
  datatype View = Loading | Redirect(to: seq<string>, from: Option<seq<string>>) | Show(page: Page)

  function Render(path: seq<string>, loading: bool, user: Option<SessionUser>): View
  {
    match RouteElement(path)
    case Open(page) => Show(page)
    case RedirectHome => Redirect([], None)
    case Guard(role, page) =>
      match Protect(loading, user, Some(role), path)
      case Spinner => Loading
      case ToLogin(from) => Redirect(["login"], Some(from))
      case ToHome => Redirect([], None)
      case Children => Show(page)
  }

  /** /, /property/:id, /login and /register are shown whatever the session. */
  lemma OpenPages(id: string, loading: bool, user: Option<SessionUser>)
    requires id != ""
    ensures Render([], loading, user) == Show(PropertyList)
    ensures Render(["property", id], loading, user) == Show(PropertyDetail(id))
    ensures Render(["login"], loading, user) == Show(LoginPage)
    ensures Render(["register"], loading, user) == Show(RegisterPage)
  {
    TablePathsLower(id);
  }

  /**
   * /my-interests is shown only to a loaded client session: while loading it
   * shows the spinner, without a session it redirects to /login remembering
   * the path, and an agent is sent home. /my-properties is the same for agents.
   */
  lemma RolePages(loading: bool, user: Option<SessionUser>)
    ensures Render(["my-interests"], loading, user) == Show(MyInterestsPage) <==>
      !loading && user.Some? && user.value.role == Client
    ensures Render(["my-properties"], loading, user) == Show(MyPropertiesPage) <==>
      !loading && user.Some? && user.value.role == Agent
    ensures loading ==> Render(["my-interests"], loading, user) == Loading && Render(["my-properties"], loading, user) == Loading
    ensures !loading && user.None? ==>
      Render(["my-interests"], loading, user) == Redirect(["login"], Some(["my-interests"])) &&
      Render(["my-properties"], loading, user) == Redirect(["login"], Some(["my-properties"]))
    ensures !loading && user.Some? && user.value.role == Agent ==> Render(["my-interests"], loading, user) == Redirect([], None)
    ensures !loading && user.Some? && user.value.role == Client ==> Render(["my-properties"], loading, user) == Redirect([], None)
  {
    TablePathsLower("");
  }

  /** Any path outside the table, in any case, redirects to /. */
  lemma CatchAll(path: seq<string>, loading: bool, user: Option<SessionUser>)
    requires var low := LowerPath(path);
      low != [] && low != ["login"] && low != ["register"] && low != ["my-interests"] && low != ["my-properties"]
    requires !(|path| == 2 && Lower(path[0]) == "property" && path[1] != "")
    ensures Render(path, loading, user) == Redirect([], None)
  {
  }

  /** Every redirect lands on a page that is shown at once, so no render loop is possible. */
  lemma RedirectsSettle(path: seq<string>, loading: bool, user: Option<SessionUser>)
    ensures Render(path, loading, user).Redirect? ==>
      Render(Render(path, loading, user).to, loading, user).Show?
  {
    TablePathsLower("");
  }
}
