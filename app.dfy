/**
 * The request pipeline of backend/src/app.ts: the CORS origin check, the
 * health route, and the three routers mounted under their prefixes. A
 * rejected origin is passed as an error to the error handler, which is not
 * part of this model; the request then reaches no route.
 */
module App {
  import opened Common
  import opened Jwt
  import opened Http
  import opened Routing
  import AuthRoutes
  import PropertyRoutes
  import InterestRoutes

  const AllowedOrigins: seq<string> := ["http://localhost:5173", "https://real-estate-app-1-gbzy.onrender.com"]

  const CorsMessage := "The CORS policy for this site does not allow access from the specified Origin."

  datatype CorsDecision = Allow | Reject(message: string)

  /** The `origin` callback: no Origin (or an empty one) is allowed, else the origin must be on the list. */
  function CorsCheck(origin: Option<string>): (r: CorsDecision)
    ensures r.Allow? <==> origin.None? || origin.value == "" || origin.value in AllowedOrigins
    ensures r.Reject? ==> r.message == CorsMessage
  {
    if origin.None? || origin.value == "" then Allow
    else if origin.value !in AllowedOrigins then Reject(CorsMessage)
    else Allow
  }

  /** Every handler the application can reach: the inline health check, or one of a router's. */
  datatype AppHandler =
    | HealthCheck
    | AuthApi(auth: AuthRoutes.AuthHandler)
    | PropertyApi(property: PropertyRoutes.PropertyHandler)
    | InterestApi(interest: InterestRoutes.InterestHandler)

  const AuthMount: seq<string> := ["api", "v1", "auth"]
  const PropertyMount: seq<string> := ["api", "v1", "properties"]
  const InterestMount: seq<string> := ["api", "v1", "interests"]

  function HealthReply(): Reply
  {
    JsonReply(200, Message("\U{1F3E1} Real Estate API Running"))
  }

  /** A router's outcome, with its handler named as the application's. */
  function Lift<H>(o: Outcome<H>, tag: H -> AppHandler): Outcome<AppHandler>
  {
    match o
    case NoRoute => NoRoute
    case Stopped(reply) => Stopped(reply)
    case Reached(h, user, params) => Reached(tag(h), user, params)
  }

  predicate Under(prefix: seq<string>, path: seq<string>)
  {
    |prefix| <= |path| && path[..|prefix|] == prefix
  }

  /**
   * The routes in registration order: GET / first, then each mount. A router
   * that matches nothing passes the request on; the mount prefixes are
   * disjoint, so it then reaches no route.
   */
  function Resolve(m: Method, path: seq<string>, cookies: map<string, TokenText>, now: int): Outcome<AppHandler>
  {
    if m == Get && path == [] then Reached(HealthCheck, None, map[])
    else if Under(AuthMount, path) then
      Lift(Dispatch(AuthRoutes.Routes, m, path[3..], cookies, now), (h: AuthRoutes.AuthHandler) => AuthApi(h))
    else if Under(PropertyMount, path) then
      Lift(Dispatch(PropertyRoutes.Routes, m, path[3..], cookies, now), (h: PropertyRoutes.PropertyHandler) => PropertyApi(h))
    else if Under(InterestMount, path) then
      Lift(Dispatch(InterestRoutes.Routes, m, path[3..], cookies, now), (h: InterestRoutes.InterestHandler) => InterestApi(h))
    else NoRoute
  }

  /** The whole pipeline for one request: CORS first, then the routes. */
  datatype AppOutcome = Blocked(message: string) | Routed(outcome: Outcome<AppHandler>)

  function HandleRequest(origin: Option<string>, m: Method, path: seq<string>, cookies: map<string, TokenText>, now: int): AppOutcome
  {
    var cors := CorsCheck(origin);
    if cors.Reject? then Blocked(cors.message) else Routed(Resolve(m, path, cookies, now))
  }

  /**
   * A request with no Origin, or from one of the two listed origins, is
   * routed; any other origin is blocked with the CORS message and reaches no
   * handler.
   */
  lemma CorsMeaning(origin: Option<string>, m: Method, path: seq<string>, cookies: map<string, TokenText>, now: int)
    ensures HandleRequest(None, m, path, cookies, now) == Routed(Resolve(m, path, cookies, now))
    ensures HandleRequest(Some("http://localhost:5173"), m, path, cookies, now).Routed?
    ensures HandleRequest(Some("https://real-estate-app-1-gbzy.onrender.com"), m, path, cookies, now).Routed?
    ensures origin.Some? && origin.value != "" && origin.value !in AllowedOrigins ==>
      HandleRequest(origin, m, path, cookies, now) == Blocked(CorsMessage)
    ensures HandleRequest(origin, m, path, cookies, now).Blocked? <==>
      origin.Some? && origin.value != "http://localhost:5173" && origin.value != "https://real-estate-app-1-gbzy.onrender.com" && origin.value != ""
  {
  }

  /** GET / answers the health message, with no guard. */
  lemma HealthRoute(cookies: map<string, TokenText>, now: int)
    ensures Resolve(Get, [], cookies, now) == Reached(HealthCheck, None, map[])
    ensures HealthReply().status == 200 && HealthReply().body == Some(Message("\U{1F3E1} Real Estate API Running"))
  {
  }

  /** The full path of an auth route is its mount prefix followed by the route's own path. */
  lemma AuthMounted(m: Method, rest: seq<string>, cookies: map<string, TokenText>, now: int)
    ensures Resolve(m, AuthMount + rest, cookies, now) ==
      Lift(Dispatch(AuthRoutes.Routes, m, rest, cookies, now), (h: AuthRoutes.AuthHandler) => AuthApi(h))
  {
    var path := AuthMount + rest;
    assert path[..3] == AuthMount && path[3..] == rest;
  }

  /** The same for the property routes. */
  lemma PropertiesMounted(m: Method, rest: seq<string>, cookies: map<string, TokenText>, now: int)
    ensures Resolve(m, PropertyMount + rest, cookies, now) ==
      Lift(Dispatch(PropertyRoutes.Routes, m, rest, cookies, now), (h: PropertyRoutes.PropertyHandler) => PropertyApi(h))
  {
    var path := PropertyMount + rest;
    assert path[..3] == PropertyMount && path[3..] == rest;
    assert !Under(AuthMount, path) by {
      assert path[2] != AuthMount[2];
    }
  }

  /** The same for the interest routes. */
  lemma InterestsMounted(m: Method, rest: seq<string>, cookies: map<string, TokenText>, now: int)
    ensures Resolve(m, InterestMount + rest, cookies, now) ==
      Lift(Dispatch(InterestRoutes.Routes, m, rest, cookies, now), (h: InterestRoutes.InterestHandler) => InterestApi(h))
  {
    var path := InterestMount + rest;
    assert path[..3] == InterestMount && path[3..] == rest;
    assert !Under(AuthMount, path) by {
      assert path[2] != AuthMount[2];
    }
    assert !Under(PropertyMount, path) by {
      assert path[2] != PropertyMount[2];
    }
  }

  /** A path under none of the prefixes, other than GET /, reaches no handler. */
  lemma UnmountedNoRoute(m: Method, path: seq<string>, cookies: map<string, TokenText>, now: int)
    requires !(m == Get && path == [])
    requires !Under(AuthMount, path) && !Under(PropertyMount, path) && !Under(InterestMount, path)
    ensures Resolve(m, path, cookies, now) == NoRoute
  {
  }

  /** End to end: POST /api/v1/auth/login from the local front end reaches `login` unguarded. */
  lemma LoginEndToEnd(cookies: map<string, TokenText>, now: int)
    ensures HandleRequest(Some("http://localhost:5173"), Post, ["api", "v1", "auth", "login"], cookies, now)
      == Routed(Reached(AuthApi(AuthRoutes.Login), None, map[]))
  {
    AuthMounted(Post, ["login"], cookies, now);
    assert AuthMount + ["login"] == ["api", "v1", "auth", "login"];
    AuthRoutes.PublicAuthRoutes(cookies, now);
  }
}
