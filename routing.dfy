/**
 * Express routing as the three routes files use it: a router is a table of
 * routes, each a method, a path pattern and a chain of steps (guards, then the
 * handler). A request runs the first route whose method and pattern match;
 * a guard either answers the request or passes it on.
 *
 * Paths are given as their segments; case-insensitive matching, trailing
 * slashes, URL decoding and `HEAD` are not modelled.
 */
module Routing {
  import opened Common
  import opened Jwt
  import opened Http
  import opened Guards

  datatype Method = Get | Post | Patch | Delete

  /** A literal segment, or a `:name` parameter (which matches any non-empty segment). */
  datatype Segment = Lit(text: string) | Param(name: string)

  /** One element of a route's chain: `requireAuth`, `requireRole(role)`, or the handler. */
  datatype Step<H> = Auth | RoleIs(role: Role) | Handle(handler: H)

  datatype Route<H> = Route(verb: Method, pattern: seq<Segment>, chain: seq<Step<H>>)

  /** What running a request through a router gives. */
  datatype Outcome<H> =
    | NoRoute                                                         // no route matched: Express's 404
    | Stopped(reply: Reply)                                           // a guard answered
    | Reached(handler: H, user: Option<Claims>, params: map<string, string>)

  predicate Fits(seg: Segment, s: string)
  {
    match seg
    case Lit(t) => s == t
    case Param(_) => s != ""
  }

  predicate PatternMatches(pattern: seq<Segment>, path: seq<string>)
  {
    |pattern| == |path| && forall i :: 0 <= i < |path| ==> Fits(pattern[i], path[i])
  }

  predicate RouteMatches<H>(r: Route<H>, m: Method, path: seq<string>)
  {
    r.verb == m && PatternMatches(r.pattern, path)
  }

  /** `req.params`: each parameter segment's name bound to its segment of the path (the first, if a name repeats). */
  function Params(pattern: seq<Segment>, path: seq<string>): (r: map<string, string>)
    requires |pattern| == |path|
    ensures forall i :: 0 <= i < |pattern| && pattern[i].Param? && (forall j :: 0 <= j < i ==> pattern[j] != pattern[i]) ==>
      pattern[i].name in r && r[pattern[i].name] == path[i]
  {
    if pattern == [] then map[]
    else
      var rest := Params(pattern[1..], path[1..]);
      assert forall i :: 1 <= i < |pattern| ==> pattern[i] == pattern[1..][i - 1] && path[i] == path[1..][i - 1];
      if pattern[0].Param? then rest[pattern[0].name := path[0]] else rest
  }

  /** The index of the first route that matches. */
  function FirstMatch<H>(routes: seq<Route<H>>, m: Method, path: seq<string>): (r: Option<nat>)
    ensures r.Some? ==> r.value < |routes| && RouteMatches(routes[r.value], m, path)
    ensures r.Some? ==> forall j :: 0 <= j < r.value ==> !RouteMatches(routes[j], m, path)
    ensures r.None? <==> forall j :: 0 <= j < |routes| ==> !RouteMatches(routes[j], m, path)
  {
    if routes == [] then None
    else if RouteMatches(routes[0], m, path) then Some(0)
    else
      var r := FirstMatch(routes[1..], m, path);
      assert forall j :: 1 <= j < |routes| ==> routes[j] == routes[1..][j - 1];
      if r.Some? then Some(r.value + 1) else None
  }

  /** Running a chain: each guard in turn, until one answers or the handler is reached. */
  function RunChain<H>(chain: seq<Step<H>>, user: Option<Claims>, cookies: map<string, TokenText>, now: int, params: map<string, string>): Outcome<H>
  {
    if chain == [] then NoRoute
    else
      match chain[0]
      case Auth =>
        var claims := AuthCheck(cookies, now);
        if claims.None? then Stopped(AuthDenial(cookies, now)) else RunChain(chain[1..], claims, cookies, now, params)
      case RoleIs(role) =>
        var d := RoleCheck(user, role);
        if d.Deny? then Stopped(d.reply) else RunChain(chain[1..], user, cookies, now, params)
      case Handle(h) => Reached(h, user, params)
  }

  function Dispatch<H>(routes: seq<Route<H>>, m: Method, path: seq<string>, cookies: map<string, TokenText>, now: int): Outcome<H>
  {
    var i := FirstMatch(routes, m, path);
    if i.None? then NoRoute
    else RunChain(routes[i.value].chain, None, cookies, now, Params(routes[i.value].pattern, path))
  }

  /** The route at index `i` is the one that runs when it matches and no earlier route does. */
  lemma DispatchAt<H>(routes: seq<Route<H>>, m: Method, path: seq<string>, cookies: map<string, TokenText>, now: int, i: nat)
    requires i < |routes| && RouteMatches(routes[i], m, path)
    requires forall j :: 0 <= j < i ==> !RouteMatches(routes[j], m, path)
    ensures Dispatch(routes, m, path, cookies, now) == RunChain(routes[i].chain, None, cookies, now, Params(routes[i].pattern, path))
  {
    var r := FirstMatch(routes, m, path);
    assert r.Some?;
    assert r.value == i;
  }

  /** A route whose first literal segment differs from the path's first segment does not match. */
  lemma FirstSegmentDiffers<H>(r: Route<H>, m: Method, path: seq<string>)
    requires |r.pattern| > 0 && |path| > 0 && r.pattern[0].Lit? && r.pattern[0].text != path[0]
    ensures !RouteMatches(r, m, path)
  {
    assert !Fits(r.pattern[0], path[0]);
  }

  /** A chain with no guard reaches its handler whatever the request carries, with no user attached. */
  lemma PublicChain<H>(h: H, cookies: map<string, TokenText>, now: int, params: map<string, string>)
    ensures RunChain([Handle(h)], None, cookies, now, params) == Reached(h, None, params)
  {
  }

  /**
   * The chain `requireAuth, requireRole(role), handler`: a request without a
   * valid access token is answered 401 by the first guard, so it never gets
   * the 403; a valid token of another role gets 403 "Forbidden"; a valid token
   * of that role reaches the handler with the token's claims attached.
   */
  lemma GuardedChain<H>(role: Role, h: H, cookies: map<string, TokenText>, now: int, params: map<string, string>)
    ensures var out := RunChain([Auth, RoleIs(role), Handle(h)], None, cookies, now, params);
      var claims := AuthCheck(cookies, now);
      && (claims.None? ==> out == Stopped(AuthDenial(cookies, now)) && out.reply.status == 401)
      && (claims.Some? && claims.value.role != role ==> out == Stopped(JsonReply(403, Message("Forbidden"))))
      && (claims.Some? && claims.value.role == role ==> out == Reached(h, claims, params))
  {
    var s: seq<Step<H>> := [Auth, RoleIs(role), Handle(h)];
    assert s[1..] == [RoleIs(role), Handle(h)];
    assert s[1..][1..] == [Handle(h)];
    var claims := AuthCheck(cookies, now);
    if claims.Some? && claims.value.role == role {
      assert RunChain(s[1..][1..], claims, cookies, now, params) == Reached(h, claims, params);
      assert RunChain(s[1..], claims, cookies, now, params) == Reached(h, claims, params);
    }
  }

  /** The chain `requireAuth, handler`: 401 without a valid access token, else the handler with its claims. */
  lemma AuthOnlyChain<H>(h: H, cookies: map<string, TokenText>, now: int, params: map<string, string>)
    ensures var out := RunChain([Auth, Handle(h)], None, cookies, now, params);
      var claims := AuthCheck(cookies, now);
      && (claims.None? ==> out == Stopped(AuthDenial(cookies, now)))
      && (claims.Some? ==> out == Reached(h, claims, params))
  {
    var s: seq<Step<H>> := [Auth, Handle(h)];
    assert s[1..] == [Handle(h)];
  }
}
