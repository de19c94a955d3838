/** The interest router of backend/src/modules/interests/interest.routes.ts. */
module InterestRoutes {
  import opened Common
  import opened Jwt
  import opened Http
  import opened Guards
  import opened Routing

  datatype InterestHandler = ExpressInterest | GetMyInterests | RemoveInterest | GetInterestedClients

  const Routes: seq<Route<InterestHandler>> := [
    Route(Post, [], [Auth, RoleIs(Client), Handle(ExpressInterest)]),
    Route(Get, [], [Auth, RoleIs(Client), Handle(GetMyInterests)]),
    Route(Delete, [Param("propertyId")], [Auth, RoleIs(Client), Handle(RemoveInterest)]),
    Route(Get, [Lit("property"), Param("propertyId"), Lit("clients")], [Auth, RoleIs(Agent), Handle(GetInterestedClients)])
  ]

  /** Every chain is `requireAuth`, `requireRole(...)`, handler: the three client routes, then the agent's one. */
  lemma InterestChains()
    ensures forall i :: 0 <= i < 3 ==> Routes[i].chain[..2] == [Auth, RoleIs(Client)] && |Routes[i].chain| == 3
    ensures Routes[3].chain[..2] == [Auth, RoleIs(Agent)] && |Routes[3].chain| == 3
  {
  }

  /**
   * No interest route is public: whatever route a request matches, without a
   * valid access token it is answered 401 by the first guard; with a token of
   * the wrong role, 403.
   */
  lemma NoPublicInterestRoute(m: Method, path: seq<string>, cookies: map<string, TokenText>, now: int)
    requires FirstMatch(Routes, m, path).Some?
    ensures var i := FirstMatch(Routes, m, path).value;
      var out := Dispatch(Routes, m, path, cookies, now);
      var claims := AuthCheck(cookies, now);
      var role := if i < 3 then Client else Agent;
      && (claims.None? ==> out.Stopped? && out.reply.status == 401)
      && (claims.Some? && claims.value.role != role ==> out == Stopped(JsonReply(403, Message("Forbidden"))))
      && (claims.Some? && claims.value.role == role ==> out.Reached? && out.user == claims)
  {
    var i := FirstMatch(Routes, m, path).value;
    var params := Params(Routes[i].pattern, path);
    if i == 0 {
      GuardedChain(Client, ExpressInterest, cookies, now, params);
    } else if i == 1 {
      GuardedChain(Client, GetMyInterests, cookies, now, params);
    } else if i == 2 {
      GuardedChain(Client, RemoveInterest, cookies, now, params);
    } else {
      GuardedChain(Agent, GetInterestedClients, cookies, now, params);
    }
  }

  /** DELETE /:propertyId runs `removeInterest`'s chain with the path's id as `propertyId`. */
  lemma RemoveRouteParams(pid: string, cookies: map<string, TokenText>, now: int)
    requires pid != ""
    ensures var out := Dispatch(Routes, Delete, [pid], cookies, now);
      var claims := AuthCheck(cookies, now);
      claims.Some? && claims.value.role == Client ==> out == Reached(RemoveInterest, claims, map["propertyId" := pid])
  {
    var path := [pid];
    assert RouteMatches(Routes[2], Delete, path);
    DispatchAt(Routes, Delete, path, cookies, now, 2);
    var pat := Routes[2].pattern;
    assert Params(pat[1..], path[1..]) == map[];
    assert Params(pat, path) == map["propertyId" := pid];
    GuardedChain(Client, RemoveInterest, cookies, now, map["propertyId" := pid]);
  }

  /** GET /property/:propertyId/clients runs `getInterestedClients`'s chain with the path's id as `propertyId`. */
  lemma ClientsRouteParams(pid: string, cookies: map<string, TokenText>, now: int)
    requires pid != ""
    ensures var out := Dispatch(Routes, Get, ["property", pid, "clients"], cookies, now);
      var claims := AuthCheck(cookies, now);
      claims.Some? && claims.value.role == Agent ==> out == Reached(GetInterestedClients, claims, map["propertyId" := pid])
  {
    var path := ["property", pid, "clients"];
    assert RouteMatches(Routes[3], Get, path);
    DispatchAt(Routes, Get, path, cookies, now, 3);
    var pat := Routes[3].pattern;
    assert Params(pat[1..][1..][1..], path[1..][1..][1..]) == map[];
    assert Params(pat[1..][1..], path[1..][1..]) == map[];
    assert Params(pat[1..], path[1..]) == map["propertyId" := pid];
    assert Params(pat, path) == map["propertyId" := pid];
    GuardedChain(Agent, GetInterestedClients, cookies, now, map["propertyId" := pid]);
  }
}
