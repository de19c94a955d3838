/** The property router of backend/src/modules/properties/property.routes.ts. */
module PropertyRoutes {
  import opened Common
  import opened Jwt
  import opened Http
  import opened Guards
  import opened Routing

  datatype PropertyHandler =
    | ListProperties | GetPropertyById
    | GetAgentProperties | CreateProperty | UpdateProperty | DeleteProperty

  const Routes: seq<Route<PropertyHandler>> := [
    Route(Get, [], [Handle(ListProperties)]),
    Route(Get, [Param("id")], [Handle(GetPropertyById)]),
    Route(Get, [Lit("agent"), Lit("my-properties")], [Auth, RoleIs(Agent), Handle(GetAgentProperties)]),
    Route(Post, [Lit("agent")], [Auth, RoleIs(Agent), Handle(CreateProperty)]),
    Route(Patch, [Lit("agent"), Param("id")], [Auth, RoleIs(Agent), Handle(UpdateProperty)]),
    Route(Delete, [Lit("agent"), Param("id")], [Auth, RoleIs(Agent), Handle(DeleteProperty)])
  ]

  /** The listing and the lookup by id take no guard: any request reaches them, with no user. */
  lemma PublicPropertyRoutes(id: string, cookies: map<string, TokenText>, now: int)
    requires id != ""
    ensures Dispatch(Routes, Get, [], cookies, now) == Reached(ListProperties, None, map[])
    ensures Dispatch(Routes, Get, [id], cookies, now) == Reached(GetPropertyById, None, map["id" := id])
  {
    DispatchAt(Routes, Get, [], cookies, now, 0);
    assert Params(Routes[0].pattern, []) == map[];
    DispatchAt(Routes, Get, [id], cookies, now, 1);
    var pat := Routes[1].pattern;
    assert Params(pat[1..], [id][1..]) == map[];
    assert Params(pat, [id]) == map["id" := id];
  }

  /** Every route under /agent runs `requireAuth`, then `requireRole('agent')`, then its handler. */
  lemma AgentRoutesGuarded()
    ensures forall i :: 2 <= i < |Routes| ==>
      Routes[i].pattern[0] == Lit("agent") && Routes[i].chain[..2] == [Auth, RoleIs(Agent)] && |Routes[i].chain| == 3
    ensures Routes[0].chain == [Handle(ListProperties)] && Routes[1].chain == [Handle(GetPropertyById)]
  {
  }

  /** The agent routes cover the four agent operations. */
  lemma AgentRoutesCover(h: PropertyHandler)
    requires h != ListProperties && h != GetPropertyById
    ensures exists i :: 2 <= i < |Routes| && Routes[i].chain == [Auth, RoleIs(Agent), Handle(h)]
  {
    match h
    case GetAgentProperties => assert Routes[2].chain == [Auth, RoleIs(Agent), Handle(h)];
    case CreateProperty => assert Routes[3].chain == [Auth, RoleIs(Agent), Handle(h)];
    case UpdateProperty => assert Routes[4].chain == [Auth, RoleIs(Agent), Handle(h)];
    case DeleteProperty => assert Routes[5].chain == [Auth, RoleIs(Agent), Handle(h)];
  }

  /**
   * PATCH /agent/:id: without a valid access token the answer is 401 (never
   * 403); a client's token gets 403; an agent's token reaches `updateProperty`
   * with that agent's claims and the id from the path.
   */
  lemma UpdateRouteGuarded(id: string, cookies: map<string, TokenText>, now: int)
    requires id != ""
    ensures var out := Dispatch(Routes, Patch, ["agent", id], cookies, now);
      var claims := AuthCheck(cookies, now);
      && (claims.None? ==> out.Stopped? && out.reply.status == 401)
      && (claims.Some? && claims.value.role == Client ==> out == Stopped(JsonReply(403, Message("Forbidden"))))
      && (claims.Some? && claims.value.role == Agent ==> out == Reached(UpdateProperty, claims, map["id" := id]))
  {
    var path := ["agent", id];
    assert RouteMatches(Routes[4], Patch, path);
    DispatchAt(Routes, Patch, path, cookies, now, 4);
    var pat := Routes[4].pattern;
    assert Params(pat[1..][1..], path[1..][1..]) == map[];
    assert Params(pat[1..], path[1..]) == map["id" := id];
    assert Params(pat, path) == map["id" := id];
    GuardedChain(Agent, UpdateProperty, cookies, now, map["id" := id]);
  }

  /** Any agent route, requested without a valid access token, is answered 401 by the first guard. */
  lemma AgentRoutesNeedLogin(i: nat, path: seq<string>, cookies: map<string, TokenText>, now: int)
    requires 2 <= i < |Routes| && RouteMatches(Routes[i], Routes[i].verb, path)
    requires AuthCheck(cookies, now).None?
    ensures var out := Dispatch(Routes, Routes[i].verb, path, cookies, now);
      out.Stopped? && out.reply.status == 401
  {
    var m := Routes[i].verb;
    var j := FirstMatch(Routes, m, path).value;
    assert Routes[j].verb == m && |Routes[j].pattern| == |path| == |Routes[i].pattern|;
    assert 2 <= j;
    var chain := Routes[j].chain;
    assert chain == [Auth, RoleIs(Agent), Handle(chain[2].handler)];
    GuardedChain(Agent, chain[2].handler, cookies, now, Params(Routes[j].pattern, path));
  }

  /** GET /agent (no second segment) is the lookup of a property whose id is "agent". */
  lemma AgentAloneIsAnId(cookies: map<string, TokenText>, now: int)
    ensures Dispatch(Routes, Get, ["agent"], cookies, now) == Reached(GetPropertyById, None, map["id" := "agent"])
  {
    PublicPropertyRoutes("agent", cookies, now);
  }
}
