/**
 * The auth router of backend/src/modules/auth/auth.routes.ts, and its inline
 * logout handler. The routes file imports the controller's `logout` but
 * registers its own handler for POST /logout instead.
 */
module AuthRoutes {
  import opened Common
  import opened Jwt
  import opened Http
  import opened JwtCookies
  import opened Guards
  import opened Routing
  import AuthController

  /** The handlers the file imports, and the inline logout. */
  datatype AuthHandler = Register | Login | ControllerLogout | Refresh | GetMe | InlineLogout

  const Routes: seq<Route<AuthHandler>> := [
    Route(Post, [Lit("register")], [Handle(Register)]),
    Route(Post, [Lit("login")], [Handle(Login)]),
    Route(Post, [Lit("logout")], [Handle(InlineLogout)]),
    Route(Post, [Lit("refresh")], [Handle(Refresh)]),
    Route(Get, [Lit("me")], [Auth, Handle(GetMe)])
  ]

  /** The inline handler: clear both cookies (no options), then 200 "Logged out successfully". */
  function InlineLogoutReply(): Reply
  {
    Reply(200, Some(Message("Logged out successfully")), ClearedAuthCookies())
  }

  method InlineLogoutHandler(res: Response)
    requires res.Unsent()
    modifies res
    ensures res.Snapshot() == InlineLogoutReply()
  {
    res.ClearCookie(AccessCookie, None);
    res.ClearCookie(RefreshCookie, None);
    res.Status(200);
    res.Json(Message("Logged out successfully"));
  }

  /** POST /register, /login, /logout and /refresh reach their handlers with no guard and no user attached. */
  lemma PublicAuthRoutes(cookies: map<string, TokenText>, now: int)
    ensures Dispatch(Routes, Post, ["register"], cookies, now) == Reached(Register, None, map[])
    ensures Dispatch(Routes, Post, ["login"], cookies, now) == Reached(Login, None, map[])
    ensures Dispatch(Routes, Post, ["logout"], cookies, now) == Reached(InlineLogout, None, map[])
    ensures Dispatch(Routes, Post, ["refresh"], cookies, now) == Reached(Refresh, None, map[])
  {
    RegisterAndLoginRoutes(cookies, now);
    LogoutIsInline(cookies, now);
    RefreshRoute(cookies, now);
  }

  lemma RegisterAndLoginRoutes(cookies: map<string, TokenText>, now: int)
    ensures Dispatch(Routes, Post, ["register"], cookies, now) == Reached(Register, None, map[])
    ensures Dispatch(Routes, Post, ["login"], cookies, now) == Reached(Login, None, map[])
  {
    DispatchAt(Routes, Post, ["register"], cookies, now, 0);
    assert Params(Routes[0].pattern, ["register"]) == map[];
    FirstSegmentDiffers(Routes[0], Post, ["login"]);
    DispatchAt(Routes, Post, ["login"], cookies, now, 1);
    assert Params(Routes[1].pattern, ["login"]) == map[];
  }

  lemma RefreshRoute(cookies: map<string, TokenText>, now: int)
    ensures Dispatch(Routes, Post, ["refresh"], cookies, now) == Reached(Refresh, None, map[])
  {
    FirstSegmentDiffers(Routes[0], Post, ["refresh"]);
    FirstSegmentDiffers(Routes[1], Post, ["refresh"]);
    FirstSegmentDiffers(Routes[2], Post, ["refresh"]);
    DispatchAt(Routes, Post, ["refresh"], cookies, now, 3);
    assert Params(Routes[3].pattern, ["refresh"]) == map[];
  }

  /** GET /me always passes `requireAuth` first: 401 without a valid access token, else `getMe` with its claims. */
  lemma MeRequiresAuth(cookies: map<string, TokenText>, now: int)
    ensures var out := Dispatch(Routes, Get, ["me"], cookies, now);
      && (AuthCheck(cookies, now).None? ==> out == Stopped(AuthDenial(cookies, now)))
      && (AuthCheck(cookies, now).Some? ==> out == Reached(GetMe, AuthCheck(cookies, now), map[]))
  {
    DispatchAt(Routes, Get, ["me"], cookies, now, 4);
    assert Params(Routes[4].pattern, ["me"]) == map[];
    AuthOnlyChain(GetMe, cookies, now, map[]);
  }

  /**
   * POST /logout reaches the inline handler whatever the request carries;
   * no route reaches the controller's `logout`. The inline reply clears the
   * two cookies without options and differs from the controller's reply.
   */
  lemma LogoutIsInline(cookies: map<string, TokenText>, now: int)
    ensures Dispatch(Routes, Post, ["logout"], cookies, now) == Reached(InlineLogout, None, map[])
    ensures forall r :: r in Routes ==> Handle(ControllerLogout) !in r.chain
    ensures InlineLogoutReply().status == 200
    ensures InlineLogoutReply().cookies == [ClearCookie("access_token", None), ClearCookie("refresh_token", None)]
    ensures InlineLogoutReply() != AuthController.ControllerLogoutReply()
  {
    FirstSegmentDiffers(Routes[0], Post, ["logout"]);
    FirstSegmentDiffers(Routes[1], Post, ["logout"]);
    DispatchAt(Routes, Post, ["logout"], cookies, now, 2);
    assert Params(Routes[2].pattern, ["logout"]) == map[];
  }
}
