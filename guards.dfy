/**
 * The two guards of backend/src/middleware/auth.ts. `requireAuth` reads the
 * `access_token` cookie, verifies it and attaches the payload to the request;
 * `requireRole(role)` compares the attached role. A guard either answers the
 * request (and the chain stops) or lets it through (`next()`).
 */
module Guards {
  import opened Common
  import opened Jwt
  import opened Http

  /** What a guard decides: answer with this reply, or call `next`. */
  datatype Decision = Deny(reply: Reply) | Next

  /** The decision of `requireAuth`, with the claims it attaches when it lets the request through. */
  function AuthCheck(cookies: map<string, TokenText>, now: int): (r: Option<Claims>)
  {
    var token := CookieValue(cookies, "access_token");
    if token.None? then None else VerifyAccessToken(token.value, now)
  }

  /** The reply `requireAuth` sends when it stops the request. */
  function AuthDenial(cookies: map<string, TokenText>, now: int): Reply
  {
    if CookieValue(cookies, "access_token").None? then JsonReply(401, Message("Unauthenticated"))
    else JsonReply(401, Message("Invalid token"))
  }

  /**
   * `requireAuth`: a missing (or empty) cookie is 401 "Unauthenticated"; a
   * cookie that does not verify against the access secret is 401
   * "Invalid token"; otherwise the claims are attached and `next` is called.
   */
  method RequireAuth(req: Request, res: Response, now: int) returns (next: bool)
    requires res.Unsent()
    modifies req, res
    ensures next <==> AuthCheck(old(req.cookies), now).Some?
    ensures next ==> req.user == AuthCheck(old(req.cookies), now) && res.Unsent()
    ensures !next ==> req.user == old(req.user) && res.Snapshot() == AuthDenial(old(req.cookies), now)
    ensures req.cookies == old(req.cookies)
  {
    var token := CookieValue(req.cookies, "access_token");
    if token.None? {
      res.Status(401);
      res.Json(Message("Unauthenticated"));
      return false;
    }
    var payload := VerifyAccessToken(token.value, now);
    if payload.None? {
      res.Status(401);
      res.Json(Message("Invalid token"));
      return false;
    }
    req.user := payload;
    next := true;
  }

  /** `requireRole(role)`: 403 "Forbidden" unless a user is attached and has that role. */
  function RoleCheck(user: Option<Claims>, role: Role): (d: Decision)
    ensures d.Next? <==> user.Some? && user.value.role == role
    ensures d.Deny? ==> d.reply == JsonReply(403, Message("Forbidden"))
  {
    if user.None? || user.value.role != role then Deny(JsonReply(403, Message("Forbidden"))) else Next
  }

  /**
   * The first guard lets a request through exactly when the access cookie is
   * an unexpired token signed with the access secret, and then attaches that
   * token's own claims; a refresh token in the access cookie is refused.
   */
  lemma AuthCheckMeaning(cookies: map<string, TokenText>, now: int)
    ensures AuthCheck(cookies, now).Some? <==>
      && "access_token" in cookies && cookies["access_token"].Issued?
      && var t := cookies["access_token"].token;
      && t.secret == AccessSecret && (t.claims.exp.None? || now < t.claims.exp.value)
    ensures AuthCheck(cookies, now).Some? ==> AuthCheck(cookies, now).value == cookies["access_token"].token.claims
  {
  }

  /** The two 401 replies: which one is sent depends only on whether the cookie is present. */
  lemma AuthDenialMeaning(cookies: map<string, TokenText>, now: int)
    requires AuthCheck(cookies, now).None?
    ensures AuthDenial(cookies, now).status == 401
    ensures AuthDenial(cookies, now).body == Some(Message("Unauthenticated")) <==>
      ("access_token" !in cookies || cookies["access_token"] == Other(""))
    ensures AuthDenial(cookies, now).body == Some(Message("Invalid token")) <==>
      ("access_token" in cookies && cookies["access_token"] != Other(""))
  {
  }

  /** A token straight from `signTokens` passes the first guard while it is fresh, with its subject and role. */
  lemma FreshLoginPasses(sub: Id, role: Role, now: int, later: int, cookies: map<string, TokenText>)
    requires now <= later < now + AccessLifetime
    ensures var pair := SignTokens(Payload(sub, role), now).value;
      var user := AuthCheck(cookies["access_token" := pair.accessToken], later);
      user.Some? && user.value.sub == sub && RoleCheck(user, role).Next?
  {
  }
}
