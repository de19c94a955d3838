/**
 * The handlers of backend/src/modules/auth/auth.controller.ts. Each handler is
 * a method that steps through the user table and writes the response; beside
 * it, a function gives the reply the handler must leave, and the lemmas state
 * what the source promises about those replies.
 *
 * Password hashing and checking are not modelled: `hash` and `check` are
 * parameters, None standing for the exception they may throw.
 */
module AuthController {
  import opened Common
  import opened Jwt
  import opened Users
  import opened Http
  import opened JwtCookies

  /** `cookieOptions`: httpOnly, secure, sameSite none, 7 days, used for BOTH cookies. */
  const ControllerCookieOptions: CookieOptions := CookieOptions(true, true, NoneSite, 7 * 24 * 60 * 60 * 1000)

  /** The two `res.cookie(..., cookieOptions)` calls of register, login and refresh. */
  function SessionCookies(tokens: TokenPair): seq<CookieOp>
  {
    [SetCookie(AccessCookie, tokens.accessToken, ControllerCookieOptions),
     SetCookie(RefreshCookie, tokens.refreshToken, ControllerCookieOptions)]
  }

  function InternalError(): Reply
  {
    JsonReply(500, Message("Internal Server Error"))
  }

  function InvalidCredentials(): Reply
  {
    JsonReply(401, Message("Invalid credentials"))
  }

  datatype RegisterBody = RegisterBody(name: string, email: string, password: string, role: string)
  datatype LoginBody = LoginBody(email: string, password: string)

  // ---------------------------------------------------------------- register

  /** The record `register` inserts, if it gets that far. */
  function RegisteredUser(users: seq<User>, nextId: nat, body: RegisterBody, hash: string -> Option<string>, now: int): Option<User>
  {
    if FindByEmail(users, body.email).Some? then None
    else
      var passwordHash := hash(body.password);
      if passwordHash.None? then None
      else Validated(nextId, body.name, body.email, passwordHash.value, body.role, now)
  }

  function RegisterReply(users: seq<User>, nextId: nat, body: RegisterBody, hash: string -> Option<string>, now: int): Reply
  {
    if FindByEmail(users, body.email).Some? then JsonReply(409, Message("Email already registered"))
    else
      var user := RegisteredUser(users, nextId, body, hash, now);
      if user.None? then InternalError()
      else
        var tokens := SignTokens(Payload(user.value.id, user.value.role), now).value;
        Reply(201, Some(UserBody(ViewOf(user.value))), SessionCookies(tokens))
  }

  method Register(store: UserStore, res: Response, body: RegisterBody, hash: string -> Option<string>, now: int)
    requires store.Valid() && res.Unsent()
    modifies store, res
    ensures store.Valid()
    ensures res.Snapshot() == RegisterReply(old(store.users), old(store.nextId), body, hash, now)
    ensures var user := RegisteredUser(old(store.users), old(store.nextId), body, hash, now);
      store.users == old(store.users) + (if user.Some? then [user.value] else [])
  {
    var existing := FindByEmail(store.users, body.email);
    if existing.Some? {
      res.Status(409);
      res.Json(Message("Email already registered"));
      return;
    }
    var passwordHash := hash(body.password);
    if passwordHash.None? {
      res.Status(500);
      res.Json(Message("Internal Server Error"));
      return;
    }
    var user := store.Create(body.name, body.email, passwordHash.value, body.role, now);
    if user.None? {
      res.Status(500);
      res.Json(Message("Internal Server Error"));
      return;
    }
    var tokens := SignTokens(Payload(user.value.id, user.value.role), now).value;
    res.Cookie(AccessCookie, tokens.accessToken, ControllerCookieOptions);
    res.Cookie(RefreshCookie, tokens.refreshToken, ControllerCookieOptions);
    res.Status(201);
    res.Json(UserBody(ViewOf(user.value)));
  }

  /** A registered email is answered 409, and nothing is inserted. */
  lemma RegisterDuplicateRejected(users: seq<User>, nextId: nat, body: RegisterBody, hash: string -> Option<string>, now: int)
    requires FindByEmail(users, body.email).Some?
    ensures RegisterReply(users, nextId, body, hash, now) == JsonReply(409, Message("Email already registered"))
    ensures RegisteredUser(users, nextId, body, hash, now).None?
  {
  }

  /**
   * `register` answers 201 exactly when the email is new, hashing succeeds and
   * the schema accepts the record; the one record it inserts carries the
   * body's fields and the computed hash, the table stays valid, and the reply
   * is that record's `{id, name, email, role}` view with both session cookies,
   * whose tokens name the new user. Every other outcome inserts nothing.
   */
  lemma RegisterSuccess(users: seq<User>, nextId: nat, body: RegisterBody, hash: string -> Option<string>, now: int)
    requires TableValid(users, nextId)
    ensures var reply := RegisterReply(users, nextId, body, hash, now);
      var user := RegisteredUser(users, nextId, body, hash, now);
      && (reply.status == 201 <==>
            FindByEmail(users, body.email).None? && hash(body.password).Some? &&
            Validated(nextId, body.name, body.email, hash(body.password).value, body.role, now).Some?)
      && (reply.status == 201 <==> user.Some?)
      && (user.Some? ==>
            && user.value.id == nextId && user.value.name == body.name && user.value.email == body.email
            && user.value.passwordHash == hash(body.password).value && RoleName(user.value.role) == body.role
            && TableValid(users + [user.value], nextId + 1)
            && reply.body == Some(UserBody(UserView(nextId, body.name, body.email, user.value.role)))
            && |reply.cookies| == 2
            && reply.cookies[0].value.token.claims.sub == nextId
            && reply.cookies[1].value.token.claims.sub == nextId)
      && (user.None? ==> reply.status == 409 || reply == InternalError())
  {
    var user := RegisteredUser(users, nextId, body, hash, now);
    if user.Some? {
      AppendKeepsValid(users, nextId, user.value);
    }
  }

  /** A hash that succeeds or fails as well: a usable hash is an non-empty one. */
  predicate UsableHash(h: Option<string>)
  {
    h.Some? && h.value != ""
  }

  /**
   * The password hash never reaches the reply: two hash functions that succeed
   * on the same passwords give the same reply, whatever hashes they compute.
   */
  lemma RegisterReplyHidesHash(users: seq<User>, nextId: nat, body: RegisterBody, h1: string -> Option<string>, h2: string -> Option<string>, now: int)
    requires UsableHash(h1(body.password)) == UsableHash(h2(body.password))
    ensures RegisterReply(users, nextId, body, h1, now) == RegisterReply(users, nextId, body, h2, now)
  {
  }

  // ------------------------------------------------------------------- login

  function LoginReply(users: seq<User>, body: LoginBody, check: (string, string) -> Option<bool>, now: int): Reply
  {
    var user := FindByEmail(users, body.email);
    if user.None? then InvalidCredentials()
    else
      var isValid := check(body.password, user.value.passwordHash);
      if isValid.None? then InternalError()
      else if !isValid.value then InvalidCredentials()
      else
        var tokens := SignTokens(Payload(user.value.id, user.value.role), now).value;
        Reply(200, Some(UserBody(ViewOf(user.value))), SessionCookies(tokens))
  }

  /** `login` reads the table and writes only the response. */
  method Login(store: UserStore, res: Response, body: LoginBody, check: (string, string) -> Option<bool>, now: int)
    requires res.Unsent()
    modifies res
    ensures res.Snapshot() == LoginReply(store.users, body, check, now)
  {
    var user := FindByEmail(store.users, body.email);
    if user.None? {
      res.Status(401);
      res.Json(Message("Invalid credentials"));
      return;
    }
    var isValid := check(body.password, user.value.passwordHash);
    if isValid.None? {
      res.Status(500);
      res.Json(Message("Internal Server Error"));
      return;
    }
    if !isValid.value {
      res.Status(401);
      res.Json(Message("Invalid credentials"));
      return;
    }
    var tokens := SignTokens(Payload(user.value.id, user.value.role), now).value;
    res.Cookie(AccessCookie, tokens.accessToken, ControllerCookieOptions);
    res.Cookie(RefreshCookie, tokens.refreshToken, ControllerCookieOptions);
    res.Json(UserBody(ViewOf(user.value)));
  }

  /**
   * An unknown email and a wrong password for a known one get the very same
   * reply, so the two failures cannot be told apart.
   */
  lemma LoginFailuresIdentical(users1: seq<User>, b1: LoginBody, users2: seq<User>, b2: LoginBody,
                               check: (string, string) -> Option<bool>, now1: int, now2: int)
    requires FindByEmail(users1, b1.email).None?
    requires FindByEmail(users2, b2.email).Some? && check(b2.password, FindByEmail(users2, b2.email).value.passwordHash) == Some(false)
    ensures LoginReply(users1, b1, check, now1) == LoginReply(users2, b2, check, now2) == InvalidCredentials()
  {
  }

  /**
   * `login` answers 200 exactly when the email is registered and the password
   * checks; the reply then shows that user's view, and both session cookies
   * carry tokens for the stored id and role, the access token passing the
   * first guard during its 15 minutes. A throwing check is 500; anything
   * else is 401 "Invalid credentials".
   */
  lemma LoginSuccess(users: seq<User>, body: LoginBody, check: (string, string) -> Option<bool>, now: int, later: int)
    requires now <= later < now + AccessLifetime
    ensures var reply := LoginReply(users, body, check, now);
      var user := FindByEmail(users, body.email);
      && (reply.status == 200 <==> user.Some? && check(body.password, user.value.passwordHash) == Some(true))
      && (reply.status == 200 ==>
            && user.value in users
            && reply.body == Some(UserBody(ViewOf(user.value)))
            && |reply.cookies| == 2
            && reply.cookies[0].name == "access_token" && reply.cookies[1].name == "refresh_token"
            && reply.cookies[0].value.token.claims.sub == user.value.id
            && reply.cookies[0].value.token.claims.role == user.value.role
            && reply.cookies[1].value.token.claims.sub == user.value.id
            && reply.cookies[1].value.token.claims.role == user.value.role
            && VerifyAccessToken(reply.cookies[0].value, later) == Some(reply.cookies[0].value.token.claims))
      && (reply.status != 200 ==> reply == InvalidCredentials() || reply == InternalError())
  {
  }

  // ----------------------------------------------------------------- refresh

  function NoRefreshToken(): Reply
  {
    JsonReply(401, Message("No refresh token"))
  }

  function InvalidRefreshToken(): Reply
  {
    JsonReply(401, Message("Invalid refresh token"))
  }

  /**
   * `refresh` as written: the verified payload, which carries the `iat` and
   * `exp` of the old token, is passed back to `signTokens`; when signing
   * throws, the catch answers 401 "Invalid refresh token".
   */
  function RefreshReplyAsWritten(cookies: map<string, TokenText>, now: int): Reply
  {
    var token := CookieValue(cookies, RefreshCookie);
    if token.None? then NoRefreshToken()
    else
      var payload := VerifyRefreshToken(token.value, now);
      if payload.None? then InvalidRefreshToken()
      else
        var tokens := SignTokens(payload.value, now);
        if tokens.None? then InvalidRefreshToken()
        else Reply(200, Some(Message("Token refreshed")), SessionCookies(tokens.value))
  }

  method RefreshAsWritten(req: Request, res: Response, now: int)
    requires res.Unsent()
    modifies res
    ensures res.Snapshot() == RefreshReplyAsWritten(req.cookies, now)
  {
    var token := CookieValue(req.cookies, RefreshCookie);
    if token.None? {
      res.Status(401);
      res.Json(Message("No refresh token"));
      return;
    }
    var payload := VerifyRefreshToken(token.value, now);
    if payload.None? {
      res.Status(401);
      res.Json(Message("Invalid refresh token"));
      return;
    }
    var tokens := SignTokens(payload.value, now);
    if tokens.None? {
      res.Status(401);
      res.Json(Message("Invalid refresh token"));
      return;
    }
    res.Cookie(AccessCookie, tokens.value.accessToken, ControllerCookieOptions);
    res.Cookie(RefreshCookie, tokens.value.refreshToken, ControllerCookieOptions);
    res.Json(Message("Token refreshed"));
  }

  /**
   * The refresh as written never succeeds with a token the service issued:
   * a refresh token from `signTokens`, presented at any time, is answered
   * 401 "Invalid refresh token" (or, once expired, the same reply for that
   * reason) and no cookie is renewed.
   */
  lemma RefreshAsWrittenRejectsIssued(sub: Id, role: Role, issued: int, now: int, cookies: map<string, TokenText>)
    ensures var pair := SignTokens(Payload(sub, role), issued).value;
      RefreshReplyAsWritten(cookies[RefreshCookie := pair.refreshToken], now) == InvalidRefreshToken()
  {
  }

  /** The corrected refresh: re-sign only the `{sub, role}` of the verified payload. */
  function RefreshReply(cookies: map<string, TokenText>, now: int): Reply
  {
    var token := CookieValue(cookies, RefreshCookie);
    if token.None? then NoRefreshToken()
    else
      var payload := VerifyRefreshToken(token.value, now);
      if payload.None? then InvalidRefreshToken()
      else
        var tokens := SignTokens(Payload(payload.value.sub, payload.value.role), now).value;
        Reply(200, Some(Message("Token refreshed")), SessionCookies(tokens))
  }

  method Refresh(req: Request, res: Response, now: int)
    requires res.Unsent()
    modifies res
    ensures res.Snapshot() == RefreshReply(req.cookies, now)
  {
    var token := CookieValue(req.cookies, RefreshCookie);
    if token.None? {
      res.Status(401);
      res.Json(Message("No refresh token"));
      return;
    }
    var payload := VerifyRefreshToken(token.value, now);
    if payload.None? {
      res.Status(401);
      res.Json(Message("Invalid refresh token"));
      return;
    }
    var tokens := SignTokens(Payload(payload.value.sub, payload.value.role), now).value;
    res.Cookie(AccessCookie, tokens.accessToken, ControllerCookieOptions);
    res.Cookie(RefreshCookie, tokens.refreshToken, ControllerCookieOptions);
    res.Json(Message("Token refreshed"));
  }

  /**
   * The corrected refresh: no (or an empty) cookie is 401 "No refresh token";
   * a cookie that does not verify against the refresh secret is 401
   * "Invalid refresh token"; otherwise 200 with both cookies renewed for the
   * same subject and role, the new tokens issued now.
   */
  lemma RefreshMeaning(cookies: map<string, TokenText>, now: int)
    ensures var reply := RefreshReply(cookies, now);
      && (reply == NoRefreshToken() <==> RefreshCookie !in cookies || cookies[RefreshCookie] == Other(""))
      && (reply.status == 200 <==> CookieValue(cookies, RefreshCookie).Some? && VerifyRefreshToken(cookies[RefreshCookie], now).Some?)
      && (reply.status != 200 ==> reply == NoRefreshToken() || reply == InvalidRefreshToken())
      && (reply.status == 200 ==>
            var was := cookies[RefreshCookie].token.claims;
            && |reply.cookies| == 2
            && reply.cookies[0].value == Issued(Token(Claims(was.sub, was.role, Some(now), Some(now + AccessLifetime)), AccessSecret))
            && reply.cookies[1].value == Issued(Token(Claims(was.sub, was.role, Some(now), Some(now + RefreshLifetime)), RefreshSecret)))
  {
  }

  /**
   * A session can be carried forward: the refresh token of a login, presented
   * within its 7 days, yields a new access token for the same user that passes
   * the first guard for the next 15 minutes.
   */
  lemma RefreshExtendsSession(sub: Id, role: Role, issued: int, now: int, later: int, cookies: map<string, TokenText>)
    requires issued <= now < issued + RefreshLifetime
    requires now <= later < now + AccessLifetime
    ensures var pair := SignTokens(Payload(sub, role), issued).value;
      var reply := RefreshReply(cookies[RefreshCookie := pair.refreshToken], now);
      && reply.status == 200
      && VerifyAccessToken(reply.cookies[0].value, later) == Some(Claims(sub, role, Some(now), Some(now + AccessLifetime)))
  {
  }

  // ------------------------------------------------------------------- getMe

  function MeReply(users: seq<User>, user: Option<Claims>): Reply
  {
    if user.None? then JsonReply(401, Message("Unauthenticated"))
    else
      var found := FindById(users, user.value.sub);
      JsonReply(200, MeBody(if found.Some? then Some(WithoutHash(found.value)) else None))
  }

  method GetMe(store: UserStore, req: Request, res: Response)
    requires res.Unsent()
    modifies res
    ensures res.Snapshot() == MeReply(store.users, req.user)
  {
    var user := req.user;
    if user.None? {
      res.Status(401);
      res.Json(Message("Unauthenticated"));
      return;
    }
    var found := FindById(store.users, user.value.sub);
    res.Json(MeBody(if found.Some? then Some(WithoutHash(found.value)) else None));
  }

  /**
   * `getMe` without an attached user is 401 "Unauthenticated"; otherwise 200
   * with the stored record whose id is the token's subject, every field but
   * the hash, or `null` when no such record exists.
   */
  lemma MeMeaning(users: seq<User>, user: Option<Claims>)
    ensures var reply := MeReply(users, user);
      && (user.None? ==> reply == JsonReply(401, Message("Unauthenticated")))
      && (user.Some? ==>
            && reply.status == 200 && reply.body.Some? && reply.body.value.MeBody?
            && var found := reply.body.value.found;
            && (found.None? <==> forall u :: u in users ==> u.id != user.value.sub)
            && (found.Some? ==> exists u :: u in users && u.id == user.value.sub && found.value == WithoutHash(u)))
  {
    if user.Some? {
      var f := FindById(users, user.value.sub);
      if f.None? {
        forall u | u in users ensures u.id != user.value.sub {
          var i :| 0 <= i < |users| && users[i] == u;
        }
      }
    }
  }

  // ------------------------------------------------------------------ logout

  /** The controller's `logout`: clears both cookies with `cookieOptions`. */
  function ControllerLogoutReply(): Reply
  {
    Reply(200, Some(Message("Logged out")),
          [ClearCookie(AccessCookie, Some(ControllerCookieOptions)), ClearCookie(RefreshCookie, Some(ControllerCookieOptions))])
  }

  method ControllerLogout(res: Response)
    requires res.Unsent()
    modifies res
    ensures res.Snapshot() == ControllerLogoutReply()
  {
    res.ClearCookie(AccessCookie, Some(ControllerCookieOptions));
    res.ClearCookie(RefreshCookie, Some(ControllerCookieOptions));
    res.Json(Message("Logged out"));
  }

  // ----------------------------------------------------------- cookie policy

  /**
   * Register, login and refresh set the two cookies with the same options:
   * httpOnly, secure, sameSite none and a 7-day maxAge for BOTH; the access
   * cookie therefore outlives its 15-minute token, and for the rest of the
   * week the browser keeps presenting a token the first guard answers with
   * 401 "Invalid token".
   */
  lemma SessionCookiesPolicy(tokens: TokenPair, sub: Id, role: Role, issued: int, later: int)
    requires issued + AccessLifetime <= later < issued + RefreshLifetime
    ensures forall op :: op in SessionCookies(tokens) ==>
      op.SetCookie? && op.options == CookieOptions(true, true, NoneSite, 604800000)
    ensures ControllerCookieOptions.maxAgeMs > AccessLifetime * 1000
    ensures ControllerCookieOptions.maxAgeMs == RefreshLifetime * 1000
    ensures var pair := SignTokens(Payload(sub, role), issued).value;
      VerifyAccessToken(pair.accessToken, later).None?
  {
  }
}
