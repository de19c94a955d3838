/**
 * `setAuthCookies` and `clearAuthCookies` of backend/src/utils/jwt.ts: the two
 * successive cookie writes each of them makes on a response.
 */
module JwtCookies {
  import opened Common
  import opened Jwt
  import opened Http

  const AccessCookie: string := "access_token"
  const RefreshCookie: string := "refresh_token"

  /** `{ httpOnly: true, sameSite: 'lax', secure: false, maxAge: 15 * 60 * 1000 }`. */
  const AccessCookieOptions: CookieOptions := CookieOptions(true, false, Lax, 15 * 60 * 1000)
  /** The same with `maxAge: 7 * 24 * 60 * 60 * 1000`. */
  const RefreshCookieOptions: CookieOptions := CookieOptions(true, false, Lax, 7 * 24 * 60 * 60 * 1000)

  /** The cookie effects `setAuthCookies` appends, in order. */
  function AuthCookies(tokens: TokenPair): seq<CookieOp>
  {
    [SetCookie(AccessCookie, tokens.accessToken, AccessCookieOptions),
     SetCookie(RefreshCookie, tokens.refreshToken, RefreshCookieOptions)]
  }

  /** The cookie effects `clearAuthCookies` appends: both names, no options. */
  function ClearedAuthCookies(): seq<CookieOp>
  {
    [ClearCookie(AccessCookie, None), ClearCookie(RefreshCookie, None)]
  }

  method SetAuthCookies(res: Response, tokens: TokenPair)
    modifies res
    ensures res.cookies == old(res.cookies) + AuthCookies(tokens)
    ensures res.status == old(res.status) && res.body == old(res.body)
  {
    res.Cookie(AccessCookie, tokens.accessToken, AccessCookieOptions);
    res.Cookie(RefreshCookie, tokens.refreshToken, RefreshCookieOptions);
  }

  method ClearAuthCookies(res: Response)
    modifies res
    ensures res.cookies == old(res.cookies) + ClearedAuthCookies()
    ensures res.status == old(res.status) && res.body == old(res.body)
  {
    res.ClearCookie(AccessCookie, None);
    res.ClearCookie(RefreshCookie, None);
  }

  /**
   * `setAuthCookies` sets exactly the two cookies, each httpOnly and
   * sameSite lax, each carrying its own token, and each cookie lives exactly
   * as long as its token (maxAge in milliseconds is the lifetime in seconds
   * times 1000).
   */
  lemma AuthCookiesMeaning(tokens: TokenPair)
    ensures var ops := AuthCookies(tokens);
      && |ops| == 2
      && (forall op :: op in ops ==> op.SetCookie? && op.options.httpOnly && op.options.sameSite == Lax)
      && ops[0].name == "access_token" && ops[0].value == tokens.accessToken
      && ops[1].name == "refresh_token" && ops[1].value == tokens.refreshToken
      && ops[0].options.maxAgeMs == AccessLifetime * 1000
      && ops[1].options.maxAgeMs == RefreshLifetime * 1000
  {
  }

  /** `clearAuthCookies` clears both names and sets nothing. */
  lemma ClearedAuthCookiesMeaning()
    ensures var ops := ClearedAuthCookies();
      && (forall op :: op in ops ==> op.ClearCookie?)
      && (set op | op in ops :: op.name) == {"access_token", "refresh_token"}
  {
    var ops := ClearedAuthCookies();
    assert ops[0].name == "access_token" && ops[1].name == "refresh_token";
  }
}
