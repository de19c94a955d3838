/**
 * The token service of backend/src/utils/jwt.ts over abstract tokens.
 *
 * A token is not a string here: it is the payload it carries together with the
 * class of secret it was signed with. A cookie's text is either such a token or
 * any other string (a malformed token, one signed with an unknown secret, or
 * garbage). Signing and verification follow the rules of the jsonwebtoken
 * library that the service relies on: `sign` refuses a payload that already has
 * an `exp` claim when `expiresIn` is given, reuses a truthy `iat` claim and sets
 * `exp = iat + lifetime`; `verify` accepts a token signed with the right secret
 * whose `exp` has not been reached (a clock reading `now >= exp` is expired).
 */
module Jwt {
  import opened Common

  datatype SecretClass = AccessSecret | RefreshSecret

  /** A JWT payload: the `{sub, role}` of `JwtPayload` plus the registered claims. */
  datatype Claims = Claims(sub: Id, role: Role, iat: Option<int>, exp: Option<int>)

  datatype Token = Token(claims: Claims, secret: SecretClass)

  /** What a cookie holds: a token correctly signed with one of the two secrets, or other text. */
  datatype TokenText = Issued(token: Token) | Other(text: string)

  datatype TokenPair = TokenPair(accessToken: TokenText, refreshToken: TokenText)

  /** `expiresIn: '15m'` and `expiresIn: '7d'`, in seconds. */
  const AccessLifetime: nat := 15 * 60
  const RefreshLifetime: nat := 7 * 24 * 60 * 60

  /** The payload object literal `{ sub, role }` built by the controllers. */
  function Payload(sub: Id, role: Role): Claims
  {
    Claims(sub, role, None, None)
  }

  /** jsonwebtoken's `payload.iat || now`. */
  function IssuedAt(payload: Claims, now: int): int
  {
    if payload.iat.Some? && payload.iat.value != 0 then payload.iat.value else now
  }

  /** `jwt.sign(payload, secret, { expiresIn })`; None is the error it throws. */
  function Sign(payload: Claims, secret: SecretClass, lifetime: nat, now: int): Option<Token>
  {
    if payload.exp.Some? then None
    else
      var iat := IssuedAt(payload, now);
      Some(Token(Claims(payload.sub, payload.role, Some(iat), Some(iat + lifetime)), secret))
  }

  /** `signTokens`: an access token for 15 minutes and a refresh token for 7 days; None when signing throws. */
  function SignTokens(payload: Claims, now: int): (r: Option<TokenPair>)
    ensures r.None? <==> payload.exp.Some?
  {
    var a := Sign(payload, AccessSecret, AccessLifetime, now);
    var f := Sign(payload, RefreshSecret, RefreshLifetime, now);
    if a.Some? && f.Some? then Some(TokenPair(Issued(a.value), Issued(f.value))) else None
  }

  /** `jwt.verify(token, secret)` with the error turned into None. */
  function Verify(text: TokenText, secret: SecretClass, now: int): Option<Claims>
  {
    match text
    case Other(_) => None
    case Issued(t) =>
      if t.secret == secret && (t.claims.exp.None? || now < t.claims.exp.value) then Some(t.claims) else None
  }

  function VerifyAccessToken(text: TokenText, now: int): Option<Claims>
  {
    Verify(text, AccessSecret, now)
  }

  function VerifyRefreshToken(text: TokenText, now: int): Option<Claims>
  {
    Verify(text, RefreshSecret, now)
  }

  /**
   * For a payload without `exp`, both tokens are issued, carry the same
   * subject and role, and expire 15 minutes and 7 days after issuance.
   */
  lemma SignTokensIssues(payload: Claims, now: int)
    requires payload.exp.None?
    ensures var r := SignTokens(payload, now);
      && r.Some? && r.value.accessToken.Issued? && r.value.refreshToken.Issued?
      && var a := r.value.accessToken.token;
      && var f := r.value.refreshToken.token;
      && var iat := IssuedAt(payload, now);
      && a.secret == AccessSecret && f.secret == RefreshSecret
      && a.claims == Claims(payload.sub, payload.role, Some(iat), Some(iat + 900))
      && f.claims == Claims(payload.sub, payload.role, Some(iat), Some(iat + 604800))
  {
  }

  /**
   * A freshly issued access token verifies, with its own claims, exactly
   * during the 15 minutes after issuance; the refresh token during 7 days.
   */
  lemma VerifyWithinLifetime(sub: Id, role: Role, now: int, later: int)
    requires now <= later
    ensures var pair := SignTokens(Payload(sub, role), now).value;
      && (VerifyAccessToken(pair.accessToken, later).Some? <==> later < now + AccessLifetime)
      && (VerifyRefreshToken(pair.refreshToken, later).Some? <==> later < now + RefreshLifetime)
      && (VerifyAccessToken(pair.accessToken, later).Some? ==>
            VerifyAccessToken(pair.accessToken, later).value == Claims(sub, role, Some(now), Some(now + AccessLifetime)))
  {
  }

  /** A token signed with one secret never verifies against the other. */
  lemma CrossSecretRejected(payload: Claims, now: int, later: int)
    requires payload.exp.None?
    ensures VerifyAccessToken(SignTokens(payload, now).value.refreshToken, later).None?
    ensures VerifyRefreshToken(SignTokens(payload, now).value.accessToken, later).None?
  {
  }

  /** Verification fails (None, no exception) on any text that is not an issued token. */
  lemma VerifyRejectsOther(s: string, secret: SecretClass, now: int)
    ensures Verify(Other(s), secret, now).None?
  {
  }

  /** Whatever verification accepts was signed with that secret and has not expired. */
  lemma VerifySound(text: TokenText, secret: SecretClass, now: int)
    ensures Verify(text, secret, now).Some? <==>
      text.Issued? && text.token.secret == secret &&
      (text.token.claims.exp.None? || now < text.token.claims.exp.value)
    ensures Verify(text, secret, now).Some? ==> Verify(text, secret, now).value == text.token.claims
  {
  }

  /**
   * Every claim set `signTokens` puts in a token has an `exp`, so handing a
   * verified payload back to `signTokens` makes jsonwebtoken throw.
   */
  lemma ResignVerifiedThrows(payload: Claims, now: int, later: int)
    requires payload.exp.None?
    ensures var pair := SignTokens(payload, now).value;
      forall secret: SecretClass ::
        && (Verify(pair.accessToken, secret, later).Some? ==> SignTokens(Verify(pair.accessToken, secret, later).value, later).None?)
        && (Verify(pair.refreshToken, secret, later).Some? ==> SignTokens(Verify(pair.refreshToken, secret, later).value, later).None?)
  {
  }

  /** Two `{sub, role}` payloads signed at different seconds give different tokens; at the same second, equal ones. */
  lemma SignTokensDistinctIffTimesDiffer(sub: Id, role: Role, t1: int, t2: int)
    ensures (SignTokens(Payload(sub, role), t1) == SignTokens(Payload(sub, role), t2)) <==> t1 == t2
  {
    if t1 != t2 {
      assert SignTokens(Payload(sub, role), t1).value.accessToken.token.claims.iat == Some(t1);
    }
  }
}
