/**
 * The slice of Express that the handlers touch: an incoming request (its
 * cookies and the user a guard attaches) and the response object that a
 * handler writes by successive `status`, `json`, `cookie` and `clearCookie`
 * calls. A `Reply` is the value a written response amounts to.
 */
module Http {
  import opened Common
  import opened Jwt
  import opened Users
  import opened PropertyModel
  import opened InterestModel

  datatype SameSite = Lax | Strict | NoneSite

  /** The options object of `res.cookie` / `res.clearCookie`. */
  datatype CookieOptions = CookieOptions(httpOnly: bool, secure: bool, sameSite: SameSite, maxAgeMs: nat)

  /** One cookie effect of a response, in the order the handler issued it. */
  datatype CookieOp =
    | SetCookie(name: string, value: TokenText, options: CookieOptions)
    | ClearCookie(name: string, clearOptions: Option<CookieOptions>)

  /** The JSON bodies the handlers send. None of them has a field for a password hash. */
  datatype Body =
    | Message(text: string)                                     // { message }
    | DriverError                                               // { message: err.message }
    | UserBody(user: UserView)                                  // { user: { id, name, email, role } }
    | MeBody(found: Option<PublicUser>)                         // { user: found }
    | PropertyData(property: Property)                          // { data: property }
    | PropertyList(properties: seq<Property>)                   // { data: properties }
    | PropertyPage(data: seq<Property>, total: nat, page: int)  // { data, total, page }
    | InterestData(interest: Interest)                          // { data: interest }
    | InterestList(interests: seq<Interest>)                    // { data: interests }

  /** What a handler leaves in the response: status (200 unless set), body if sent, cookie effects. */
  datatype Reply = Reply(status: nat, body: Option<Body>, cookies: seq<CookieOp>)

  /** A response that has been written with `res.status(status).json(body)` and no cookies. */
  function JsonReply(status: nat, body: Body): Reply
  {
    Reply(status, Some(body), [])
  }

  class Response {
    var status: nat
    var body: Option<Body>
    var cookies: seq<CookieOp>

    /** A response as Express hands it to the first handler: status 200, nothing written. */
    constructor ()
      ensures Unsent()
    {
      status := 200;
      body := None;
      cookies := [];
    }

    predicate Unsent()
      reads this
    {
      status == 200 && body.None? && cookies == []
    }

    function Snapshot(): Reply
      reads this
    {
      Reply(status, body, cookies)
    }

    /** `res.status(code)`. */
    method Status(code: nat)
      modifies this
      ensures status == code && body == old(body) && cookies == old(cookies)
    {
      status := code;
    }

    /** `res.json(b)`: sends the body; the status stays as set. */
    method Json(b: Body)
      modifies this
      ensures body == Some(b) && status == old(status) && cookies == old(cookies)
    {
      body := Some(b);
    }

    /** `res.cookie(name, value, options)`. */
    method Cookie(name: string, value: TokenText, options: CookieOptions)
      modifies this
      ensures cookies == old(cookies) + [SetCookie(name, value, options)]
      ensures status == old(status) && body == old(body)
    {
      cookies := cookies + [SetCookie(name, value, options)];
    }

    /** `res.clearCookie(name)` or `res.clearCookie(name, options)`. */
    method ClearCookie(name: string, options: Option<CookieOptions>)
      modifies this
      ensures cookies == old(cookies) + [CookieOp.ClearCookie(name, options)]
      ensures status == old(status) && body == old(body)
    {
      cookies := cookies + [CookieOp.ClearCookie(name, options)];
    }
  }

  /** The parts of a request the guards and handlers read; `user` is what `requireAuth` attaches. */
  class Request {
    var cookies: map<string, TokenText>
    var user: Option<Claims>

    constructor (cookies: map<string, TokenText>)
      ensures this.cookies == cookies && user.None?
    {
      this.cookies := cookies;
      user := None;
    }
  }

  /**
   * The cookie named `name` as the handler reads it, or None when JavaScript
   * would find it falsy: absent (undefined) or the empty string.
   */
  function CookieValue(cookies: map<string, TokenText>, name: string): (r: Option<TokenText>)
    ensures r.None? <==> name !in cookies || cookies[name] == Other("")
    ensures r.Some? ==> r.value == cookies[name]
  {
    if name in cookies && cookies[name] != Other("") then Some(cookies[name]) else None
  }
}
