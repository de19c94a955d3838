# Real-estate listings app: a Dafny model

This project models the core of a small real-estate web application written
in TypeScript. Its backend is an Express service over MongoDB, and its
front end is a React single-page app.

The backend part covers:

- JWT sessions: an access token and a refresh token, signed with two
  secrets, carried in cookies;
- the `requireAuth` and `requireRole` guards;
- the auth controller (register, login, logout, refresh, me) and its router,
  which replaces the controller's logout with an inline handler;
- the user, property and interest collections, with their schema rules and
  unique indexes;
- the property controller: public listing with filters and paging, lookup by
  id, and the agent's create/update/delete/list restricted to the agent's own
  listings;
- the interest controller: a client expresses, lists and removes interest;
  the owning agent sees who is interested;
- the application: the CORS origin check, the health route and the three
  mounts under `/api/v1`.

The front-end part covers:

- `ProtectedRoute` and the route table;
- the listing page's filter panel, its query, the split into sale and rent
  halves, and the city from geolocation;
- the agent's listing form;
- the initials badge of the interested-clients dialog;
- the navigation bar's avatar, links and sign-out.

Modules follow the source, one per file:

- shared: `Common`, `Text`;
- tokens: `Jwt` (signing and verification), `JwtCookies`;
- the store models: `Users`, `PropertyModel`, `InterestModel`, whose
  collections are classes over `seq` fields that their methods reassign;
- HTTP: `Http`, whose `Response` is a class that handlers write into;
- the backend handlers: `Guards`, `AuthController`, `PropertyController`,
  `InterestController`, `Routing`, `AuthRoutes`, `PropertyRoutes`,
  `InterestRoutes`, `App`;
- the front end: `ProtectedRoute`, `AppRoutes`, `PropertyListPage`,
  `PropertyForm`, `InterestedClientsModal`, `Navbar`.

Each handler's logic is written twice: once as a method that mutates the
stores and the `Response` step by step, as the source does, and once as a
pure reply function (with a table function for a handler that changes a
store), such as `AuthController.RegisterReply` for `Register` or
`PropertyController.UpdateReply` and `UpdatedProps` for `UpdateProperty`.
The method's contract proves the two agree, and lemmas about the pure
functions state what the handler promises.

Several things are modelled as values or parameters:

- Tokens are values. A `TokenText` is either `Issued(token)`, a token this
  service signed (its claims and which secret signed it), or `Other(s)`, any
  other cookie text.
- Database ids are natural numbers that each store hands out in turn. A
  route parameter is parsed with `ParseId`, and a parameter that is not a
  decimal numeral is the cast error that the handlers answer with 500.
- The clock (`now`, in seconds) is a parameter.
- Password hashing and checking are parameters (`hash`, `check`). Their
  failure is `None`.
- The MongoDB `$text` match is a parameter (`textMatch`).
- On the front end, the result of the browser's geolocation and the result
  of each API call are parameters.

## Model

| member | source | states |
|---|---|---|
| Common.ParseRole | backend/src/modules/users/user.model.ts:19 | a role string is accepted iff it is "agent" or "client", and the accepted role's name is that string |
| Common.ParseRoleName | backend/src/modules/users/user.model.ts:19 | parsing the name of a role gives that role back |
| Text.ContainsCIMeaning | backend/dist/modules/properties/property.controller.js:7-8 | the case-insensitive city filter matches iff the filter text occurs somewhere in the city, ignoring case |
| Text.JoinSplit | frontend/src/features/agent/InterestedClientsModal.tsx:25-32 | joining the pieces of a split on the separator gives the original text back |
| Text.SplitJoin | frontend/src/features/agent/InterestedClientsModal.tsx:25-32 | splitting pieces joined on a separator they do not contain gives the pieces back |
| Text.FirstWordMeaning | frontend/src/components/Navbar.tsx:91 | `split(" ")[0]` is the prefix of the text up to its first space: it contains no space and is followed by a space or by the end |
| Text.ParseId | backend/dist/modules/properties/property.controller.js:35 | an id parameter casts iff it is a non-empty run of decimal digits |
| Text.ParseIdOfDecimal | backend/dist/modules/properties/property.controller.js:35 | the decimal numeral of an id casts back to that id |
| Text.JsNumberOfDecimal | frontend/src/features/agent/PropertyForm.tsx:37-41 | `Number` of the decimal numeral of n is n |
| Jwt.SignTokens | backend/src/utils/jwt.ts:12-16 | signing fails iff the payload already carries `exp` |
| Jwt.SignTokensIssues | backend/src/utils/jwt.ts:12-16 | from a payload without `exp`, two tokens are issued with the same subject, role and issue time: the access token under the access secret expires after 15 minutes, the refresh token under the refresh secret after 7 days |
| Jwt.VerifySound | backend/src/utils/jwt.ts:19-34 | verification succeeds iff the text is a token issued under that secret and not yet expired, and it returns that token's claims; `Jwt.VerifyAccessToken` and `Jwt.VerifyRefreshToken` are this check under each secret |
| Jwt.VerifyRejectsOther | backend/src/utils/jwt.ts:19-34 | text that this service did not sign never verifies |
| Jwt.VerifyWithinLifetime | backend/src/utils/jwt.ts:13-14 | a fresh access token verifies exactly during its 15 minutes and a fresh refresh token exactly during its 7 days, giving back the signed claims |
| Jwt.CrossSecretRejected | backend/src/utils/jwt.ts:19-34 | a refresh token is never accepted as an access token, nor an access token as a refresh token |
| Jwt.ResignVerifiedThrows | backend/src/utils/jwt.ts:12-16 | signing the claims that verification returned fails, because they carry `exp` |
| Jwt.SignTokensDistinctIffTimesDiffer | backend/src/utils/jwt.ts:12-16 | two signings of the same payload give the same pair iff they happen at the same second |
| JwtCookies.SetAuthCookies | backend/src/utils/jwt.ts:37-52 | appends exactly the two auth cookies and leaves the status and body alone |
| JwtCookies.AuthCookiesMeaning | backend/src/utils/jwt.ts:37-52 | the helper sets `access_token` and then `refresh_token`, both httpOnly and lax, with max-ages of 15 minutes and 7 days in milliseconds |
| JwtCookies.ClearAuthCookies | backend/src/utils/jwt.ts:55-58 | appends exactly the two cookie clearings and leaves the status and body alone |
| JwtCookies.ClearedAuthCookiesMeaning | backend/src/utils/jwt.ts:55-58 | the clearings are exactly those of `access_token` and `refresh_token` |
| Users.FindByEmail | backend/src/modules/users/user.model.ts:17 | finds a user iff some stored user has that email, and the one found has it |
| Users.FindById | backend/src/modules/auth/auth.controller.ts:88 | finds a user iff some stored user has that id, and the one found has it |
| Users.FindByEmailUnique | backend/src/modules/users/user.model.ts:17 | with unique emails, looking up a stored user's email finds that very user |
| Users.Validated | backend/src/modules/users/user.model.ts:15-20 | a new user passes the schema iff name, email and hash are non-empty and the role is in the enum; the stored role is the one given |
| Users.AppendKeepsValid | backend/src/modules/users/user.model.ts:17 | appending a well-formed user with a new email and the next id keeps emails unique, the required fields present, and ids unique and below the next id |
| Users.UserStore.Create | backend/src/modules/users/user.model.ts:15-20 | `User.create`: inserts iff the schema accepts the user and the email is not taken, and then appends exactly that user; otherwise nothing changes |
| PropertyModel.Created | backend/src/modules/properties/property.model.ts:33-45 | `Property.create`: succeeds iff title, price and location are present and the status is in the enum; the record belongs to the given agent, with images, amenities and status defaulted |
| PropertyModel.EmptyPatchOnlyStamps | backend/dist/modules/properties/property.controller.js:60 | `PropertyModel.Patched` on an empty update body changes nothing but `updatedAt` |
| PropertyModel.PatchKeepsIdentity | backend/dist/modules/properties/property.controller.js:60 | `PropertyModel.Patched` never changes the id or `createdAt` |
| PropertyModel.PatchCanLeaveEnum | backend/dist/modules/properties/property.controller.js:60 | updates run without validators, so a valid listing can be given a status outside the enum |
| PropertyModel.IndexOfId | backend/dist/modules/properties/property.controller.js:35 | `findById`: finds a position iff some record has that id, and the record there has it |
| PropertyModel.IndexOfOwned | backend/dist/modules/properties/property.controller.js:60 | finds a position iff some record has both that id and that agent |
| PropertyModel.OwnedIffOwner | backend/dist/modules/properties/property.controller.js:57-81 | with unique ids, the owned lookup succeeds iff the record with that id belongs to the agent, and it is that record |
| PropertyModel.PropertyStore.FindById | backend/dist/modules/properties/property.controller.js:35 | finds a listing iff a stored listing has that id |
| PropertyModel.PropertyStore.FindOwned | backend/src/modules/interests/interest.controller.ts:69 | finds a listing iff a stored listing has that id and that agent |
| PropertyModel.PropertyStore.Create | backend/dist/modules/properties/property.controller.js:49 | stores the created listing under the next id when the schema accepts it, and nothing otherwise |
| PropertyModel.PropertyStore.UpdateOwned | backend/dist/modules/properties/property.controller.js:60 | `findOneAndUpdate({_id, agentId}, body, {new: true})`: only the owned record is patched, in place, and it is returned; with no owned record nothing changes |
| PropertyModel.PropertyStore.DeleteOwned | backend/dist/modules/properties/property.controller.js:73 | `findOneAndDelete({_id, agentId})`: only the owned record is removed and returned; with no owned record nothing changes |
| InterestModel.FindKey | backend/src/modules/interests/interest.model.ts:19-20 | finds a record iff one has that property and client |
| InterestModel.UpsertedMeaning | backend/src/modules/interests/interest.controller.ts:17-21 | the upsert `InterestModel.Upserted` keeps the (property, client) key unique and leaves exactly one record for the key, carrying the message when one is given, the old record's message when none is given, and the given message on a new record; all other records are kept |
| InterestModel.UpsertedIdempotent | backend/src/modules/interests/interest.controller.ts:17-21 | repeating the same upsert changes nothing |
| InterestModel.RemovedMeaning | backend/src/modules/interests/interest.controller.ts:50-53 | removing by key keeps keys unique, removes exactly the record with the key when there is one, and keeps every other record |
| InterestModel.InterestStore.Upsert | backend/src/modules/interests/interest.controller.ts:17-21 | replaces the table by the upserted one and returns the record for the key |
| InterestModel.InterestStore.DeleteKey | backend/src/modules/interests/interest.controller.ts:50-53 | replaces the table by the one without the key, and returns a deleted record iff one had the key |
| Http.CookieValue | backend/src/middleware/auth.ts:7-8 | a cookie counts as present iff it is set and not empty, and its value is then the cookie's |
| Guards.AuthCheckMeaning | backend/src/middleware/auth.ts:6-13 | `Guards.AuthCheck` lets a request through iff its `access_token` cookie is an unexpired access token, and it attaches that token's claims |
| Guards.AuthDenialMeaning | backend/src/middleware/auth.ts:7-10 | a refused request gets 401: "Unauthenticated" iff the cookie is missing or empty, and "Invalid token" otherwise |
| Guards.RequireAuth | backend/src/middleware/auth.ts:6-13 | the next handler runs iff the check passes, with the claims attached and nothing sent; otherwise the denial is sent and no user is attached |
| Guards.RoleCheck | backend/src/middleware/auth.ts:16-22 | the request passes iff a user is attached and has exactly the required role; otherwise 403 "Forbidden" |
| Guards.FreshLoginPasses | backend/src/middleware/auth.ts:6-22 | the access token from a login passes both guards for its role until it expires |
| AuthController.Register | backend/src/modules/auth/auth.controller.ts:15-34 | the reply is the register reply of the old table, and a user is stored iff one was registered |
| AuthController.RegisterDuplicateRejected | backend/src/modules/auth/auth.controller.ts:18-19 | a taken email gets 409 "Email already registered" and stores nothing |
| AuthController.RegisterSuccess | backend/src/modules/auth/auth.controller.ts:15-34 | status 201 iff the email is free, hashing succeeds and the schema accepts the user; the new user gets the next id and the given fields, the table stays valid, the body is the user without the hash, and both cookies are for the new id; otherwise 409 or 500 |
| AuthController.RegisterReplyHidesHash | backend/src/modules/auth/auth.controller.ts:30 | the reply does not depend on which hash was computed, only on whether hashing succeeded |
| AuthController.Login | backend/src/modules/auth/auth.controller.ts:36-55 | the reply is the login reply of the user table |
| AuthController.LoginFailuresIdentical | backend/src/modules/auth/auth.controller.ts:39-43 | an unknown email and a wrong password get the same 401 "Invalid credentials" |
| AuthController.LoginSuccess | backend/src/modules/auth/auth.controller.ts:36-55 | status 200 iff the email is known and the password checks; the body is that user without the hash, and the cookies carry the user's id and role, the access token passing verification while it lives; otherwise 401 or 500 |
| AuthController.RefreshAsWritten | backend/src/modules/auth/auth.controller.ts:64-82 | the refresh handler as written replies with its reply function |
| AuthController.RefreshAsWrittenRejectsIssued | backend/src/modules/auth/auth.controller.ts:72 | as written, even a refresh token this service just issued is answered 401 "Invalid refresh token" |
| AuthController.Refresh | backend/src/modules/auth/auth.controller.ts:64-82 | the corrected refresh handler replies with the corrected reply function |
| AuthController.RefreshMeaning | backend/src/modules/auth/auth.controller.ts:64-82 | "No refresh token" iff the cookie is missing or empty; 200 iff it is a live refresh token, and then two fresh tokens for the same subject and role issued now; otherwise "Invalid refresh token" |
| AuthController.RefreshExtendsSession | backend/src/modules/auth/auth.controller.ts:64-82 | a live refresh token yields an access token that passes verification for its whole lifetime |
| AuthController.GetMe | backend/src/modules/auth/auth.controller.ts:84-89 | the reply is the me reply for the attached user |
| AuthController.MeMeaning | backend/src/modules/auth/auth.controller.ts:84-89 | no attached user gets 401; otherwise 200 with the stored user of that id without the hash, or null when there is none |
| AuthController.ControllerLogout | backend/src/modules/auth/auth.controller.ts:57-62 | the controller's logout replies with its two clearings and "Logged out" |
| AuthController.SessionCookiesPolicy | backend/src/modules/auth/auth.controller.ts:8-13 | the controller's cookies are httpOnly, secure and SameSite=None for 7 days, which outlives the 15-minute access token inside them |
| PropertyController.Param | backend/dist/modules/properties/property.controller.js:5-7 | a query parameter counts iff it is present and not empty |
| PropertyController.InsertPerm | backend/dist/modules/properties/property.controller.js:22 | inserting into the sorted list adds exactly that listing |
| PropertyController.InsertOrdered | backend/dist/modules/properties/property.controller.js:22 | inserting keeps the list newest first |
| PropertyController.NewestFirstMeaning | backend/dist/modules/properties/property.controller.js:22 | `sort({createdAt: -1})` gives a permutation of the listings, newest first |
| PropertyController.Paged | backend/dist/modules/properties/property.controller.js:20-24 | `skip` then `limit`: the listings at positions skip onwards, in order, at most the limit of them when it is not 0 |
| PropertyController.AdmitsIffWanted | backend/dist/modules/properties/property.controller.js:6-19 | the MongoDB filter admits a listing iff it is available and meets every filter given: city, minimum and maximum price, minimum bedrooms and bathrooms, text |
| PropertyController.MatchesAreWanted | backend/dist/modules/properties/property.controller.js:21-25 | the matching listings are, in stored order, exactly the wanted ones |
| PropertyController.PageOfMatches | backend/dist/modules/properties/property.controller.js:21-24 | every listing on a page matches, and the page is newest first |
| PropertyController.ListProperties | backend/dist/modules/properties/property.controller.js:3-31 | the reply is the list reply on the stored listings |
| PropertyController.ListMeaning | backend/dist/modules/properties/property.controller.js:3-31 | the reply is 200 or 500; on 200 the data is the page at skip (page - 1) * limit of the wanted listings sorted newest first, so it holds only wanted listings, newest first, no more than a non-zero limit; the page number is echoed and the total counts every wanted listing |
| PropertyController.ListFailsIff | backend/dist/modules/properties/property.controller.js:20-29 | 500 iff a numeric filter or page or limit is not a number, or the skip is negative |
| PropertyController.ListDefaults | backend/dist/modules/properties/property.controller.js:5 | without page and limit the reply is page 1 with the first ten matches, newest first |
| PropertyController.PageZeroFails | backend/dist/modules/properties/property.controller.js:20 | page 0 makes a negative skip and fails |
| PropertyController.OtherKeysIgnored | backend/dist/modules/properties/property.controller.js:5 | query keys other than the eight that are read do not change the reply |
| PropertyController.GetPropertyById | backend/dist/modules/properties/property.controller.js:33-43 | the reply is the by-id reply on the stored listings |
| PropertyController.ByIdMeaning | backend/dist/modules/properties/property.controller.js:33-43 | 404 "Property not found" iff no listing has the id; otherwise 200 with the listing of that id |
| PropertyController.CreateProperty | backend/dist/modules/properties/property.controller.js:45-55 | the store gains the created listing, owned by the caller, and the reply is 201 with it, or 500 when the schema refuses |
| PropertyController.CreateOwnedByCaller | backend/dist/modules/properties/property.controller.js:49 | an `agentId` in the body is overridden: a created listing always belongs to the caller |
| PropertyController.UpdateProperty | backend/dist/modules/properties/property.controller.js:57-68 | the reply and the new store are the update reply and store of the old listings |
| PropertyController.UpdateOnlyOwned | backend/dist/modules/properties/property.controller.js:57-68 | for any caller's claims: only the caller's listing with that id changes, and it is patched; 404 "Property not found or unauthorized" iff the caller owns no listing with that id, and then nothing changes |
| PropertyController.DeleteProperty | backend/dist/modules/properties/property.controller.js:70-81 | the reply and the new store are the delete reply and store of the old listings |
| PropertyController.DeleteOnlyOwned | backend/dist/modules/properties/property.controller.js:70-81 | for any caller's claims: the reply is 200 or 404; when the caller owns a listing with that id the reply is 200 "Property deleted successfully", that listing goes and every other listing stays; 404 iff the caller owns none, and then nothing changes |
| PropertyController.GetAgentProperties | backend/dist/modules/properties/property.controller.js:83-92 | the reply is the agent-list reply on the stored listings |
| PropertyController.AgentPropertiesMeaning | backend/dist/modules/properties/property.controller.js:83-92 | for any caller's claims: the caller gets exactly their own listings, as a multiset of the stored ones, newest first |
| InterestController.ErrorReply | backend/src/modules/interests/interest.controller.ts:24-27 | error code 11000 gets 400 "Already expressed interest"; any other error gets 500 |
| InterestController.ExpressInterest | backend/src/modules/interests/interest.controller.ts:5-27 | the reply and the new table are the express reply and table of the old state |
| InterestController.ExpressMeaning | backend/src/modules/interests/interest.controller.ts:5-27 | for any caller's claims: 404 iff no listing has the id, and then nothing changes; otherwise 201 with the caller's single record for that listing, which is in the new table and carries the message when one is given or the old record's message when none is; a new record has the next id and the current time; keys stay unique and other records are kept |
| InterestController.ExpressWithoutPropertyId | backend/src/modules/interests/interest.controller.ts:13-15 | a body without `propertyId` finds no listing: 404 "Property not found" and the table unchanged |
| InterestController.GetMyInterests | backend/src/modules/interests/interest.controller.ts:30-41 | the reply is the my-interests reply on the stored records |
| InterestController.MyInterestsMeaning | backend/src/modules/interests/interest.controller.ts:30-41 | for any caller's claims: the caller gets exactly their own interest records |
| InterestController.RemoveInterest | backend/src/modules/interests/interest.controller.ts:44-59 | the reply and the new table are the remove reply and table of the old records |
| InterestController.RemoveOnlyOwn | backend/src/modules/interests/interest.controller.ts:44-59 | for any caller's claims: 404 "Interest not found" iff the caller has no record for that listing, and then nothing changes; otherwise exactly that record goes |
| InterestController.GetInterestedClients | backend/src/modules/interests/interest.controller.ts:62-79 | the reply is the interested-clients reply on the stored listings and records |
| InterestController.InterestedMeaning | backend/src/modules/interests/interest.controller.ts:62-79 | for any caller's claims: 403 "Not authorized" iff the caller owns no listing with that id; otherwise 200 with exactly the records for that listing |
| Routing.Params | backend/src/modules/interests/interest.routes.ts:15-18 | each named segment of the pattern is bound to the path segment in its place |
| Routing.FirstMatch | backend/src/modules/properties/property.routes.ts:15-22 | the router picks the first route, in registration order, that matches the method and path, and none iff no route matches; `Routing.Dispatch` then runs that route's chain with `Routing.RunChain` |
| Routing.GuardedChain | backend/src/modules/properties/property.routes.ts:19-22 | `Routing.RunChain` on `requireAuth, requireRole(r), handler`: 401 without a valid session, 403 for the wrong role, otherwise the handler runs with the claims |
| Routing.AuthOnlyChain | backend/src/modules/auth/auth.routes.ts:20 | `requireAuth, handler`: 401 without a valid session, otherwise the handler runs with the claims |
| Routing.PublicChain | backend/src/modules/properties/property.routes.ts:15-16 | a bare handler runs with no user attached |
| AuthRoutes.InlineLogoutHandler | backend/src/modules/auth/auth.routes.ts:11-17 | the inline logout clears both cookies and replies 200 "Logged out successfully" |
| AuthRoutes.PublicAuthRoutes | backend/src/modules/auth/auth.routes.ts:9-19 | `Routing.Dispatch` of POST register, login, logout and refresh reaches their handlers without any guard and with no user |
| AuthRoutes.MeRequiresAuth | backend/src/modules/auth/auth.routes.ts:20 | GET /me is 401 without a valid session and otherwise reaches getMe with the claims |
| AuthRoutes.LogoutIsInline | backend/src/modules/auth/auth.routes.ts:2-17 | the controller's logout is imported but never routed; POST /logout reaches the inline handler, whose reply differs from the controller's |
| PropertyRoutes.PublicPropertyRoutes | backend/src/modules/properties/property.routes.ts:15-16 | GET / and GET /:id reach their handlers with no guard |
| PropertyRoutes.AgentRoutesGuarded | backend/src/modules/properties/property.routes.ts:19-22 | each agent route's chain is authentication, the agent role, then its handler |
| PropertyRoutes.AgentRoutesCover | backend/src/modules/properties/property.routes.ts:19-22 | every agent handler sits behind the agent guard |
| PropertyRoutes.UpdateRouteGuarded | backend/src/modules/properties/property.routes.ts:21 | PATCH /agent/:id is 401, 403, or reaches the update with the id parameter |
| PropertyRoutes.AgentRoutesNeedLogin | backend/src/modules/properties/property.routes.ts:19-22 | a request that reaches an agent route without a valid session is refused with 401 |
| PropertyRoutes.AgentAloneIsAnId | backend/src/modules/properties/property.routes.ts:16 | GET /agent is taken by `/:id`, with id "agent" |
| InterestRoutes.InterestChains | backend/src/modules/interests/interest.routes.ts:13-18 | the three client routes require the client role, and the clients route requires the agent role |
| InterestRoutes.NoPublicInterestRoute | backend/src/modules/interests/interest.routes.ts:13-18 | no interest route reaches a handler without a valid session |
| InterestRoutes.RemoveRouteParams | backend/src/modules/interests/interest.routes.ts:15 | DELETE /:propertyId binds the property id |
| InterestRoutes.ClientsRouteParams | backend/src/modules/interests/interest.routes.ts:18 | GET /property/:propertyId/clients binds the property id |
| App.CorsCheck | backend/src/app.ts:24-36 | a request is allowed iff it has no origin or one of the two allowed origins; otherwise it is rejected with the CORS message |
| App.CorsMeaning | backend/src/app.ts:18-36 | `App.HandleRequest` routes a request without an origin and requests from the two allowed origins; any other origin is blocked |
| App.HealthRoute | backend/src/app.ts:43-45 | GET / is the health check, replying 200 with the running message |
| App.AuthMounted | backend/src/app.ts:48 | `App.Resolve` of a path under /api/v1/auth is the auth router on the rest of the path |
| App.PropertiesMounted | backend/src/app.ts:49 | a path under /api/v1/properties is resolved by the property router on the rest of the path |
| App.InterestsMounted | backend/src/app.ts:50 | a path under /api/v1/interests is resolved by the interest router on the rest of the path |
| App.UnmountedNoRoute | backend/src/app.ts:43-50 | any other request has no route |
| App.LoginEndToEnd | backend/src/app.ts:48 | POST /api/v1/auth/login from the local front end reaches the login handler |
| ProtectedRoute.Protect | frontend/src/components/ProtectedRoute.tsx:17-38 | spinner while loading; to /login remembering the location when signed out; home iff a role is required and the user has another; the children iff signed in with the required role or none required |
| ProtectedRoute.ProtectIgnoresLocation | frontend/src/components/ProtectedRoute.tsx:30-31 | the location only shapes the login redirect |
| ProtectedRoute.NoRoleAnyUser | frontend/src/components/ProtectedRoute.tsx:34-38 | without a required role, any signed-in user sees the children |
| AppRoutes.OpenPages | frontend/src/routes/AppRoutes.tsx:16-19 | `AppRoutes.Render` (through `AppRoutes.RouteElement`) shows /, /property/:id, /login and /register whatever the session |
| AppRoutes.RolePages | frontend/src/routes/AppRoutes.tsx:22-39 | /my-interests shows iff a client is loaded, and /my-properties iff an agent is; otherwise a spinner, the login redirect remembering the path, or home |
| AppRoutes.CatchAll | frontend/src/routes/AppRoutes.tsx:41 | any other path, in whatever case, redirects to / |
| AppRoutes.CaseIgnored | frontend/src/routes/AppRoutes.tsx:16-41 | paths that differ only in the case of their static segments select the same route element |
| AppRoutes.RedirectsSettle | frontend/src/routes/AppRoutes.tsx:16-41 | every redirect lands on a page that shows at once |
| PropertyListPage.With | frontend/src/features/properties/PropertyListPage.tsx:149-150 | changing one filter sets it and leaves the others alone |
| PropertyListPage.Pruned | frontend/src/features/properties/PropertyListPage.tsx:138-140 | keeps exactly the entries whose value is not "", with their values |
| PropertyListPage.QueryParamsAsWrittenMeaning | frontend/src/features/properties/PropertyListPage.tsx:123-140 | as written, the query has exactly the non-empty filters under the input names, including `bedrooms` |
| PropertyListPage.BedroomsFilterIgnored | frontend/src/features/properties/PropertyListPage.tsx:127-139 | as written, the listing imposes no minimum bedrooms and answers the same with or without the bedroom filter |
| PropertyListPage.QueryParamsMeaning | frontend/src/features/properties/PropertyListPage.tsx:123-140 | as corrected, the query has exactly the non-empty filters, with the bedrooms under `beds`, which becomes the listing's minimum bedrooms |
| PropertyListPage.ShowReset | frontend/src/features/properties/PropertyListPage.tsx:287 | "Reset All" shows iff some filter is non-empty |
| PropertyListPage.ShowResetIffParams | frontend/src/features/properties/PropertyListPage.tsx:287 | "Reset All" shows iff some query parameter is sent |
| PropertyListPage.FilterPanel.HandleChange | frontend/src/features/properties/PropertyListPage.tsx:149-150 | `handleChange` changes only the named filter |
| PropertyListPage.FilterPanel.ClearFilters | frontend/src/features/properties/PropertyListPage.tsx:152-153 | `clearFilters` empties every filter, so no parameter is sent and the button hides |
| PropertyListPage.CeilHalf | frontend/src/features/properties/PropertyListPage.tsx:144-145 | `Math.ceil(n / 2)`: twice it is n or n + 1 |
| PropertyListPage.SplitMeaning | frontend/src/features/properties/PropertyListPage.tsx:144-145 | the sale half then the rent half is the whole list, in order, and the sale half is equal or one longer |
| PropertyListPage.SectionsMeaning | frontend/src/features/properties/PropertyListPage.tsx:352-402 | once fetched, both sections show cards for two or more listings; one listing goes to sale and leaves rent empty; no data shows both empty messages |
| PropertyListPage.DetectedCity | frontend/src/features/properties/PropertyListPage.tsx:170-174 | the city, else the town, else the village, else "Navi Mumbai"; never empty |
| PropertyListPage.CityShown | frontend/src/features/properties/PropertyListPage.tsx:156-187 | every failed lookup leaves "Navi Mumbai"; an answer shows its detected city |
| PropertyListPage.CityFallback | frontend/src/features/properties/PropertyListPage.tsx:170-174 | the default shows iff the answer names no place or names "Navi Mumbai" itself |
| PropertyForm.WithField | frontend/src/features/agent/PropertyForm.tsx:27-29 | changing one field sets it and leaves the others alone |
| PropertyForm.CountOrOmit | frontend/src/features/agent/PropertyForm.tsx:39-41 | `Number(s) \|\| undefined`: left out iff the number is NaN or 0, and otherwise the number |
| PropertyForm.PayloadMeaning | frontend/src/features/agent/PropertyForm.tsx:34-43 | `PropertyForm.ToPayload`: texts and location are copied; the price is parsed with no fallback; each count is left out iff it is 0 or NaN; one image iff the field is non-empty |
| PropertyForm.CountFieldOmitted | frontend/src/features/agent/PropertyForm.tsx:39-41 | an empty count and "0" are both left out; any other numeral is sent |
| PropertyForm.ToastText | frontend/src/features/agent/PropertyForm.tsx:47-62 | success toasts "Property listed successfully!"; failure shows the server's message when there is one, else "Failed to create property." |
| PropertyForm.FormState.HandleChange | frontend/src/features/agent/PropertyForm.tsx:27-29 | `handleChange` changes only the named field |
| PropertyForm.FormState.HandleSubmit | frontend/src/features/agent/PropertyForm.tsx:45-63 | sends the payload of the current form; success resets every field and calls `onCreated` once when given; failure leaves the form and calls nothing |
| PropertyForm.EmptyFormPayload | frontend/src/features/agent/PropertyForm.tsx:15-43 | a freshly reset form sends empty texts, price 0, no counts and no image |
| InterestedClientsModal.Head | frontend/src/features/agent/InterestedClientsModal.tsx:28 | `n[0]` of a word: its first character, or nothing for an empty word |
| InterestedClientsModal.InitialsOfWords | frontend/src/features/agent/InterestedClientsModal.tsx:25-32 | the badge `InterestedClientsModal.Initials` is the upper-cased first characters of the first word, or of the first two words |
| InterestedClientsModal.InitialsShort | frontend/src/features/agent/InterestedClientsModal.tsx:25-32 | the badge has at most two characters |
| InterestedClientsModal.InitialsFromFirstTwoWords | frontend/src/features/agent/InterestedClientsModal.tsx:25-32 | each badge character is the upper-cased first character of one of the first two words, and each of those words that is non-empty contributes its character |
| InterestedClientsModal.InitialsIgnoreLaterWords | frontend/src/features/agent/InterestedClientsModal.tsx:29 | words after the second do not change the badge |
| InterestedClientsModal.TwoWordName | frontend/src/features/agent/InterestedClientsModal.tsx:25-32 | a two-word name gives the two upper-cased first letters |
| InterestedClientsModal.ViewMeaning | frontend/src/features/agent/InterestedClientsModal.tsx:34-135 | `InterestedClientsModal.View`: loading wins over an error, and an error over the list; the list has one card per interest, in order, with its badge; the count is the number of interests, and the empty notice shows iff it is 0 |
| Navbar.Initial | frontend/src/components/Navbar.tsx:90 | the avatar letter is one character: "G" without a name, else the upper-cased first character of the name |
| Navbar.FirstNameMeaning | frontend/src/components/Navbar.tsx:91 | `Navbar.FirstName` is "Guest" without a name, else the name up to its first space |
| Navbar.InitialAgreesWithBadge | frontend/src/components/Navbar.tsx:90 | for a name not starting with a space, the avatar letter is the first character of the dialog's badge |
| Navbar.Links | frontend/src/components/Navbar.tsx:115-117 | the bar always starts with Home |
| Navbar.LinksMeaning | frontend/src/components/Navbar.tsx:115-117 | "My Interests" shows iff the user is a client, and "My Properties" iff an agent; at most one link is highlighted |
| Navbar.NavbarState.HandleLogoutClick | frontend/src/components/Navbar.tsx:62-65 | closes the mobile menu and opens the confirmation, and nothing else |
| Navbar.NavbarState.ConfirmLogout | frontend/src/components/Navbar.tsx:67-81 | whether the request fails or not: the user is cleared, the cache emptied, the dialog closed, and the current history entry replaced by /login |
| Navbar.SignedOutBar | frontend/src/components/Navbar.tsx:90-117 | signed out, the bar greets "Guest", shows "G" and only Home |
| Navbar.LogoutRequestReachesInlineHandler | frontend/src/components/Navbar.tsx:69 | the sign-out request passes CORS and reaches the router's inline logout with no guard |

## Left out

- Password hashing (`utils/passwords`) is not part of this model. Hashing and checking are parameters that may fail.
- JWT internals are left out: encoding, HMAC and the secrets' values. A token is a value recording its claims and which secret signed it. A forged or corrupted token is `Other`.
- MongoDB `$text` search is the parameter `textMatch`, because its tokenising and stemming are outside the model. The `$text` condition applies only when `q` is non-empty.
- The city filter is `new RegExp(city, 'i')`. It is modelled as a case-insensitive substring test, with case folding on ASCII only. Regular-expression metacharacters, and the error that an invalid pattern throws, are left out.
- `Number()` is modelled as an optional sign followed by decimal digits, with "" read as 0; anything else is NaN. Decimals, exponents, surrounding whitespace and hex are left out.
- Stored numbers are integers: a listing's price, bedroom and bathroom counts and its `lat`/`lng` are `int`, while the schema stores JavaScript numbers, so fractional prices and coordinates are not modelled.
- `populate` is left out, because it is a join that only decorates the reply. The replies list the stored records, and the dialog's cards take the client's name and email as given.
- Concurrency is left out. The handlers run one at a time, so two registrations racing on one email, and the upsert race that raises MongoDB error 11000, are not modelled. `InterestController.ErrorReply` maps that code, but the single-threaded model never produces it.
- ObjectId cast errors are modelled only as `ParseId` failing. Mongoose casting of body fields (wrong types in a create or update body) is left out. A body field that is missing is read as "" or as `None`; a missing `propertyId` in `expressInterest` is `None` and answered 404, as `findById(undefined)` finds nothing.
- Express query parsing is modelled as single strings (`PropertyController.Query`). A repeated or bracketed key (`?beds=2&beds=3`, `?city[x]=y`) gives an array or an object in Express, which makes `Number(...)` NaN or turns the city pattern into the text "[object Object]"; that is not modelled.
- Express matching details are left out: case-insensitive paths, trailing slashes, HEAD and OPTIONS handling, and URL decoding.
- AppRoutes.RouteElement: the client router is modelled as matching static segments without regard to ASCII case; a path is given as its list of segments, so trailing slashes and URL decoding are not modelled there.
- The global `errorHandler` is not part of this model. A request that CORS rejects is `Blocked` with the CORS message.
- `helmet`, the rate limiter (100 requests a minute), `express.json` and `cookie-parser` are left out. Cookies arrive already parsed as a map.
- The server start-up and environment configuration are left out.
- The compiled `dist/` copies of the TypeScript modules are the same code and are not modelled twice. The TypeScript property controller is not part of this model; the property controller is modelled from its compiled file, backend/dist/modules/properties/property.controller.js.
- Among listings with equal `createdAt`, MongoDB picks an order. The model sorts newest first and proves only "newest first, a permutation".
- Rendering is left out: markup, styles, animations, tabs, the overview panel and the intro video. Only the decisions that choose what is shown are modelled.
- The browser's geolocation and the reverse-geocoding fetch are parameters (`Lookup`).
- HTML `required` validation of the form's inputs is left out. The payload is modelled for whatever the fields hold.
- `toUpperCase` is modelled on ASCII letters only.
- Navbar.NavbarState.ConfirmLogout: the sign-out request goes to the hard-coded URL `http://localhost:5000`, whatever the deployment. The model treats it as the service's logout route and does not model the request's outcome beyond failed or not.
- The updateProperty and expressInterest bodies are applied as MongoDB applies them. Mongoose drops keys whose value is `undefined`, so an interest expressed again without a message keeps the old message.

## Findings

| source | as written | input that shows it | evidently intended | confidence | as-written member | corrected member |
|---|---|---|---|---|---|---|
| backend/src/modules/auth/auth.controller.ts:72 | `refresh` passes the verified payload, which carries `iat` and `exp`, straight to `signTokens`; `jsonwebtoken` refuses to sign a payload that has `exp` while also given `expiresIn`, so the handler's catch answers 401 | any refresh-token cookie that this service issued and that has not expired | re-sign only `{ sub, role }` and answer 200 with two fresh cookies | not executed | AuthController.RefreshAsWritten, AuthController.RefreshAsWrittenRejectsIssued | AuthController.Refresh, AuthController.RefreshMeaning |
| frontend/src/features/properties/PropertyListPage.tsx:127-139 | the page sends the bedroom filter under the key `bedrooms`, but `listProperties` reads `beds` (backend/dist/modules/properties/property.controller.js:5,14-15), so the minimum-bedrooms filter is never applied | filters with bedrooms "3" and everything else empty: the query is `{bedrooms: "3"}` and the listing is the same as with no filter | send the count as `beds`, so it becomes `bedrooms >= n` | not executed | PropertyListPage.QueryParamsAsWritten, PropertyListPage.BedroomsFilterIgnored | PropertyListPage.QueryParams, PropertyListPage.QueryParamsMeaning |
