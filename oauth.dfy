/** The OAuth 2.0 token service (RFC 6749): authorization codes, the four
    token grants, refresh-token rotation, introspection and revocation.

    The service keeps two in-memory tables, the authorization codes and the
    refresh tokens, keyed by the code or token string.  Each grant is first
    given as a pure transition function on those tables (a `Store`), which
    carries the promises of the grant in its contract; the class
    `AuthService` at the end holds the tables in two map fields and performs
    the same steps in place, proved equal to the transition functions.

    What the service takes from its environment is passed in: the clock as
    `now` (milliseconds), the random code generator as `nonce` / `code`, and
    the JWT library as `sign` and `verify`. */
module OAuth {
  import opened Common

  datatype OAuthClient = OAuthClient(
    clientId: string,
    clientSecret: string,
    name: string,
    allowedGrants: seq<string>,
    redirectUris: seq<string>,
    active: bool)

  datatype AuthorizationCode = AuthorizationCode(
    code: string,
    clientId: string,
    userId: string,
    redirectUri: string,
    scope: string,
    expiresAt: int)

  /** `userId` is absent for tokens issued by the client-credentials grant. */
  datatype RefreshTokenData = RefreshTokenData(
    token: string,
    clientId: string,
    userId: Option<string>,
    scope: string,
    expiresAt: int)

  /** The two mutable tables of the service. */
  datatype Store = Store(
    codes: map<string, AuthorizationCode>,
    refreshTokens: map<string, RefreshTokenData>)

  /** The outcome of one request and the tables after it. */
  datatype Step<T> = Step(result: Result<T>, store: Store)

  datatype AuthorizeRequest = AuthorizeRequest(
    responseType: string,
    clientId: string,
    redirectUri: string,
    scope: Option<string>,
    state: Option<string>)

  datatype AuthorizeResponse = AuthorizeResponse(code: string, state: Option<string>, expiresIn: nat)

  datatype TokenRequest = TokenRequest(
    grantType: string,
    clientId: string,
    clientSecret: string,
    username: Option<string>,
    password: Option<string>,
    refreshToken: Option<string>,
    code: Option<string>,
    redirectUri: Option<string>,
    scope: Option<string>)

  /** The claims signed into an access token; absent claims are not in the JWT. */
  datatype Payload = Payload(
    sub: string,
    grantType: string,
    name: Option<string>,
    username: Option<string>,
    email: Option<string>,
    role: Option<string>,
    clientId: Option<string>,
    scope: string)

  datatype TokenResponse = TokenResponse(
    accessToken: string,
    tokenType: string,
    expiresIn: nat,
    refreshToken: string,
    scope: string)

  /** The introspection answer of RFC 7662 section 2.2. */
  datatype Introspection = Inactive | Active(claims: Payload, tokenType: string)

  /** `jwtService.sign(payload, { expiresIn })`. */
  type Signer = (Payload, nat) -> string

  const ClientCredentialsGrant := "client_credentials"
  const PasswordGrant := "password"
  const RefreshTokenGrant := "refresh_token"
  const AuthorizationCodeGrant := "authorization_code"
  const GrantTypes := [ClientCredentialsGrant, PasswordGrant, RefreshTokenGrant, AuthorizationCodeGrant]

  const CodeLifetimeSeconds: nat := 600              // 10 minutes
  const AccessTokenLifetimeSeconds: nat := 3600      // 1 hour
  const ClientRefreshLifetimeMs: int := 86400000     // 24 hours
  const UserRefreshLifetimeMs: int := 604800000      // 7 days

  /** Every authorization code is issued for this user: there is no login step. */
  const DemoUserId := "1"

  /** The demo passwords the password grant accepts; stored hashes are not used. */
  const DemoPasswords: map<string, string> := map[
    "admin" := "admin123",
    "user" := "user123",
    "jsmith" := "jsmith123",
    "mbrown" := "mbrown123",
    "swilson" := "swilson123"]

  // ---------------------------------------------------------------------------
  // Invariants of the tables

  /** Every entry is stored under its own code or token string. */
  predicate WellKeyed(st: Store)
  {
    && (forall c :: c in st.codes ==> st.codes[c].code == c)
    && (forall t :: t in st.refreshTokens ==> st.refreshTokens[t].token == t)
  }

  /** Every stored authorization code is bound to the demo user. */
  predicate CodesForDemoUser(st: Store)
  {
    forall c :: c in st.codes ==> st.codes[c].userId == DemoUserId
  }

  // ---------------------------------------------------------------------------
  // Lookups

  predicate ClientAuthenticates(c: OAuthClient, clientId: string, clientSecret: string)
  {
    c.clientId == clientId && c.clientSecret == clientSecret && c.active
  }

  predicate ClientIsActive(c: OAuthClient, clientId: string)
  {
    c.clientId == clientId && c.active
  }

  /** The first active client with this id (the authorize endpoint takes no secret). */
  function ActiveClient(clients: seq<OAuthClient>, clientId: string): Option<nat>
  {
    FindFirst(clients, (c: OAuthClient) => ClientIsActive(c, clientId))
  }

  /** The first user with this id, active or not. */
  function UserWithId(users: seq<User>, id: string): Option<nat>
  {
    FindFirst(users, (u: User) => u.id == id)
  }

  /** Client authentication at the token endpoint: the first client whose id and
      secret both match exactly and which is active. */
  function ValidateClient(clients: seq<OAuthClient>, clientId: string, clientSecret: string): (r: Result<OAuthClient>)
    ensures r.Ok? <==> exists k :: 0 <= k < |clients| && ClientAuthenticates(clients[k], clientId, clientSecret)
    ensures r.Ok? ==>
      exists k :: 0 <= k < |clients| && clients[k] == r.value &&
        ClientAuthenticates(r.value, clientId, clientSecret) &&
        forall j :: 0 <= j < k ==> !ClientAuthenticates(clients[j], clientId, clientSecret)
    ensures r.Err? ==> r.error == Unauthorized("Invalid client credentials")
  {
    match FindFirst(clients, (c: OAuthClient) => ClientAuthenticates(c, clientId, clientSecret))
    case None => Err(Unauthorized("Invalid client credentials"))
    case Some(k) => Ok(clients[k])
  }

  /** The grant gate: the client must list the requested grant type. */
  function ValidateClientGrant(client: OAuthClient, grantType: string): (r: Outcome)
    ensures r.Pass? <==> grantType in client.allowedGrants
    ensures r.Fail? ==> r.error == Unauthorized("Grant type '" + grantType + "' not allowed for this client")
  {
    if grantType in client.allowedGrants then Pass
    else Fail(Unauthorized("Grant type '" + grantType + "' not allowed for this client"))
  }

  // ---------------------------------------------------------------------------
  // Access-token claims

  function ClientPayload(client: OAuthClient, scope: Option<string>): Payload
  {
    Payload(client.clientId, ClientCredentialsGrant, Some(client.name), None, None, None, None, OrElse(scope, "read"))
  }

  function UserPayload(user: User, grantType: string, client: OAuthClient, scope: string): Payload
  {
    Payload(user.id, grantType, None, Some(user.username), Some(user.email), Some(user.role), Some(client.clientId), scope)
  }

  /** Claims of a refreshed access token: the token's user (or its client when it
      has none), enriched with the user's details when that user still exists. */
  function RefreshPayload(stored: RefreshTokenData, client: OAuthClient, users: seq<User>, scope: Option<string>): Payload
  {
    var base := Payload(
      if Truthy(stored.userId) then stored.userId.value else stored.clientId,
      RefreshTokenGrant, None, None, None, None, Some(client.clientId), OrElse(scope, stored.scope));
    if !Truthy(stored.userId) then base
    else match UserWithId(users, stored.userId.value)
      case None => base
      case Some(k) => base.(username := Some(users[k].username), email := Some(users[k].email), role := Some(users[k].role))
  }

  /** Lifetime of a rotated refresh token: user-bound ones live 7 days, others 24 hours. */
  function RotatedLifetime(userId: Option<string>): int
  {
    if Truthy(userId) then UserRefreshLifetimeMs else ClientRefreshLifetimeMs
  }

  function Bearer(accessToken: string, refreshToken: string, scope: string): TokenResponse
  {
    TokenResponse(accessToken, "Bearer", AccessTokenLifetimeSeconds, refreshToken, scope)
  }

  // ---------------------------------------------------------------------------
  // The authorization request (RFC 6749 section 4.1.1)

  function AuthorizeStep(st: Store, clients: seq<OAuthClient>, req: AuthorizeRequest, now: int, code: string): (r: Step<AuthorizeResponse>)
    ensures r.result.Err? ==> r.store == st
    ensures (forall k :: 0 <= k < |clients| ==> !ClientIsActive(clients[k], req.clientId)) ==>
      r.result == Err(Unauthorized("Invalid client_id"))
    ensures ActiveClient(clients, req.clientId).Some? ==>
      var client := clients[ActiveClient(clients, req.clientId).value];
      && (req.redirectUri !in client.redirectUris ==>
            r.result == Err(BadRequest("Invalid redirect_uri")))
      && (req.redirectUri in client.redirectUris && AuthorizationCodeGrant !in client.allowedGrants ==>
            r.result == Err(Unauthorized("Authorization code grant not allowed for this client")))
      && (req.redirectUri in client.redirectUris && AuthorizationCodeGrant in client.allowedGrants ==>
            r.result.Ok?)
    ensures r.result.Ok? ==>
      && r.result.value == AuthorizeResponse(code, req.state, CodeLifetimeSeconds)
      && r.store.refreshTokens == st.refreshTokens
      && r.store.codes == st.codes[code := AuthorizationCode(
           code, req.clientId, DemoUserId, req.redirectUri, OrElse(req.scope, "read"),
           now + CodeLifetimeSeconds * 1000)]
    ensures WellKeyed(st) ==> WellKeyed(r.store)
    ensures CodesForDemoUser(st) ==> CodesForDemoUser(r.store)
  {
    match ActiveClient(clients, req.clientId)
    case None => Step(Err(Unauthorized("Invalid client_id")), st)
    case Some(k) =>
      var client := clients[k];
      if req.redirectUri !in client.redirectUris then
        Step(Err(BadRequest("Invalid redirect_uri")), st)
      else if AuthorizationCodeGrant !in client.allowedGrants then
        Step(Err(Unauthorized("Authorization code grant not allowed for this client")), st)
      else
        var entry := AuthorizationCode(code, req.clientId, DemoUserId, req.redirectUri,
                                       OrElse(req.scope, "read"), now + CodeLifetimeSeconds * 1000);
        Step(Ok(AuthorizeResponse(code, req.state, CodeLifetimeSeconds)), st.(codes := st.codes[code := entry]))
  }

  // ---------------------------------------------------------------------------
  // The four grants of the token endpoint

  /** The client-credentials grant (RFC 6749 section 4.4). */
  function ClientCredentialsStep(st: Store, client: OAuthClient, scope: Option<string>, now: int, nonce: string, sign: Signer): (r: Step<TokenResponse>)
    ensures r.result.Ok?
    ensures r.result.value.refreshToken == nonce
    ensures r.result.value.scope == OrElse(scope, "read")
    ensures r.result.value.accessToken == sign(ClientPayload(client, scope), AccessTokenLifetimeSeconds)
    ensures r.store.codes == st.codes
    ensures nonce in r.store.refreshTokens
    ensures r.store.refreshTokens == st.refreshTokens[nonce := r.store.refreshTokens[nonce]]
    ensures var e := r.store.refreshTokens[nonce];
      e.token == nonce && e.clientId == client.clientId && e.userId == None &&
      e.scope == r.result.value.scope && e.expiresAt == now + ClientRefreshLifetimeMs
  {
    var entry := RefreshTokenData(nonce, client.clientId, None, OrElse(scope, "read"), now + ClientRefreshLifetimeMs);
    var accessToken := sign(ClientPayload(client, scope), AccessTokenLifetimeSeconds);
    Step(Ok(Bearer(accessToken, nonce, OrElse(scope, "read"))),
         st.(refreshTokens := st.refreshTokens[nonce := entry]))
  }

  /** The resource-owner password grant (RFC 6749 section 4.3). */
  function PasswordStep(st: Store, client: OAuthClient, users: seq<User>, req: TokenRequest, now: int, nonce: string, sign: Signer): (r: Step<TokenResponse>)
    ensures r.store.codes == st.codes
    ensures r.result.Err? ==> r.store == st
    ensures !Truthy(req.username) || !Truthy(req.password) ==>
      r.result == Err(BadRequest("Username and password are required for password grant"))
    ensures Truthy(req.username) && Truthy(req.password) && r.result.Err? ==>
      r.result.error == Unauthorized("Invalid username or password")
    ensures r.result.Ok? <==>
      && Truthy(req.username) && Truthy(req.password)
      && (exists k :: 0 <= k < |users| && users[k].username == req.username.value && users[k].active)
      && req.username.value in DemoPasswords
      && DemoPasswords[req.username.value] == req.password.value
    ensures r.result.Ok? ==>
      var user := users[ActiveUserNamed(users, req.username.value).value];
      var scope := OrElse(req.scope, "read write");
      && r.result.value == Bearer(sign(UserPayload(user, PasswordGrant, client, scope), AccessTokenLifetimeSeconds), nonce, scope)
      && r.store.refreshTokens == st.refreshTokens[nonce :=
           RefreshTokenData(nonce, client.clientId, Some(user.id), scope, now + UserRefreshLifetimeMs)]
  {
    if !Truthy(req.username) || !Truthy(req.password) then
      Step(Err(BadRequest("Username and password are required for password grant")), st)
    else
      var username := req.username.value;
      match ActiveUserNamed(users, username)
      case None => Step(Err(Unauthorized("Invalid username or password")), st)
      case Some(k) =>
        if username !in DemoPasswords || DemoPasswords[username] != req.password.value then
          Step(Err(Unauthorized("Invalid username or password")), st)
        else
          var user := users[k];
          var scope := OrElse(req.scope, "read write");
          var accessToken := sign(UserPayload(user, PasswordGrant, client, scope), AccessTokenLifetimeSeconds);
          var entry := RefreshTokenData(nonce, client.clientId, Some(user.id), scope, now + UserRefreshLifetimeMs);
          Step(Ok(Bearer(accessToken, nonce, scope)), st.(refreshTokens := st.refreshTokens[nonce := entry]))
  }

  /** A presented refresh token that is stored, not expired (expiry is strict:
      a token whose `expiresAt` equals `now` is still good) and issued to this client. */
  predicate RefreshAccepted(st: Store, client: OAuthClient, req: TokenRequest, now: int)
  {
    && Truthy(req.refreshToken)
    && req.refreshToken.value in st.refreshTokens
    && !(st.refreshTokens[req.refreshToken.value].expiresAt < now)
    && st.refreshTokens[req.refreshToken.value].clientId == client.clientId
  }

  /** The refresh grant with rotation (RFC 6749 section 6). */
  function RefreshStep(st: Store, client: OAuthClient, users: seq<User>, req: TokenRequest, now: int, nonce: string, sign: Signer): (r: Step<TokenResponse>)
    ensures r.store.codes == st.codes
    ensures !Truthy(req.refreshToken) ==>
      r == Step(Err(BadRequest("Refresh token is required")), st)
    ensures Truthy(req.refreshToken) && req.refreshToken.value !in st.refreshTokens ==>
      r == Step(Err(Unauthorized("Invalid refresh token")), st)
    ensures Truthy(req.refreshToken) && req.refreshToken.value in st.refreshTokens ==>
      var t := req.refreshToken.value;
      var stored := st.refreshTokens[t];
      && (stored.expiresAt < now ==>
            r == Step(Err(Unauthorized("Refresh token has expired")), st.(refreshTokens := st.refreshTokens - {t})))
      && (!(stored.expiresAt < now) && stored.clientId != client.clientId ==>
            r == Step(Err(Unauthorized("Refresh token was not issued to this client")), st))
    ensures r.result.Ok? <==> RefreshAccepted(st, client, req, now)
    ensures r.result.Ok? ==>
      var t := req.refreshToken.value;
      var stored := st.refreshTokens[t];
      && r.result.value == Bearer(sign(RefreshPayload(stored, client, users, req.scope), AccessTokenLifetimeSeconds),
                                  nonce, OrElse(req.scope, stored.scope))
      && r.store.refreshTokens == (st.refreshTokens - {t})[nonce :=
           stored.(token := nonce, expiresAt := now + RotatedLifetime(stored.userId))]
    ensures WellKeyed(st) ==> WellKeyed(r.store)
  {
    if !Truthy(req.refreshToken) then
      Step(Err(BadRequest("Refresh token is required")), st)
    else
      var t := req.refreshToken.value;
      if t !in st.refreshTokens then
        Step(Err(Unauthorized("Invalid refresh token")), st)
      else
        var stored := st.refreshTokens[t];
        if stored.expiresAt < now then
          Step(Err(Unauthorized("Refresh token has expired")), st.(refreshTokens := st.refreshTokens - {t}))
        else if stored.clientId != client.clientId then
          Step(Err(Unauthorized("Refresh token was not issued to this client")), st)
        else
          var accessToken := sign(RefreshPayload(stored, client, users, req.scope), AccessTokenLifetimeSeconds);
          var rotated := stored.(token := nonce, expiresAt := now + RotatedLifetime(stored.userId));
          Step(Ok(Bearer(accessToken, nonce, OrElse(req.scope, stored.scope))),
               st.(refreshTokens := (st.refreshTokens - {t})[nonce := rotated]))
  }

  /** A presented code that is stored, not expired, issued to this client, and
      whose redirect URI matches the one supplied, if one is supplied. */
  predicate CodeAccepted(st: Store, client: OAuthClient, req: TokenRequest, now: int)
  {
    && Truthy(req.code)
    && req.code.value in st.codes
    && !(st.codes[req.code.value].expiresAt < now)
    && st.codes[req.code.value].clientId == client.clientId
    && (Truthy(req.redirectUri) ==> st.codes[req.code.value].redirectUri == req.redirectUri.value)
  }

  /** Redemption of an authorization code (RFC 6749 section 4.1.3). */
  function AuthorizationCodeStep(st: Store, client: OAuthClient, users: seq<User>, req: TokenRequest, now: int, nonce: string, sign: Signer): (r: Step<TokenResponse>)
    ensures !Truthy(req.code) ==>
      r == Step(Err(BadRequest("Authorization code is required")), st)
    ensures Truthy(req.code) && req.code.value !in st.codes ==>
      r == Step(Err(Unauthorized("Invalid authorization code")), st)
    ensures Truthy(req.code) && req.code.value in st.codes ==>
      var c := req.code.value;
      var stored := st.codes[c];
      && (stored.expiresAt < now ==>
            r == Step(Err(Unauthorized("Authorization code has expired")), st.(codes := st.codes - {c})))
      && (!(stored.expiresAt < now) && stored.clientId != client.clientId ==>
            r == Step(Err(Unauthorized("Authorization code was not issued to this client")), st))
      && (!(stored.expiresAt < now) && stored.clientId == client.clientId &&
          Truthy(req.redirectUri) && stored.redirectUri != req.redirectUri.value ==>
            r == Step(Err(BadRequest("Redirect URI mismatch")), st))
    // once the checks pass, the code is gone whatever happens next
    ensures CodeAccepted(st, client, req, now) ==> r.store.codes == st.codes - {req.code.value}
    ensures r.result.Ok? <==> CodeAccepted(st, client, req, now) && UserWithId(users, st.codes[req.code.value].userId).Some?
    ensures CodeAccepted(st, client, req, now) && r.result.Err? ==>
      r.result.error == Unauthorized("User not found") && r.store.refreshTokens == st.refreshTokens
    ensures r.result.Ok? ==>
      var stored := st.codes[req.code.value];
      var user := users[UserWithId(users, stored.userId).value];
      && r.result.value == Bearer(sign(UserPayload(user, AuthorizationCodeGrant, client, stored.scope), AccessTokenLifetimeSeconds),
                                  nonce, stored.scope)
      && r.store.refreshTokens == st.refreshTokens[nonce :=
           RefreshTokenData(nonce, client.clientId, Some(user.id), stored.scope, now + UserRefreshLifetimeMs)]
    ensures !CodeAccepted(st, client, req, now) ==> r.store.refreshTokens == st.refreshTokens
    ensures WellKeyed(st) ==> WellKeyed(r.store)
  {
    if !Truthy(req.code) then
      Step(Err(BadRequest("Authorization code is required")), st)
    else
      var c := req.code.value;
      if c !in st.codes then
        Step(Err(Unauthorized("Invalid authorization code")), st)
      else
        var stored := st.codes[c];
        if stored.expiresAt < now then
          Step(Err(Unauthorized("Authorization code has expired")), st.(codes := st.codes - {c}))
        else if stored.clientId != client.clientId then
          Step(Err(Unauthorized("Authorization code was not issued to this client")), st)
        else if Truthy(req.redirectUri) && stored.redirectUri != req.redirectUri.value then
          Step(Err(BadRequest("Redirect URI mismatch")), st)
        else
          var consumed := st.(codes := st.codes - {c});
          match UserWithId(users, stored.userId)
          case None => Step(Err(Unauthorized("User not found")), consumed)
          case Some(k) =>
            var user := users[k];
            var accessToken := sign(UserPayload(user, AuthorizationCodeGrant, client, stored.scope), AccessTokenLifetimeSeconds);
            var entry := RefreshTokenData(nonce, client.clientId, Some(user.id), stored.scope, now + UserRefreshLifetimeMs);
            Step(Ok(Bearer(accessToken, nonce, stored.scope)),
                 consumed.(refreshTokens := consumed.refreshTokens[nonce := entry]))
  }

  /** The token endpoint: client authentication, the grant gate, then dispatch. */
  function GenerateTokenStep(st: Store, clients: seq<OAuthClient>, users: seq<User>, req: TokenRequest, now: int, nonce: string, sign: Signer): (r: Step<TokenResponse>)
    ensures ValidateClient(clients, req.clientId, req.clientSecret).Err? ==>
      r == Step(Err(Unauthorized("Invalid client credentials")), st)
    ensures ValidateClient(clients, req.clientId, req.clientSecret).Ok? &&
            req.grantType !in ValidateClient(clients, req.clientId, req.clientSecret).value.allowedGrants ==>
      r == Step(Err(Unauthorized("Grant type '" + req.grantType + "' not allowed for this client")), st)
    ensures ValidateClient(clients, req.clientId, req.clientSecret).Ok? &&
            req.grantType in ValidateClient(clients, req.clientId, req.clientSecret).value.allowedGrants &&
            req.grantType !in GrantTypes ==>
      r == Step(Err(BadRequest("Unsupported grant type")), st)
    ensures r.result.Ok? ==>
      && req.grantType in GrantTypes
      && r.result.value.tokenType == "Bearer"
      && r.result.value.expiresIn == AccessTokenLifetimeSeconds
      && r.result.value.refreshToken == nonce
      && nonce in r.store.refreshTokens
      && r.store.refreshTokens[nonce].clientId == req.clientId
    ensures WellKeyed(st) ==> WellKeyed(r.store)
    // the token endpoint never creates authorization codes
    ensures r.store.codes.Keys <= st.codes.Keys
    ensures forall c :: c in r.store.codes ==> r.store.codes[c] == st.codes[c]
  {
    match ValidateClient(clients, req.clientId, req.clientSecret)
    case Err(e) => Step(Err(e), st)
    case Ok(client) =>
      match ValidateClientGrant(client, req.grantType)
      case Fail(e) => Step(Err(e), st)
      case Pass =>
        if req.grantType == ClientCredentialsGrant then ClientCredentialsStep(st, client, req.scope, now, nonce, sign)
        else if req.grantType == PasswordGrant then PasswordStep(st, client, users, req, now, nonce, sign)
        else if req.grantType == RefreshTokenGrant then RefreshStep(st, client, users, req, now, nonce, sign)
        else if req.grantType == AuthorizationCodeGrant then AuthorizationCodeStep(st, client, users, req, now, nonce, sign)
        else Step(Err(BadRequest("Unsupported grant type")), st)
  }

  /** Revocation in the manner of RFC 7009 section 2.2: a stored refresh token is
      deleted; anything else (an access token, an unknown string) changes nothing.
      It never fails. */
  function RevokeStep(st: Store, token: string): (r: Store)
    ensures r.codes == st.codes
    ensures token !in r.refreshTokens
    ensures r.refreshTokens.Keys == st.refreshTokens.Keys - {token}
    ensures forall t :: t in r.refreshTokens ==> r.refreshTokens[t] == st.refreshTokens[t]
    ensures token !in st.refreshTokens ==> r == st
  {
    if token in st.refreshTokens then st.(refreshTokens := st.refreshTokens - {token}) else st
  }

  // ---------------------------------------------------------------------------
  // The service object

  class AuthService {
    const clients: seq<OAuthClient>
    const users: seq<User>
    const sign: Signer
    /** `jwtService.verify`: the claims of a well-signed, unexpired token, or None when it throws. */
    const verify: string -> Option<Payload>
    var authorizationCodes: map<string, AuthorizationCode>
    var refreshTokens: map<string, RefreshTokenData>

    function State(): Store
      reads this
    {
      Store(authorizationCodes, refreshTokens)
    }

    /** The fixtures and the JWT service are handed in; both tables start empty. */
    constructor(clients: seq<OAuthClient>, users: seq<User>, sign: Signer, verify: string -> Option<Payload>)
      ensures this.clients == clients && this.users == users
      ensures this.sign == sign && this.verify == verify
      ensures State() == Store(map[], map[])
    {
      this.clients := clients;
      this.users := users;
      this.sign := sign;
      this.verify := verify;
      authorizationCodes := map[];
      refreshTokens := map[];
    }

    method Authorize(req: AuthorizeRequest, now: int, code: string) returns (r: Result<AuthorizeResponse>)
      modifies this
      ensures Step(r, State()) == AuthorizeStep(old(State()), clients, req, now, code)
    {
      var found := ActiveClient(clients, req.clientId);
      if found.None? {
        return Err(Unauthorized("Invalid client_id"));
      }
      var client := clients[found.value];
      if req.redirectUri !in client.redirectUris {
        return Err(BadRequest("Invalid redirect_uri"));
      }
      if AuthorizationCodeGrant !in client.allowedGrants {
        return Err(Unauthorized("Authorization code grant not allowed for this client"));
      }
      var entry := AuthorizationCode(code, req.clientId, DemoUserId, req.redirectUri,
                                     OrElse(req.scope, "read"), now + CodeLifetimeSeconds * 1000);
      authorizationCodes := authorizationCodes[code := entry];
      r := Ok(AuthorizeResponse(code, req.state, CodeLifetimeSeconds));
    }

    method GenerateToken(req: TokenRequest, now: int, nonce: string) returns (r: Result<TokenResponse>)
      modifies this
      ensures Step(r, State()) == GenerateTokenStep(old(State()), clients, users, req, now, nonce, sign)
    {
      var validated := ValidateClient(clients, req.clientId, req.clientSecret);
      if validated.Err? {
        return Err(validated.error);
      }
      var client := validated.value;
      var gate := ValidateClientGrant(client, req.grantType);
      if gate.Fail? {
        return Err(gate.error);
      }
      if req.grantType == ClientCredentialsGrant {
        r := HandleClientCredentials(client, req.scope, now, nonce);
      } else if req.grantType == PasswordGrant {
        r := HandlePasswordGrant(client, req, now, nonce);
      } else if req.grantType == RefreshTokenGrant {
        r := HandleRefreshToken(client, req, now, nonce);
      } else if req.grantType == AuthorizationCodeGrant {
        r := HandleAuthorizationCode(client, req, now, nonce);
      } else {
        r := Err(BadRequest("Unsupported grant type"));
      }
    }

    method HandleClientCredentials(client: OAuthClient, scope: Option<string>, now: int, nonce: string) returns (r: Result<TokenResponse>)
      modifies this
      ensures Step(r, State()) == ClientCredentialsStep(old(State()), client, scope, now, nonce, sign)
    {
      var accessToken := sign(ClientPayload(client, scope), AccessTokenLifetimeSeconds);
      refreshTokens := refreshTokens[nonce := RefreshTokenData(nonce, client.clientId, None, OrElse(scope, "read"), now + ClientRefreshLifetimeMs)];
      r := Ok(Bearer(accessToken, nonce, OrElse(scope, "read")));
    }

    method HandlePasswordGrant(client: OAuthClient, req: TokenRequest, now: int, nonce: string) returns (r: Result<TokenResponse>)
      modifies this
      ensures Step(r, State()) == PasswordStep(old(State()), client, users, req, now, nonce, sign)
    {
      if !Truthy(req.username) || !Truthy(req.password) {
        return Err(BadRequest("Username and password are required for password grant"));
      }
      var username := req.username.value;
      var found := ActiveUserNamed(users, username);
      if found.None? {
        return Err(Unauthorized("Invalid username or password"));
      }
      var user := users[found.value];
      if username !in DemoPasswords || DemoPasswords[username] != req.password.value {
        return Err(Unauthorized("Invalid username or password"));
      }
      var scope := OrElse(req.scope, "read write");
      var accessToken := sign(UserPayload(user, PasswordGrant, client, scope), AccessTokenLifetimeSeconds);
      refreshTokens := refreshTokens[nonce := RefreshTokenData(nonce, client.clientId, Some(user.id), scope, now + UserRefreshLifetimeMs)];
      r := Ok(Bearer(accessToken, nonce, scope));
    }

    method HandleRefreshToken(client: OAuthClient, req: TokenRequest, now: int, nonce: string) returns (r: Result<TokenResponse>)
      modifies this
      ensures Step(r, State()) == RefreshStep(old(State()), client, users, req, now, nonce, sign)
    {
      if !Truthy(req.refreshToken) {
        return Err(BadRequest("Refresh token is required"));
      }
      var t := req.refreshToken.value;
      if t !in refreshTokens {
        return Err(Unauthorized("Invalid refresh token"));
      }
      var stored := refreshTokens[t];
      if stored.expiresAt < now {
        refreshTokens := refreshTokens - {t};
        return Err(Unauthorized("Refresh token has expired"));
      }
      if stored.clientId != client.clientId {
        return Err(Unauthorized("Refresh token was not issued to this client"));
      }
      var accessToken := sign(RefreshPayload(stored, client, users, req.scope), AccessTokenLifetimeSeconds);
      // rotation: the presented token goes, a fresh one takes over its binding and scope
      refreshTokens := refreshTokens - {t};
      refreshTokens := refreshTokens[nonce := stored.(token := nonce, expiresAt := now + RotatedLifetime(stored.userId))];
      r := Ok(Bearer(accessToken, nonce, OrElse(req.scope, stored.scope)));
    }

    method HandleAuthorizationCode(client: OAuthClient, req: TokenRequest, now: int, nonce: string) returns (r: Result<TokenResponse>)
      modifies this
      ensures Step(r, State()) == AuthorizationCodeStep(old(State()), client, users, req, now, nonce, sign)
    {
      if !Truthy(req.code) {
        return Err(BadRequest("Authorization code is required"));
      }
      var c := req.code.value;
      if c !in authorizationCodes {
        return Err(Unauthorized("Invalid authorization code"));
      }
      var stored := authorizationCodes[c];
      if stored.expiresAt < now {
        authorizationCodes := authorizationCodes - {c};
        return Err(Unauthorized("Authorization code has expired"));
      }
      if stored.clientId != client.clientId {
        return Err(Unauthorized("Authorization code was not issued to this client"));
      }
      if Truthy(req.redirectUri) && stored.redirectUri != req.redirectUri.value {
        return Err(BadRequest("Redirect URI mismatch"));
      }
      // one-time use: the code is deleted before the user is even looked up
      authorizationCodes := authorizationCodes - {c};
      var found := UserWithId(users, stored.userId);
      if found.None? {
        return Err(Unauthorized("User not found"));
      }
      var user := users[found.value];
      var accessToken := sign(UserPayload(user, AuthorizationCodeGrant, client, stored.scope), AccessTokenLifetimeSeconds);
      refreshTokens := refreshTokens[nonce := RefreshTokenData(nonce, client.clientId, Some(user.id), stored.scope, now + UserRefreshLifetimeMs)];
      r := Ok(Bearer(accessToken, nonce, stored.scope));
    }

    /** The token-type hint is accepted and ignored. */
    method RevokeToken(token: string, tokenTypeHint: Option<string>)
      modifies this
      ensures State() == RevokeStep(old(State()), token)
    {
      if token in refreshTokens {
        refreshTokens := refreshTokens - {token};
      }
    }

    /** Bearer-token validation: the verified claims, or Unauthorized. */
    function ValidateToken(token: string): (r: Result<Payload>)
      ensures r.Ok? <==> verify(token).Some?
      ensures r.Ok? ==> r.value == verify(token).value
      ensures r.Err? ==> r.error == Unauthorized("Invalid token")
    {
      match verify(token)
      case Some(claims) => Ok(claims)
      case None => Err(Unauthorized("Invalid token"))
    }

    /** Introspection in the manner of RFC 7662 section 2.2: never an error, an
        inactive answer whenever verification fails. */
    function IntrospectToken(token: string): (r: Introspection)
      ensures r.Active? <==> ValidateToken(token).Ok?
      ensures r.Active? ==> r.claims == ValidateToken(token).value && r.tokenType == "Bearer"
    {
      match verify(token)
      case Some(claims) => Active(claims, "Bearer")
      case None => Inactive
    }
  }
}
