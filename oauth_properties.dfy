/** Properties of the token service that relate several requests: one-time use
    of authorization codes, refresh-token rotation, the strict expiry test,
    revocation, the full authorization-code flow, and the invariants every
    request keeps. */
module OAuthProperties {
  import opened Common
  import opened OAuth

  /** Once a code has passed the redemption checks it is gone: presenting it a
      second time, at any later time, fails as an unknown code, even when the
      first redemption ended in "User not found". */
  lemma CodeIsSingleUse(st: Store, clients: seq<OAuthClient>, users: seq<User>, req: TokenRequest,
                        now1: int, nonce1: string, now2: int, nonce2: string, sign: Signer)
    requires req.grantType == AuthorizationCodeGrant
    requires var first := GenerateTokenStep(st, clients, users, req, now1, nonce1, sign).result;
      first.Ok? || first == Err(Unauthorized("User not found"))
    ensures var s1 := GenerateTokenStep(st, clients, users, req, now1, nonce1, sign).store;
      GenerateTokenStep(s1, clients, users, req, now2, nonce2, sign).result == Err(Unauthorized("Invalid authorization code"))
  {
    var client := ValidateClient(clients, req.clientId, req.clientSecret).value;
    var s1 := GenerateTokenStep(st, clients, users, req, now1, nonce1, sign).store;
    assert CodeAccepted(st, client, req, now1);
    assert req.code.value !in s1.codes;
  }

  /** A successful refresh hands out the fresh token and retires the presented
      one: presenting it again fails as unknown.  The fresh token keeps the
      client, the user and the stored scope of the old one. */
  lemma RotationRetiresPresentedToken(st: Store, clients: seq<OAuthClient>, users: seq<User>, req: TokenRequest,
                                      now: int, nonce: string, now2: int, nonce2: string, sign: Signer)
    requires req.grantType == RefreshTokenGrant
    requires GenerateTokenStep(st, clients, users, req, now, nonce, sign).result.Ok?
    requires req.refreshToken != Some(nonce)
    ensures var s1 := GenerateTokenStep(st, clients, users, req, now, nonce, sign);
      var old_ := st.refreshTokens[req.refreshToken.value];
      && s1.result.value.refreshToken == nonce != req.refreshToken.value
      && req.refreshToken.value !in s1.store.refreshTokens
      && s1.store.refreshTokens[nonce].clientId == old_.clientId
      && s1.store.refreshTokens[nonce].userId == old_.userId
      && s1.store.refreshTokens[nonce].scope == old_.scope
      && GenerateTokenStep(s1.store, clients, users, req, now2, nonce2, sign).result == Err(Unauthorized("Invalid refresh token"))
  {
    var client := ValidateClient(clients, req.clientId, req.clientSecret).value;
    assert RefreshAccepted(st, client, req, now);
  }

  /** The token handed out by a rotation is itself accepted by the same client
      until its new expiry, inclusive. */
  lemma RotatedTokenIsRedeemable(st: Store, clients: seq<OAuthClient>, users: seq<User>, req: TokenRequest,
                                 now: int, nonce: string, now2: int, nonce2: string, sign: Signer)
    requires req.grantType == RefreshTokenGrant
    requires GenerateTokenStep(st, clients, users, req, now, nonce, sign).result.Ok?
    requires nonce != ""
    requires now2 <= now + RotatedLifetime(st.refreshTokens[req.refreshToken.value].userId)
    ensures var s1 := GenerateTokenStep(st, clients, users, req, now, nonce, sign).store;
      GenerateTokenStep(s1, clients, users, req.(refreshToken := Some(nonce)), now2, nonce2, sign).result.Ok?
  {
    var client := ValidateClient(clients, req.clientId, req.clientSecret).value;
    assert RefreshAccepted(st, client, req, now);
    var s1 := GenerateTokenStep(st, clients, users, req, now, nonce, sign).store;
    assert RefreshAccepted(s1, client, req.(refreshToken := Some(nonce)), now2);
  }

  /** Expiry is strict: a refresh token is still good at the very millisecond
      of its `expiresAt`, and expired one millisecond later, when it is purged. */
  lemma RefreshExpiryIsStrict(st: Store, client: OAuthClient, users: seq<User>, req: TokenRequest, nonce: string, sign: Signer)
    requires Truthy(req.refreshToken) && req.refreshToken.value in st.refreshTokens
    requires st.refreshTokens[req.refreshToken.value].clientId == client.clientId
    ensures var at := st.refreshTokens[req.refreshToken.value].expiresAt;
      && RefreshStep(st, client, users, req, at, nonce, sign).result.Ok?
      && RefreshStep(st, client, users, req, at + 1, nonce, sign) ==
         Step(Err(Unauthorized("Refresh token has expired")),
              st.(refreshTokens := st.refreshTokens - {req.refreshToken.value}))
  {
  }

  /** The two user tables differ at most in their stored password hashes. */
  predicate SameButPasswords(users: seq<User>, users': seq<User>)
  {
    |users| == |users'| &&
    forall i :: 0 <= i < |users| ==> users'[i] == users[i].(password := users'[i].password)
  }

  /** The password grant never consults the stored password: it checks only the
      fixed demo table, so changing the stored hashes changes nothing. */
  lemma PasswordGrantIgnoresStoredPasswords(st: Store, client: OAuthClient, users: seq<User>, users': seq<User>,
                                            req: TokenRequest, now: int, nonce: string, sign: Signer)
    requires SameButPasswords(users, users')
    ensures PasswordStep(st, client, users, req, now, nonce, sign) == PasswordStep(st, client, users', req, now, nonce, sign)
  {
    if Truthy(req.username) {
      var name := req.username.value;
      FindFirstAgrees(users, (u: User) => u.username == name && u.active,
                      users', (u: User) => u.username == name && u.active);
      var k := ActiveUserNamed(users, name);
      if k.Some? {
        assert UserPayload(users[k.value], PasswordGrant, client, OrElse(req.scope, "read write")) ==
               UserPayload(users'[k.value], PasswordGrant, client, OrElse(req.scope, "read write"));
      }
    }
  }

  /** No two clients of the fixture share an id. */
  predicate UniqueClientIds(clients: seq<OAuthClient>)
  {
    forall i, j :: 0 <= i < |clients| && 0 <= j < |clients| && clients[i].clientId == clients[j].clientId ==> i == j
  }

  /** The whole authorization-code flow: a code issued by `authorize` is
      redeemed at the token endpoint by the same client (with its secret) within
      the ten minutes, with no redirect URI or the registered one, and yields a
      token with the scope asked for at authorization (default "read"). */
  lemma AuthorizeThenRedeem(st: Store, clients: seq<OAuthClient>, users: seq<User>,
                            areq: AuthorizeRequest, now: int, code: string,
                            treq: TokenRequest, now2: int, nonce: string, sign: Signer)
    requires UniqueClientIds(clients)
    requires AuthorizeStep(st, clients, areq, now, code).result.Ok?
    requires treq.grantType == AuthorizationCodeGrant && treq.clientId == areq.clientId
    requires treq.code == Some(code) && code != ""
    requires ValidateClient(clients, treq.clientId, treq.clientSecret).Ok?
    requires treq.redirectUri == None || treq.redirectUri == Some(areq.redirectUri)
    requires now2 <= now + CodeLifetimeSeconds * 1000
    requires UserWithId(users, DemoUserId).Some?
    ensures var s1 := AuthorizeStep(st, clients, areq, now, code).store;
      var s2 := GenerateTokenStep(s1, clients, users, treq, now2, nonce, sign);
      && s2.result.Ok?
      && s2.result.value.scope == OrElse(areq.scope, "read")
      && code !in s2.store.codes
      && s2.store.refreshTokens[nonce].userId == Some(DemoUserId)
  {
    var k := ActiveClient(clients, areq.clientId).value;
    var client := ValidateClient(clients, treq.clientId, treq.clientSecret).value;
    var k' :| 0 <= k' < |clients| && clients[k'] == client;
    assert k == k';
    var s1 := AuthorizeStep(st, clients, areq, now, code).store;
    assert CodeAccepted(s1, client, treq, now2);
    var u := users[UserWithId(users, DemoUserId).value];
    assert u.id == DemoUserId;
  }

  /** Revoking twice is revoking once. */
  lemma RevokeIsIdempotent(st: Store, token: string)
    ensures RevokeStep(RevokeStep(st, token), token) == RevokeStep(st, token)
  {
  }

  /** A revoked refresh token can no longer be exchanged. */
  lemma RevokedTokenCannotRefresh(st: Store, clients: seq<OAuthClient>, users: seq<User>, req: TokenRequest,
                                  now: int, nonce: string, sign: Signer)
    requires req.grantType == RefreshTokenGrant && Truthy(req.refreshToken)
    ensures GenerateTokenStep(RevokeStep(st, req.refreshToken.value), clients, users, req, now, nonce, sign).result.Err?
  {
  }

  /** The invariant of the two tables: entries sit under their own key, and
      every authorization code belongs to the demo user. */
  predicate Invariant(st: Store)
  {
    WellKeyed(st) && CodesForDemoUser(st)
  }

  /** Every request of the service keeps the invariant, starting from the empty tables. */
  lemma InvariantIsKept(st: Store, clients: seq<OAuthClient>, users: seq<User>,
                        areq: AuthorizeRequest, treq: TokenRequest, now: int, nonce: string, token: string, sign: Signer)
    requires Invariant(st)
    ensures Invariant(Store(map[], map[]))
    ensures Invariant(AuthorizeStep(st, clients, areq, now, nonce).store)
    ensures Invariant(GenerateTokenStep(st, clients, users, treq, now, nonce, sign).store)
    ensures Invariant(RevokeStep(st, token))
  {
  }
}
