# Verified model of the mock OAuth / resource API

This project is a Dafny model of the core of a NestJS mock backend for
integration testing. It covers:

- the **OAuth 2.0 token service** (`AuthService`), following RFC 6749:
  - the authorization request of section 4.1.1;
  - the four grants of the token endpoint: client credentials, password,
    refresh with rotation, and authorization-code redemption;
  - revocation in the manner of RFC 7009 section 2.2;
  - introspection in the manner of RFC 7662 section 2.2;
- the **API-key** and **HTTP Basic** (RFC 7617) credential checks of the
  Passport strategies;
- the `handleRequest` decision of the **combined guard** and of the
  **Basic-only guard**;
- the three **resource services** (products, sales, users): list the
  collection, or look a record up by id;
- the **upload controller**, which checks its input and fabricates CDN
  descriptions of the uploaded files.

The token service keeps two mutable tables: the authorization codes and the
refresh tokens. Each request is modelled twice:

- as a pure transition function on the tables (`OAuth.AuthorizeStep`,
  `OAuth.GenerateTokenStep`, …). Its contract states the error cases in their
  order, what is stored, and what is deleted;
- as a method of the class `OAuth.AuthService`. The class holds the tables in
  two `map` fields and updates them in place, as the service updates its two
  `Map`s. Each method is proved to produce the same answer and the same new
  tables as its transition function.

`oauth_properties.dfy` proves facts about sequences of requests:

- an authorization code can be used once only;
- rotation retires the presented refresh token;
- the token that rotation hands out can itself be redeemed;
- expiry is strict;
- revocation is idempotent, and a revoked token cannot be refreshed;
- a full authorize-then-redeem flow succeeds;
- every request keeps the table invariant.

The strategies, guards, services and upload endpoints are pure, and are
modelled as functions.

What comes from the environment is a parameter:

- the clock is `now`, in milliseconds;
- the random code generator is `nonce` or `code`;
- `randomUUID` is `fileId` or `fileIds(i)`;
- the upload time is `uploadedAt` or `stamps(i)`;
- the JWT library is `sign` and `verify`;
- `bcrypt.compare` is `compare`, which may also report that it threw;
- the JSON fixtures are arguments.

Fresh codes are not assumed to be unique. Storing under an existing key
overwrites the entry, as `Map.set` does. The lemmas that need a fresh token
say so in their preconditions.

JavaScript truthiness is modelled explicitly:

- `scope || 'read'` falls back on an absent or empty scope (`OrElse`);
- `!username` rejects an absent or empty string (`Truthy`);
- a stored refresh token whose `userId` is the empty string counts as having
  no user, both for the `sub` claim and for the 7-day/24-hour lifetime choice.

What the code does and does not do, where it matters to the model:

- The resource services implement only `findAll` and `findOne`
  (src/resources/products/products.service.ts:37-47 and the same pair in the
  sales and users services). There is no filter/sort/paginate/field-select
  engine and no create/update/delete, so none is modelled.
- The fixture loaders (src/resources/users/users.service.ts:24-31 and the
  others) do not catch a read or parse error, so a missing fixture makes the
  service fail at construction; it does not yield an empty collection.
  Loading is outside the model anyway (see below).
- The token endpoint's `default` branch ("Unsupported grant type") is
  modelled as written. It is never reached over HTTP: the global
  `ValidationPipe` (src/main.ts:16-22) enforces `@IsIn` on `grant_type`
  (src/auth/dto/token-request.dto.ts:6), so every request the controller
  passes on carries one of the four grants. Only a direct call of
  `generateToken` reaches it, and then only with a `grant_type` outside the
  four that the authenticated client also lists among its allowed grants.

## Model

| member | source | states |
|---|---|---|
| `Common.FindFirst` | src/resources/products/products.service.ts:42 | `Array.find` as an index: the first element satisfying the predicate, and none exactly when no element does |
| `OAuth.ValidateClient` | src/auth/auth.service.ts:87-95 | succeeds exactly when some client matches id and secret exactly and is active; returns the first such client; otherwise Unauthorized "Invalid client credentials" |
| `OAuth.ValidateClientGrant` | src/auth/auth.service.ts:97-101 | passes exactly when the grant type is among the client's allowed grants; otherwise Unauthorized naming the grant type |
| `OAuth.AuthorizeStep` | src/auth/auth.service.ts:104-143 | checks in order: an active client with the id (Unauthorized), the redirect URI registered (BadRequest), the authorization_code grant allowed (Unauthorized); a failure changes nothing; on success exactly one code entry is stored under the code, for user "1", with scope defaulting to "read", expiring 600000 ms after now; the answer echoes state with expires_in 600; response_type plays no part |
| `OAuth.ClientCredentialsStep` | src/auth/auth.service.ts:170-197 | never fails; the answer's refresh token is the nonce and its scope defaults to "read"; the only table change is one refresh entry under the nonce with no user, the client's id, that scope and a 24-hour expiry |
| `OAuth.PasswordStep` | src/auth/auth.service.ts:199-248 | an absent or empty username or password gives BadRequest; success exactly when an active user has that username and the password equals that username's entry in the fixed demo table; other failures give Unauthorized "Invalid username or password" and change nothing; success stores a 7-day refresh token bound to the user's id with scope defaulting to "read write" |
| `OAuth.RefreshStep` | src/auth/auth.service.ts:250-308 | missing token gives BadRequest; unknown token gives Unauthorized; `expiresAt < now` deletes the entry then gives Unauthorized; another client's token gives Unauthorized and is kept; success exactly when the token is stored, not expired (equality is still valid) and issued to this client; on success the presented token is removed and the nonce stored with the old client, user and stored scope and a lifetime of 7 days with a user, 24 hours without |
| `OAuth.AuthorizationCodeStep` | src/auth/auth.service.ts:310-375 | missing code gives BadRequest; unknown code gives Unauthorized "Invalid authorization code"; expired code is deleted then Unauthorized; client mismatch, or a supplied and different redirect URI, fails and keeps the code; once these checks pass the code is deleted whatever follows, and a missing user then gives "User not found" without issuing a token; on success a 7-day refresh token carries the code's user and scope |
| `OAuth.GenerateTokenStep` | src/auth/auth.service.ts:145-168 | bad client credentials, then a grant the client may not use, then an unsupported grant type are rejected with no table change; any success is a Bearer answer with expires_in 3600 whose refresh token is the nonce and is stored for the requesting client; the token endpoint never adds authorization codes; entries stay under their own key |
| `OAuth.RevokeStep` | src/auth/auth.service.ts:400-408 | never fails; deletes the token if it is a stored refresh-token key, leaves every other refresh token as it was, changes nothing for an unknown token, and never touches authorization codes |
| `OAuth.AuthService.constructor` | src/auth/auth.service.ts:49-66 | the client and user fixtures and the JWT service are the ones given; both tables start empty |
| `OAuth.AuthService.Authorize` | src/auth/auth.service.ts:104-143 | the answer and the new tables are those of `AuthorizeStep` on the old tables |
| `OAuth.AuthService.GenerateToken` | src/auth/auth.service.ts:145-168 | the answer and the new tables are those of `GenerateTokenStep` on the old tables |
| `OAuth.AuthService.HandleClientCredentials` | src/auth/auth.service.ts:170-197 | the answer and the new tables are those of `ClientCredentialsStep` |
| `OAuth.AuthService.HandlePasswordGrant` | src/auth/auth.service.ts:199-248 | the answer and the new tables are those of `PasswordStep` |
| `OAuth.AuthService.HandleRefreshToken` | src/auth/auth.service.ts:250-308 | the answer and the new tables are those of `RefreshStep`: the expired token is deleted in place, and rotation deletes then sets |
| `OAuth.AuthService.HandleAuthorizationCode` | src/auth/auth.service.ts:310-375 | the answer and the new tables are those of `AuthorizationCodeStep`: the code is deleted in place before the user lookup |
| `OAuth.AuthService.RevokeToken` | src/auth/auth.service.ts:400-408 | the new tables are those of `RevokeStep`; the token-type hint is ignored |
| `OAuth.AuthService.ValidateToken` | src/auth/auth.service.ts:377-384 | the verified claims exactly when verification succeeds, otherwise Unauthorized "Invalid token" |
| `OAuth.AuthService.IntrospectToken` | src/auth/auth.service.ts:386-398 | active exactly when token validation succeeds, then with its claims and token_type "Bearer"; inactive otherwise, never an error |
| `OAuthProperties.CodeIsSingleUse` | src/auth/auth.service.ts:317-343 | after a redemption that passed the checks (success or "User not found"), presenting the same code again, at any time, fails with Unauthorized "Invalid authorization code" |
| `OAuthProperties.RotationRetiresPresentedToken` | src/auth/auth.service.ts:293-306 | after a successful refresh the answer carries the new token, different from the presented one; the presented one is gone and reusing it fails as invalid; the new entry keeps the old client, user and scope |
| `OAuthProperties.RotatedTokenIsRedeemable` | src/auth/auth.service.ts:293-299 | the token handed out by rotation is accepted for the same client up to and including its new expiry |
| `OAuthProperties.RefreshExpiryIsStrict` | src/auth/auth.service.ts:262-265 | a refresh token is still accepted when now equals its expiresAt, and one millisecond later it is rejected as expired and purged |
| `OAuthProperties.PasswordGrantIgnoresStoredPasswords` | src/auth/auth.service.ts:207-216 | the password grant's result does not depend on the users' stored passwords |
| `OAuthProperties.AuthorizeThenRedeem` | src/auth/auth.service.ts:313-343 | with unique client ids, a code from authorize redeemed by the same client within ten minutes, with no redirect URI or the registered one, succeeds with the authorized scope, consumes the code and binds the refresh token to user "1" |
| `OAuthProperties.RevokeIsIdempotent` | src/auth/auth.service.ts:401-408 | revoking twice has the same effect as revoking once |
| `OAuthProperties.RevokedTokenCannotRefresh` | src/auth/auth.service.ts:403-405 | after revocation, a refresh with that token fails |
| `OAuthProperties.InvariantIsKept` | src/auth/auth.service.ts:51-52 | the empty tables satisfy the invariant, and authorize, every token request and revocation keep it: every entry is stored under its own code or token, and every code belongs to user "1" |
| `ApiKeyStrategy.Validate` | src/auth/strategies/api-key.strategy.ts:35-47 | accepts exactly when some user has exactly this key and is active, so a matching but inactive user is rejected; on acceptance no error and `{userId, username, authMethod:'api-key'}` of the first such user; otherwise Unauthorized "Invalid API Key" with no data |
| `ApiKeyStrategy.ValidateSeesOnlyActiveUsers` | src/auth/strategies/api-key.strategy.ts:36 | validating against all users equals validating against the active users alone |
| `BasicStrategy.Validate` | src/auth/strategies/basic.strategy.ts:30-62 | no active user of that name gives Unauthorized "Invalid credentials" whatever the password; otherwise accepts exactly when the plaintext table matches or the hash comparison resolves to a match, returning `{userId, username, authMethod:'basic'}` of that user; every failure is Unauthorized "Invalid credentials" |
| `BasicStrategy.ThrowingCompareIsMismatch` | src/auth/strategies/basic.strategy.ts:45-51 | a hash comparison that throws leads to the same result as one that reports a mismatch |
| `BasicStrategy.ValidateSeesOnlyActiveUsers` | src/auth/strategies/basic.strategy.ts:31 | inactive users make no difference to the result |
| `BasicStrategy.PlainTextTableIsSmaller` | src/auth/strategies/basic.strategy.ts:39-44 | the plaintext table agrees with the token service's demo table where it is defined; a demo user outside it (jsmith, mbrown, swilson) is accepted only through the hash comparison |
| `Guards.MultiAuthHandleRequest` | src/auth/guards/multi-auth.guard.ts:10-18 | whatever error value the strategy produced (of any type) is rethrown unchanged, even when a user is present; no error and no user gives Unauthorized with the message naming Bearer, API Key and Basic; otherwise the same user is returned; a returned user is never falsy |
| `Guards.BasicAuthHandleRequest` | src/auth/guards/basic-auth.guard.ts:6-11 | whatever error value the strategy produced (of any type) is rethrown unchanged; no error and no user gives Unauthorized "Invalid credentials"; otherwise the same user is returned |
| `Guards.GuardsAgreeExceptMessage` | src/auth/guards/basic-auth.guard.ts:7-8 | the two guards accept the same inputs and differ only in the message for a missing user |
| `Products.ProductsService.FindAll` | src/resources/products/products.service.ts:37-39 | the loaded collection itself, same elements in the same order |
| `Products.ProductsService.FindOne` | src/resources/products/products.service.ts:41-47 | the first product whose id is exactly the given string; NotFound "Product with ID <id> not found" exactly when none has it |
| `Sales.SalesService.FindAll` | src/resources/sales/sales.service.ts:38-40 | the loaded collection itself, same elements in the same order |
| `Sales.SalesService.FindOne` | src/resources/sales/sales.service.ts:42-48 | the first sale whose id is exactly the given string; NotFound "Sale with ID <id> not found" exactly when none has it |
| `Users.Strip` | src/resources/users/users.service.ts:30 | removes exactly `password` and `apiKey` and keeps every other field and its value |
| `Users.LoadUsers` | src/resources/users/users.service.ts:24-31 | one stripped record per fixture record, same length and order; no loaded record has a secret field |
| `Users.UsersService.FindAll` | src/resources/users/users.service.ts:33-35 | the loaded collection itself; none of its records has `password` or `apiKey` |
| `Users.UsersService.FindOne` | src/resources/users/users.service.ts:37-43 | the first user whose id is exactly the given string, without secret fields; NotFound "User with ID <id> not found" exactly when none has it |
| `Users.LoadedLookupMatchesFixture` | src/resources/users/users.service.ts:30 | stripping keeps ids, so a lookup after loading finds the stripped form of the first fixture record with that id, and fails exactly when the fixture has none |
| `Upload.FileUrlRoundTrip` | src/upload/upload.controller.ts:75 | the file URL `https://cdn.mockapi.local/uploads/<fileId>/<originalname>` gives back its file id and name, for ids without a slash |
| `Upload.ImageSubtype` | src/upload/upload.controller.ts:225 | for the four accepted image types, `split('/')[1]` is the text after "image/" |
| `Upload.SplitSubtype` | src/upload/upload.controller.ts:225 | `split('/')[1]` of `a/b` is `b` when neither `a` nor `b` contains a slash |
| `Upload.Describe` | src/upload/upload.controller.ts:139-149 | id, name, MIME type, size and time are copied; the URL is the uploads URL; thumbnailUrl is present exactly when the MIME type starts with "image/", and is then `.../thumbnails/<fileId>.jpg` |
| `Upload.UploadSingle` | src/upload/upload.controller.ts:59-82 | a missing file gives BadRequest "No file provided"; otherwise success with the file's description |
| `Upload.DescribeAll` | src/upload/upload.controller.ts:137-150 | one description per file, in input order, the i-th with the i-th fresh id and timestamp |
| `Upload.UploadMultiple` | src/upload/upload.controller.ts:132-158 | no list or an empty list gives BadRequest "No files provided"; otherwise one description per input file in input order, and totalFiles equals the input length |
| `Upload.UploadImage` | src/upload/upload.controller.ts:204-232 | a missing file gives BadRequest, then any MIME type outside jpeg/png/gif/webp gives BadRequest; on success name, type and size are copied and the four URLs share the base `https://cdn.mockapi.local/images/<fileId>`: `original.<subtype>`, `thumbnail.jpg`, `medium.jpg`, `large.jpg` |

The combined guard's strategy order `['jwt', 'api-key', 'basic']`
(src/auth/guards/multi-auth.guard.ts:5) is the constant
`Guards.MultiAuthStrategies`.

## Left out

- JWT signing and verification are a foreign library. They appear only as the
  parameters `sign` and `verify`; token encoding, signature checking and the
  `iat`/`exp` claims are not modelled.
- `bcrypt.compare` is a foreign call. It appears only as the `compare`
  parameter, which answers match, mismatch or "threw".
- `OAuth.RefreshStep` and `OAuth.AuthorizationCodeStep` take one clock reading
  `now` for the two `Date.now()` calls of a request (the expiry test and the
  new `expiresAt`, src/auth/auth.service.ts:262 and :298, and :323 and :365).
  The model's new expiry is exactly `now` plus the lifetime; in the program
  it can be a few milliseconds later, when the second call reads a later time.
- The random code generator, `randomUUID`, `Date.now()` and
  `new Date().toISOString()` are replaced by parameters. Their formats (a
  32-character base64 code, a UUID, an ISO date) are not modelled.
- Reading the fixtures from disk and `JSON.parse` are I/O. The fixtures are
  arguments, and the effect of a missing or malformed file is not modelled.
- How Passport runs the strategies, parses the `Authorization` and
  `X-API-Key` headers, and combines their outcomes before `handleRequest`
  is library behaviour. Only each strategy's `validate` and each guard's
  `handleRequest` are modelled. The JWT strategy file is not part of this
  model.
- The `info` and `context` arguments of `handleRequest` are unused by the
  source, and are left out.
- DTO validation and Swagger metadata are not modelled: the `IsIn`, `IsNotEmpty`
  and `IsOptional` decorators on the request classes.
- Controllers are not modelled. They only delegate, except for constant
  answers such as revoke's `{success: true}` and the server metadata document.
- The landing page, bootstrap, module wiring and the multipart interceptors
  with their file limits are not modelled.
- Async/await is not modelled: every operation is synchronous.
- Upload controller details:
  - the `extension` local of `uploadSingle` (src/upload/upload.controller.ts:65)
    is computed and never used, and is left out;
  - for the accepted image types `split('/')[1]` always exists, so the
    "undefined" text that JavaScript would produce with no slash is unreachable.
- JSON numbers in resource records are modelled as `real`; no operation
  computes with them.
- `User` records seen by the authentication code carry only the fields that
  code reads (id, username, password hash, API key, email, role, active).
- `plainTextPasswords[username]` on an inherited key such as `toString`
  yields a non-string in JavaScript. It never equals the submitted password,
  so a plain map lookup gives the same accept or reject outcome.
- `OAuth.AuthService.IntrospectToken` returns the verified claims as one
  value. It does not model the spreading of arbitrary decoded JWT fields into
  the answer.
