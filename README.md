# OAuth 2.0 login gateway — a Dafny model

This project models the core of a NestJS login gateway. The gateway signs users in through Kakao, Naver and Apple (and has an unregistered Google strategy). It normalises their profiles and keeps users and provider tokens in a store. It issues its own pair of session JWTs and guards routes with a bearer-header check.

Every HTTP call, cryptographic operation, clock reading and random value is a parameter of the model:

- an HTTP transport is a function from a request to an outcome;
- the JWT library is a record of functions;
- the database as the auth service sees it is a record of functions (`UserStore`), and the health check's database probe is given as its outcome;
- the clock is `nowMs`;
- a generated UUID or `state` is an argument.

The users service is the exception: its tables are modelled in memory, as sequences that the `UsersService` class owns and its methods update, and are not a parameter.

What remains is the gateway's own deterministic logic, stated and proved in Dafny.

Module layout, one file per concern:

| file | module | models |
|---|---|---|
| common.dfy | `Wrappers`, `Exceptions` | Option/Result; the Nest exception kinds and plain `Error` |
| js_text.dfy | `JsText` | the JavaScript string semantics the code relies on: `\|\|` on strings, `split`/`join`, `trim`, `String(n)`, `parseInt` |
| uri_encoding.dfy | `UriEncoding` | `encodeURIComponent` and the `URLSearchParams` serializer over UTF-8, with their decoders and round trips |
| profiles.dfy | `Profiles` | oauth-profile.interface.ts: adapters, validator, `processProfile` |
| strategy_base.dfy | `StrategyBase` | base.strategy.ts: `httpRequest` error mapping, `state` choice |
| kakao.dfy, naver.dfy, apple.dfy, google.dfy | `Kakao`, `Naver`, `Apple`, `Google` | the four strategies |
| strategy_contract.dfy | `Strategies` | the abstract strategy contract, dispatched over the four strategies |
| tables.dfy | `Tables` | unique constraints over rows kept in sequences |
| users.dfy | `Users` | users.service.ts as a class holding the user, credential and token tables |
| session_jwt.dfy | `SessionJwt` | jwt.service.ts |
| auth_service.dfy | `AuthService` | auth.service.ts: registry, callback, refresh, user info, session tokens |
| auth_guard.dfy | `AuthGuard` | auth.guard.ts |
| app_service.dfy | `App` | app.service.ts |

How the orchestration is modelled:

- The callback, refresh and user-info flows are functions. Each returns its result together with the ordered list of collaborator calls it made (`Outcome`), so step order and where a flow stops are part of the contracts.
- The users service, as auth.service.ts calls it, is a record of functions (`UserStore`). That file calls it with a three-argument token upsert, while users.service.ts itself takes one object. Each file's own behaviour is modelled and the two are not reconciled. As written, the program fails at this seam: auth.service.ts:78 and :120 pass `user.id`, a string, as the one `data` object, so `data.provider.toString()` (src/users/users.service.ts:57) throws inside the `try`. Every callback and refresh would then end in its single `UnauthorizedException` at the upsert step. The model, whose `UserStore` is a parameter, does not show this.

Three behaviours of the code that a reader might not expect, and which the model follows:

- A `ConflictException` from the users service inside the callback is caught and surfaces as the callback's one `UnauthorizedException`. It is not passed on as a conflict.
- `createTokens` reports `expires_in = parseInt(accessExpiration)`. With the shipped setting `'15m'` (src/config/configuration.ts:22) this is 15, not 900; `AuthService.SessionPayloads` states both values.
- `return this.createTokens(...)` and `return strategy.getUserProfile(...)` are not awaited inside their `try`. A rejection there therefore escapes the `catch`, and the model lets that error through.

## Model

| member | source | states |
|---|---|---|
| JsText.IntDecimalRoundTrip | src/auth/interfaces/oauth-profile.interface.ts:77 | the decimal text `toString()` gives for an integer reads back as that integer |
| JsText.ParseIntStopsAtUnit | src/auth/auth.service.ts:202-204 | `parseInt` reads the leading digits: "15m" gives 15, "900" gives 900 |
| JsText.SplitJoin | src/app.service.ts:171 | joining space-free parts with " " and splitting on ' ' gives back the parts |
| UriEncoding.Encode | src/auth/strategies/base.strategy.ts:69-70 | an encoded string uses only unreserved characters, `%` (and `+` for forms), so it never contains `&`, `=` or a space |
| UriEncoding.EncodeIdentity | src/auth/strategies/base.strategy.ts:69-70 | characters in the unreserved set are written unchanged |
| UriEncoding.SpaceBecomesPlus | src/auth/strategies/apple.strategy.ts:50-57 | the form serializer writes a space as `+` |
| UriEncoding.Utf8Payload | src/auth/strategies/base.strategy.ts:69-70 | the bytes written for a character are a UTF-8 sequence of its length class whose payload bits give back the code point (section 3 of RFC 3629) |
| UriEncoding.DecodeUtf8Escapes | src/auth/strategies/base.strategy.ts:69-70 | the `%XX` escapes of a UTF-8 sequence decode to its code point, three characters a byte |
| UriEncoding.DecodeEncode | src/auth/strategies/base.strategy.ts:69-70 | percent-decoding undoes the encoding of every string (each character as `%XX` per UTF-8 byte) |
| UriEncoding.SerializeRoundTrip | src/auth/strategies/base.strategy.ts:66-73 | splitting the query on `&`, then on the first `=`, and decoding recovers the entries in order |
| UriEncoding.SeparatorCount | src/auth/strategies/base.strategy.ts:67-72 | an empty record gives "", otherwise there is one `&` fewer than entries |
| Profiles.FromKakao | src/auth/interfaces/oauth-profile.interface.ts:75-88 | id reads back as the numeric id; name and picture take the account value when non-empty, else the `properties` value; provider KAKAO; raw is the response |
| Profiles.FromNaver | src/auth/interfaces/oauth-profile.interface.ts:93-102 | id/email/picture copied; name falls back to nickname when empty or absent |
| Profiles.JoinedName | src/auth/interfaces/oauth-profile.interface.ts:108-110 | the joined name has no surrounding white space and is "" when both parts are missing or empty; its content for one or two parts is stated by the lemmas below |
| Profiles.JoinedNameOfPlainParts | src/auth/interfaces/oauth-profile.interface.ts:109 | two trimmed names are joined by exactly one space |
| Profiles.JoinedNameOfFirstOnly | src/auth/interfaces/oauth-profile.interface.ts:109 | a first name alone (last name absent or empty) comes out as the first name with its surrounding white space removed |
| Profiles.JoinedNameOfLastOnly | src/auth/interfaces/oauth-profile.interface.ts:109 | a last name alone (first name absent or empty) comes out as the last name with its surrounding white space removed |
| Profiles.JoinedNameOfPaddedParts | src/auth/interfaces/oauth-profile.interface.ts:109 | two padded names lose their outer white space; the white space between them is kept around the one added space |
| JsText.Trim | src/auth/interfaces/oauth-profile.interface.ts:109 | `trim()`: the result is the slice of the input left once the white space before and after it is removed, and it neither starts nor ends with white space |
| JsText.TrimOfPadded | src/auth/interfaces/oauth-profile.interface.ts:109 | white space around a core without outer white space trims to exactly that core |
| Profiles.FromApple | src/auth/interfaces/oauth-profile.interface.ts:107-120 | name is the trimmed join, with an empty join becoming absent; picture always absent; id is `sub` |
| Profiles.Validate | src/auth/interfaces/oauth-profile.interface.ts:128-135 | fails with 'Profile ID is required' exactly when the id is empty |
| Profiles.RegexGivesShape | src/auth/interfaces/oauth-profile.interface.ts:142-143 | a regex match has no white space, one `@` with text before it and an inner `.` in the domain |
| Profiles.ShapeGivesRegex | src/auth/interfaces/oauth-profile.interface.ts:142-143 | every such address matches the regex |
| Profiles.ValidateEmailMeaning | src/auth/interfaces/oauth-profile.interface.ts:140-144 | `validateEmail` is true iff the e-mail is absent/empty or has that shape |
| Profiles.ValidateEmailExamples | src/auth/interfaces/oauth-profile.interface.ts:140-144 | "a@b.c", "" and none pass; "a@bc" fails |
| Profiles.NormalizeProfileImageUrl | src/auth/interfaces/oauth-profile.interface.ts:195-202 | a leading `http:` becomes `https:`, anything else is unchanged, and the result never starts with `http:` |
| Profiles.NormalizeIdempotent | src/auth/interfaces/oauth-profile.interface.ts:195-202 | normalising twice is normalising once |
| Profiles.ProcessProfile | src/auth/interfaces/oauth-profile.interface.ts:155-190 | GOOGLE is unsupported; an empty id and a present malformed e-mail fail with their messages; success iff neither, with the picture normalised |
| Profiles.ProcessProfileOnlyTouchesPicture | src/auth/interfaces/oauth-profile.interface.ts:159-189 | the result differs from the adapter output at most in the picture, which never starts with `http:` |
| StrategyBase.HttpRequest | src/auth/strategies/base.strategy.ts:30-58 | success returns the data unchanged; a failure with a response is 400 with the serialised body, one without is 500 'Unexpected error occurred' |
| StrategyBase.ChooseState | src/auth/strategies/base.strategy.ts:61-63 | a non-empty supplied state is used as-is, otherwise the generated one |
| Kakao.AuthUrlQuery | src/auth/strategies/kakao.strategy.ts:35-45 | the URL is the authorize endpoint + `?` + a query decoding to client_id, redirect_uri, response_type=code, state in order |
| Kakao.RequestBodies | src/auth/strategies/kakao.strategy.ts:53-59 | token body: authorization_code grant with secret, redirect_uri and code; refresh body: refresh_token grant with secret, no redirect_uri; the URL does not depend on the secret |
| Kakao.GetTokens | src/auth/strategies/kakao.strategy.ts:52-76 | the token response iff the call succeeds, else Unauthorized 'Failed to get Kakao tokens' |
| Kakao.RefreshToken | src/auth/strategies/kakao.strategy.ts:116-140 | the new tokens iff the call succeeds, else Unauthorized 'Failed to refresh Kakao token' |
| Kakao.ProfileOf | src/auth/strategies/kakao.strategy.ts:97-104 | id reads back as the numeric id; email, nickname and image from the account with no fallback; provider KAKAO |
| Kakao.ProfileOfAgreesWithAdapter | src/auth/strategies/kakao.strategy.ts:97-104 | with a non-empty account nickname and image, the strategy and the adapter agree |
| Kakao.GetUserProfile | src/auth/strategies/kakao.strategy.ts:83-109 | the mapped profile iff the call succeeds, else one fixed Unauthorized |
| Kakao.ValidateToken | src/auth/strategies/kakao.strategy.ts:147-164 | true iff the token-info call succeeds; never an error |
| Naver.AuthUrlQuery | src/auth/strategies/naver.strategy.ts:29-38 | endpoint + query decoding to response_type=code, client_id, redirect_uri, state in order |
| Naver.RequestBodies | src/auth/strategies/naver.strategy.ts:40-63 | token body with redirect_uri and code; refresh body with refresh_token grant and no redirect_uri |
| Naver.GetTokens | src/auth/strategies/naver.strategy.ts:40-63 | the token response iff the call succeeds, else Unauthorized 'Failed to get Naver tokens' |
| Naver.RefreshToken | src/auth/strategies/naver.strategy.ts:94-118 | the new tokens iff the call succeeds, else Unauthorized carrying the interpolated HttpException |
| Naver.ProfileOf | src/auth/strategies/naver.strategy.ts:81-88 | id/email/name/profile_image from the inner response, no nickname fallback, provider NAVER |
| Naver.ProfileOfAgreesWithAdapter | src/auth/strategies/naver.strategy.ts:81-88 | with a non-empty name the strategy and the adapter agree |
| Naver.GetUserProfile | src/auth/strategies/naver.strategy.ts:65-92 | success iff the call succeeds with resultcode exactly '00'; otherwise one fixed Unauthorized |
| Naver.ValidateToken | src/auth/strategies/naver.strategy.ts:120-127 | true iff the profile fetch succeeds with a non-empty id |
| Apple.AuthUrlQuery | src/auth/strategies/apple.strategy.ts:48-59 | endpoint + form query decoding to response_type, client_id, redirect_uri, scope='name email', response_mode=form_post, state |
| Apple.ScopeIsPlusJoined | src/auth/strategies/apple.strategy.ts:53 | the scope travels as `name+email` |
| Apple.ClientSecretClaimsAt | src/auth/strategies/apple.strategy.ts:200-209 | iss=teamId, sub=clientId, aud=Apple, iat=floor(now/1000), exp=iat+3600 |
| Apple.RequestBodies | src/auth/strategies/apple.strategy.ts:78-84 | token body with code and redirect_uri; refresh body with refresh_token, client_id and secret, no redirect_uri |
| Apple.PostTokenRequest | src/auth/strategies/apple.strategy.ts:70-91 | the token call with a signed secret: success iff the endpoint answers, with its data; a failure is Unauthorized carrying the HTTP error's message |
| Apple.GetTokens | src/auth/strategies/apple.strategy.ts:67-92 | a client secret is signed first; a signing failure is Unauthorized with the signer's message, otherwise the outcome is that of the token call with that secret |
| Apple.PostRefreshRequest | src/auth/strategies/apple.strategy.ts:134-153 | the same for the refresh body |
| Apple.RefreshToken | src/auth/strategies/apple.strategy.ts:130-154 | the same with the refresh body and a new client secret |
| Apple.ProfileOf | src/auth/strategies/apple.strategy.ts:102-122 | id=sub, email, emailVerified=email_verified, no picture; a present name object always gives the trimmed join |
| Apple.ProfileOfVersusAdapter | src/auth/strategies/apple.strategy.ts:110-112 | differs from the adapter only in emailVerified and in keeping an empty joined name as '' |
| Apple.GetUserProfile | src/auth/strategies/apple.strategy.ts:100-123 | success iff the decoder returns claims; null is one fixed Unauthorized |
| Apple.FindKey | src/auth/strategies/apple.strategy.ts:177 | the first key whose kid equals the header kid, or none |
| Apple.ValidateToken | src/auth/strategies/apple.strategy.ts:162-194 | true iff the header decodes, the key fetch succeeds with keys, some key carries the header's kid and the first such key verifies the token (RS256, Apple issuer, client id as audience); false on each failure |
| Apple.FirstMatchingKeyDecides | src/auth/strategies/apple.strategy.ts:176-181 | when several keys share the kid, the first one alone decides the result, as `keys.find` does |
| Google.AuthUrlQuery | src/auth/strategies/google.strategy.ts:38-49 | endpoint + form query decoding to client_id, redirect_uri, response_type, scope='openid email profile', access_type=offline, state |
| Google.RequestBodies | src/auth/strategies/google.strategy.ts:66-72 | token body with authorization_code grant; refresh body with refresh_token grant and no redirect_uri |
| Google.GetTokens | src/auth/strategies/google.strategy.ts:57-80 | the token response iff the call succeeds, else Unauthorized with the HTTP message |
| Google.RefreshToken | src/auth/strategies/google.strategy.ts:118-140 | the new tokens iff the call succeeds, else Unauthorized with the HTTP message |
| Google.ProfileOf | src/auth/strategies/google.strategy.ts:100-107 | id=sub, email, name, picture, provider GOOGLE |
| Google.GetUserProfile | src/auth/strategies/google.strategy.ts:88-111 | the mapped profile iff the call succeeds, else one fixed Unauthorized |
| Google.ValidateToken | src/auth/strategies/google.strategy.ts:148-159 | true iff the tokeninfo call succeeds |
| Strategies.GetTokensFailsUnauthorized | src/auth/strategies/base.strategy.ts:14-27 | every strategy reports a failed exchange as Unauthorized |
| Strategies.RefreshFailsUnauthorized | src/auth/strategies/base.strategy.ts:14-27 | every strategy reports a failed refresh as Unauthorized |
| Strategies.GetUserProfileContract | src/auth/strategies/base.strategy.ts:14-27 | every strategy's profile failure is Unauthorized and its profiles name its own provider |
| Strategies.AuthUrlStateChoice | src/auth/strategies/kakao.strategy.ts:40 | an empty state equals none; a non-empty one equals having generated it (all four strategies) |
| Tables.PairwiseFilter | src/users/users.service.ts:285-289 | deleting rows keeps every unique constraint |
| Users.AtMostOneRow | src/users/users.service.ts:53-85 | under the token invariant a (userId, provider) pair has at most one row |
| Users.UpsertRowsEffect | src/users/users.service.ts:62-85 | an existing row is updated in place (same id, other rows unchanged), otherwise exactly one row is appended; an absent refresh token leaves the column |
| Users.UpsertKeepsUnique | src/users/users.service.ts:62-85 | upserting keeps the token invariant |
| Users.UpsertLeavesOneRow | src/users/users.service.ts:62-85 | after an upsert the pair has exactly one row |
| Users.RemovePairIdempotent | src/users/users.service.ts:270-282 | removal leaves no row for the pair, keeps the invariant, and removing twice equals removing once |
| Users.NewUserFrom | src/users/users.service.ts:149-169 | providerId = profile id, name = profile name or 'User_' + 8 UUID characters, emailVerified set iff an e-mail is present |
| Users.MergeProfileProperties | src/users/users.service.ts:196-204 | identity untouched, no column erased, an all-empty profile changes nothing, merging twice equals once |
| Users.ReplaceUserKeepsUnique | src/users/users.service.ts:207-229 | replacing a user row with the same identity and a free e-mail keeps the user constraints |
| Users.UsersService.CreateUser | src/users/users.service.ts:16-29 | appends the user unless a unique constraint clashes (P2002) |
| Users.UsersService.FindByProvider | src/users/users.service.ts:32-41 | a user with that (provider, providerId), or none exists |
| Users.UsersService.FindById | src/users/users.service.ts:238-245 | the user with that id, or none exists |
| Users.UsersService.FindByEmail | src/users/users.service.ts:248-252 | the user with that e-mail, or none exists |
| Users.UsersService.FindValidToken | src/users/users.service.ts:92-105 | a row of the pair expiring strictly after now, or every row of the pair has expired |
| Users.UsersService.UpsertOAuthToken | src/users/users.service.ts:44-89 | the table becomes `UpsertRows`; creation fails with P2003 without the user and P2002 on a taken id |
| Users.UsersService.UpdateUserProfile | src/users/users.service.ts:191-235 | the merged user and touched credential written together, or nothing written and InternalServerError |
| Users.UsersService.FindOrCreateByOAuth | src/users/users.service.ts:110-186 | an existing key takes the update path and creates no user: it succeeds iff that user has a credential for the profile's provider and the e-mail is free, and then merges the user and touches the credential, else the wrapped InternalServerError; a taken e-mail is Conflict; otherwise exactly one user and credential are created or Conflict |
| Users.UsersService.UpdateUser | src/users/users.service.ts:255-267 | writes every given column; P2025 on a missing user, P2002 on a taken e-mail |
| Users.UsersService.RemoveToken | src/users/users.service.ts:270-282 | the table becomes `RemovePair`, leaving no row for the pair |
| Users.UsersService.RemoveUser | src/users/users.service.ts:285-289 | deletes the user and its credentials and tokens; P2025 on a missing user |
| SessionJwt.AccessTtl | src/auth/jwt/jwt.service.ts:33-36 | the setting, or 15 minutes |
| SessionJwt.RefreshTtl | src/auth/jwt/jwt.service.ts:37-40 | the setting, or 7 days |
| SessionJwt.PayloadsDifferOnlyInKind | src/auth/jwt/jwt.service.ts:43-62 | the two signed payloads carry the caller's fields and differ only in type |
| SessionJwt.GenerateTokens | src/auth/jwt/jwt.service.ts:30-69 | a pair iff both signings succeed, with expiresIn the access TTL; otherwise one of the signing errors |
| SessionJwt.ClassifyVerifyError | src/auth/jwt/jwt.service.ts:77-86 | TokenExpiredError, JsonWebTokenError and anything else map to their three messages |
| SessionJwt.ClassificationDistinguishes | src/auth/jwt/jwt.service.ts:77-86 | the message identifies the class it came from |
| SessionJwt.VerifyToken | src/auth/jwt/jwt.service.ts:74-87 | the verified payload, or the classified error |
| SessionJwt.DecodeToken | src/auth/jwt/jwt.service.ts:92-100 | the payload, or an error when the library decodes null |
| SessionJwt.IsTokenExpired | src/auth/jwt/jwt.service.ts:105-113 | true on decode failure or missing/zero exp, otherwise exp*1000 < now |
| SessionJwt.GetTokenTimeRemaining | src/auth/jwt/jwt.service.ts:118-126 | never negative; 0 without exp; otherwise exp − floor(now/1000) when positive |
| SessionJwt.ExpiredHasNoTimeLeft | src/auth/jwt/jwt.service.ts:105-126 | an expired token has 0 seconds left at the same now |
| SessionJwt.NoTimeLeftNotExpired | src/auth/jwt/jwt.service.ts:105-126 | the converse fails: exp 5 at 5000 ms has 0 left but is not expired |
| AuthService.GetStrategy | src/auth/auth.service.ts:227-233 | resolves exactly KAKAO, NAVER, APPLE to their own strategy; otherwise BadRequest naming the provider |
| AuthService.GoogleUnregistered | src/auth/auth.service.ts:33-37 | GOOGLE is unsupported, and every other provider resolves |
| AuthService.GenerateAuthUrl | src/auth/auth.service.ts:46-53 | the strategy's URL unchanged, or one BadRequest |
| AuthService.CreateTokens | src/auth/auth.service.ts:168-207 | two signings in order; success iff both succeed, token_type 'Bearer', expires_in = parseInt of the setting or '900'; otherwise a signing error |
| AuthService.SessionPayloads | src/auth/auth.service.ts:172-204 | payloads differ only in type; expires_in 900 when unset and 15 for '15m' |
| AuthService.WriteOf | src/auth/auth.service.ts:78-83 | the stored expiry is now + expires_in*1000 |
| AuthService.HandleOAuthCallback | src/auth/auth.service.ts:62-89 | an unregistered provider fails with the one Unauthorized and no call; a registered one makes at most six calls, starting with the code exchange; success makes all six, with the token store fourth; any other error than the one Unauthorized comes after both signings |
| AuthService.CallbackResolvesStrategy | src/auth/auth.service.ts:62-67 | an unregistered provider (GOOGLE) fails before any call; otherwise the steps run against its own strategy |
| AuthService.CallbackOrder | src/auth/auth.service.ts:68-85 | the calls are a prefix of getTokens, getUserProfile, findOrCreateByOAuth, upsertOAuthToken, sign, sign, and success needs all six |
| AuthService.CallbackStops | src/auth/auth.service.ts:68-85 | each call follows the success of the one before and takes its result (code, access token, profile, user); the flow stops at the first failure |
| AuthService.CallbackFailures | src/auth/auth.service.ts:86-88 | every failure is the one Unauthorized except a signing error escaping the un-awaited createTokens |
| AuthService.CallbackStoresTokens | src/auth/auth.service.ts:78-85 | on success the provider tokens are stored for the user with expiry now + expires_in*1000, then both payloads signed |
| AuthService.CallbackIgnoresState | src/auth/auth.service.ts:62-89 | the state argument does not affect the callback |
| AuthService.RefreshSession | src/auth/auth.service.ts:96-131 | the first call verifies the token, and a token that does not verify ends there with the one Unauthorized; success makes six calls (verify, load, provider refresh, store, sign, sign); any other error than the one Unauthorized comes after both signings |
| AuthService.RefreshFor | src/auth/auth.service.ts:100-127 | after verification: the user load comes first; success makes the provider refresh, the store and both signings; any other error than the one Unauthorized comes after both signings |
| AuthService.RefreshGuards | src/auth/auth.service.ts:100-114 | a missing user, no token row or an unregistered provider ends in the one Unauthorized before any provider call |
| AuthService.RefreshStoresTokens | src/auth/auth.service.ts:113-127 | the provider gets the first stored refresh token ("null" when absent); new tokens stored with expiry now + expires_in*1000, then both payloads signed |
| AuthService.RefreshIgnoresKind | src/auth/auth.service.ts:96-98 | a token that fails verification is the one Unauthorized; otherwise its type is never consulted |
| AuthService.GetUserInfo | src/auth/auth.service.ts:138-160 | the first call verifies the token; fewer than three calls means the one Unauthorized; the third call fetches the profile with the loaded user's first stored access token, for a registered provider |
| AuthService.UserInfoFor | src/auth/auth.service.ts:142-156 | after verification: the user load comes first; a second call happens only for a registered provider and a user with a token row, and the result is that strategy's profile for the first stored access token |
| AuthService.GetUserInfoContract | src/auth/auth.service.ts:138-160 | every failure is Unauthorized; a profile is the registered strategy's answer for the first stored access token |
| AuthGuard.Scheme | src/auth/guards/auth.guard.ts:26 | the text before the first space, with no space in it |
| AuthGuard.BearerToken | src/auth/guards/auth.guard.ts:26 | the text between the first and second space, absent iff there is no space |
| AuthGuard.BearerHeaderParts | src/auth/guards/auth.guard.ts:26-32 | "Bearer <token>" (with or without a trailer) has scheme Bearer and that token |
| AuthGuard.Decide | src/auth/guards/auth.guard.ts:18-42 | missing header, wrong scheme and rejected token fail with their messages in that order; otherwise the verifier's result |
| AuthGuard.OnlyVerifiedTokensPass | src/auth/guards/auth.guard.ts:34-41 | passing requires a Bearer header whose token the validator accepts, and yields the verified payload |
| AuthGuard.CanActivate | src/auth/guards/auth.guard.ts:18-42 | true and `request.user` = payload exactly when the decision passes; a rejection leaves the request unchanged |
| App.ComponentsDecompose | src/app.service.ts:158-162 | d*86400 + h*3600 + m*60 + s equals a non-negative input, with h<24, m<60, s<60 |
| App.ComponentsNegative | src/app.service.ts:158-162 | a negative input has no positive component |
| App.UptimePartsTotal | src/app.service.ts:164-171 | the parts read back sum to the input: omitting zero components loses nothing |
| App.UptimePartsShape | src/app.service.ts:164-171 | one to four space-free parts; 0 gives "0s"; under a minute only the seconds part |
| App.AppService.FormatUptime | src/app.service.ts:158-172 | the parts joined by single spaces; splitting the text gives the parts back, and they sum to the input |
| App.AppService.MetricsUptime | src/app.service.ts:130-135 | seconds = floor((now − start)/1000), formatted by formatUptime |
| App.AppService.CheckHealth | src/app.service.ts:58-81 | 'ok' iff the probe succeeded, otherwise 'error' with the message; uptime = floor((now − start)/1000) |
| App.ProviderReport | src/app.service.ts:104-121 | enabled iff the client id is truthy; redirect URI hidden in production |
| App.AppService.GetConfigStatus | src/app.service.ts:86-124 | debug iff not production; in production CORS origins and every redirect URI are hidden |
| App.AppService.GetAppInfo | src/app.service.ts:42-53 | advertises kakao, naver, apple; version from the environment or '1.0.0' |
| App.AdvertisedAreRegistered | src/app.service.ts:49 | the advertised providers are exactly the registered ones |

## Left out

- HTTP transport: each call's outcome is a parameter (success data, error with a provider body, error without one). `JSON.stringify` of an error body is that body's text.
- Prisma persistence: the tables are in-memory sequences.
  - Transactions are atomic by construction.
  - Racing callbacks and other concurrency are not modelled.
  - Prisma's message texts are not modelled; a store error is its code.
- The Prisma schema is not part of this model. The unique constraints (user id, (provider, providerId), e-mail; credential (provider, userId); token id) and cascading deletes of a user's credentials and tokens are assumed.
- The provider enumeration's declaration is not part of this model. Its string values are taken to be the lower-case names.
- All cryptography: the ES256 signature of Apple's client secret, RS256 verification, the JWK→PEM conversion, and `JwtService.signAsync`/`verifyAsync`/`decode`. These are opaque functions.
- Randomness and time: `generateState` (`Math.random`), `uuidv4`, `Date.now` and the ISO timestamp are parameters.
- `getMetrics` memory and process figures: floating-point division and `Math.round` over process data. Only the uptime part is modelled.
- Controllers, DTOs, decorators, modules, `main.ts`, `prisma/seed.ts` and the configuration loaders (`process.env`, `Number()` coercion, class-validator). Configuration values are given directly, with simplified types.
- `encodeURIComponent`'s URIError on lone surrogates: Dafny characters are Unicode scalar values.
- `String(n)` for numbers whose rendering switches to exponent form (at or above 1e21): ids are printed as plain decimals.
- The `if (!profile.provider)` check of `validate`: the provider is a non-optional enumeration value, so that branch cannot be taken.
- The `Failed to upsert OAuth token` wrap in `upsertOAuthToken` (src/users/users.service.ts:86-88): the update and create calls are returned without being awaited, so their errors escape unwrapped. Only a failing read would reach the wrap: the awaited `findFirst` at :53, or a `data.provider.toString()` that throws. The model's store reads cannot fail, so the wrap is never taken.
- Users.UsersService.FindOrCreateByOAuth: src/users/users.service.ts:2-9 imports neither `ConflictException` nor `uuidv4`, yet the method uses them at :142, :151, :153, :171 and :177. As written the file would not compile. The model takes both imports as present.
- One clock reading per call: the callback and refresh flows take a single `nowMs`. In the source, Apple's client-secret `iat` (src/auth/strategies/apple.strategy.ts:200) and the stored token expiry (src/auth/auth.service.ts:81) each read `Date.now()` at their own moment, so they can differ by the time between the calls.
- Users.UsersService.FindById: the `include: { oauthCredentials: true }` of `findById` (src/users/users.service.ts:241-243) is not part of the returned value, because the model's `User` row carries no list of its credentials.
- Users.UsersService.FindOrCreateByOAuth: the created user is returned without the credentials its `include` (src/users/users.service.ts:166-168) attaches. On the existing-user path the result is `updateUserProfile`'s, with the same omission.
- Users.UsersService.UpdateUserProfile: the updated user is returned without the credentials its `include` (src/users/users.service.ts:226-228) attaches.
- `auth.guard.ts` calls `authService.validateToken`, which auth.service.ts does not define. The validator is a parameter. As written, src/auth/guards/auth.guard.ts:34 calls an undefined method, which throws a `TypeError` outside any `try` for every request that gets past the Bearer check. No such request is ever admitted; the model does not show this.
- SessionJwt.GenerateTokens: on a failure the contract says the error is one of the failed signings. Which one `Promise.all` reports depends on which promise settles first, a timing the model does not have.
- AuthService.CreateTokens: the same — a failure is one of the failed signings, for the same reason.
