/** src/auth/strategies/apple.strategy.ts: Sign in with Apple. */
module Apple {
  import opened Wrappers
  import opened JsText
  import opened Exceptions
  import opened UriEncoding
  import opened Profiles
  import opened StrategyBase

  const AUTHORIZE_URL := "https://appleid.apple.com/auth/authorize"
  const TOKEN_URL := "https://appleid.apple.com/auth/token"
  const KEYS_URL := "https://appleid.apple.com/auth/keys"
  /** Both the audience of the client secret and the issuer of Apple's ID tokens. */
  const APPLE_ISSUER := "https://appleid.apple.com"
  const FORM_CONTENT_TYPE := "application/x-www-form-urlencoded"
  /** Lifetime of a client secret, in seconds. */
  const CLIENT_SECRET_LIFETIME := 3600

  /** auth.oauth.apple.{clientId, teamId, keyId, privateKey, redirectUri}. */
  datatype Config = Config(clientId: string, teamId: string, keyId: string, privateKey: string, redirectUri: string)

  /** The claim set of the client secret (section 4.1 of RFC 7519). */
  datatype ClientSecretClaims = ClientSecretClaims(iss: string, iat: int, exp: int, aud: string, sub: string)

  /** `jwt.sign(claims, privateKey, { algorithm, header: { alg, kid } })`. */
  datatype SignRequest = SignRequest(claims: ClientSecretClaims, privateKey: string, algorithm: string, kid: string)

  /** The `kid` of a decoded token header; absent is `None`. */
  datatype JwtHeader = JwtHeader(kid: Option<string>)

  /** One key of Apple's JSON Web Key Set; `material` stands for the key parameters. */
  datatype Jwk = Jwk(kid: Option<string>, material: string)

  /** The `/auth/keys` response; `keys` may be missing. */
  datatype KeySet = KeySet(keys: Option<seq<Jwk>>)

  /** `jwt.verify(token, publicKey(key), { algorithms, issuer, audience })`. */
  datatype VerifyRequest = VerifyRequest(token: string, key: Jwk, algorithms: seq<string>, issuer: string, audience: string)

  /**
   * The token library, as functions: `sign` fails with a message, `decode`
   * is `jwt.decode` (None for null), `decodeHeader` the header of
   * `jwt.decode(token, { complete: true })`, and `verify` is true when
   * neither the key conversion nor `jwt.verify` throws.
   */
  datatype Crypto = Crypto(
    sign: SignRequest -> Result<string, string>,
    decode: string -> Option<AppleProfile>,
    decodeHeader: string -> Option<JwtHeader>,
    verify: VerifyRequest -> bool)

  datatype Net = Net(token: Transport<TokenResponse>, keys: Transport<KeySet>)

  // ---------------------------------------------------------------------
  // Authorization request (form-urlencoded)

  function AuthParams(cfg: Config, state: string): seq<(string, string)>
  {
    [("response_type", "code"), ("client_id", cfg.clientId), ("redirect_uri", cfg.redirectUri),
     ("scope", "name email"), ("response_mode", "form_post"), ("state", state)]
  }

  /** `generateAuthUrl(state)`; `generated` is what `generateState()` returns. */
  function GenerateAuthUrl(cfg: Config, state: Option<string>, generated: string): string
  {
    AUTHORIZE_URL + "?" + FormSerialize(AuthParams(cfg, ChooseState(state, generated)))
  }

  /**
   * The URL is the authorize endpoint followed by a form-urlencoded query
   * that decodes to response_type=code, client_id, redirect_uri,
   * scope='name email', response_mode=form_post and state, in that order.
   */
  lemma AuthUrlQuery(cfg: Config, state: Option<string>, generated: string)
    ensures var url := GenerateAuthUrl(cfg, state, generated);
      StartsWith(url, AUTHORIZE_URL + "?")
      && ParseQuery(Form, url[|AUTHORIZE_URL| + 1..]) == Some([
        ("response_type", "code"), ("client_id", cfg.clientId), ("redirect_uri", cfg.redirectUri),
        ("scope", "name email"), ("response_mode", "form_post"),
        ("state", if Truthy(state) then state.value else generated)])
  {
    var query := FormSerialize(AuthParams(cfg, ChooseState(state, generated)));
    var url := AUTHORIZE_URL + "?" + query;
    assert url[..|AUTHORIZE_URL| + 1] == AUTHORIZE_URL + "?";
    assert url[|AUTHORIZE_URL| + 1..] == query;
    SerializeRoundTrip(Form, AuthParams(cfg, ChooseState(state, generated)));
  }

  /** The scope travels as `scope=name+email`: the space becomes `+`. */
  lemma ScopeIsPlusJoined()
    ensures Encode(Form, "name email") == "name+email"
  {
    var name, email := "name", "email";
    assert forall k :: 0 <= k < |name| ==> IsAsciiAlphanumeric(name[k]);
    assert forall k :: 0 <= k < |email| ==> IsAsciiAlphanumeric(email[k]);
    FormJoinOfSafeWords(name, email);
    assert name + " " + email == "name email";
    assert name + "+" + email == "name+email";
  }

  // ---------------------------------------------------------------------
  // Client secret

  /** The claims `generateClientSecret` signs at clock reading `nowMs`. */
  function ClientSecretClaimsAt(cfg: Config, nowMs: int): (c: ClientSecretClaims)
    ensures c.iss == cfg.teamId && c.sub == cfg.clientId && c.aud == APPLE_ISSUER
    ensures c.iat * 1000 <= nowMs < (c.iat + 1) * 1000
    ensures c.exp == c.iat + CLIENT_SECRET_LIFETIME
  {
    var now := nowMs / 1000;
    ClientSecretClaims(cfg.teamId, now, now + CLIENT_SECRET_LIFETIME, APPLE_ISSUER, cfg.clientId)
  }

  /** `generateClientSecret()`: an ES256 signature keyed by `keyId`. */
  function GenerateClientSecret(cfg: Config, crypto: Crypto, nowMs: int): Result<string, string>
  {
    crypto.sign(SignRequest(ClientSecretClaimsAt(cfg, nowMs), cfg.privateKey, "ES256", cfg.keyId))
  }

  // ---------------------------------------------------------------------
  // Token and refresh requests

  function TokenParams(cfg: Config, code: string, clientSecret: string): seq<(string, string)>
  {
    [("grant_type", "authorization_code"), ("code", code), ("client_id", cfg.clientId),
     ("client_secret", clientSecret), ("redirect_uri", cfg.redirectUri)]
  }

  function RefreshParams(cfg: Config, refreshToken: string, clientSecret: string): seq<(string, string)>
  {
    [("grant_type", "refresh_token"), ("refresh_token", refreshToken), ("client_id", cfg.clientId),
     ("client_secret", clientSecret)]
  }

  function TokenRequest(cfg: Config, code: string, clientSecret: string): Request
  {
    Request(POST, TOKEN_URL, [("Content-Type", FORM_CONTENT_TYPE)], Some(FormSerialize(TokenParams(cfg, code, clientSecret))))
  }

  function RefreshRequest(cfg: Config, refreshToken: string, clientSecret: string): Request
  {
    Request(POST, TOKEN_URL, [("Content-Type", FORM_CONTENT_TYPE)],
            Some(FormSerialize(RefreshParams(cfg, refreshToken, clientSecret))))
  }

  /**
   * The token body decodes to the authorization-code grant with the code,
   * the client secret and the redirect URI; the refresh body to the
   * refresh-token grant with the client id and secret and no redirect URI.
   */
  lemma RequestBodies(cfg: Config, code: string, refreshToken: string, clientSecret: string)
    ensures ParseQuery(Form, TokenRequest(cfg, code, clientSecret).body.value) == Some([
      ("grant_type", "authorization_code"), ("code", code), ("client_id", cfg.clientId),
      ("client_secret", clientSecret), ("redirect_uri", cfg.redirectUri)])
    ensures ParseQuery(Form, RefreshRequest(cfg, refreshToken, clientSecret).body.value) == Some([
      ("grant_type", "refresh_token"), ("refresh_token", refreshToken), ("client_id", cfg.clientId),
      ("client_secret", clientSecret)])
  {
    SerializeRoundTrip(Form, TokenParams(cfg, code, clientSecret));
    SerializeRoundTrip(Form, RefreshParams(cfg, refreshToken, clientSecret));
  }

  const TOKENS_FAILED := "Failed to get Apple tokens: "
  const REFRESH_FAILED := "Failed to refresh Apple token: "

  /**
   * The HTTP call of `getTokens` once the client secret is signed: the
   * response data, or Unauthorized with the HTTP error's message.
   */
  function PostTokenRequest(cfg: Config, net: Net, code: string, clientSecret: string): (r: Result<TokenResponse, Exception>)
    ensures r.Success? <==> net.token(TokenRequest(cfg, code, clientSecret)).Ok?
    ensures r.Success? ==> r.value == net.token(TokenRequest(cfg, code, clientSecret)).data
    ensures r.Failure? ==>
              r.error == Unauthorized(TOKENS_FAILED + HttpRequest(net.token, TokenRequest(cfg, code, clientSecret)).error.message)
  {
    match HttpRequest(net.token, TokenRequest(cfg, code, clientSecret))
    case Success(t) => Success(t)
    case Failure(e) => Failure(Unauthorized(TOKENS_FAILED + e.message))
  }

  /**
   * `getTokens(code)` at clock reading `nowMs`: a client secret signed for
   * this request goes into the body; a signing failure becomes
   * Unauthorized with the signer's message, and with a secret the outcome
   * is that of the HTTP call.
   */
  function GetTokens(cfg: Config, net: Net, crypto: Crypto, nowMs: int, code: string): (r: Result<TokenResponse, Exception>)
    ensures var secret := GenerateClientSecret(cfg, crypto, nowMs);
      && (secret.Failure? ==> r == Failure(Unauthorized(TOKENS_FAILED + secret.error)))
      && (secret.Success? ==> r == PostTokenRequest(cfg, net, code, secret.value))
  {
    match GenerateClientSecret(cfg, crypto, nowMs)
    case Failure(msg) => Failure(Unauthorized(TOKENS_FAILED + msg))
    case Success(clientSecret) => PostTokenRequest(cfg, net, code, clientSecret)
  }

  /** The HTTP call of `refreshToken` once the client secret is signed. */
  function PostRefreshRequest(cfg: Config, net: Net, refreshToken: string, clientSecret: string): (r: Result<TokenResponse, Exception>)
    ensures r.Success? <==> net.token(RefreshRequest(cfg, refreshToken, clientSecret)).Ok?
    ensures r.Success? ==> r.value == net.token(RefreshRequest(cfg, refreshToken, clientSecret)).data
    ensures r.Failure? ==>
              r.error == Unauthorized(REFRESH_FAILED + HttpRequest(net.token, RefreshRequest(cfg, refreshToken, clientSecret)).error.message)
  {
    match HttpRequest(net.token, RefreshRequest(cfg, refreshToken, clientSecret))
    case Success(t) => Success(t)
    case Failure(e) => Failure(Unauthorized(REFRESH_FAILED + e.message))
  }

  /** `refreshToken(refreshToken)` at clock reading `nowMs`, with a fresh client secret. */
  function RefreshToken(cfg: Config, net: Net, crypto: Crypto, nowMs: int, refreshToken: string): (r: Result<TokenResponse, Exception>)
    ensures var secret := GenerateClientSecret(cfg, crypto, nowMs);
      && (secret.Failure? ==> r == Failure(Unauthorized(REFRESH_FAILED + secret.error)))
      && (secret.Success? ==> r == PostRefreshRequest(cfg, net, refreshToken, secret.value))
  {
    match GenerateClientSecret(cfg, crypto, nowMs)
    case Failure(msg) => Failure(Unauthorized(REFRESH_FAILED + msg))
    case Success(clientSecret) => PostRefreshRequest(cfg, net, refreshToken, clientSecret)
  }

  // ---------------------------------------------------------------------
  // Profile

  /**
   * The strategy's mapping of decoded ID-token claims: a present name object
   * always gives the trimmed join, which may be the empty string.
   */
  function ProfileOf(claims: AppleProfile): (p: OAuthProfile)
    ensures p.id == claims.sub && p.email == claims.email && p.picture == None
    ensures p.name.Some? <==> claims.name.Some?
    ensures claims.name.Some? ==> p.name.value == JoinedName(claims.name.value)
    ensures p.provider == APPLE && p.emailVerified == claims.email_verified && p.raw == Some(AppleRaw(claims))
  {
    var name := match claims.name
      case None => None
      case Some(n) => Some(JoinedName(n));
    OAuthProfile(claims.sub, claims.email, name, None, APPLE, claims.email_verified, Some(AppleRaw(claims)))
  }

  /**
   * The strategy's mapping differs from the adapter's only in carrying
   * `email_verified` and in keeping an empty joined name as `''` where the
   * adapter drops it.
   */
  lemma ProfileOfVersusAdapter(claims: AppleProfile)
    ensures var s, a := ProfileOf(claims), FromApple(claims);
      s.(emailVerified := None, name := a.name) == a
      && (s.name != a.name <==> s.name == Some(""))
  {
  }

  /** `getUserProfile(idToken)`: null from the decoder is the only failure. */
  function GetUserProfile(crypto: Crypto, idToken: string): (r: Result<OAuthProfile, Exception>)
    ensures r.Success? <==> crypto.decode(idToken).Some?
    ensures r.Success? ==> r.value == ProfileOf(crypto.decode(idToken).value)
    ensures r.Failure? ==> r.error == Unauthorized("Failed to get Apple user profile: Failed to decode ID token")
  {
    match crypto.decode(idToken)
    case None => Failure(Unauthorized("Failed to get Apple user profile: Failed to decode ID token"))
    case Some(claims) => Success(ProfileOf(claims))
  }

  // ---------------------------------------------------------------------
  // ID-token validation

  /** `keys.find(k => k.kid === kid)`: the index of the first key with that kid, or |keys|. */
  function FindKey(keys: seq<Jwk>, kid: Option<string>): (i: nat)
    ensures i <= |keys|
    ensures i < |keys| ==> keys[i].kid == kid
    ensures forall j :: 0 <= j < i ==> keys[j].kid != kid
  {
    if keys == [] then 0
    else if keys[0].kid == kid then 0
    else 1 + FindKey(keys[1..], kid)
  }

  const KeysRequest := Request(GET, KEYS_URL, [], None)

  /** The verification `validateToken` asks for: RS256, Apple's issuer, this client as audience. */
  function VerifyWith(cfg: Config, token: string, key: Jwk): VerifyRequest
  {
    VerifyRequest(token, key, ["RS256"], APPLE_ISSUER, cfg.clientId)
  }

  /**
   * `validateToken(token)`. It never throws: an undecodable token, a failed
   * key fetch, a key set without `keys`, no key with the header's kid, or a
   * failed verification all give false.
   */
  function ValidateToken(cfg: Config, net: Net, crypto: Crypto, token: string): (ok: bool)
    ensures crypto.decodeHeader(token).None? ==> !ok
    ensures !net.keys(KeysRequest).Ok? || net.keys(KeysRequest).data.keys.None? ==> !ok
    ensures ok ==>
              && crypto.decodeHeader(token).Some?
              && net.keys(KeysRequest).Ok?
              && net.keys(KeysRequest).data.keys.Some?
              && exists k :: k in net.keys(KeysRequest).data.keys.value
                   && k.kid == crypto.decodeHeader(token).value.kid && crypto.verify(VerifyWith(cfg, token, k))
    ensures crypto.decodeHeader(token).Some? && net.keys(KeysRequest).Ok? && net.keys(KeysRequest).data.keys.Some? ==>
      var keys := net.keys(KeysRequest).data.keys.value;
      (forall k :: k in keys ==> k.kid != crypto.decodeHeader(token).value.kid) ==> !ok
    ensures ok <==>
      && crypto.decodeHeader(token).Some?
      && net.keys(KeysRequest).Ok?
      && net.keys(KeysRequest).data.keys.Some?
      && var keys := net.keys(KeysRequest).data.keys.value;
         var i := FindKey(keys, crypto.decodeHeader(token).value.kid);
         i < |keys| && crypto.verify(VerifyWith(cfg, token, keys[i]))
  {
    match crypto.decodeHeader(token)
    case None => false
    case Some(header) =>
      match HttpRequest(net.keys, KeysRequest)
      case Failure(_) => false
      case Success(keySet) =>
        match keySet.keys
        case None => false
        case Some(keys) =>
          var i := FindKey(keys, header.kid);
          if i == |keys| then false
          else crypto.verify(VerifyWith(cfg, token, keys[i]))
  }

  /**
   * The first key carrying the header's kid decides: the token is valid
   * exactly when that key verifies it, whatever later keys with the same
   * kid would say.
   */
  lemma FirstMatchingKeyDecides(cfg: Config, net: Net, crypto: Crypto, token: string, i: nat)
    requires crypto.decodeHeader(token).Some? && net.keys(KeysRequest).Ok? && net.keys(KeysRequest).data.keys.Some?
    requires var keys := net.keys(KeysRequest).data.keys.value;
      && i < |keys| && keys[i].kid == crypto.decodeHeader(token).value.kid
      && forall j :: 0 <= j < i ==> keys[j].kid != crypto.decodeHeader(token).value.kid
    ensures ValidateToken(cfg, net, crypto, token) <==> crypto.verify(VerifyWith(cfg, token, net.keys(KeysRequest).data.keys.value[i]))
  {
  }
}
