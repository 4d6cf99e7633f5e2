/** src/auth/strategies/kakao.strategy.ts: Kakao Login over OAuth 2.0. */
module Kakao {
  import opened Wrappers
  import opened JsText
  import opened Exceptions
  import opened UriEncoding
  import opened Profiles
  import opened StrategyBase

  const AUTHORIZE_URL := "https://kauth.kakao.com/oauth/authorize"
  const TOKEN_URL := "https://kauth.kakao.com/oauth/token"
  const ME_URL := "https://kapi.kakao.com/v2/user/me"
  const TOKEN_INFO_URL := "https://kapi.kakao.com/v1/user/access_token_info"
  const FORM_CONTENT_TYPE := "application/x-www-form-urlencoded;charset=utf-8"

  /** KAKAO_CLIENT_ID, KAKAO_CLIENT_SECRET and KAKAO_REDIRECT_URI. */
  datatype Config = Config(clientId: string, clientSecret: string, redirectUri: string)

  /** The Kakao endpoints the strategy calls. */
  datatype Net = Net(
    token: Transport<TokenResponse>,
    me: Transport<KakaoProfile>,
    tokenInfo: Transport<()>)

  // ---------------------------------------------------------------------
  // Authorization request (section 4.1.1 of RFC 6749)

  function AuthParams(cfg: Config, state: string): seq<(string, string)>
  {
    [("client_id", cfg.clientId), ("redirect_uri", cfg.redirectUri), ("response_type", "code"), ("state", state)]
  }

  /** `generateAuthUrl(state)`; `generated` is what `generateState()` returns. */
  function GenerateAuthUrl(cfg: Config, state: Option<string>, generated: string): string
  {
    AUTHORIZE_URL + "?" + EncodeParams(AuthParams(cfg, ChooseState(state, generated)))
  }

  /**
   * The URL is the authorize endpoint followed by a query that decodes to
   * client_id, redirect_uri, response_type=code and state, in that order;
   * a non-empty supplied state is carried verbatim.
   */
  lemma AuthUrlQuery(cfg: Config, state: Option<string>, generated: string)
    ensures var url := GenerateAuthUrl(cfg, state, generated);
      StartsWith(url, AUTHORIZE_URL + "?")
      && ParseQuery(Component, url[|AUTHORIZE_URL| + 1..]) == Some([
        ("client_id", cfg.clientId), ("redirect_uri", cfg.redirectUri), ("response_type", "code"),
        ("state", if Truthy(state) then state.value else generated)])
  {
    var query := EncodeParams(AuthParams(cfg, ChooseState(state, generated)));
    var url := AUTHORIZE_URL + "?" + query;
    assert url[..|AUTHORIZE_URL| + 1] == AUTHORIZE_URL + "?";
    assert url[|AUTHORIZE_URL| + 1..] == query;
    SerializeRoundTrip(Component, AuthParams(cfg, ChooseState(state, generated)));
  }

  // ---------------------------------------------------------------------
  // Token and refresh requests (sections 4.1.3 and 6 of RFC 6749)

  function TokenParams(cfg: Config, code: string): seq<(string, string)>
  {
    [("grant_type", "authorization_code"), ("client_id", cfg.clientId), ("client_secret", cfg.clientSecret),
     ("redirect_uri", cfg.redirectUri), ("code", code)]
  }

  function RefreshParams(cfg: Config, refreshToken: string): seq<(string, string)>
  {
    [("grant_type", "refresh_token"), ("client_id", cfg.clientId), ("client_secret", cfg.clientSecret),
     ("refresh_token", refreshToken)]
  }

  function TokenRequest(cfg: Config, code: string): Request
  {
    Request(POST, TOKEN_URL, [("Content-Type", FORM_CONTENT_TYPE)], Some(EncodeParams(TokenParams(cfg, code))))
  }

  function RefreshRequest(cfg: Config, refreshToken: string): Request
  {
    Request(POST, TOKEN_URL, [("Content-Type", FORM_CONTENT_TYPE)], Some(EncodeParams(RefreshParams(cfg, refreshToken))))
  }

  /**
   * The token body decodes to the authorization-code grant with the client
   * secret, the redirect URI and the code; the refresh body to the
   * refresh-token grant with the client secret and no redirect URI. The
   * authorization URL does not depend on the secret.
   */
  lemma RequestBodies(cfg: Config, code: string, refreshToken: string, otherSecret: string)
    ensures ParseQuery(Component, TokenRequest(cfg, code).body.value) == Some([
      ("grant_type", "authorization_code"), ("client_id", cfg.clientId), ("client_secret", cfg.clientSecret),
      ("redirect_uri", cfg.redirectUri), ("code", code)])
    ensures ParseQuery(Component, RefreshRequest(cfg, refreshToken).body.value) == Some([
      ("grant_type", "refresh_token"), ("client_id", cfg.clientId), ("client_secret", cfg.clientSecret),
      ("refresh_token", refreshToken)])
    ensures forall state, generated ::
              GenerateAuthUrl(cfg.(clientSecret := otherSecret), state, generated) == GenerateAuthUrl(cfg, state, generated)
  {
    SerializeRoundTrip(Component, TokenParams(cfg, code));
    SerializeRoundTrip(Component, RefreshParams(cfg, refreshToken));
  }

  /** `getTokens(code)`: the token response, or one fixed Unauthorized error. */
  function GetTokens(cfg: Config, net: Net, code: string): (r: Result<TokenResponse, Exception>)
    ensures r.Success? <==> net.token(TokenRequest(cfg, code)).Ok?
    ensures r.Success? ==> r.value == net.token(TokenRequest(cfg, code)).data
    ensures r.Failure? ==> r.error == Unauthorized("Failed to get Kakao tokens")
  {
    match HttpRequest(net.token, TokenRequest(cfg, code))
    case Success(t) => Success(t)
    case Failure(_) => Failure(Unauthorized("Failed to get Kakao tokens"))
  }

  /** `refreshToken(refreshToken)`: the new token response, or one fixed Unauthorized error. */
  function RefreshToken(cfg: Config, net: Net, refreshToken: string): (r: Result<TokenResponse, Exception>)
    ensures r.Success? <==> net.token(RefreshRequest(cfg, refreshToken)).Ok?
    ensures r.Success? ==> r.value == net.token(RefreshRequest(cfg, refreshToken)).data
    ensures r.Failure? ==> r.error == Unauthorized("Failed to refresh Kakao token")
  {
    match HttpRequest(net.token, RefreshRequest(cfg, refreshToken))
    case Success(t) => Success(t)
    case Failure(_) => Failure(Unauthorized("Failed to refresh Kakao token"))
  }

  // ---------------------------------------------------------------------
  // Profile

  function ProfileRequest(accessToken: string): Request
  {
    Request(GET, ME_URL, BearerHeader(accessToken), None)
  }

  /**
   * The strategy's own mapping of `/v2/user/me`: unlike the adapter it has
   * no fallback to `properties`.
   */
  function ProfileOf(response: KakaoProfile): (p: OAuthProfile)
    ensures DecimalToInt(p.id) == Some(response.id)
    ensures p.email == AccountEmail(response) && p.name == AccountNickname(response)
    ensures p.picture == AccountImage(response)
    ensures p.provider == KAKAO && p.emailVerified == None && p.raw == Some(KakaoRaw(response))
  {
    IntDecimalRoundTrip(response.id);
    OAuthProfile(IntToDecimal(response.id), AccountEmail(response), AccountNickname(response),
                 AccountImage(response), KAKAO, None, Some(KakaoRaw(response)))
  }

  /**
   * Where the account profile has a non-empty nickname and image, the
   * strategy's mapping and the adapter's agree.
   */
  lemma ProfileOfAgreesWithAdapter(response: KakaoProfile)
    requires Truthy(AccountNickname(response)) && Truthy(AccountImage(response))
    ensures ProfileOf(response) == FromKakao(response)
  {
  }

  /** `getUserProfile(accessToken)` */
  function GetUserProfile(net: Net, accessToken: string): (r: Result<OAuthProfile, Exception>)
    ensures r.Success? <==> net.me(ProfileRequest(accessToken)).Ok?
    ensures r.Success? ==> r.value == ProfileOf(net.me(ProfileRequest(accessToken)).data)
    ensures r.Failure? ==> r.error == Unauthorized("Failed to get Kakao user profile")
  {
    match HttpRequest(net.me, ProfileRequest(accessToken))
    case Success(response) => Success(ProfileOf(response))
    case Failure(_) => Failure(Unauthorized("Failed to get Kakao user profile"))
  }

  /** `validateToken(accessToken)`: true iff the token-info call succeeds; it never throws. */
  function ValidateToken(net: Net, accessToken: string): (ok: bool)
    ensures ok <==> net.tokenInfo(Request(GET, TOKEN_INFO_URL, BearerHeader(accessToken), None)).Ok?
  {
    HttpRequest(net.tokenInfo, Request(GET, TOKEN_INFO_URL, BearerHeader(accessToken), None)).Success?
  }
}
