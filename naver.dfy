/** src/auth/strategies/naver.strategy.ts: Naver Login over OAuth 2.0. */
module Naver {
  import opened Wrappers
  import opened JsText
  import opened Exceptions
  import opened UriEncoding
  import opened Profiles
  import opened StrategyBase

  const AUTHORIZE_URL := "https://nid.naver.com/oauth2.0/authorize"
  const TOKEN_URL := "https://nid.naver.com/oauth2.0/token"
  const ME_URL := "https://openapi.naver.com/v1/nid/me"
  const FORM_CONTENT_TYPE := "application/x-www-form-urlencoded;charset=utf-8"
  /** The `resultcode` of a successful profile call. */
  const RESULT_OK := "00"

  /** NAVER_CLIENT_ID, NAVER_CLIENT_SECRET and NAVER_REDIRECT_URI. */
  datatype Config = Config(clientId: string, clientSecret: string, redirectUri: string)

  datatype Net = Net(token: Transport<TokenResponse>, me: Transport<NaverProfile>)

  function AuthParams(cfg: Config, state: string): seq<(string, string)>
  {
    [("response_type", "code"), ("client_id", cfg.clientId), ("redirect_uri", cfg.redirectUri), ("state", state)]
  }

  /** `generateAuthUrl(state)`; `generated` is what `generateState()` returns. */
  function GenerateAuthUrl(cfg: Config, state: Option<string>, generated: string): string
  {
    AUTHORIZE_URL + "?" + EncodeParams(AuthParams(cfg, ChooseState(state, generated)))
  }

  /**
   * The URL is the authorize endpoint followed by a query that decodes to
   * response_type=code, client_id, redirect_uri and state, in that order;
   * a non-empty supplied state is carried verbatim.
   */
  lemma AuthUrlQuery(cfg: Config, state: Option<string>, generated: string)
    ensures var url := GenerateAuthUrl(cfg, state, generated);
      StartsWith(url, AUTHORIZE_URL + "?")
      && ParseQuery(Component, url[|AUTHORIZE_URL| + 1..]) == Some([
        ("response_type", "code"), ("client_id", cfg.clientId), ("redirect_uri", cfg.redirectUri),
        ("state", if Truthy(state) then state.value else generated)])
  {
    var query := EncodeParams(AuthParams(cfg, ChooseState(state, generated)));
    var url := AUTHORIZE_URL + "?" + query;
    assert url[..|AUTHORIZE_URL| + 1] == AUTHORIZE_URL + "?";
    assert url[|AUTHORIZE_URL| + 1..] == query;
    SerializeRoundTrip(Component, AuthParams(cfg, ChooseState(state, generated)));
  }

  function TokenParams(cfg: Config, code: string): seq<(string, string)>
  {
    [("grant_type", "authorization_code"), ("client_id", cfg.clientId), ("client_secret", cfg.clientSecret),
     ("redirect_uri", cfg.redirectUri), ("code", code)]
  }

  function RefreshParams(cfg: Config, refreshToken: string): seq<(string, string)>
  {
    [("grant_type", "refresh_token"), ("client_id", cfg.clientId), ("client_secret", cfg.clientSecret),
     ("refresh_token", refreshToken)]
  }

  function TokenRequest(cfg: Config, code: string): Request
  {
    Request(POST, TOKEN_URL, [("Content-Type", FORM_CONTENT_TYPE)], Some(EncodeParams(TokenParams(cfg, code))))
  }

  function RefreshRequest(cfg: Config, refreshToken: string): Request
  {
    Request(POST, TOKEN_URL, [("Content-Type", FORM_CONTENT_TYPE)], Some(EncodeParams(RefreshParams(cfg, refreshToken))))
  }

  /**
   * The token body decodes to the authorization-code grant with the redirect
   * URI and the code; the refresh body to the refresh-token grant without a
   * redirect URI.
   */
  lemma RequestBodies(cfg: Config, code: string, refreshToken: string)
    ensures ParseQuery(Component, TokenRequest(cfg, code).body.value) == Some([
      ("grant_type", "authorization_code"), ("client_id", cfg.clientId), ("client_secret", cfg.clientSecret),
      ("redirect_uri", cfg.redirectUri), ("code", code)])
    ensures ParseQuery(Component, RefreshRequest(cfg, refreshToken).body.value) == Some([
      ("grant_type", "refresh_token"), ("client_id", cfg.clientId), ("client_secret", cfg.clientSecret),
      ("refresh_token", refreshToken)])
  {
    SerializeRoundTrip(Component, TokenParams(cfg, code));
    SerializeRoundTrip(Component, RefreshParams(cfg, refreshToken));
  }

  /** `getTokens(code)`: the token response, or one fixed Unauthorized error. */
  function GetTokens(cfg: Config, net: Net, code: string): (r: Result<TokenResponse, Exception>)
    ensures r.Success? <==> net.token(TokenRequest(cfg, code)).Ok?
    ensures r.Success? ==> r.value == net.token(TokenRequest(cfg, code)).data
    ensures r.Failure? ==> r.error == Unauthorized("Failed to get Naver tokens")
  {
    match HttpRequest(net.token, TokenRequest(cfg, code))
    case Success(t) => Success(t)
    case Failure(_) => Failure(Unauthorized("Failed to get Naver tokens"))
  }

  /**
   * `refreshToken(refreshToken)`: a failure interpolates the HttpException
   * into the message, giving `HttpException: <its message>`.
   */
  function RefreshToken(cfg: Config, net: Net, refreshToken: string): (r: Result<TokenResponse, Exception>)
    ensures r.Success? <==> net.token(RefreshRequest(cfg, refreshToken)).Ok?
    ensures r.Success? ==> r.value == net.token(RefreshRequest(cfg, refreshToken)).data
    ensures r.Failure? ==> r.error.Unauthorized?
    ensures r.Failure? ==>
              r.error.message == "Failed to refresh Naver token: "
                                 + ErrorText(HttpRequest(net.token, RefreshRequest(cfg, refreshToken)).error)
  {
    match HttpRequest(net.token, RefreshRequest(cfg, refreshToken))
    case Success(t) => Success(t)
    case Failure(e) => Failure(Unauthorized("Failed to refresh Naver token: " + ErrorText(e)))
  }

  function ProfileRequest(accessToken: string): Request
  {
    Request(GET, ME_URL, BearerHeader(accessToken), None)
  }

  /** The strategy's mapping of the inner `response`: no nickname fallback. */
  function ProfileOf(envelope: NaverProfile): (p: OAuthProfile)
    ensures p.id == envelope.response.id && p.email == envelope.response.email
    ensures p.name == envelope.response.name && p.picture == envelope.response.profile_image
    ensures p.provider == NAVER && p.emailVerified == None && p.raw == Some(NaverRaw(envelope))
  {
    var r := envelope.response;
    OAuthProfile(r.id, r.email, r.name, r.profile_image, NAVER, None, Some(NaverRaw(envelope)))
  }

  /** With a non-empty name the strategy's mapping and the adapter's agree. */
  lemma ProfileOfAgreesWithAdapter(envelope: NaverProfile)
    requires Truthy(envelope.response.name)
    ensures ProfileOf(envelope) == FromNaver(envelope)
  {
  }

  /**
   * `getUserProfile(accessToken)`: a `resultcode` other than '00' throws
   * inside the try, so it ends in the same Unauthorized error as a failed call.
   */
  function GetUserProfile(net: Net, accessToken: string): (r: Result<OAuthProfile, Exception>)
    ensures var out := net.me(ProfileRequest(accessToken));
      r.Success? <==> out.Ok? && out.data.resultcode == RESULT_OK
    ensures r.Success? ==> r.value == ProfileOf(net.me(ProfileRequest(accessToken)).data)
    ensures r.Failure? ==> r.error == Unauthorized("Failed to get Naver user profile")
  {
    match HttpRequest(net.me, ProfileRequest(accessToken))
    case Success(envelope) =>
      if envelope.resultcode != RESULT_OK then Failure(Unauthorized("Failed to get Naver user profile"))
      else Success(ProfileOf(envelope))
    case Failure(_) => Failure(Unauthorized("Failed to get Naver user profile"))
  }

  /** `validateToken(accessToken)`: true iff the profile call succeeds with a non-empty id. */
  function ValidateToken(net: Net, accessToken: string): (ok: bool)
    ensures var out := net.me(ProfileRequest(accessToken));
      ok <==> out.Ok? && out.data.resultcode == RESULT_OK && out.data.response.id != ""
  {
    match GetUserProfile(net, accessToken)
    case Success(profile) => profile.id != ""
    case Failure(_) => false
  }
}
