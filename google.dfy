/**
 * src/auth/strategies/google.strategy.ts: Google OAuth 2.0 with OpenID
 * Connect userinfo. The strategy exists but the orchestrator does not
 * register it.
 */
module Google {
  import opened Wrappers
  import opened JsText
  import opened Exceptions
  import opened UriEncoding
  import opened Profiles
  import opened StrategyBase

  const AUTHORIZE_URL := "https://accounts.google.com/o/oauth2/v2/auth"
  const TOKEN_URL := "https://oauth2.googleapis.com/token"
  const USERINFO_URL := "https://www.googleapis.com/oauth2/v3/userinfo"
  const TOKEN_INFO_URL := "https://oauth2.googleapis.com/tokeninfo"
  const FORM_CONTENT_TYPE := "application/x-www-form-urlencoded"

  /** auth.oauth.google.{clientId, clientSecret, redirectUri}. */
  datatype Config = Config(clientId: string, clientSecret: string, redirectUri: string)

  datatype Net = Net(token: Transport<TokenResponse>, userinfo: Transport<GoogleProfile>, tokenInfo: Transport<()>)

  function AuthParams(cfg: Config, state: string): seq<(string, string)>
  {
    [("client_id", cfg.clientId), ("redirect_uri", cfg.redirectUri), ("response_type", "code"),
     ("scope", "openid email profile"), ("access_type", "offline"), ("state", state)]
  }

  /** `generateAuthUrl(state)`; `generated` is what `generateState()` returns. */
  function GenerateAuthUrl(cfg: Config, state: Option<string>, generated: string): string
  {
    AUTHORIZE_URL + "?" + FormSerialize(AuthParams(cfg, ChooseState(state, generated)))
  }

  /**
   * The URL is the authorize endpoint followed by a form-urlencoded query
   * that decodes to client_id, redirect_uri, response_type=code,
   * scope='openid email profile', access_type=offline and state, in order.
   */
  lemma AuthUrlQuery(cfg: Config, state: Option<string>, generated: string)
    ensures var url := GenerateAuthUrl(cfg, state, generated);
      StartsWith(url, AUTHORIZE_URL + "?")
      && ParseQuery(Form, url[|AUTHORIZE_URL| + 1..]) == Some([
        ("client_id", cfg.clientId), ("redirect_uri", cfg.redirectUri), ("response_type", "code"),
        ("scope", "openid email profile"), ("access_type", "offline"),
        ("state", if Truthy(state) then state.value else generated)])
  {
    var query := FormSerialize(AuthParams(cfg, ChooseState(state, generated)));
    var url := AUTHORIZE_URL + "?" + query;
    assert url[..|AUTHORIZE_URL| + 1] == AUTHORIZE_URL + "?";
    assert url[|AUTHORIZE_URL| + 1..] == query;
    SerializeRoundTrip(Form, AuthParams(cfg, ChooseState(state, generated)));
  }

  function TokenParams(cfg: Config, code: string): seq<(string, string)>
  {
    [("code", code), ("client_id", cfg.clientId), ("client_secret", cfg.clientSecret),
     ("redirect_uri", cfg.redirectUri), ("grant_type", "authorization_code")]
  }

  function RefreshParams(cfg: Config, refreshToken: string): seq<(string, string)>
  {
    [("client_id", cfg.clientId), ("client_secret", cfg.clientSecret), ("refresh_token", refreshToken),
     ("grant_type", "refresh_token")]
  }

  function TokenRequest(cfg: Config, code: string): Request
  {
    Request(POST, TOKEN_URL, [("Content-Type", FORM_CONTENT_TYPE)], Some(FormSerialize(TokenParams(cfg, code))))
  }

  function RefreshRequest(cfg: Config, refreshToken: string): Request
  {
    Request(POST, TOKEN_URL, [("Content-Type", FORM_CONTENT_TYPE)], Some(FormSerialize(RefreshParams(cfg, refreshToken))))
  }

  /**
   * The token body decodes to the authorization-code grant with code, client
   * id and secret and redirect URI; the refresh body to the refresh-token
   * grant without a redirect URI.
   */
  lemma RequestBodies(cfg: Config, code: string, refreshToken: string)
    ensures ParseQuery(Form, TokenRequest(cfg, code).body.value) == Some([
      ("code", code), ("client_id", cfg.clientId), ("client_secret", cfg.clientSecret),
      ("redirect_uri", cfg.redirectUri), ("grant_type", "authorization_code")])
    ensures ParseQuery(Form, RefreshRequest(cfg, refreshToken).body.value) == Some([
      ("client_id", cfg.clientId), ("client_secret", cfg.clientSecret), ("refresh_token", refreshToken),
      ("grant_type", "refresh_token")])
  {
    SerializeRoundTrip(Form, TokenParams(cfg, code));
    SerializeRoundTrip(Form, RefreshParams(cfg, refreshToken));
  }

  /** `getTokens(code)`: a failure becomes Unauthorized carrying the HTTP error's message. */
  function GetTokens(cfg: Config, net: Net, code: string): (r: Result<TokenResponse, Exception>)
    ensures r.Success? <==> net.token(TokenRequest(cfg, code)).Ok?
    ensures r.Success? ==> r.value == net.token(TokenRequest(cfg, code)).data
    ensures r.Failure? ==>
              r.error == Unauthorized("Failed to get Google tokens: "
                                      + HttpRequest(net.token, TokenRequest(cfg, code)).error.message)
  {
    match HttpRequest(net.token, TokenRequest(cfg, code))
    case Success(t) => Success(t)
    case Failure(e) => Failure(Unauthorized("Failed to get Google tokens: " + e.message))
  }

  /** `refreshToken(refreshToken)`: a failure becomes Unauthorized carrying the HTTP error's message. */
  function RefreshToken(cfg: Config, net: Net, refreshToken: string): (r: Result<TokenResponse, Exception>)
    ensures r.Success? <==> net.token(RefreshRequest(cfg, refreshToken)).Ok?
    ensures r.Success? ==> r.value == net.token(RefreshRequest(cfg, refreshToken)).data
    ensures r.Failure? ==>
              r.error == Unauthorized("Failed to refresh Google token: "
                                      + HttpRequest(net.token, RefreshRequest(cfg, refreshToken)).error.message)
  {
    match HttpRequest(net.token, RefreshRequest(cfg, refreshToken))
    case Success(t) => Success(t)
    case Failure(e) => Failure(Unauthorized("Failed to refresh Google token: " + e.message))
  }

  function ProfileRequest(accessToken: string): Request
  {
    Request(GET, USERINFO_URL, BearerHeader(accessToken), None)
  }

  /** The userinfo mapping: id is the `sub` claim. */
  function ProfileOf(info: GoogleProfile): (p: OAuthProfile)
    ensures p.id == info.sub && p.email == info.email && p.name == info.name && p.picture == info.picture
    ensures p.provider == GOOGLE && p.emailVerified == None && p.raw == Some(GoogleRaw(info))
  {
    OAuthProfile(info.sub, info.email, info.name, info.picture, GOOGLE, None, Some(GoogleRaw(info)))
  }

  /** `getUserProfile(accessToken)` */
  function GetUserProfile(net: Net, accessToken: string): (r: Result<OAuthProfile, Exception>)
    ensures r.Success? <==> net.userinfo(ProfileRequest(accessToken)).Ok?
    ensures r.Success? ==> r.value == ProfileOf(net.userinfo(ProfileRequest(accessToken)).data)
    ensures r.Failure? ==> r.error == Unauthorized("Failed to get Google user profile")
  {
    match HttpRequest(net.userinfo, ProfileRequest(accessToken))
    case Success(info) => Success(ProfileOf(info))
    case Failure(_) => Failure(Unauthorized("Failed to get Google user profile"))
  }

  /** The tokeninfo request: the access token is appended to the URL without encoding. */
  function TokenInfoRequest(accessToken: string): Request
  {
    Request(GET, TOKEN_INFO_URL + "?access_token=" + accessToken, [], None)
  }

  /** `validateToken(accessToken)`: true iff the tokeninfo call succeeds; it never throws. */
  function ValidateToken(net: Net, accessToken: string): (ok: bool)
    ensures ok <==> net.tokenInfo(TokenInfoRequest(accessToken)).Ok?
  {
    HttpRequest(net.tokenInfo, TokenInfoRequest(accessToken)).Success?
  }
}
