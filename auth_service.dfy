/**
 * src/auth/auth.service.ts: the orchestration of a login. The service
 * resolves a provider's strategy, runs the callback and refresh flows
 * against its collaborators and issues the session-token pair.
 *
 * The collaborators are parameters (`Env`): the strategies, the users
 * service as this file calls it (a three-argument token upsert, a user
 * lookup that includes the provider's token rows), the JWT library and the
 * settings. Every flow returns its result together with the calls it made
 * in order, so the step order and the point where a flow stops are part of
 * what is stated.
 */
module AuthService {
  import opened Wrappers
  import opened JsText
  import opened Exceptions
  import opened Profiles
  import opened StrategyBase
  import opened SessionJwt
  import opened Strategies
  import Kakao
  import Naver
  import Apple

  /** The registered strategies: Kakao, Naver and Apple (Google has none). */
  datatype Registry = Registry(
    kakao: Kakao.Config, kakaoNet: Kakao.Net,
    naver: Naver.Config, naverNet: Naver.Net,
    apple: Apple.Config, appleNet: Apple.Net, crypto: Apple.Crypto)

  /** A user as the flows see it. */
  datatype UserRecord = UserRecord(id: string, email: Option<string>)

  /** A stored provider token row as the lookup includes it. */
  datatype StoredToken = StoredToken(accessToken: string, refreshToken: Option<string>)

  /** `prisma.user.findUnique({ where: { id }, include: { oauthTokens: { where: { provider } } } })` */
  datatype LoadedUser = LoadedUser(user: UserRecord, tokens: seq<StoredToken>)

  /** The third argument of `upsertOAuthToken(userId, provider, data)`; `expiresAtMs` in milliseconds. */
  datatype TokenWrite = TokenWrite(accessToken: string, refreshToken: Option<string>, expiresAtMs: int, scope: Option<string>)

  /** The users service as this file calls it. */
  datatype UserStore = UserStore(
    findOrCreate: (string, OAuthProfile) -> Result<UserRecord, Exception>,
    upsert: (string, string, TokenWrite) -> Result<(), Exception>,
    load: (string, string) -> Option<LoadedUser>)

  /** The `auth.jwt.accessExpiration` / `auth.jwt.refreshExpiration` settings (None when unset). */
  datatype SpanSettings = SpanSettings(accessExpiration: Option<string>, refreshExpiration: Option<string>)

  datatype Env = Env(registry: Registry, users: UserStore, jwt: JwtLib, settings: SpanSettings)

  /** The session-token response. `expires_in` is None where `parseInt` gives NaN. */
  datatype SessionTokens = SessionTokens(access_token: string, refresh_token: string, expires_in: Option<int>, token_type: string)

  /** A collaborator call, in the order a flow makes them. */
  datatype Call =
    | ExchangeCode(code: string)
    | FetchProfile(accessToken: string)
    | FindOrCreate(provider: string, profile: OAuthProfile)
    | StoreTokens(userId: string, provider: string, write: TokenWrite)
    | Sign(request: SignRequest)
    | Verify(token: string)
    | LoadUser(id: string, provider: string)
    | ProviderRefresh(refreshToken: string)

  datatype Outcome<T> = Outcome(result: Result<T, Exception>, calls: seq<Call>)

  const CALLBACK_FAILED := Unauthorized("OAuth callback processing failed.")
  const REFRESH_FAILED := Unauthorized("Token refresh failed.")
  const USER_INFO_FAILED := Unauthorized("Failed to fetch user info.")
  const AUTH_URL_FAILED := BadRequest("Failed to generate auth URL.")

  // ---------------------------------------------------------------------
  // Registry

  /** The providers the registry holds. */
  predicate Registered(provider: string) {
    provider == ProviderName(KAKAO) || provider == ProviderName(NAVER) || provider == ProviderName(APPLE)
  }

  /**
   * `getStrategy(provider)`: the registered strategy, or BadRequest naming
   * the provider. Apple's strategy signs its client secret at `nowMs`.
   */
  function GetStrategy(reg: Registry, provider: string, nowMs: int): (r: Result<Strategy, Exception>)
    ensures r.Success? <==> Registered(provider)
    ensures r.Success? ==> ProviderName(r.value.ProviderOf()) == provider && !r.value.GoogleStrategy?
    ensures r.Failure? ==> r.error == BadRequest("Unsupported provider: " + provider)
  {
    if provider == ProviderName(KAKAO) then Success(KakaoStrategy(reg.kakao, reg.kakaoNet))
    else if provider == ProviderName(NAVER) then Success(NaverStrategy(reg.naver, reg.naverNet))
    else if provider == ProviderName(APPLE) then Success(AppleStrategy(reg.apple, reg.appleNet, reg.crypto, nowMs))
    else Failure(BadRequest("Unsupported provider: " + provider))
  }

  /** Google has a strategy but is not registered. */
  lemma GoogleUnregistered(reg: Registry, nowMs: int)
    ensures GetStrategy(reg, ProviderName(GOOGLE), nowMs) == Failure(BadRequest("Unsupported provider: " + "google"))
    ensures forall p: Provider :: GetStrategy(reg, ProviderName(p), nowMs).Success? <==> p != GOOGLE
  {
    assert ProviderName(GOOGLE) == "google";
    forall p: Provider ensures GetStrategy(reg, ProviderName(p), nowMs).Success? <==> p != GOOGLE {
      assert ProviderName(GOOGLE)[0] == 'g';
      assert ProviderName(KAKAO)[0] == 'k' && ProviderName(NAVER)[0] == 'n' && ProviderName(APPLE)[0] == 'a';
    }
  }

  /** `generateAuthUrl(provider, state)`: the strategy's URL, or one BadRequest for any failure. */
  function GenerateAuthUrl(reg: Registry, provider: string, state: Option<string>, generated: string, nowMs: int): (r: Result<string, Exception>)
    ensures r.Success? <==> Registered(provider)
    ensures r.Success? ==> r.value == GetStrategy(reg, provider, nowMs).value.GenerateAuthUrl(state, generated)
    ensures r.Failure? ==> r.error == AUTH_URL_FAILED
  {
    match GetStrategy(reg, provider, nowMs)
    case Success(s) => Success(s.GenerateAuthUrl(state, generated))
    case Failure(_) => Failure(AUTH_URL_FAILED)
  }

  // ---------------------------------------------------------------------
  // Session tokens

  /** `configService.get(key, fallback)`: the setting when it is set, even if empty. */
  function Setting(value: Option<string>, fallback: string): (r: string)
    ensures value.Some? ==> r == value.value
    ensures value.None? ==> r == fallback
  {
    if value.Some? then value.value else fallback
  }

  function SessionClaims(user: UserRecord, provider: string, kind: TokenKind): Claims
  {
    Claims(user.id, user.email, provider, kind)
  }

  function AccessSign(settings: SpanSettings, user: UserRecord, provider: string): SignRequest
  {
    SignRequest(SessionClaims(user, provider, Access), Span(Setting(settings.accessExpiration, "15m")))
  }

  function RefreshSign(settings: SpanSettings, user: UserRecord, provider: string): SignRequest
  {
    SignRequest(SessionClaims(user, provider, Refresh), Span(Setting(settings.refreshExpiration, "7d")))
  }

  /**
   * `createTokens(user, provider)`: both payloads are signed together; the
   * response carries both tokens, `token_type` "Bearer" and
   * `expires_in = parseInt(get(accessExpiration, "900"))`, the default
   * standing in only for an unset setting.
   */
  function CreateTokens(settings: SpanSettings, jwt: JwtLib, user: UserRecord, provider: string): (o: Outcome<SessionTokens>)
    ensures o.calls == [Sign(AccessSign(settings, user, provider)), Sign(RefreshSign(settings, user, provider))]
    ensures var a, f := jwt.sign(AccessSign(settings, user, provider)), jwt.sign(RefreshSign(settings, user, provider));
      && (o.result.Success? <==> a.Success? && f.Success?)
      && (o.result.Success? ==>
            o.result.value == SessionTokens(a.value, f.value, ParseInt(Setting(settings.accessExpiration, "900")), "Bearer"))
      && (o.result.Failure? ==> (a.Failure? && o.result.error == a.error) || (f.Failure? && o.result.error == f.error))
  {
    var access, refresh := AccessSign(settings, user, provider), RefreshSign(settings, user, provider);
    var a, f := jwt.sign(access), jwt.sign(refresh);
    var calls := [Sign(access), Sign(refresh)];
    if a.Failure? then Outcome(Failure(a.error), calls)
    else if f.Failure? then Outcome(Failure(f.error), calls)
    else Outcome(Success(SessionTokens(a.value, f.value, ParseInt(Setting(settings.accessExpiration, "900")), "Bearer")), calls)
  }

  /**
   * The two session payloads carry the user's id and email and the
   * provider and differ only in `type`; with no settings `expires_in` is
   * 900, and with the span "15m" it is the leading number, 15.
   */
  lemma SessionPayloads(settings: SpanSettings, user: UserRecord, provider: string)
    ensures var a, f := AccessSign(settings, user, provider).claims, RefreshSign(settings, user, provider).claims;
      && a.sub == f.sub == user.id && a.email == f.email == user.email && a.provider == f.provider == provider
      && a.kind == Access && f.kind == Refresh && a.(kind := Refresh) == f
    ensures settings.accessExpiration.None? ==> ParseInt(Setting(settings.accessExpiration, "900")) == Some(900)
    ensures settings.accessExpiration == Some("15m") ==> ParseInt(Setting(settings.accessExpiration, "900")) == Some(15)
  {
    ParseIntStopsAtUnit();
  }

  /** What a provider token response is stored as; the expiry is `now + expires_in * 1000`. */
  function WriteOf(t: TokenResponse, nowMs: int): (w: TokenWrite)
    ensures w.expiresAtMs - nowMs == t.expires_in * 1000
    ensures w.accessToken == t.access_token && w.refreshToken == t.refresh_token && w.scope == t.scope
  {
    TokenWrite(t.access_token, t.refresh_token, nowMs + t.expires_in * 1000, t.scope)
  }

  // ---------------------------------------------------------------------
  // Callback

  /** The callback's steps, by name, in order. */
  const CALLBACK_STEPS: seq<string> := ["getTokens", "getUserProfile", "findOrCreateByOAuth", "upsertOAuthToken", "signAsync", "signAsync"]

  function StepName(c: Call): string
  {
    match c
    case ExchangeCode(_) => "getTokens"
    case FetchProfile(_) => "getUserProfile"
    case FindOrCreate(_, _) => "findOrCreateByOAuth"
    case StoreTokens(_, _, _) => "upsertOAuthToken"
    case Sign(_) => "signAsync"
    case Verify(_) => "verifyAsync"
    case LoadUser(_, _) => "findUnique"
    case ProviderRefresh(_) => "refreshToken"
  }

  function StepNames(calls: seq<Call>): (names: seq<string>)
    ensures |names| == |calls|
    ensures forall i :: 0 <= i < |calls| ==> names[i] == StepName(calls[i])
  {
    if calls == [] then [] else [StepName(calls[0])] + StepNames(calls[1..])
  }

  /** What the flows use of a strategy, as plain functions. */
  datatype StrategyOps = StrategyOps(
    getTokens: string -> Result<TokenResponse, Exception>,
    getUserProfile: string -> Result<OAuthProfile, Exception>,
    refreshToken: string -> Result<TokenResponse, Exception>)

  function OpsOf(s: Strategy): (ops: StrategyOps)
    ensures forall code :: ops.getTokens(code) == s.GetTokens(code)
    ensures forall token :: ops.getUserProfile(token) == s.GetUserProfile(token)
    ensures forall token :: ops.refreshToken(token) == s.RefreshToken(token)
  {
    StrategyOps(code => s.GetTokens(code), token => s.GetUserProfile(token), token => s.RefreshToken(token))
  }

  /**
   * `handleOAuthCallback(code, provider, state)` at clock reading `nowMs`:
   * resolve the strategy, then run the steps. `state` is not used.
   */
  function HandleOAuthCallback(env: Env, code: string, provider: Provider, state: Option<string>, nowMs: int): (o: Outcome<SessionTokens>)
    ensures !Registered(ProviderName(provider)) ==> o == Outcome(Failure(CALLBACK_FAILED), [])
    ensures Registered(ProviderName(provider)) ==> 1 <= |o.calls| && o.calls[0] == ExchangeCode(code)
    ensures |o.calls| <= |CALLBACK_STEPS|
    ensures o.result.Success? ==> |o.calls| == |CALLBACK_STEPS| && o.calls[0] == ExchangeCode(code) && o.calls[3].StoreTokens?
    ensures o.result.Failure? && o.result.error != CALLBACK_FAILED ==>
              |o.calls| == |CALLBACK_STEPS| && o.calls[4].Sign? && o.calls[5].Sign?
  {
    match RegisteredOps(env.registry, ProviderName(provider), nowMs)
    case None => Outcome(Failure(CALLBACK_FAILED), [])
    case Some(ops) =>
      CallbackStops(env, ops, code, ProviderName(provider), nowMs);
      CallbackFailures(env, ops, code, ProviderName(provider), nowMs);
      CallbackSteps(env, ops, code, ProviderName(provider), nowMs)
  }

  /**
   * The callback's steps once the strategy is known. Each step runs only
   * when the one before it succeeded; a failure of any awaited step is
   * reported as one UnauthorizedException. The final `createTokens` is
   * returned without being awaited, so its failure is not caught and
   * surfaces as the signing error.
   */
  function CallbackSteps(env: Env, ops: StrategyOps, code: string, name: string, nowMs: int): Outcome<SessionTokens>
  {
    var c1 := [ExchangeCode(code)];
    match ops.getTokens(code)
    case Failure(_) => Outcome(Failure(CALLBACK_FAILED), c1)
    case Success(tokens) =>
      var c2 := c1 + [FetchProfile(tokens.access_token)];
      match ops.getUserProfile(tokens.access_token)
      case Failure(_) => Outcome(Failure(CALLBACK_FAILED), c2)
      case Success(profile) =>
        var c3 := c2 + [FindOrCreate(name, profile)];
        match env.users.findOrCreate(name, profile)
        case Failure(_) => Outcome(Failure(CALLBACK_FAILED), c3)
        case Success(user) =>
          var write := WriteOf(tokens, nowMs);
          var c4 := c3 + [StoreTokens(user.id, name, write)];
          match env.users.upsert(user.id, name, write)
          case Failure(_) => Outcome(Failure(CALLBACK_FAILED), c4)
          case Success(_) =>
            var session := CreateTokens(env.settings, env.jwt, user, name);
            Outcome(session.result, c4 + session.calls)
  }

  /**
   * An unregistered provider fails before any call; otherwise the steps
   * run against the registered strategy.
   */
  lemma CallbackResolvesStrategy(env: Env, code: string, provider: Provider, state: Option<string>, nowMs: int)
    ensures !Registered(ProviderName(provider)) ==>
              HandleOAuthCallback(env, code, provider, state, nowMs) == Outcome(Failure(CALLBACK_FAILED), [])
    ensures provider == GOOGLE ==> HandleOAuthCallback(env, code, provider, state, nowMs).result == Failure(CALLBACK_FAILED)
    ensures Registered(ProviderName(provider)) ==>
              var s := GetStrategy(env.registry, ProviderName(provider), nowMs).value;
              && s.ProviderOf() == provider
              && HandleOAuthCallback(env, code, provider, state, nowMs) == CallbackSteps(env, OpsOf(s), code, ProviderName(provider), nowMs)
  {
    GoogleUnregistered(env.registry, nowMs);
  }

  /** Calls whose names follow the fixed sequence are named by a prefix of it. */
  lemma NamesFollow(calls: seq<Call>, steps: seq<string>)
    requires |calls| <= |steps|
    requires forall i :: 0 <= i < |calls| ==> StepName(calls[i]) == steps[i]
    ensures StepNames(calls) == steps[..|calls|]
  {
  }

  /**
   * The callback makes its calls in the fixed order and stops at the first
   * failure: the calls made are a prefix of the full sequence, and the flow
   * succeeds only after all six.
   */
  lemma CallbackOrder(env: Env, ops: StrategyOps, code: string, name: string, nowMs: int)
    ensures var o := CallbackSteps(env, ops, code, name, nowMs);
      && 1 <= |o.calls| <= |CALLBACK_STEPS| && StepNames(o.calls) == CALLBACK_STEPS[..|o.calls|]
      && (o.result.Success? ==> |o.calls| == |CALLBACK_STEPS|)
  {
    var o := CallbackSteps(env, ops, code, name, nowMs);
    CallbackStops(env, ops, code, name, nowMs);
    forall i | 0 <= i < |o.calls|
      ensures StepName(o.calls[i]) == CALLBACK_STEPS[i]
    {
    }
    NamesFollow(o.calls, CALLBACK_STEPS);
  }

  /**
   * Each call is made only after the one before it succeeded, and with
   * the previous step's result: the code, then the provider's access
   * token, then its profile, then the user found or created.
   */
  lemma CallbackStops(env: Env, ops: StrategyOps, code: string, name: string, nowMs: int)
    ensures var o := CallbackSteps(env, ops, code, name, nowMs);
      && 1 <= |o.calls| <= |CALLBACK_STEPS|
      && (o.result.Success? ==> |o.calls| == |CALLBACK_STEPS|)
      && o.calls[0] == ExchangeCode(code)
      && (|o.calls| == 1 <==> ops.getTokens(code).Failure?)
      && (|o.calls| >= 2 ==> o.calls[1] == FetchProfile(ops.getTokens(code).value.access_token))
      && (|o.calls| >= 2 ==> (|o.calls| == 2 <==> ops.getUserProfile(o.calls[1].accessToken).Failure?))
      && (|o.calls| >= 3 ==> o.calls[2] == FindOrCreate(name, ops.getUserProfile(o.calls[1].accessToken).value))
      && (|o.calls| >= 3 ==> (|o.calls| == 3 <==> env.users.findOrCreate(name, o.calls[2].profile).Failure?))
      && (|o.calls| >= 4 ==> o.calls[3].StoreTokens?)
      && (|o.calls| >= 4 ==> (|o.calls| == 4 <==> env.users.upsert(o.calls[3].userId, name, o.calls[3].write).Failure?))
      && (|o.calls| >= 5 ==> |o.calls| == 6 && o.calls[4].Sign? && o.calls[5].Sign?)
  {
  }

  /**
   * Every failure of the callback is the one UnauthorizedException (a
   * ConflictException from the users service included), except a signing
   * failure in the final step, which escapes as it is.
   */
  lemma CallbackFailures(env: Env, ops: StrategyOps, code: string, name: string, nowMs: int)
    ensures var o := CallbackSteps(env, ops, code, name, nowMs);
      o.result.Failure? && o.result.error != CALLBACK_FAILED ==>
        && |o.calls| == 6 && o.calls[4].Sign? && o.calls[5].Sign?
        && ((env.jwt.sign(o.calls[4].request).Failure? && o.result.error == env.jwt.sign(o.calls[4].request).error)
            || (env.jwt.sign(o.calls[5].request).Failure? && o.result.error == env.jwt.sign(o.calls[5].request).error))
  {
  }

  /**
   * On success the provider tokens are stored for the user with the expiry
   * `now + expires_in * 1000`, and the session tokens are signed for that
   * user and provider.
   */
  lemma CallbackStoresTokens(env: Env, ops: StrategyOps, code: string, name: string, nowMs: int)
    ensures var o := CallbackSteps(env, ops, code, name, nowMs);
      o.result.Success? ==>
        var tokens := ops.getTokens(code).value;
        var user := env.users.findOrCreate(name, ops.getUserProfile(tokens.access_token).value).value;
        && o.calls[3] == StoreTokens(user.id, name, WriteOf(tokens, nowMs))
        && o.calls[3].write.expiresAtMs == nowMs + tokens.expires_in * 1000
        && o.calls[4] == Sign(AccessSign(env.settings, user, name))
        && o.calls[5] == Sign(RefreshSign(env.settings, user, name))
  {
  }

  /** The `state` argument does not affect the callback. */
  lemma CallbackIgnoresState(env: Env, code: string, provider: Provider, s1: Option<string>, s2: Option<string>, nowMs: int)
    ensures HandleOAuthCallback(env, code, provider, s1, nowMs) == HandleOAuthCallback(env, code, provider, s2, nowMs)
  {
  }

  // ---------------------------------------------------------------------
  // Refresh

  /** The registered strategy's operations, if the provider is registered. */
  function RegisteredOps(reg: Registry, provider: string, nowMs: int): (r: Option<StrategyOps>)
    ensures r.Some? <==> Registered(provider)
    ensures r.Some? ==> r.value == OpsOf(GetStrategy(reg, provider, nowMs).value)
  {
    match GetStrategy(reg, provider, nowMs)
    case Success(s) => Some(OpsOf(s))
    case Failure(_) => None
  }

  /**
   * `refreshToken(refreshToken)` at clock reading `nowMs`. The token is
   * verified, and then only its `sub` and `provider` are used: its `type`
   * is not checked.
   */
  function RefreshSession(env: Env, refreshToken: string, nowMs: int): (o: Outcome<SessionTokens>)
    ensures 1 <= |o.calls| <= 6 && o.calls[0] == Verify(refreshToken)
    ensures env.jwt.verify(refreshToken).Failure? ==> o == Outcome(Failure(REFRESH_FAILED), [Verify(refreshToken)])
    ensures o.result.Success? ==>
              |o.calls| == 6 && o.calls[1].LoadUser? && o.calls[2].ProviderRefresh? && o.calls[3].StoreTokens?
              && o.calls[4].Sign? && o.calls[5].Sign?
    ensures o.result.Failure? && o.result.error != REFRESH_FAILED ==> |o.calls| == 6 && o.calls[4].Sign? && o.calls[5].Sign?
  {
    match env.jwt.verify(refreshToken)
    case Failure(_) => Outcome(Failure(REFRESH_FAILED), [Verify(refreshToken)])
    case Success(payload) =>
      Prepend(Verify(refreshToken), RefreshFor(env, payload.sub, payload.provider, nowMs))
  }

  /** A flow that makes `c` first and then continues as `rest`. */
  function Prepend<T>(c: Call, rest: Outcome<T>): (o: Outcome<T>)
    ensures o.result == rest.result && |o.calls| == |rest.calls| + 1 && o.calls[0] == c
    ensures forall i :: 0 <= i < |rest.calls| ==> o.calls[i + 1] == rest.calls[i]
  {
    Outcome(rest.result, [c] + rest.calls)
  }

  /**
   * The refresh for a verified subject and provider: the user must exist
   * and have a token row for the provider, whose strategy must be
   * registered. Every failure up to there is one UnauthorizedException.
   */
  function RefreshFor(env: Env, sub: string, provider: string, nowMs: int): (o: Outcome<SessionTokens>)
    ensures 1 <= |o.calls| <= 5 && o.calls[0] == LoadUser(sub, provider)
    ensures o.result.Success? ==>
              |o.calls| == 5 && o.calls[1].ProviderRefresh? && o.calls[2].StoreTokens? && o.calls[3].Sign? && o.calls[4].Sign?
    ensures o.result.Failure? && o.result.error != REFRESH_FAILED ==> |o.calls| == 5 && o.calls[3].Sign? && o.calls[4].Sign?
  {
    RefreshWith(env, sub, provider, RegisteredOps(env.registry, provider, nowMs), nowMs)
  }

  /** `RefreshFor` with the strategy lookup's answer given as `found`. */
  function RefreshWith(env: Env, sub: string, provider: string, found: Option<StrategyOps>, nowMs: int): (o: Outcome<SessionTokens>)
    ensures 1 <= |o.calls| <= 5 && o.calls[0] == LoadUser(sub, provider)
    ensures o.result.Success? ==>
              |o.calls| == 5 && o.calls[1].ProviderRefresh? && o.calls[2].StoreTokens? && o.calls[3].Sign? && o.calls[4].Sign?
    ensures o.result.Failure? && o.result.error != REFRESH_FAILED ==> |o.calls| == 5 && o.calls[3].Sign? && o.calls[4].Sign?
  {
    var c1 := [LoadUser(sub, provider)];
    var loaded := env.users.load(sub, provider);
    if loaded.None? || loaded.value.tokens == [] then Outcome(Failure(REFRESH_FAILED), c1)
    else
      match found
      case None => Outcome(Failure(REFRESH_FAILED), c1)
      case Some(ops) =>
        var rest := RefreshSteps(env, ops, loaded.value, provider, nowMs);
        Outcome(rest.result, c1 + rest.calls)
  }

  /**
   * The rest of the refresh: the first stored row supplies the provider
   * refresh token (a null one is passed on as the text "null"), the new
   * provider tokens are stored, and the session tokens are issued. As in
   * the callback, an awaited failure is one UnauthorizedException and a
   * signing failure escapes.
   */
  function RefreshSteps(env: Env, ops: StrategyOps, loaded: LoadedUser, provider: string, nowMs: int): (o: Outcome<SessionTokens>)
    requires loaded.tokens != []
    ensures 1 <= |o.calls| <= 4 && o.calls[0].ProviderRefresh?
    ensures o.result.Success? ==> |o.calls| == 4 && o.calls[1].StoreTokens? && o.calls[2].Sign? && o.calls[3].Sign?
    ensures o.result.Failure? && o.result.error != REFRESH_FAILED ==> |o.calls| == 4 && o.calls[2].Sign? && o.calls[3].Sign?
  {
    var providerToken := ToJsString(loaded.tokens[0].refreshToken);
    var c1 := [ProviderRefresh(providerToken)];
    match ops.refreshToken(providerToken)
    case Failure(_) => Outcome(Failure(REFRESH_FAILED), c1)
    case Success(renewed) =>
      var write := WriteOf(renewed, nowMs);
      var c2 := c1 + [StoreTokens(loaded.user.id, provider, write)];
      match env.users.upsert(loaded.user.id, provider, write)
      case Failure(_) => Outcome(Failure(REFRESH_FAILED), c2)
      case Success(_) =>
        var session := CreateTokens(env.settings, env.jwt, loaded.user, provider);
        Outcome(session.result, c2 + session.calls)
  }

  /**
   * After verification, refresh fails with the one UnauthorizedException,
   * before any provider call, when the user is missing or has no token row
   * for the provider, or the provider is not registered; otherwise it
   * continues with the registered strategy.
   */
  lemma RefreshGuards(env: Env, sub: string, provider: string, nowMs: int)
    ensures var loaded := env.users.load(sub, provider);
      loaded.None? || loaded.value.tokens == [] || !Registered(provider) ==>
        RefreshFor(env, sub, provider, nowMs) == Outcome(Failure(REFRESH_FAILED), [LoadUser(sub, provider)])
    ensures var loaded := env.users.load(sub, provider);
      loaded.Some? && loaded.value.tokens != [] && Registered(provider) ==>
        var rest := RefreshSteps(env, RegisteredOps(env.registry, provider, nowMs).value, loaded.value, provider, nowMs);
        RefreshFor(env, sub, provider, nowMs) == Outcome(rest.result, [LoadUser(sub, provider)] + rest.calls)
  {
  }

  /**
   * The provider is asked with the first stored refresh token, and on
   * success the new provider tokens are stored for the loaded user with
   * expiry `now + expires_in * 1000` before the session tokens are signed.
   */
  lemma RefreshStoresTokens(env: Env, ops: StrategyOps, loaded: LoadedUser, provider: string, nowMs: int)
    requires loaded.tokens != []
    ensures var o := RefreshSteps(env, ops, loaded, provider, nowMs);
      && o.calls[0] == ProviderRefresh(ToJsString(loaded.tokens[0].refreshToken))
      && (loaded.tokens[0].refreshToken.None? ==> o.calls[0].refreshToken == "null")
      && (o.result.Failure? && o.result.error != REFRESH_FAILED ==> |o.calls| == 4 && o.calls[2].Sign? && o.calls[3].Sign?)
      && (o.result.Success? ==>
            var renewed := ops.refreshToken(o.calls[0].refreshToken).value;
            && |o.calls| == 4
            && o.calls[1] == StoreTokens(loaded.user.id, provider, WriteOf(renewed, nowMs))
            && o.calls[1].write.expiresAtMs == nowMs + renewed.expires_in * 1000
            && o.calls[2] == Sign(AccessSign(env.settings, loaded.user, provider))
            && o.calls[3] == Sign(RefreshSign(env.settings, loaded.user, provider)))
  {
    var providerToken := ToJsString(loaded.tokens[0].refreshToken);
    var r := ops.refreshToken(providerToken);
    if r.Success? {
      var write := WriteOf(r.value, nowMs);
      var u := env.users.upsert(loaded.user.id, provider, write);
      if u.Success? {
        var session := CreateTokens(env.settings, env.jwt, loaded.user, provider);
        assert RefreshSteps(env, ops, loaded, provider, nowMs).calls
          == [ProviderRefresh(providerToken), StoreTokens(loaded.user.id, provider, write)] + session.calls;
      }
    }
  }

  /**
   * A token that does not verify ends the refresh with the one
   * UnauthorizedException. Otherwise refresh never looks at the token's
   * `type`: whatever the verified payload's kind, the outcome is the
   * refresh for its subject and provider.
   */
  lemma RefreshIgnoresKind(env: Env, refreshToken: string, nowMs: int, kind: TokenKind)
    ensures env.jwt.verify(refreshToken).Failure? ==>
              RefreshSession(env, refreshToken, nowMs) == Outcome(Failure(REFRESH_FAILED), [Verify(refreshToken)])
    ensures env.jwt.verify(refreshToken).Success? ==>
              var p := env.jwt.verify(refreshToken).value.(kind := kind);
              var rest := RefreshFor(env, p.sub, p.provider, nowMs);
              RefreshSession(env, refreshToken, nowMs) == Outcome(rest.result, [Verify(refreshToken)] + rest.calls)
  {
  }

  // ---------------------------------------------------------------------
  // User info

  /**
   * `getUserInfo(token)`: the provider profile fetched with the first
   * stored access token. Failures up to the strategy lookup are one
   * UnauthorizedException; the profile fetch is returned without being
   * awaited, so its own error surfaces as it is.
   */
  function GetUserInfo(env: Env, token: string, nowMs: int): (o: Outcome<OAuthProfile>)
    ensures 1 <= |o.calls| <= 3 && o.calls[0] == Verify(token)
    ensures |o.calls| < 3 ==> o.result == Failure(USER_INFO_FAILED)
    ensures |o.calls| == 3 ==>
              && env.jwt.verify(token).Success?
              && var payload := env.jwt.verify(token).value;
                 var loaded := env.users.load(payload.sub, payload.provider);
                 && Registered(payload.provider)
                 && o.calls[1] == LoadUser(payload.sub, payload.provider)
                 && loaded.Some? && loaded.value.tokens != []
                 && o.calls[2] == FetchProfile(loaded.value.tokens[0].accessToken)
  {
    match env.jwt.verify(token)
    case Failure(_) => Outcome(Failure(USER_INFO_FAILED), [Verify(token)])
    case Success(payload) => Prepend(Verify(token), UserInfoFor(env, payload.sub, payload.provider, nowMs))
  }

  /** `getUserInfo` once the token is verified: load the user, then ask the strategy. */
  function UserInfoFor(env: Env, sub: string, provider: string, nowMs: int): (o: Outcome<OAuthProfile>)
    ensures 1 <= |o.calls| <= 2 && o.calls[0] == LoadUser(sub, provider)
    ensures |o.calls| == 1 ==> o.result == Failure(USER_INFO_FAILED)
    ensures |o.calls| == 2 ==>
              var loaded := env.users.load(sub, provider);
              && Registered(provider) && loaded.Some? && loaded.value.tokens != []
              && o.calls[1] == FetchProfile(loaded.value.tokens[0].accessToken)
              && o.result == RegisteredOps(env.registry, provider, nowMs).value.getUserProfile(loaded.value.tokens[0].accessToken)
  {
    UserInfoWith(env, sub, provider, RegisteredOps(env.registry, provider, nowMs))
  }

  /** `UserInfoFor` with the strategy lookup's answer given as `found`. */
  function UserInfoWith(env: Env, sub: string, provider: string, found: Option<StrategyOps>): (o: Outcome<OAuthProfile>)
    ensures 1 <= |o.calls| <= 2 && o.calls[0] == LoadUser(sub, provider)
    ensures |o.calls| == 1 ==> o.result == Failure(USER_INFO_FAILED)
    ensures |o.calls| == 2 ==>
              var loaded := env.users.load(sub, provider);
              && found.Some? && loaded.Some? && loaded.value.tokens != []
              && o.calls[1] == FetchProfile(loaded.value.tokens[0].accessToken)
              && o.result == found.value.getUserProfile(loaded.value.tokens[0].accessToken)
  {
    var loaded := env.users.load(sub, provider);
    if loaded.None? || loaded.value.tokens == [] then Outcome(Failure(USER_INFO_FAILED), [LoadUser(sub, provider)])
    else
      match found
      case None => Outcome(Failure(USER_INFO_FAILED), [LoadUser(sub, provider)])
      case Some(ops) =>
        var accessToken := loaded.value.tokens[0].accessToken;
        Outcome(ops.getUserProfile(accessToken), [LoadUser(sub, provider), FetchProfile(accessToken)])
  }

  /**
   * Whatever fails, `getUserInfo` reports an UnauthorizedException, and a
   * profile it returns is the registered provider's answer for the stored
   * access token.
   */
  lemma GetUserInfoContract(env: Env, token: string, nowMs: int)
    ensures var o := GetUserInfo(env, token, nowMs);
      && (o.result.Failure? ==> o.result.error.Unauthorized?)
      && (o.result.Success? ==>
            var payload := env.jwt.verify(token).value;
            var loaded := env.users.load(payload.sub, payload.provider).value;
            && Registered(payload.provider)
            && |loaded.tokens| > 0
            && o.result == GetStrategy(env.registry, payload.provider, nowMs).value.GetUserProfile(loaded.tokens[0].accessToken)
            && ProviderName(o.result.value.provider) == payload.provider)
  {
    var o := GetUserInfo(env, token, nowMs);
    if env.jwt.verify(token).Success? {
      var payload := env.jwt.verify(token).value;
      var loaded := env.users.load(payload.sub, payload.provider);
      var s := GetStrategy(env.registry, payload.provider, nowMs);
      if loaded.Some? && loaded.value.tokens != [] && s.Success? {
        GetUserProfileContract(s.value, loaded.value.tokens[0].accessToken);
      }
    }
  }
}
