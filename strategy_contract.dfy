/**
 * The abstract contract of BaseOAuthStrategy in
 * src/auth/strategies/base.strategy.ts (generateAuthUrl, getTokens,
 * getUserProfile, refreshToken, validateToken), dispatched over the four
 * concrete strategies. Each variant carries its configuration and the
 * endpoints it talks to; Apple's also carries the token library and the
 * clock reading its client secret is signed at.
 */
module Strategies {
  import opened Wrappers
  import opened JsText
  import opened Exceptions
  import opened Profiles
  import opened StrategyBase
  import Kakao
  import Naver
  import Apple
  import Google

  datatype Strategy =
    | KakaoStrategy(kakao: Kakao.Config, kakaoNet: Kakao.Net)
    | NaverStrategy(naver: Naver.Config, naverNet: Naver.Net)
    | AppleStrategy(apple: Apple.Config, appleNet: Apple.Net, crypto: Apple.Crypto, nowMs: int)
    | GoogleStrategy(google: Google.Config, googleNet: Google.Net)
  {
    /** The provider whose profiles this strategy produces. */
    function ProviderOf(): Provider
    {
      match this
      case KakaoStrategy(_, _) => KAKAO
      case NaverStrategy(_, _) => NAVER
      case AppleStrategy(_, _, _, _) => APPLE
      case GoogleStrategy(_, _) => GOOGLE
    }

    /** `generateAuthUrl(state)`; `generated` is what `generateState()` would return. */
    function GenerateAuthUrl(state: Option<string>, generated: string): string
    {
      match this
      case KakaoStrategy(cfg, _) => Kakao.GenerateAuthUrl(cfg, state, generated)
      case NaverStrategy(cfg, _) => Naver.GenerateAuthUrl(cfg, state, generated)
      case AppleStrategy(cfg, _, _, _) => Apple.GenerateAuthUrl(cfg, state, generated)
      case GoogleStrategy(cfg, _) => Google.GenerateAuthUrl(cfg, state, generated)
    }

    function GetTokens(code: string): Result<TokenResponse, Exception>
    {
      match this
      case KakaoStrategy(cfg, net) => Kakao.GetTokens(cfg, net, code)
      case NaverStrategy(cfg, net) => Naver.GetTokens(cfg, net, code)
      case AppleStrategy(cfg, net, crypto, now) => Apple.GetTokens(cfg, net, crypto, now, code)
      case GoogleStrategy(cfg, net) => Google.GetTokens(cfg, net, code)
    }

    function GetUserProfile(accessToken: string): Result<OAuthProfile, Exception>
    {
      match this
      case KakaoStrategy(_, net) => Kakao.GetUserProfile(net, accessToken)
      case NaverStrategy(_, net) => Naver.GetUserProfile(net, accessToken)
      case AppleStrategy(_, _, crypto, _) => Apple.GetUserProfile(crypto, accessToken)
      case GoogleStrategy(_, net) => Google.GetUserProfile(net, accessToken)
    }

    function RefreshToken(refreshToken: string): Result<TokenResponse, Exception>
    {
      match this
      case KakaoStrategy(cfg, net) => Kakao.RefreshToken(cfg, net, refreshToken)
      case NaverStrategy(cfg, net) => Naver.RefreshToken(cfg, net, refreshToken)
      case AppleStrategy(cfg, net, crypto, now) => Apple.RefreshToken(cfg, net, crypto, now, refreshToken)
      case GoogleStrategy(cfg, net) => Google.RefreshToken(cfg, net, refreshToken)
    }

    function ValidateToken(accessToken: string): bool
    {
      match this
      case KakaoStrategy(_, net) => Kakao.ValidateToken(net, accessToken)
      case NaverStrategy(_, net) => Naver.ValidateToken(net, accessToken)
      case AppleStrategy(cfg, net, crypto, _) => Apple.ValidateToken(cfg, net, crypto, accessToken)
      case GoogleStrategy(_, net) => Google.ValidateToken(net, accessToken)
    }
  }

  /** Every strategy reports a failed token exchange as UnauthorizedException. */
  lemma GetTokensFailsUnauthorized(s: Strategy, code: string)
    ensures s.GetTokens(code).Failure? ==> s.GetTokens(code).error.Unauthorized?
  {
    match s
    case KakaoStrategy(cfg, net) =>
    case NaverStrategy(cfg, net) =>
    case AppleStrategy(cfg, net, crypto, now) =>
    case GoogleStrategy(cfg, net) =>
  }

  /** Every strategy reports a failed refresh as UnauthorizedException. */
  lemma RefreshFailsUnauthorized(s: Strategy, refreshToken: string)
    ensures s.RefreshToken(refreshToken).Failure? ==> s.RefreshToken(refreshToken).error.Unauthorized?
  {
    match s
    case KakaoStrategy(cfg, net) =>
    case NaverStrategy(cfg, net) =>
    case AppleStrategy(cfg, net, crypto, now) =>
    case GoogleStrategy(cfg, net) =>
  }

  /**
   * Every strategy reports a failed profile fetch as UnauthorizedException,
   * and the profiles it returns name its own provider.
   */
  lemma GetUserProfileContract(s: Strategy, accessToken: string)
    ensures s.GetUserProfile(accessToken).Failure? ==> s.GetUserProfile(accessToken).error.Unauthorized?
    ensures s.GetUserProfile(accessToken).Success? ==> s.GetUserProfile(accessToken).value.provider == s.ProviderOf()
  {
    match s
    case KakaoStrategy(cfg, net) =>
    case NaverStrategy(cfg, net) =>
    case AppleStrategy(cfg, net, crypto, now) =>
    case GoogleStrategy(cfg, net) =>
  }

  /**
   * The supplied state matters only through `state || generated`: an empty
   * state is the same as none, and a non-empty one is the same as having
   * generated it.
   */
  lemma AuthUrlStateChoice(s: Strategy, state: string, generated: string)
    ensures s.GenerateAuthUrl(Some(""), generated) == s.GenerateAuthUrl(None, generated)
    ensures state != "" ==> s.GenerateAuthUrl(Some(state), generated) == s.GenerateAuthUrl(None, state)
  {
  }
}
