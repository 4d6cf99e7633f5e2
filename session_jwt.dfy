/**
 * src/auth/jwt/jwt.service.ts: the session-token helpers around the JWT
 * library. Signing, verification and decoding are the library's and are
 * parameters here (`JwtLib`); what is modelled is the pairing of the two
 * payloads, the TTL defaults, the classification of verification errors
 * and the integer arithmetic on the decoded `exp`.
 */
module SessionJwt {
  import opened Wrappers
  import opened Exceptions

  /** The `type` claim. */
  datatype TokenKind = Access | Refresh

  function KindName(k: TokenKind): string
  {
    match k
    case Access => "access"
    case Refresh => "refresh"
  }

  /** What is signed: the caller's payload plus `type`. */
  datatype Claims = Claims(sub: string, email: Option<string>, provider: string, kind: TokenKind)

  /** A payload as the library returns it after verifying or decoding; `iat`/`exp` are in seconds. */
  datatype JwtPayload = JwtPayload(sub: string, email: Option<string>, provider: string, kind: TokenKind, iat: Option<int>, exp: Option<int>)

  /** The `expiresIn` option: seconds, or a time span such as "15m". */
  datatype ExpiresIn = Seconds(seconds: int) | Span(text: string)

  datatype SignRequest = SignRequest(claims: Claims, expiresIn: ExpiresIn)

  /** An error the library raises while verifying, with its `name` and `message`. */
  datatype LibraryError = LibraryError(name: string, message: string)

  /** The JWT library: `signAsync`, `verifyAsync` and `decode` (None is a null result). */
  datatype JwtLib = JwtLib(
    sign: SignRequest -> Result<string, Exception>,
    verify: string -> Result<JwtPayload, LibraryError>,
    decode: string -> Option<JwtPayload>)

  /** The `auth.jwt.accessExpiresIn` / `auth.jwt.refreshExpiresIn` settings, in seconds. */
  datatype Settings = Settings(accessExpiresIn: Option<int>, refreshExpiresIn: Option<int>)

  const DEFAULT_ACCESS_TTL := 900
  const DEFAULT_REFRESH_TTL := 604800

  datatype TokenPair = TokenPair(accessToken: string, refreshToken: string, expiresIn: int)

  /** The access-token lifetime: the setting, or 15 minutes when it is not set. */
  function AccessTtl(settings: Settings): (ttl: int)
    ensures settings.accessExpiresIn.None? ==> ttl == 15 * 60
    ensures settings.accessExpiresIn.Some? ==> ttl == settings.accessExpiresIn.value
  {
    match settings.accessExpiresIn
    case Some(ttl) => ttl
    case None => DEFAULT_ACCESS_TTL
  }

  /** The refresh-token lifetime: the setting, or 7 days when it is not set. */
  function RefreshTtl(settings: Settings): (ttl: int)
    ensures settings.refreshExpiresIn.None? ==> ttl == 7 * 24 * 60 * 60
    ensures settings.refreshExpiresIn.Some? ==> ttl == settings.refreshExpiresIn.value
  {
    match settings.refreshExpiresIn
    case Some(ttl) => ttl
    case None => DEFAULT_REFRESH_TTL
  }

  /** The caller's payload with `type` added. */
  function WithKind(sub: string, email: Option<string>, provider: string, kind: TokenKind): Claims
  {
    Claims(sub, email, provider, kind)
  }

  function AccessRequest(settings: Settings, sub: string, email: Option<string>, provider: string): SignRequest
  {
    SignRequest(WithKind(sub, email, provider, Access), Seconds(AccessTtl(settings)))
  }

  function RefreshRequest(settings: Settings, sub: string, email: Option<string>, provider: string): SignRequest
  {
    SignRequest(WithKind(sub, email, provider, Refresh), Seconds(RefreshTtl(settings)))
  }

  /** The two signed payloads carry the caller's fields and differ in `type` only. */
  lemma PayloadsDifferOnlyInKind(settings: Settings, sub: string, email: Option<string>, provider: string)
    ensures var a, r := AccessRequest(settings, sub, email, provider).claims, RefreshRequest(settings, sub, email, provider).claims;
      && a.sub == r.sub == sub && a.email == r.email == email && a.provider == r.provider == provider
      && a.kind == Access && r.kind == Refresh && a.(kind := Refresh) == r
      && KindName(a.kind) == "access" && KindName(r.kind) == "refresh"
  {
  }

  /**
   * `generateTokens(payload)`: both payloads are signed together; the pair
   * exists only when both signings succeed, and its `expiresIn` is the
   * access TTL. When a signing fails, the error is one of the failed ones.
   */
  function GenerateTokens(settings: Settings, jwt: JwtLib, sub: string, email: Option<string>, provider: string): (r: Result<TokenPair, Exception>)
    ensures var a, f := jwt.sign(AccessRequest(settings, sub, email, provider)), jwt.sign(RefreshRequest(settings, sub, email, provider));
      && (r.Success? <==> a.Success? && f.Success?)
      && (r.Success? ==> r.value == TokenPair(a.value, f.value, AccessTtl(settings)))
      && (r.Failure? ==> (a.Failure? && r.error == a.error) || (f.Failure? && r.error == f.error))
  {
    var a := jwt.sign(AccessRequest(settings, sub, email, provider));
    var f := jwt.sign(RefreshRequest(settings, sub, email, provider));
    if a.Failure? then Failure(a.error)
    else if f.Failure? then Failure(f.error)
    else Success(TokenPair(a.value, f.value, AccessTtl(settings)))
  }

  const EXPIRED_MESSAGE := "Token has expired"
  const INVALID_MESSAGE := "Invalid token"
  const VERIFICATION_FAILED_PREFIX := "Token verification failed: "

  /** The error `verifyToken` raises for a library error, chosen by its name. */
  function ClassifyVerifyError(e: LibraryError): (r: Exception)
    ensures r.Plain?
    ensures e.name == "TokenExpiredError" ==> r.message == "Token has expired"
    ensures e.name == "JsonWebTokenError" ==> r.message == "Invalid token"
    ensures e.name != "TokenExpiredError" && e.name != "JsonWebTokenError" ==> r.message == VERIFICATION_FAILED_PREFIX + e.message
  {
    if e.name == "TokenExpiredError" then Plain(EXPIRED_MESSAGE)
    else if e.name == "JsonWebTokenError" then Plain(INVALID_MESSAGE)
    else Plain(VERIFICATION_FAILED_PREFIX + e.message)
  }

  /** The message tells the three classes apart: a caller can recover which one occurred. */
  lemma ClassificationDistinguishes(e: LibraryError)
    ensures ClassifyVerifyError(e).message == EXPIRED_MESSAGE <==> e.name == "TokenExpiredError"
    ensures ClassifyVerifyError(e).message == INVALID_MESSAGE <==> e.name == "JsonWebTokenError"
  {
    var m := ClassifyVerifyError(e).message;
    if e.name != "TokenExpiredError" && e.name != "JsonWebTokenError" {
      assert m[6] == 'v';
      assert EXPIRED_MESSAGE[6] == 'h';
      assert INVALID_MESSAGE[0] == 'I' && m[0] == 'T';
    }
    if e.name == "JsonWebTokenError" {
      assert m[0] != EXPIRED_MESSAGE[0];
    }
  }

  /** `verifyToken(token)`: the verified payload, or the classified error. */
  function VerifyToken(jwt: JwtLib, token: string): (r: Result<JwtPayload, Exception>)
    ensures r.Success? <==> jwt.verify(token).Success?
    ensures r.Success? ==> r.value == jwt.verify(token).value
    ensures r.Failure? ==> r.error == ClassifyVerifyError(jwt.verify(token).error)
  {
    match jwt.verify(token)
    case Success(payload) => Success(payload)
    case Failure(e) => Failure(ClassifyVerifyError(e))
  }

  const DECODE_FAILED := "Token decoding failed: Invalid token"

  /** `decodeToken(token)`: the unverified payload, or an error when the library decodes nothing. */
  function DecodeToken(jwt: JwtLib, token: string): (r: Result<JwtPayload, Exception>)
    ensures r.Success? <==> jwt.decode(token).Some?
    ensures r.Success? ==> r.value == jwt.decode(token).value
    ensures r.Failure? ==> r.error == Plain(DECODE_FAILED)
  {
    match jwt.decode(token)
    case Some(payload) => Success(payload)
    case None => Failure(Plain(DECODE_FAILED))
  }

  /** `!decoded.exp`: an absent or zero `exp` counts as missing. */
  predicate HasExp(p: JwtPayload) {
    p.exp.Some? && p.exp.value != 0
  }

  /** `isTokenExpired(token)` at clock reading `nowMs` (milliseconds). */
  function IsTokenExpired(jwt: JwtLib, token: string, nowMs: int): (expired: bool)
    ensures DecodeToken(jwt, token).Failure? ==> expired
    ensures DecodeToken(jwt, token).Success? && !HasExp(DecodeToken(jwt, token).value) ==> expired
    ensures DecodeToken(jwt, token).Success? && HasExp(DecodeToken(jwt, token).value) ==>
              (expired <==> DecodeToken(jwt, token).value.exp.value * 1000 < nowMs)
  {
    match DecodeToken(jwt, token)
    case Failure(_) => true
    case Success(p) => if !HasExp(p) then true else p.exp.value * 1000 < nowMs
  }

  /**
   * `getTokenTimeRemaining(token)` at clock reading `nowMs`: whole seconds
   * left, `exp - floor(nowMs / 1000)`, never negative. (Dafny's `/` by a
   * positive divisor is the floor, as `Math.floor` of the quotient is.)
   */
  function GetTokenTimeRemaining(jwt: JwtLib, token: string, nowMs: int): (secs: int)
    ensures secs >= 0
    ensures DecodeToken(jwt, token).Failure? ==> secs == 0
    ensures DecodeToken(jwt, token).Success? && !HasExp(DecodeToken(jwt, token).value) ==> secs == 0
    ensures DecodeToken(jwt, token).Success? && HasExp(DecodeToken(jwt, token).value) ==>
              var exp := DecodeToken(jwt, token).value.exp.value;
              (secs > 0 <==> exp > nowMs / 1000) && (secs > 0 ==> secs == exp - nowMs / 1000)
  {
    match DecodeToken(jwt, token)
    case Failure(_) => 0
    case Success(p) => if !HasExp(p) then 0 else Max(0, p.exp.value - nowMs / 1000)
  }

  function Max(a: int, b: int): (m: int)
    ensures m >= a && m >= b && (m == a || m == b)
  {
    if a >= b then a else b
  }

  /** At the same clock reading, a token reported expired has no time remaining. */
  lemma ExpiredHasNoTimeLeft(jwt: JwtLib, token: string, nowMs: int)
    ensures IsTokenExpired(jwt, token, nowMs) ==> GetTokenTimeRemaining(jwt, token, nowMs) == 0
  {
  }

  /**
   * The converse does not hold: a token whose `exp` is the current second
   * has no whole second left but is not yet expired.
   */
  lemma NoTimeLeftNotExpired(jwt: JwtLib, token: string)
    requires jwt.decode(token) == Some(JwtPayload("u", None, "kakao", Access, None, Some(5)))
    ensures GetTokenTimeRemaining(jwt, token, 5000) == 0
    ensures !IsTokenExpired(jwt, token, 5000)
  {
  }
}
