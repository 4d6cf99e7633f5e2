/**
 * src/app.service.ts: the service behind the informational endpoints —
 * application info, the health check, the configuration report and the
 * uptime shown by the metrics endpoint.
 *
 * The clock, the database probe, the ISO timestamp and the package
 * version from the environment are parameters.
 */
module App {
  import opened Wrappers
  import opened JsText
  import opened Profiles
  import AuthService

  const MINUTE := 60
  const HOUR := 60 * 60
  const DAY := 24 * 60 * 60

  // ---------------------------------------------------------------------
  // Uptime

  /** JavaScript's `%`: the remainder takes the sign of the dividend. */
  function JsRem(a: int, b: int): (r: int)
    requires b > 0
    ensures a >= 0 ==> r == a % b
    ensures a < 0 ==> -b < r <= 0
  {
    if a >= 0 then a % b else -((-a) % b)
  }

  datatype Breakdown = Breakdown(days: int, hours: int, minutes: int, secs: int)

  /**
   * The components `formatUptime` computes: `Math.floor` of the quotients
   * (Dafny's `/` by a positive divisor is the floor) of the JavaScript
   * remainders.
   */
  function Components(seconds: int): Breakdown
  {
    Breakdown(seconds / DAY, JsRem(seconds, DAY) / HOUR, JsRem(seconds, HOUR) / MINUTE, JsRem(seconds, MINUTE))
  }

  lemma ByHour(a: int, q: int, r: int)
    requires 0 <= r < HOUR && a == q * HOUR + r
    ensures a % HOUR == r
  {
  }

  lemma ByMinute(a: int, q: int, r: int)
    requires 0 <= r < MINUTE && a == q * MINUTE + r
    ensures a % MINUTE == r
  {
  }

  /**
   * A non-negative uptime is exactly its days, hours, minutes and seconds,
   * each below its limit.
   */
  lemma ComponentsDecompose(seconds: int)
    requires seconds >= 0
    ensures var b := Components(seconds);
      && b.days * DAY + b.hours * HOUR + b.minutes * MINUTE + b.secs == seconds
      && b.days >= 0 && 0 <= b.hours < 24 && 0 <= b.minutes < 60 && 0 <= b.secs < 60
  {
    var d, r1 := seconds / DAY, seconds % DAY;
    var h, r2 := r1 / HOUR, r1 % HOUR;
    var m, x := r2 / MINUTE, r2 % MINUTE;
    assert seconds == d * DAY + r1;
    assert r1 == h * HOUR + r2;
    assert r2 == m * MINUTE + x;
    ByHour(seconds, d * 24 + h, r2);
    ByMinute(seconds, (d * 24 + h) * 60 + m, x);
    ByMinute(seconds % HOUR, m, x);
  }

  /** A negative uptime (a clock that went back) has no positive component. */
  lemma ComponentsNegative(seconds: int)
    requires seconds < 0
    ensures var b := Components(seconds);
      b.days < 0 && b.hours <= 0 && b.minutes <= 0 && b.secs <= 0
  {
  }

  /** The part `${n}` followed by its unit letter. */
  function Label(n: int, unit: char): string
  {
    IntToDecimal(n) + [unit]
  }

  /** The parts `formatUptime` pushes for the given components, in order. */
  function PartsOf(b: Breakdown): seq<string>
  {
    var front := Optional(b.days > 0, b.days, 'd') + Optional(b.hours > 0, b.hours, 'h')
      + Optional(b.minutes > 0, b.minutes, 'm');
    front + Optional(b.secs > 0 || front == [], b.secs, 's')
  }

  /** `[Label(n, unit)]` when `p` holds, otherwise nothing. */
  function Optional(p: bool, n: int, unit: char): seq<string>
  {
    if p then [Label(n, unit)] else []
  }

  /** The parts `formatUptime` pushes for an uptime, in order. */
  function UptimeParts(seconds: int): seq<string>
  {
    PartsOf(Components(seconds))
  }

  /** The seconds a part stands for: its number times its unit. */
  function PartValue(part: string): Option<int>
  {
    if |part| < 2 then None
    else
      var unit := part[|part| - 1];
      match DecimalToInt(part[..|part| - 1])
      case Some(n) =>
        if unit == 'd' then Some(n * DAY)
        else if unit == 'h' then Some(n * HOUR)
        else if unit == 'm' then Some(n * MINUTE)
        else if unit == 's' then Some(n)
        else None
      case None => None
  }

  /** The sum of the values `read` gives the parts, or None if it reads one of them as None. */
  function Sum(parts: seq<string>, read: string -> Option<int>): Option<int>
  {
    if parts == [] then Some(0)
    else
      match (read(parts[0]), Sum(parts[1..], read))
      case (Some(v), Some(t)) => Some(v + t)
      case _ => None
  }

  /** The seconds the parts stand for, or None if one of them is not a part. */
  function Total(parts: seq<string>): Option<int>
  {
    Sum(parts, PartValue)
  }

  /** A part reads back as its number in its unit. */
  lemma LabelValue(n: int, unit: char)
    ensures unit == 'd' ==> PartValue(Label(n, unit)) == Some(n * DAY)
    ensures unit == 'h' ==> PartValue(Label(n, unit)) == Some(n * HOUR)
    ensures unit == 'm' ==> PartValue(Label(n, unit)) == Some(n * MINUTE)
    ensures unit == 's' ==> PartValue(Label(n, unit)) == Some(n)
  {
    var part := Label(n, unit);
    assert part[..|part| - 1] == IntToDecimal(n);
    assert part[|part| - 1] == unit;
    IntDecimalRoundTrip(n);
  }

  /** A part contains no space: its digits, its sign and its unit are not spaces. */
  lemma LabelNoSpace(n: int, unit: char)
    requires unit != ' '
    ensures ' ' !in Label(n, unit)
  {
    var d := if n < 0 then NatToDecimal(-n) else NatToDecimal(n);
    assert forall k :: 0 <= k < |d| ==> d[k] != ' ' by {
      forall k | 0 <= k < |d| ensures d[k] != ' ' {
        assert IsDigit(d[k]);
      }
    }
    assert Label(n, unit) == (if n < 0 then "-" else "") + d + [unit];
  }

  lemma {:induction false} SumAppend(a: seq<string>, b: seq<string>, read: string -> Option<int>)
    requires Sum(a, read).Some? && Sum(b, read).Some?
    ensures Sum(a + b, read) == Some(Sum(a, read).value + Sum(b, read).value)
  {
    if a != [] {
      assert (a + b)[1..] == a[1..] + b;
      SumAppend(a[1..], b, read);
    } else {
      assert a + b == b;
    }
  }

  lemma SumOptional(p: bool, part: string, v: int, read: string -> Option<int>)
    requires read(part) == Some(v)
    ensures Sum(if p then [part] else [], read) == Some(if p then v else 0)
  {
    if p {
      assert [part][1..] == [];
    }
  }

  /**
   * Four optional parts whose values are known add up to the values of the
   * ones present, the last being present when it is non-zero or alone.
   */
  lemma SumOfOptionals(ld: string, lh: string, lm: string, ls: string, d: int, h: int, m: int, x: int, read: string -> Option<int>)
    requires read(ld) == Some(d * DAY) && read(lh) == Some(h * HOUR)
    requires read(lm) == Some(m * MINUTE) && read(ls) == Some(x)
    requires d >= 0 && h >= 0 && m >= 0 && x >= 0
    ensures var front := (if d > 0 then [ld] else []) + (if h > 0 then [lh] else []) + (if m > 0 then [lm] else []);
      Sum(front + (if x > 0 || front == [] then [ls] else []), read) == Some(d * DAY + h * HOUR + m * MINUTE + x)
  {
    var pd, ph, pm := if d > 0 then [ld] else [], if h > 0 then [lh] else [], if m > 0 then [lm] else [];
    var ps := if x > 0 || pd + ph + pm == [] then [ls] else [];
    SumOptional(d > 0, ld, d * DAY, read);
    SumOptional(h > 0, lh, h * HOUR, read);
    SumOptional(m > 0, lm, m * MINUTE, read);
    SumOptional(x > 0 || pd + ph + pm == [], ls, x, read);
    SumAppend(pd, ph, read);
    SumAppend(pd + ph, pm, read);
    SumAppend(pd + ph + pm, ps, read);
  }

  /** Non-negative components read back as their sum in seconds. */
  lemma PartsOfTotal(b: Breakdown)
    requires b.days >= 0 && b.hours >= 0 && b.minutes >= 0 && b.secs >= 0
    ensures Total(PartsOf(b)) == Some(b.days * DAY + b.hours * HOUR + b.minutes * MINUTE + b.secs)
  {
    LabelValue(b.days, 'd');
    LabelValue(b.hours, 'h');
    LabelValue(b.minutes, 'm');
    LabelValue(b.secs, 's');
    SumOfOptionals(Label(b.days, 'd'), Label(b.hours, 'h'), Label(b.minutes, 'm'), Label(b.secs, 's'),
      b.days, b.hours, b.minutes, b.secs, PartValue);
  }

  /**
   * Reading the parts back gives the uptime: for a non-negative uptime the
   * parts add up to it, so omitting the zero components loses nothing.
   */
  lemma UptimePartsTotal(seconds: int)
    requires seconds >= 0
    ensures Total(UptimeParts(seconds)) == Some(seconds)
  {
    ComponentsDecompose(seconds);
    PartsOfTotal(Components(seconds));
  }

  /** There are one to four parts, none containing a space. */
  lemma PartsOfShape(b: Breakdown)
    ensures 1 <= |PartsOf(b)| <= 4
    ensures forall k :: 0 <= k < |PartsOf(b)| ==> ' ' !in PartsOf(b)[k]
  {
    LabelNoSpace(b.days, 'd');
    LabelNoSpace(b.hours, 'h');
    LabelNoSpace(b.minutes, 'm');
    LabelNoSpace(b.secs, 's');
  }

  /**
   * The parts are never empty and contain no space; the seconds part is
   * present when no other part is, and 0 is shown as "0s".
   */
  lemma UptimePartsShape(seconds: int)
    ensures 1 <= |UptimeParts(seconds)| <= 4
    ensures forall k :: 0 <= k < |UptimeParts(seconds)| ==> ' ' !in UptimeParts(seconds)[k]
    ensures UptimeParts(0) == ["0s"]
    ensures 0 <= seconds < 60 ==> UptimeParts(seconds) == [Label(seconds, 's')]
  {
    PartsOfShape(Components(seconds));
    assert Components(0) == Breakdown(0, 0, 0, 0);
    assert IntToDecimal(0) == "0";
    assert Label(0, 's') == "0s";
    if 0 <= seconds < 60 {
      assert Components(seconds) == Breakdown(0, 0, 0, seconds);
    }
  }

  // ---------------------------------------------------------------------
  // The service

  /** One provider's settings as the report reads them. */
  datatype OAuthClient = OAuthClient(clientId: Option<string>, redirectUri: Option<string>)

  /** The settings the service reads (None where a key is unset). */
  datatype AppConfig = AppConfig(
    nodeEnv: Option<string>,
    apiPrefix: Option<string>,
    corsEnabled: Option<bool>,
    corsOrigins: Option<string>,
    maxConnections: Option<int>,
    sslEnabled: Option<bool>,
    kakao: OAuthClient,
    naver: OAuthClient,
    apple: OAuthClient)

  datatype AppInfo = AppInfo(
    name: string,
    version: string,
    environment: string,
    description: string,
    supportedOAuthProviders: seq<string>,
    apiPrefix: string,
    docsUrl: string)

  datatype DatabaseStatus = DatabaseStatus(status: string, message: Option<string>)

  datatype HealthCheck = HealthCheck(
    status: string,
    timestamp: string,
    environment: string,
    database: DatabaseStatus,
    version: string,
    uptime: int)

  datatype ProviderStatus = ProviderStatus(enabled: bool, redirectUri: Option<string>)

  datatype ConfigStatus = ConfigStatus(
    environment: Option<string>,
    debug: bool,
    corsEnabled: Option<bool>,
    corsOrigins: Option<string>,
    maxConnections: Option<int>,
    sslEnabled: Option<bool>,
    kakao: ProviderStatus,
    naver: ProviderStatus,
    apple: ProviderStatus)

  const HIDDEN := "[hidden in production]"
  const DEFAULT_VERSION := "1.0.0"
  const DEFAULT_ENVIRONMENT := "development"

  /** `configService.get(key, fallback)`: the setting when it is set. */
  function Get(value: Option<string>, fallback: string): (r: string)
    ensures value.Some? ==> r == value.value
    ensures value.None? ==> r == fallback
  {
    match value
    case Some(v) => v
    case None => fallback
  }

  /** The providers the info endpoint advertises. */
  function AdvertisedProviders(): (names: seq<string>)
    ensures names == [ProviderName(KAKAO), ProviderName(NAVER), ProviderName(APPLE)]
  {
    ["kakao", "naver", "apple"]
  }

  /** The advertised providers are exactly the ones the login flows have strategies for. */
  lemma AdvertisedAreRegistered(name: string)
    ensures name in AdvertisedProviders() <==> AuthService.Registered(name)
  {
  }

  /** One provider's entry in the report: enabled iff its client id is truthy; the redirect URI hidden in production. */
  function ProviderReport(client: OAuthClient, production: bool): (s: ProviderStatus)
    ensures s.enabled <==> Truthy(client.clientId)
    ensures production ==> s.redirectUri == Some(HIDDEN)
    ensures !production ==> s.redirectUri == client.redirectUri
  {
    ProviderStatus(Truthy(client.clientId), if production then Some(HIDDEN) else client.redirectUri)
  }

  class AppService {
    /** The clock reading at construction, in milliseconds. */
    const startTime: int
    const config: AppConfig

    constructor(nowMs: int, config: AppConfig)
      ensures startTime == nowMs && this.config == config
    {
      startTime := nowMs;
      this.config := config;
    }

    /** `getAppInfo()`; `npmVersion` is `process.env.npm_package_version`. */
    function GetAppInfo(npmVersion: Option<string>): (info: AppInfo)
      ensures info.supportedOAuthProviders == AdvertisedProviders()
      ensures Truthy(npmVersion) ==> info.version == npmVersion.value
      ensures !Truthy(npmVersion) ==> info.version == DEFAULT_VERSION
      ensures info.environment == Get(config.nodeEnv, DEFAULT_ENVIRONMENT)
      ensures info.apiPrefix == Get(config.apiPrefix, "api")
    {
      AppInfo(
        "OAuth2 Authentication Service",
        if Truthy(npmVersion) then npmVersion.value else DEFAULT_VERSION,
        Get(config.nodeEnv, DEFAULT_ENVIRONMENT),
        "OAuth2 authentication service supporting multiple providers",
        AdvertisedProviders(),
        Get(config.apiPrefix, "api"),
        "/api/docs")
    }

    /**
     * `checkHealth()` at clock reading `nowMs`: `probe` is the database
     * probe's error message, None when the probe succeeded. The status is
     * "ok" exactly when the database is; the uptime is in whole seconds.
     */
    method CheckHealth(probe: Option<string>, nowMs: int, timestamp: string, npmVersion: Option<string>) returns (h: HealthCheck)
      ensures h.status == "ok" <==> probe.None?
      ensures h.status == "ok" || h.status == "error"
      ensures h.database.status == h.status
      ensures probe.None? ==> h.database.message.None?
      ensures probe.Some? ==> h.database.message == Some("Database connection failed: " + probe.value)
      ensures h.uptime * 1000 <= nowMs - startTime < h.uptime * 1000 + 1000
      ensures h.timestamp == timestamp && h.environment == Get(config.nodeEnv, DEFAULT_ENVIRONMENT)
      ensures h.version == GetAppInfo(npmVersion).version
    {
      var databaseStatus := DatabaseStatus("ok", None);
      if probe.Some? {
        databaseStatus := DatabaseStatus("error", Some("Database connection failed: " + probe.value));
      }
      h := HealthCheck(
        if databaseStatus.status == "ok" then "ok" else "error",
        timestamp,
        Get(config.nodeEnv, DEFAULT_ENVIRONMENT),
        databaseStatus,
        if Truthy(npmVersion) then npmVersion.value else DEFAULT_VERSION,
        (nowMs - startTime) / 1000);
    }

    /**
     * `getConfigStatus()`: in production the CORS origins and every
     * redirect URI are replaced by "[hidden in production]"; `debug` is
     * on exactly outside production.
     */
    function GetConfigStatus(): (s: ConfigStatus)
      ensures s.debug <==> config.nodeEnv != Some("production")
      ensures s.environment == config.nodeEnv
      ensures config.nodeEnv == Some("production") ==>
                s.corsOrigins == Some(HIDDEN) && s.kakao.redirectUri == Some(HIDDEN)
                && s.naver.redirectUri == Some(HIDDEN) && s.apple.redirectUri == Some(HIDDEN)
      ensures config.nodeEnv != Some("production") ==>
                s.corsOrigins == config.corsOrigins && s.kakao.redirectUri == config.kakao.redirectUri
                && s.naver.redirectUri == config.naver.redirectUri && s.apple.redirectUri == config.apple.redirectUri
      ensures s.kakao.enabled == Truthy(config.kakao.clientId) && s.naver.enabled == Truthy(config.naver.clientId)
              && s.apple.enabled == Truthy(config.apple.clientId)
    {
      var production := config.nodeEnv == Some("production");
      ConfigStatus(
        config.nodeEnv,
        !production,
        config.corsEnabled,
        if production then Some(HIDDEN) else config.corsOrigins,
        config.maxConnections,
        config.sslEnabled,
        ProviderReport(config.kakao, production),
        ProviderReport(config.naver, production),
        ProviderReport(config.apple, production))
    }

    /**
     * `formatUptime(seconds)`: the non-zero components in day, hour,
     * minute, second order, joined by single spaces, with the seconds
     * shown when nothing else is.
     */
    method FormatUptime(seconds: int) returns (text: string)
      ensures text == Join(UptimeParts(seconds), " ")
      ensures Split(text, ' ') == UptimeParts(seconds)
      ensures seconds >= 0 ==> Total(Split(text, ' ')) == Some(seconds)
    {
      var days := seconds / DAY;
      var hours := JsRem(seconds, DAY) / HOUR;
      var minutes := JsRem(seconds, HOUR) / MINUTE;
      var remainingSeconds := JsRem(seconds, MINUTE);
      var parts: seq<string> := [];
      if days > 0 {
        parts := parts + [Label(days, 'd')];
      }
      if hours > 0 {
        parts := parts + [Label(hours, 'h')];
      }
      if minutes > 0 {
        parts := parts + [Label(minutes, 'm')];
      }
      if remainingSeconds > 0 || |parts| == 0 {
        parts := parts + [Label(remainingSeconds, 's')];
      }
      assert parts == UptimeParts(seconds);
      UptimePartsShape(seconds);
      SplitJoin(parts, ' ');
      if seconds >= 0 {
        UptimePartsTotal(seconds);
      }
      text := Join(parts, " ");
    }

    /** The uptime part of `getMetrics()` at clock reading `nowMs`. */
    method MetricsUptime(nowMs: int) returns (seconds: int, formatted: string)
      ensures seconds * 1000 <= nowMs - startTime < seconds * 1000 + 1000
      ensures formatted == Join(UptimeParts(seconds), " ")
    {
      seconds := (nowMs - startTime) / 1000;
      formatted := FormatUptime(seconds);
    }
  }
}
