/**
 * Provider identifiers, the providers' raw profile shapes and the gateway's
 * normalised profile, with the adapters, the validator and the profile
 * service of src/auth/interfaces/oauth-profile.interface.ts.
 */
module Profiles {
  import opened Wrappers
  import opened JsText
  import opened Exceptions

  datatype Provider = KAKAO | NAVER | APPLE | GOOGLE

  /** The string value of a provider; the enumeration's declaration is not part of this model. */
  function ProviderName(p: Provider): string
  {
    match p
    case KAKAO => "kakao"
    case NAVER => "naver"
    case APPLE => "apple"
    case GOOGLE => "google"
  }

  // ---------------------------------------------------------------------
  // Raw shapes returned by the providers (fields the gateway reads)

  datatype KakaoProperties = KakaoProperties(nickname: Option<string>, profile_image: Option<string>)
  datatype KakaoAccountProfile = KakaoAccountProfile(nickname: Option<string>, profile_image_url: Option<string>)
  datatype KakaoAccount = KakaoAccount(email: Option<string>, profile: Option<KakaoAccountProfile>)
  /** Kakao's `/v2/user/me` response; `id` is a JSON number. */
  datatype KakaoProfile = KakaoProfile(id: int, properties: Option<KakaoProperties>, kakao_account: Option<KakaoAccount>)

  datatype NaverResponse = NaverResponse(
    id: string, nickname: Option<string>, name: Option<string>,
    email: Option<string>, profile_image: Option<string>)
  /** Naver's `/v1/nid/me` envelope. */
  datatype NaverProfile = NaverProfile(resultcode: string, message: string, response: NaverResponse)

  datatype AppleName = AppleName(firstName: Option<string>, lastName: Option<string>)
  /** The claims of a decoded Apple ID token. */
  datatype AppleProfile = AppleProfile(sub: string, email: Option<string>, email_verified: Option<bool>, name: Option<AppleName>)

  /** Google's OpenID Connect userinfo response. */
  datatype GoogleProfile = GoogleProfile(sub: string, email: Option<string>, name: Option<string>, picture: Option<string>)

  datatype RawProfile =
    | KakaoRaw(kakao: KakaoProfile)
    | NaverRaw(naver: NaverProfile)
    | AppleRaw(apple: AppleProfile)
    | GoogleRaw(google: GoogleProfile)

  /** The normalised profile every strategy produces. An absent `id` is the empty string. */
  datatype OAuthProfile = OAuthProfile(
    id: string,
    email: Option<string>,
    name: Option<string>,
    picture: Option<string>,
    provider: Provider,
    emailVerified: Option<bool>,
    raw: Option<RawProfile>)

  // ---------------------------------------------------------------------
  // Optional chaining into the Kakao response

  function AccountProfile(p: KakaoProfile): Option<KakaoAccountProfile>
  {
    match p.kakao_account
    case None => None
    case Some(a) => a.profile
  }

  /** `p.kakao_account?.email` */
  function AccountEmail(p: KakaoProfile): Option<string>
  {
    match p.kakao_account
    case None => None
    case Some(a) => a.email
  }

  /** `p.kakao_account?.profile?.nickname` */
  function AccountNickname(p: KakaoProfile): Option<string>
  {
    match AccountProfile(p)
    case None => None
    case Some(pr) => pr.nickname
  }

  /** `p.kakao_account?.profile?.profile_image_url` */
  function AccountImage(p: KakaoProfile): Option<string>
  {
    match AccountProfile(p)
    case None => None
    case Some(pr) => pr.profile_image_url
  }

  /** `p.properties?.nickname` */
  function PropertiesNickname(p: KakaoProfile): Option<string>
  {
    match p.properties
    case None => None
    case Some(pr) => pr.nickname
  }

  /** `p.properties?.profile_image` */
  function PropertiesImage(p: KakaoProfile): Option<string>
  {
    match p.properties
    case None => None
    case Some(pr) => pr.profile_image
  }

  // ---------------------------------------------------------------------
  // OAuthProfileAdapter

  /** `OAuthProfileAdapter.fromKakao` */
  function FromKakao(p: KakaoProfile): (r: OAuthProfile)
    ensures DecimalToInt(r.id) == Some(p.id)
    ensures r.email == AccountEmail(p)
    ensures Truthy(AccountNickname(p)) ==> r.name == AccountNickname(p)
    ensures !Truthy(AccountNickname(p)) ==> r.name == PropertiesNickname(p)
    ensures Truthy(AccountImage(p)) ==> r.picture == AccountImage(p)
    ensures !Truthy(AccountImage(p)) ==> r.picture == PropertiesImage(p)
    ensures r.provider == KAKAO && r.emailVerified == None && r.raw == Some(KakaoRaw(p))
  {
    IntDecimalRoundTrip(p.id);
    OAuthProfile(
      IntToDecimal(p.id),
      AccountEmail(p),
      Or(AccountNickname(p), PropertiesNickname(p)),
      Or(AccountImage(p), PropertiesImage(p)),
      KAKAO, None, Some(KakaoRaw(p)))
  }

  /** `OAuthProfileAdapter.fromNaver` */
  function FromNaver(p: NaverProfile): (r: OAuthProfile)
    ensures r.id == p.response.id && r.email == p.response.email && r.picture == p.response.profile_image
    ensures Truthy(p.response.name) ==> r.name == p.response.name
    ensures !Truthy(p.response.name) ==> r.name == p.response.nickname
    ensures r.provider == NAVER && r.emailVerified == None && r.raw == Some(NaverRaw(p))
  {
    OAuthProfile(
      p.response.id, p.response.email,
      Or(p.response.name, p.response.nickname),
      p.response.profile_image, NAVER, None, Some(NaverRaw(p)))
  }

  /** `${first || ''} ${last || ''}`.trim() */
  function JoinedName(n: AppleName): (r: string)
    ensures r != [] ==> !IsWhiteSpace(r[0]) && !IsWhiteSpace(r[|r| - 1])
    ensures !Truthy(n.firstName) && !Truthy(n.lastName) ==> r == ""
  {
    var joined := OrEmpty(n.firstName) + " " + OrEmpty(n.lastName);
    assert !Truthy(n.firstName) && !Truthy(n.lastName) ==> joined == " ";
    Trim(joined)
  }

  /** Two names without surrounding white space are joined by exactly one space. */
  lemma JoinedNameOfPlainParts(first: string, last: string)
    requires first != [] && !IsWhiteSpace(first[0]) && !IsWhiteSpace(first[|first| - 1])
    requires last != [] && !IsWhiteSpace(last[0]) && !IsWhiteSpace(last[|last| - 1])
    ensures JoinedName(AppleName(Some(first), Some(last))) == first + " " + last
  {
    var joined := first + " " + last;
    assert joined[0] == first[0] && joined[|joined| - 1] == last[|last| - 1];
  }

  /**
   * A first name alone, padded or not, comes out trimmed, whether the last
   * name is absent or empty.
   */
  lemma JoinedNameOfFirstOnly(pre: string, first: string, post: string, last: Option<string>)
    requires first != [] && !IsWhiteSpace(first[0]) && !IsWhiteSpace(first[|first| - 1])
    requires Blank(pre) && Blank(post) && !Truthy(last)
    ensures JoinedName(AppleName(Some(pre + first + post), last)) == first
  {
    BlankConcat(post, " ");
    assert (pre + first + post) + " " + OrEmpty(last) == pre + first + (post + " ");
    TrimOfPadded(pre, first, post + " ");
  }

  /** The same for a last name alone. */
  lemma JoinedNameOfLastOnly(first: Option<string>, pre: string, last: string, post: string)
    requires last != [] && !IsWhiteSpace(last[0]) && !IsWhiteSpace(last[|last| - 1])
    requires Blank(pre) && Blank(post) && !Truthy(first)
    ensures JoinedName(AppleName(first, Some(pre + last + post))) == last
  {
    BlankConcat(" ", pre);
    assert OrEmpty(first) == "";
    assert "" + " " + (pre + last + post) == (" " + pre) + last + post;
    TrimOfPadded(" " + pre, last, post);
  }

  /**
   * Two given parts: the outer white space goes, the white space between
   * them is kept around the one added space.
   */
  lemma JoinedNameOfPaddedParts(a: string, first: string, b: string, c: string, last: string, d: string)
    requires first != [] && !IsWhiteSpace(first[0]) && !IsWhiteSpace(first[|first| - 1])
    requires last != [] && !IsWhiteSpace(last[0]) && !IsWhiteSpace(last[|last| - 1])
    requires Blank(a) && Blank(b) && Blank(c) && Blank(d)
    ensures JoinedName(AppleName(Some(a + first + b), Some(c + last + d))) == first + b + " " + c + last
  {
    var core := first + b + " " + c + last;
    assert core[0] == first[0] && core[|core| - 1] == last[|last| - 1];
    assert (a + first + b) + " " + (c + last + d) == a + core + d;
    TrimOfPadded(a, core, d);
  }

  /** `OAuthProfileAdapter.fromApple` */
  function FromApple(p: AppleProfile): (r: OAuthProfile)
    ensures r.id == p.sub && r.email == p.email && r.picture == None
    ensures p.name.None? ==> r.name == None
    ensures p.name.Some? ==> r.name == NonEmpty(JoinedName(p.name.value))
    ensures r.name.Some? ==> r.name.value != ""
    ensures r.provider == APPLE && r.emailVerified == None && r.raw == Some(AppleRaw(p))
  {
    var name := match p.name
      case None => None
      case Some(n) => NonEmpty(JoinedName(n));
    OAuthProfile(p.sub, p.email, name, None, APPLE, None, Some(AppleRaw(p)))
  }

  // ---------------------------------------------------------------------
  // OAuthProfileValidator

  /**
   * `OAuthProfileValidator.validate`: the thrown error, if any. The provider
   * is a non-optional enumeration value here, so only the id check can fail.
   */
  function Validate(profile: OAuthProfile): (r: Option<Exception>)
    ensures r.Some? <==> profile.id == ""
    ensures r.Some? ==> r.value == Plain("Profile ID is required")
  {
    if profile.id == "" then Some(Plain("Profile ID is required")) else None
  }

  /** Neither white space nor `@`: the class `[^\s@]`. */
  predicate PlainRun(t: string) {
    forall k :: 0 <= k < |t| ==> !IsWhiteSpace(t[k]) && t[k] != '@'
  }

  /** A match of `^[^\s@]+@[^\s@]+\.[^\s@]+$`, split at its `@` and at the `.` it uses. */
  predicate MatchesEmailRegex(s: string) {
    exists i, j | 0 < i && i + 1 < j && j + 1 < |s| ::
      s[i] == '@' && s[j] == '.' && PlainRun(s[..i]) && PlainRun(s[i + 1..j]) && PlainRun(s[j + 1..])
  }

  /** `OAuthProfileValidator.validateEmail`: an absent or empty e-mail is valid. */
  function ValidateEmail(email: Option<string>): bool
  {
    !Truthy(email) || MatchesEmailRegex(email.value)
  }

  predicate HasInnerDot(d: string) {
    exists j :: 0 < j < |d| - 1 && d[j] == '.'
  }

  /**
   * The shape the regular expression accepts, stated without it: no white
   * space, exactly one `@` with something before it, and a `.` in the domain
   * with at least one character on each side.
   */
  predicate EmailShape(s: string) {
    var i := IndexOf(s, '@');
    (forall k :: 0 <= k < |s| ==> !IsWhiteSpace(s[k]))
    && Count(s, '@') == 1 && 0 < i < |s| && HasInnerDot(s[i + 1..])
  }

  /** A run, a dot and a run have no white space and no `@`. */
  lemma PlainAroundDot(a: string, b: string)
    requires PlainRun(a) && PlainRun(b)
    ensures PlainRun(a + ['.'] + b)
  {
    var t := a + ['.'] + b;
    forall k | 0 <= k < |t|
      ensures !IsWhiteSpace(t[k]) && t[k] != '@'
    {
      if k < |a| {
        assert t[k] == a[k];
      } else if k > |a| {
        assert t[k] == b[k - |a| - 1];
      }
    }
  }

  /** Every slice of a plain run is a plain run. */
  lemma PlainSlice(t: string, lo: nat, hi: nat)
    requires PlainRun(t) && lo <= hi <= |t|
    ensures PlainRun(t[lo..hi])
  {
    var u := t[lo..hi];
    forall k | 0 <= k < |u|
      ensures !IsWhiteSpace(u[k]) && u[k] != '@'
    {
      assert u[k] == t[lo + k];
    }
  }

  /** Joining a plain local part and a plain domain with `@` leaves no white space. */
  lemma NoWhiteSpaceAround(local: string, domain: string)
    requires PlainRun(local) && PlainRun(domain)
    ensures var s := local + ['@'] + domain;
      forall k :: 0 <= k < |s| ==> !IsWhiteSpace(s[k])
  {
    var s := local + ['@'] + domain;
    forall k | 0 <= k < |s|
      ensures !IsWhiteSpace(s[k])
    {
      if k < |local| {
        assert s[k] == local[k];
      } else if k > |local| {
        assert s[k] == domain[k - |local| - 1];
      }
    }
  }

  /** A plain local part and a plain domain joined by `@` hold that one `@`. */
  lemma OneAtAround(local: string, domain: string)
    requires PlainRun(local) && PlainRun(domain)
    ensures Count(local + ['@'] + domain, '@') == 1
    ensures IndexOf(local + ['@'] + domain, '@') == |local|
  {
    IndexOfAfter(local, '@', domain);
    CountAppend(local + ['@'], domain, '@');
    CountAppend(local, ['@'], '@');
    CountAbsent(local, '@');
    CountAbsent(domain, '@');
  }

  /** The regular expression's three runs put together have the shape. */
  lemma ShapeOfParts(local: string, domain: string)
    requires local != [] && PlainRun(local) && PlainRun(domain) && HasInnerDot(domain)
    ensures EmailShape(local + ['@'] + domain)
  {
    var s := local + ['@'] + domain;
    NoWhiteSpaceAround(local, domain);
    OneAtAround(local, domain);
    assert s[|local| + 1..] == domain;
  }

  /** The match at `@` position `i` and `.` position `j` splits `s` into the three runs. */
  lemma MatchAtGivesShape(s: string, i: nat, j: nat)
    requires 0 < i && i + 1 < j && j + 1 < |s| && s[i] == '@' && s[j] == '.'
    requires PlainRun(s[..i]) && PlainRun(s[i + 1..j]) && PlainRun(s[j + 1..])
    ensures EmailShape(s)
  {
    var local, host, top := s[..i], s[i + 1..j], s[j + 1..];
    var domain := host + ['.'] + top;
    PlainAroundDot(host, top);
    assert domain[|host|] == '.';
    assert s[i + 1..] == domain;
    assert s == local + ['@'] + s[i + 1..];
    ShapeOfParts(local, domain);
  }

  lemma RegexGivesShape(s: string)
    requires MatchesEmailRegex(s)
    ensures EmailShape(s)
  {
    var i: nat, j: nat :| 0 < i && i + 1 < j && j + 1 < |s| && s[i] == '@' && s[j] == '.'
      && PlainRun(s[..i]) && PlainRun(s[i + 1..j]) && PlainRun(s[j + 1..]);
    MatchAtGivesShape(s, i, j);
  }

  lemma ShapeGivesRegex(s: string)
    requires EmailShape(s)
    ensures MatchesEmailRegex(s)
  {
    var i := IndexOf(s, '@');
    var local, domain := s[..i], s[i + 1..];
    var d :| 0 < d < |domain| - 1 && domain[d] == '.';
    var j := i + 1 + d;
    assert s == local + ['@'] + domain;
    CountAppend(local + ['@'], domain, '@');
    CountAppend(local, ['@'], '@');
    assert '@' !in local;
    CountAbsent(local, '@');
    if '@' in domain {
      CountPresent(domain, '@');
    }
    assert PlainRun(domain) by {
      forall k | 0 <= k < |domain|
        ensures !IsWhiteSpace(domain[k]) && domain[k] != '@'
      {
        assert domain[k] == s[i + 1 + k];
      }
    }
    PlainSlice(domain, 0, d);
    PlainSlice(domain, d + 1, |domain|);
    assert s[i + 1..j] == domain[0..d];
    assert s[j + 1..] == domain[d + 1..|domain|];
    assert s[j] == '.';
    assert PlainRun(s[..i]);
  }

  /** `validateEmail` accepts exactly the absent, the empty and the well-shaped addresses. */
  lemma ValidateEmailMeaning(email: Option<string>)
    ensures ValidateEmail(email) <==> !Truthy(email) || EmailShape(email.value)
  {
    if Truthy(email) {
      if MatchesEmailRegex(email.value) {
        RegexGivesShape(email.value);
      }
      if EmailShape(email.value) {
        ShapeGivesRegex(email.value);
      }
    }
  }

  /** Two witnesses: a plain address passes, one without a dot in its domain does not. */
  lemma ValidateEmailExamples()
    ensures ValidateEmail(Some("a@b.c"))
    ensures !ValidateEmail(Some("a@bc"))
    ensures ValidateEmail(Some("")) && ValidateEmail(None)
  {
    var s := "a@b.c";
    assert s[..1] == "a" && s[2..3] == "b" && s[4..] == "c";
    assert s[1] == '@' && s[3] == '.';
    ValidateEmailMeaning(Some("a@bc"));
    var t := "a@bc";
    assert IndexOf(t, '@') == 1 by {
      assert t == "a" + ['@'] + "bc";
      IndexOfAfter("a", '@', "bc");
    }
    assert t[2..] == "bc";
  }

  // ---------------------------------------------------------------------
  // OAuthProfileService

  /** `normalizeProfileImageUrl`: a leading `http:` becomes `https:`. */
  function NormalizeProfileImageUrl(url: string): (r: string)
    ensures StartsWith(url, "http:") ==> r == "https:" + url[5..]
    ensures !StartsWith(url, "http:") ==> r == url
    ensures !StartsWith(r, "http:")
  {
    if StartsWith(url, "http:") then
      var r := "https:" + url[5..];
      assert r[4] == 's';
      r
    else url
  }

  lemma NormalizeIdempotent(url: string)
    ensures NormalizeProfileImageUrl(NormalizeProfileImageUrl(url)) == NormalizeProfileImageUrl(url)
  {
  }

  /** The adapter `processProfile` picks for `provider`, if it has one. */
  predicate Adapts(provider: Provider, raw: RawProfile) {
    match provider
    case KAKAO => raw.KakaoRaw?
    case NAVER => raw.NaverRaw?
    case APPLE => raw.AppleRaw?
    case GOOGLE => true
  }

  function Adapt(provider: Provider, raw: RawProfile): Option<OAuthProfile>
    requires Adapts(provider, raw)
  {
    match provider
    case KAKAO => Some(FromKakao(raw.kakao))
    case NAVER => Some(FromNaver(raw.naver))
    case APPLE => Some(FromApple(raw.apple))
    case GOOGLE => None
  }

  /** The profile with its picture normalised when it is a non-empty string. */
  function WithNormalizedPicture(profile: OAuthProfile): OAuthProfile
  {
    if Truthy(profile.picture)
    then profile.(picture := Some(NormalizeProfileImageUrl(profile.picture.value)))
    else profile
  }

  /**
   * `OAuthProfileService.processProfile`. The record the adapter builds is a
   * fresh local, so assigning its `picture` is modelled as a record update.
   */
  function ProcessProfile(provider: Provider, raw: RawProfile): (r: Result<OAuthProfile, Exception>)
    requires Adapts(provider, raw)
    ensures provider == GOOGLE ==> r == Failure(Plain("Unsupported provider: " + ProviderName(GOOGLE)))
    ensures provider != GOOGLE && Adapt(provider, raw).value.id == "" ==> r == Failure(Plain("Profile ID is required"))
    ensures provider != GOOGLE && Adapt(provider, raw).value.id != "" && !ValidateEmail(Adapt(provider, raw).value.email)
            ==> r == Failure(Plain("Invalid email format"))
    ensures r.Success? <==> provider != GOOGLE && Adapt(provider, raw).value.id != "" && ValidateEmail(Adapt(provider, raw).value.email)
    ensures r.Success? ==> r.value == WithNormalizedPicture(Adapt(provider, raw).value)
  {
    match Adapt(provider, raw)
    case None => Failure(Plain("Unsupported provider: " + ProviderName(provider)))
    case Some(profile) =>
      match Validate(profile)
      case Some(e) => Failure(e)
      case None =>
        if Truthy(profile.email) && !ValidateEmail(profile.email) then Failure(Plain("Invalid email format"))
        else Success(WithNormalizedPicture(profile))
  }

  /**
   * The processed profile differs from the adapter's output at most in its
   * picture, and its picture never starts with `http:`.
   */
  lemma ProcessProfileOnlyTouchesPicture(provider: Provider, raw: RawProfile)
    requires Adapts(provider, raw)
    requires ProcessProfile(provider, raw).Success?
    ensures var p, a := ProcessProfile(provider, raw).value, Adapt(provider, raw).value;
      p.(picture := a.picture) == a
      && (p.picture.Some? ==> !StartsWith(p.picture.value, "http:"))
  {
  }
}
