/**
 * src/users/users.service.ts: the user and provider-token store. The
 * database is three in-memory tables held by the service object; the unique
 * constraints the store enforces are the class invariant, and a write that
 * would break one fails with the store's error instead of happening.
 */
module Users {
  import opened Wrappers
  import opened JsText
  import opened Exceptions
  import opened Profiles
  import opened Tables

  /** A user row; `emailVerified` is a time in milliseconds. */
  datatype User = User(
    id: string,
    email: Option<string>,
    name: Option<string>,
    picture: Option<string>,
    provider: string,
    providerId: string,
    emailVerified: Option<int>)

  /** A linked provider account with the raw profile it last reported. */
  datatype Credential = Credential(userId: string, provider: string, providerId: string, profile: Option<RawProfile>, updatedAt: int)

  /** A provider token row; `expiresAt` is a time in milliseconds. */
  datatype OAuthToken = OAuthToken(
    id: string,
    userId: string,
    provider: string,
    accessToken: string,
    refreshToken: Option<string>,
    expiresAt: int)

  /** The argument of `createUser`. */
  datatype NewUser = NewUser(email: Option<string>, name: Option<string>, picture: Option<string>, providerId: string, provider: Provider)

  /** The argument of `upsertOAuthToken`; an absent refresh token is `None`. */
  datatype TokenData = TokenData(userId: string, provider: Provider, accessToken: string, refreshToken: Option<string>, expiresAt: int)

  /** The argument of `updateUser`: `None` leaves a column unchanged. */
  datatype UserPatch = UserPatch(email: Option<string>, name: Option<string>, picture: Option<string>)

  const UNIQUE_VIOLATION := "P2002"
  const FOREIGN_KEY_VIOLATION := "P2003"
  const RECORD_NOT_FOUND := "P2025"

  /** The store's error for a code. */
  function StoreFailure(code: string): Exception
  {
    Store(code,
      if code == UNIQUE_VIOLATION then "Unique constraint failed"
      else if code == FOREIGN_KEY_VIOLATION then "Foreign key constraint failed"
      else "Record not found")
  }

  /** How `updateUserProfile` reports a store error. */
  function ProfileUpdateFailure(code: string): Exception
  {
    InternalServerError("Failed to update user profile: " + StoreFailure(code).message)
  }

  // ---------------------------------------------------------------------
  // Constraints

  /** Users are unique on id, on (provider, providerId) and on a present email. */
  predicate UserClash(a: User, b: User) {
    a.id == b.id || (a.provider == b.provider && a.providerId == b.providerId) || (a.email.Some? && a.email == b.email)
  }

  /** Credentials are unique on (provider, userId). */
  predicate CredentialClash(a: Credential, b: Credential) {
    a.provider == b.provider && a.userId == b.userId
  }

  /**
   * Token rows are unique on id; at most one row per (userId, provider) is
   * not a store constraint but what `upsertOAuthToken` maintains.
   */
  predicate TokenClash(a: OAuthToken, b: OAuthToken) {
    a.id == b.id || (a.userId == b.userId && a.provider == b.provider)
  }

  predicate UserClashesAny(us: seq<User>, u: User) {
    exists i :: 0 <= i < |us| && UserClash(us[i], u)
  }

  predicate CredentialClashesAny(cs: seq<Credential>, c: Credential) {
    exists i :: 0 <= i < |cs| && CredentialClash(cs[i], c)
  }

  predicate TokenIdTaken(ts: seq<OAuthToken>, id: string) {
    exists i :: 0 <= i < |ts| && ts[i].id == id
  }

  // ---------------------------------------------------------------------
  // Lookups (first matching row, or the table's length)

  function UserByKey(us: seq<User>, provider: string, providerId: string): (i: nat)
    ensures i <= |us|
    ensures i < |us| ==> us[i].provider == provider && us[i].providerId == providerId
    ensures forall j :: 0 <= j < i ==> !(us[j].provider == provider && us[j].providerId == providerId)
  {
    if us == [] then 0
    else if us[0].provider == provider && us[0].providerId == providerId then 0
    else 1 + UserByKey(us[1..], provider, providerId)
  }

  function UserById(us: seq<User>, id: string): (i: nat)
    ensures i <= |us|
    ensures i < |us| ==> us[i].id == id
    ensures forall j :: 0 <= j < i ==> us[j].id != id
  {
    if us == [] then 0
    else if us[0].id == id then 0
    else 1 + UserById(us[1..], id)
  }

  function UserByEmail(us: seq<User>, email: string): (i: nat)
    ensures i <= |us|
    ensures i < |us| ==> us[i].email == Some(email)
    ensures forall j :: 0 <= j < i ==> us[j].email != Some(email)
  {
    if us == [] then 0
    else if us[0].email == Some(email) then 0
    else 1 + UserByEmail(us[1..], email)
  }

  function CredentialFor(cs: seq<Credential>, provider: string, userId: string): (i: nat)
    ensures i <= |cs|
    ensures i < |cs| ==> cs[i].provider == provider && cs[i].userId == userId
    ensures forall j :: 0 <= j < i ==> !(cs[j].provider == provider && cs[j].userId == userId)
  {
    if cs == [] then 0
    else if cs[0].provider == provider && cs[0].userId == userId then 0
    else 1 + CredentialFor(cs[1..], provider, userId)
  }

  function TokenFor(ts: seq<OAuthToken>, userId: string, provider: string): (i: nat)
    ensures i <= |ts|
    ensures i < |ts| ==> ts[i].userId == userId && ts[i].provider == provider
    ensures forall j :: 0 <= j < i ==> !(ts[j].userId == userId && ts[j].provider == provider)
  {
    if ts == [] then 0
    else if ts[0].userId == userId && ts[0].provider == provider then 0
    else 1 + TokenFor(ts[1..], userId, provider)
  }

  /** The number of token rows for (userId, provider). */
  function RowsFor(ts: seq<OAuthToken>, userId: string, provider: string): nat
  {
    if ts == [] then 0
    else (if ts[0].userId == userId && ts[0].provider == provider then 1 else 0) + RowsFor(ts[1..], userId, provider)
  }

  lemma {:induction false} RowsForNone(ts: seq<OAuthToken>, userId: string, provider: string)
    requires forall j :: 0 <= j < |ts| ==> !(ts[j].userId == userId && ts[j].provider == provider)
    ensures RowsFor(ts, userId, provider) == 0
  {
    if ts != [] {
      RowsForNone(ts[1..], userId, provider);
    }
  }

  lemma {:induction false} RowsForFound(ts: seq<OAuthToken>, userId: string, provider: string)
    requires TokenFor(ts, userId, provider) < |ts|
    ensures RowsFor(ts, userId, provider) >= 1
  {
    if !(ts[0].userId == userId && ts[0].provider == provider) {
      RowsForFound(ts[1..], userId, provider);
    }
  }

  /** Under the token invariant a (userId, provider) pair has at most one row. */
  lemma {:induction false} AtMostOneRow(ts: seq<OAuthToken>, userId: string, provider: string)
    requires Pairwise(ts, TokenClash)
    ensures RowsFor(ts, userId, provider) <= 1
  {
    if ts != [] {
      var tail := ts[1..];
      if ts[0].userId == userId && ts[0].provider == provider {
        forall j | 0 <= j < |tail| ensures !(tail[j].userId == userId && tail[j].provider == provider) {
          assert tail[j] == ts[j + 1];
          assert !TokenClash(ts[0], ts[j + 1]);
        }
        RowsForNone(tail, userId, provider);
      } else {
        assert Pairwise(tail, TokenClash) by {
          forall i, j | 0 <= i < j < |tail| ensures !TokenClash(tail[i], tail[j]) {
            assert tail[i] == ts[i + 1] && tail[j] == ts[j + 1];
          }
        }
        AtMostOneRow(tail, userId, provider);
      }
    }
  }

  // ---------------------------------------------------------------------
  // Row transformations

  /** The created token row. */
  function NewTokenRow(id: string, d: TokenData): OAuthToken
  {
    OAuthToken(id, d.userId, ProviderName(d.provider), d.accessToken, d.refreshToken, d.expiresAt)
  }

  /**
   * The updated token row: the access token and expiry are replaced; the
   * refresh token only when one is given, because the store leaves a column
   * whose new value is undefined unchanged.
   */
  function RefreshedRow(t: OAuthToken, d: TokenData): OAuthToken
  {
    t.(accessToken := d.accessToken,
       refreshToken := if d.refreshToken.Some? then d.refreshToken else t.refreshToken,
       expiresAt := d.expiresAt)
  }

  /** The token table after `upsertOAuthToken` succeeds. */
  function UpsertRows(ts: seq<OAuthToken>, d: TokenData, newId: string): seq<OAuthToken>
  {
    var i := TokenFor(ts, d.userId, ProviderName(d.provider));
    if i < |ts| then ts[i := RefreshedRow(ts[i], d)] else ts + [NewTokenRow(newId, d)]
  }

  /**
   * Upsert updates the pair's row in place (same id, user and provider) and
   * leaves every other row alone, or appends exactly one new row. Either
   * way the pair's row then carries the new access token and expiry, and
   * the new refresh token if one was given.
   */
  lemma UpsertRowsEffect(ts: seq<OAuthToken>, d: TokenData, newId: string)
    ensures var i, r := TokenFor(ts, d.userId, ProviderName(d.provider)), UpsertRows(ts, d, newId);
      && (i < |ts| ==> |r| == |ts| && r[i].id == ts[i].id && (forall j :: 0 <= j < |ts| && j != i ==> r[j] == ts[j]))
      && (i == |ts| ==> |r| == |ts| + 1 && r[..|ts|] == ts && r[|ts|].id == newId)
      && i < |r| && r[i].userId == d.userId && r[i].provider == ProviderName(d.provider)
      && r[i].accessToken == d.accessToken && r[i].expiresAt == d.expiresAt
      && (d.refreshToken.Some? ==> r[i].refreshToken == d.refreshToken)
      && (d.refreshToken.None? && i < |ts| ==> r[i].refreshToken == ts[i].refreshToken)
  {
  }

  /** Upserting keeps the token invariant when a created row gets a fresh id. */
  lemma UpsertKeepsUnique(ts: seq<OAuthToken>, d: TokenData, newId: string)
    requires Pairwise(ts, TokenClash)
    requires TokenFor(ts, d.userId, ProviderName(d.provider)) == |ts| ==> !TokenIdTaken(ts, newId)
    ensures Pairwise(UpsertRows(ts, d, newId), TokenClash)
  {
    var i := TokenFor(ts, d.userId, ProviderName(d.provider));
    if i < |ts| {
      var x := RefreshedRow(ts[i], d);
      forall j | 0 <= j < |ts| && j != i
        ensures !TokenClash(ts[j], x) && !TokenClash(x, ts[j])
      {
        if j < i {
          assert !TokenClash(ts[j], ts[i]);
        } else {
          assert !TokenClash(ts[i], ts[j]);
        }
      }
      PairwiseUpdate(ts, i, x, TokenClash);
    } else {
      PairwiseAppend(ts, NewTokenRow(newId, d), TokenClash);
    }
  }

  /** After an upsert that keeps the invariant, the pair has exactly one row. */
  lemma UpsertLeavesOneRow(ts: seq<OAuthToken>, d: TokenData, newId: string)
    requires Pairwise(ts, TokenClash)
    requires TokenFor(ts, d.userId, ProviderName(d.provider)) == |ts| ==> !TokenIdTaken(ts, newId)
    ensures RowsFor(UpsertRows(ts, d, newId), d.userId, ProviderName(d.provider)) == 1
  {
    var r := UpsertRows(ts, d, newId);
    UpsertKeepsUnique(ts, d, newId);
    UpsertRowsEffect(ts, d, newId);
    AtMostOneRow(r, d.userId, ProviderName(d.provider));
    RowsForFound(r, d.userId, ProviderName(d.provider));
  }

  /** The token table after `removeToken`: the first row of the pair, if any, is gone. */
  function RemovePair(ts: seq<OAuthToken>, userId: string, provider: string): seq<OAuthToken>
  {
    var i := TokenFor(ts, userId, provider);
    if i < |ts| then ts[..i] + ts[i + 1..] else ts
  }

  /**
   * Under the token invariant removal leaves no row for the pair and keeps
   * the invariant, so removing twice is the same as removing once.
   */
  lemma RemovePairIdempotent(ts: seq<OAuthToken>, userId: string, provider: string)
    requires Pairwise(ts, TokenClash)
    ensures Pairwise(RemovePair(ts, userId, provider), TokenClash)
    ensures RowsFor(RemovePair(ts, userId, provider), userId, provider) == 0
    ensures RemovePair(RemovePair(ts, userId, provider), userId, provider) == RemovePair(ts, userId, provider)
  {
    var i := TokenFor(ts, userId, provider);
    var r := RemovePair(ts, userId, provider);
    if i < |ts| {
      PairwiseRemove(ts, i, TokenClash);
      forall j | 0 <= j < |r| ensures !(r[j].userId == userId && r[j].provider == provider) {
        if j < i {
          assert r[j] == ts[j];
        } else {
          assert r[j] == ts[j + 1];
          assert !TokenClash(ts[i], ts[j + 1]);
        }
      }
    }
    RowsForNone(r, userId, provider);
  }

  /** The user `findOrCreateByOAuth` creates; `nameUuid` is the second generated UUID. */
  function NewUserFrom(provider: string, profile: OAuthProfile, newId: string, nameUuid: string, nowMs: int): (u: User)
    ensures u.id == newId && u.provider == provider && u.providerId == profile.id
    ensures u.email == profile.email && u.picture == profile.picture
    ensures Truthy(profile.name) ==> u.name == profile.name
    ensures !Truthy(profile.name) ==> u.name == Some("User_" + Take(nameUuid, 8))
    ensures u.name.Some? && u.name.value != ""
    ensures u.emailVerified.Some? <==> Truthy(profile.email)
    ensures u.emailVerified.Some? ==> u.emailVerified.value == nowMs
  {
    User(newId, profile.email, Or(profile.name, Some("User_" + Take(nameUuid, 8))), profile.picture,
         provider, profile.id, if Truthy(profile.email) then Some(nowMs) else None)
  }

  /**
   * The user after `updateUserProfile`: name, picture and email are
   * overwritten only by non-empty values, and a new email also stamps
   * `emailVerified`.
   */
  function MergeProfile(u: User, profile: OAuthProfile, nowMs: int): User
  {
    u.(name := if Truthy(profile.name) then profile.name else u.name,
       picture := if Truthy(profile.picture) then profile.picture else u.picture,
       email := if Truthy(profile.email) then profile.email else u.email,
       emailVerified := if Truthy(profile.email) then Some(nowMs) else u.emailVerified)
  }

  /**
   * Merging never touches the row's identity, never erases a column, and
   * merging the same profile again changes nothing but the verification time.
   */
  lemma MergeProfileProperties(u: User, profile: OAuthProfile, t1: int, t2: int)
    ensures var m := MergeProfile(u, profile, t1);
      m.id == u.id && m.provider == u.provider && m.providerId == u.providerId
      && (u.name.Some? ==> m.name.Some?) && (u.picture.Some? ==> m.picture.Some?)
      && (u.email.Some? ==> m.email.Some?)
      && (!Truthy(profile.name) && !Truthy(profile.picture) && !Truthy(profile.email) ==> m == u)
      && MergeProfile(m, profile, t2) == MergeProfile(u, profile, t2)
  {
  }

  /** The credential after `updateUserProfile`: the raw profile, when given, and the update time. */
  function TouchCredential(c: Credential, profile: OAuthProfile, nowMs: int): Credential
  {
    c.(profile := if profile.raw.Some? then profile.raw else c.profile, updatedAt := nowMs)
  }

  /** The user after `updateUser`: every given column is written, even an empty one. */
  function ApplyPatch(u: User, patch: UserPatch): User
  {
    u.(email := if patch.email.Some? then patch.email else u.email,
       name := if patch.name.Some? then patch.name else u.name,
       picture := if patch.picture.Some? then patch.picture else u.picture)
  }

  /** A user row can take a new email when no other row has it. */
  predicate EmailFreeFor(us: seq<User>, k: nat, email: Option<string>) {
    email.None? || forall j :: 0 <= j < |us| && j != k ==> us[j].email != email
  }

  /** Replacing row `k` by a row with the same identity and a free email keeps the user constraints. */
  lemma ReplaceUserKeepsUnique(us: seq<User>, k: nat, x: User)
    requires Pairwise(us, UserClash) && k < |us|
    requires x.id == us[k].id && x.provider == us[k].provider && x.providerId == us[k].providerId
    requires x.email == us[k].email || EmailFreeFor(us, k, x.email)
    ensures Pairwise(us[k := x], UserClash)
  {
    forall j | 0 <= j < |us| && j != k
      ensures !UserClash(us[j], x) && !UserClash(x, us[j])
    {
      if j < k {
        assert !UserClash(us[j], us[k]);
      } else {
        assert !UserClash(us[k], us[j]);
      }
    }
    PairwiseUpdate(us, k, x, UserClash);
  }

  // ---------------------------------------------------------------------
  // The service

  class UsersService {
    var users: seq<User>
    var credentials: seq<Credential>
    var oauthTokens: seq<OAuthToken>

    /** The store's unique constraints and the one-token-per-pair invariant. */
    predicate Valid()
      reads this
    {
      Pairwise(users, UserClash) && Pairwise(credentials, CredentialClash) && Pairwise(oauthTokens, TokenClash)
    }

    constructor()
      ensures Valid()
      ensures users == [] && credentials == [] && oauthTokens == []
    {
      users, credentials, oauthTokens := [], [], [];
    }

    /** `createUser(data)`; `newId` is the id the store generates. */
    method CreateUser(data: NewUser, newId: string) returns (r: Result<User, Exception>)
      requires Valid()
      modifies this
      ensures Valid()
      ensures credentials == old(credentials) && oauthTokens == old(oauthTokens)
      ensures var u := User(newId, data.email, data.name, data.picture, ProviderName(data.provider), data.providerId, None);
        && (r.Success? <==> !UserClashesAny(old(users), u))
        && (r.Success? ==> r.value == u && users == old(users) + [u])
        && (r.Failure? ==> r.error == StoreFailure(UNIQUE_VIOLATION) && users == old(users))
    {
      var u := User(newId, data.email, data.name, data.picture, ProviderName(data.provider), data.providerId, None);
      if UserClashesAny(users, u) {
        r := Failure(StoreFailure(UNIQUE_VIOLATION));
      } else {
        PairwiseAppend(users, u, UserClash);
        users := users + [u];
        r := Success(u);
      }
    }

    /** `findByProvider(providerId, provider)` */
    method FindByProvider(providerId: string, provider: Provider) returns (r: Option<User>)
      ensures r.Some? ==> r.value in users && r.value.providerId == providerId && r.value.provider == ProviderName(provider)
      ensures r.None? ==> forall u :: u in users ==> !(u.providerId == providerId && u.provider == ProviderName(provider))
    {
      var i := 0;
      while i < |users|
        invariant 0 <= i <= |users|
        invariant forall j :: 0 <= j < i ==> !(users[j].providerId == providerId && users[j].provider == ProviderName(provider))
      {
        if users[i].providerId == providerId && users[i].provider == ProviderName(provider) {
          return Some(users[i]);
        }
        i := i + 1;
      }
      return None;
    }

    /** `findById(id)` */
    method FindById(id: string) returns (r: Option<User>)
      ensures r.Some? ==> r.value in users && r.value.id == id
      ensures r.None? ==> forall u :: u in users ==> u.id != id
    {
      var i := 0;
      while i < |users|
        invariant 0 <= i <= |users|
        invariant forall j :: 0 <= j < i ==> users[j].id != id
      {
        if users[i].id == id {
          return Some(users[i]);
        }
        i := i + 1;
      }
      return None;
    }

    /** `findByEmail(email)` */
    method FindByEmail(email: string) returns (r: Option<User>)
      ensures r.Some? ==> r.value in users && r.value.email == Some(email)
      ensures r.None? ==> forall u :: u in users ==> u.email != Some(email)
    {
      var i := 0;
      while i < |users|
        invariant 0 <= i <= |users|
        invariant forall j :: 0 <= j < i ==> users[j].email != Some(email)
      {
        if users[i].email == Some(email) {
          return Some(users[i]);
        }
        i := i + 1;
      }
      return None;
    }

    /** `findValidToken(userId, provider)` at clock reading `nowMs`: only a row expiring strictly later. */
    method FindValidToken(userId: string, provider: Provider, nowMs: int) returns (r: Option<OAuthToken>)
      ensures r.Some? ==> r.value in oauthTokens && r.value.userId == userId
                          && r.value.provider == ProviderName(provider) && r.value.expiresAt > nowMs
      ensures r.None? ==> forall t :: t in oauthTokens && t.userId == userId && t.provider == ProviderName(provider)
                                      ==> t.expiresAt <= nowMs
    {
      var i := 0;
      while i < |oauthTokens|
        invariant 0 <= i <= |oauthTokens|
        invariant forall j :: 0 <= j < i && oauthTokens[j].userId == userId && oauthTokens[j].provider == ProviderName(provider)
                              ==> oauthTokens[j].expiresAt <= nowMs
      {
        var t := oauthTokens[i];
        if t.userId == userId && t.provider == ProviderName(provider) && t.expiresAt > nowMs {
          return Some(t);
        }
        i := i + 1;
      }
      return None;
    }

    /**
     * `upsertOAuthToken(data)`; `newId` is the id the store generates for a
     * created row. The update path cannot fail. A created row needs an
     * existing user; its failure is not awaited inside the try, so the
     * store's error escapes unwrapped.
     */
    method UpsertOAuthToken(d: TokenData, newId: string) returns (r: Result<OAuthToken, Exception>)
      requires Valid()
      modifies this
      ensures Valid()
      ensures users == old(users) && credentials == old(credentials)
      ensures var i := TokenFor(old(oauthTokens), d.userId, ProviderName(d.provider));
        i < |old(oauthTokens)| ==> r.Success? && r.value == RefreshedRow(old(oauthTokens)[i], d)
      ensures var i := TokenFor(old(oauthTokens), d.userId, ProviderName(d.provider));
        i == |old(oauthTokens)| ==>
          && (r.Success? <==> UserById(users, d.userId) < |users| && !TokenIdTaken(old(oauthTokens), newId))
          && (r.Success? ==> r.value == NewTokenRow(newId, d))
          && (UserById(users, d.userId) == |users| ==> r == Failure(StoreFailure(FOREIGN_KEY_VIOLATION)))
          && (UserById(users, d.userId) < |users| && r.Failure? ==> r == Failure(StoreFailure(UNIQUE_VIOLATION)))
      ensures r.Success? ==> oauthTokens == UpsertRows(old(oauthTokens), d, newId)
      ensures r.Failure? ==> oauthTokens == old(oauthTokens)
    {
      var i := TokenFor(oauthTokens, d.userId, ProviderName(d.provider));
      if i < |oauthTokens| {
        UpsertKeepsUnique(oauthTokens, d, newId);
        var row := RefreshedRow(oauthTokens[i], d);
        oauthTokens := oauthTokens[i := row];
        r := Success(row);
      } else if UserById(users, d.userId) == |users| {
        r := Failure(StoreFailure(FOREIGN_KEY_VIOLATION));
      } else if TokenIdTaken(oauthTokens, newId) {
        r := Failure(StoreFailure(UNIQUE_VIOLATION));
      } else {
        UpsertKeepsUnique(oauthTokens, d, newId);
        var row := NewTokenRow(newId, d);
        oauthTokens := oauthTokens + [row];
        r := Success(row);
      }
    }

    /**
     * `updateUserProfile(userId, profile)` at clock reading `nowMs`: the
     * merged user and the touched credential are written together or not
     * at all; every store error becomes InternalServerError.
     */
    method UpdateUserProfile(userId: string, profile: OAuthProfile, nowMs: int) returns (r: Result<User, Exception>)
      requires Valid()
      modifies this
      ensures Valid()
      ensures oauthTokens == old(oauthTokens)
      ensures var k, c := UserById(old(users), userId), CredentialFor(old(credentials), ProviderName(profile.provider), userId);
        && (r.Success? <==> k < |old(users)| && c < |old(credentials)|
                            && (Truthy(profile.email) ==> EmailFreeFor(old(users), k, profile.email)))
        && (r.Success? ==> r.value == MergeProfile(old(users)[k], profile, nowMs)
                           && users == old(users)[k := r.value]
                           && credentials == old(credentials)[c := TouchCredential(old(credentials)[c], profile, nowMs)])
      ensures r.Failure? ==> users == old(users) && credentials == old(credentials)
      ensures r.Failure? ==> r.error == ProfileUpdateFailure(RECORD_NOT_FOUND) || r.error == ProfileUpdateFailure(UNIQUE_VIOLATION)
    {
      var k := UserById(users, userId);
      var c := CredentialFor(credentials, ProviderName(profile.provider), userId);
      if k == |users| || c == |credentials| {
        return Failure(ProfileUpdateFailure(RECORD_NOT_FOUND));
      }
      if Truthy(profile.email) && !EmailFreeFor(users, k, profile.email) {
        return Failure(ProfileUpdateFailure(UNIQUE_VIOLATION));
      }
      var merged := MergeProfile(users[k], profile, nowMs);
      ReplaceUserKeepsUnique(users, k, merged);
      var touched := TouchCredential(credentials[c], profile, nowMs);
      forall j | 0 <= j < |credentials| && j != c
        ensures !CredentialClash(credentials[j], touched) && !CredentialClash(touched, credentials[j])
      {
        if j < c {
          assert !CredentialClash(credentials[j], credentials[c]);
        } else {
          assert !CredentialClash(credentials[c], credentials[j]);
        }
      }
      PairwiseUpdate(credentials, c, touched, CredentialClash);
      users := users[k := merged];
      credentials := credentials[c := touched];
      r := Success(merged);
    }

    /**
     * `findOrCreateByOAuth(provider, profile)` at clock reading `nowMs`;
     * `newId` and `nameUuid` are the two generated UUIDs.
     */
    method FindOrCreateByOAuth(provider: string, profile: OAuthProfile, newId: string, nameUuid: string, nowMs: int)
      returns (r: Result<User, Exception>)
      requires Valid()
      modifies this
      ensures Valid()
      ensures oauthTokens == old(oauthTokens)
      ensures r.Failure? ==> users == old(users) && credentials == old(credentials)
      // an existing (provider, profile.id) user takes the update path and no user is created
      ensures var k := UserByKey(old(users), provider, profile.id);
        k < |old(users)| ==>
          var c := CredentialFor(old(credentials), ProviderName(profile.provider), old(users)[k].id);
          && |users| == |old(users)|
          && (r.Success? <==> c < |old(credentials)| && (Truthy(profile.email) ==> EmailFreeFor(old(users), k, profile.email)))
          && (r.Success? ==> r.value == MergeProfile(old(users)[k], profile, nowMs) && users == old(users)[k := r.value]
                             && credentials == old(credentials)[c := TouchCredential(old(credentials)[c], profile, nowMs)])
          && (r.Failure? ==> r.error == InternalServerError("Failed to process OAuth profile: " + ProfileUpdateFailure(RECORD_NOT_FOUND).message)
                             || r.error == InternalServerError("Failed to process OAuth profile: " + ProfileUpdateFailure(UNIQUE_VIOLATION).message))
      // otherwise an email already in use is a conflict
      ensures UserByKey(old(users), provider, profile.id) == |old(users)| && Truthy(profile.email)
              && UserByEmail(old(users), profile.email.value) < |old(users)| ==>
                r == Failure(Conflict("Email " + profile.email.value + " is already registered with different provider"))
      // otherwise exactly one user and its credential are created, unless a constraint forbids it
      ensures var u := NewUserFrom(provider, profile, newId, nameUuid, nowMs);
              var cred := Credential(newId, provider, profile.id, profile.raw, nowMs);
        UserByKey(old(users), provider, profile.id) == |old(users)|
        && (Truthy(profile.email) ==> UserByEmail(old(users), profile.email.value) == |old(users)|) ==>
          && (r.Success? <==> !UserClashesAny(old(users), u) && !CredentialClashesAny(old(credentials), cred))
          && (r.Success? ==> r.value == u && users == old(users) + [u] && credentials == old(credentials) + [cred])
          && (r.Failure? ==> r == Failure(Conflict("User with this email or provider ID already exists")))
    {
      var k := UserByKey(users, provider, profile.id);
      if k < |users| {
        assert UserById(users, users[k].id) == k;
        var updated := UpdateUserProfile(users[k].id, profile, nowMs);
        if updated.Failure? {
          // not a ConflictException and carries no store code: wrapped once more
          return Failure(InternalServerError("Failed to process OAuth profile: " + updated.error.message));
        }
        return updated;
      }
      if Truthy(profile.email) && UserByEmail(users, profile.email.value) < |users| {
        return Failure(Conflict("Email " + profile.email.value + " is already registered with different provider"));
      }
      var u := NewUserFrom(provider, profile, newId, nameUuid, nowMs);
      var cred := Credential(newId, provider, profile.id, profile.raw, nowMs);
      if UserClashesAny(users, u) || CredentialClashesAny(credentials, cred) {
        // the store's P2002
        return Failure(Conflict("User with this email or provider ID already exists"));
      }
      PairwiseAppend(users, u, UserClash);
      PairwiseAppend(credentials, cred, CredentialClash);
      users := users + [u];
      credentials := credentials + [cred];
      r := Success(u);
    }

    /** `updateUser(id, data)`: not awaited in a try, so the store's errors escape as they are. */
    method UpdateUser(id: string, patch: UserPatch) returns (r: Result<User, Exception>)
      requires Valid()
      modifies this
      ensures Valid()
      ensures credentials == old(credentials) && oauthTokens == old(oauthTokens)
      ensures var k := UserById(old(users), id);
        && (k == |old(users)| ==> r == Failure(StoreFailure(RECORD_NOT_FOUND)))
        && (k < |old(users)| ==>
              (r.Success? <==> EmailFreeFor(old(users), k, patch.email))
              && (r.Success? ==> r.value == ApplyPatch(old(users)[k], patch) && users == old(users)[k := r.value])
              && (r.Failure? ==> r == Failure(StoreFailure(UNIQUE_VIOLATION))))
      ensures r.Failure? ==> users == old(users)
    {
      var k := UserById(users, id);
      if k == |users| {
        return Failure(StoreFailure(RECORD_NOT_FOUND));
      }
      if !EmailFreeFor(users, k, patch.email) {
        return Failure(StoreFailure(UNIQUE_VIOLATION));
      }
      var patched := ApplyPatch(users[k], patch);
      ReplaceUserKeepsUnique(users, k, patched);
      users := users[k := patched];
      r := Success(patched);
    }

    /** `removeToken(userId, provider)`: deletes the pair's row if there is one. */
    method RemoveToken(userId: string, provider: Provider)
      requires Valid()
      modifies this
      ensures Valid()
      ensures users == old(users) && credentials == old(credentials)
      ensures oauthTokens == RemovePair(old(oauthTokens), userId, ProviderName(provider))
      ensures RowsFor(oauthTokens, userId, ProviderName(provider)) == 0
    {
      RemovePairIdempotent(oauthTokens, userId, ProviderName(provider));
      var i := TokenFor(oauthTokens, userId, ProviderName(provider));
      if i < |oauthTokens| {
        oauthTokens := oauthTokens[..i] + oauthTokens[i + 1..];
      }
    }

    /**
     * `removeUser(id)`: deletes the user; its credentials and tokens go with
     * it (the relations are assumed to cascade). A missing user is the
     * store's not-found error.
     */
    method RemoveUser(id: string) returns (r: Result<(), Exception>)
      requires Valid()
      modifies this
      ensures Valid()
      ensures var k := UserById(old(users), id);
        && (k == |old(users)| ==> r == Failure(StoreFailure(RECORD_NOT_FOUND)) && unchanged(this))
        && (k < |old(users)| ==> r.Success? && users == old(users)[..k] + old(users)[k + 1..])
      ensures r.Success? ==> credentials == Filter(old(credentials), (c: Credential) => c.userId != id)
                             && oauthTokens == Filter(old(oauthTokens), (t: OAuthToken) => t.userId != id)
      ensures forall u :: u in users ==> u.id != id
    {
      var k := UserById(users, id);
      if k == |users| {
        return Failure(StoreFailure(RECORD_NOT_FOUND));
      }
      var remaining := users[..k] + users[k + 1..];
      PairwiseRemove(users, k, UserClash);
      forall j | 0 <= j < |remaining| ensures remaining[j].id != id {
        if j < k {
          assert remaining[j] == users[j];
        } else {
          assert remaining[j] == users[j + 1];
          assert !UserClash(users[k], users[j + 1]);
        }
      }
      PairwiseFilter(credentials, (c: Credential) => c.userId != id, CredentialClash);
      PairwiseFilter(oauthTokens, (t: OAuthToken) => t.userId != id, TokenClash);
      users := remaining;
      credentials := Filter(credentials, (c: Credential) => c.userId != id);
      oauthTokens := Filter(oauthTokens, (t: OAuthToken) => t.userId != id);
      r := Success(());
    }
  }
}
