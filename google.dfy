/**
 * The Google Analytics service: OAuth credentials kept in `google_credentials`
 * with a short-lived cached copy of the access token, refreshed when the
 * stored one has expired, and three cache-aside reads (accounts, properties,
 * report data) that persist what the APIs return.
 *
 * Time `now` is in milliseconds; cache TTLs are in seconds.  The responses of
 * the token endpoint and of the analytics APIs, and which statements throw,
 * are inputs of each operation.
 */
module GoogleAnalytics {
  import opened Store
  import opened Tables

  /** Every operation re-raises all its failures as its own single error. */
  datatype GoogleFailure =
    | SaveTokenFailed
    | GetTokenFailed
    | AccountsFailed
    | PropertiesFailed
    | ReportFailed

  /** A token set from the token endpoint, valid for `expiresIn` seconds. */
  datatype TokenSet = TokenSet(accessToken: string, refreshToken: Option<string>, expiresIn: int)

  /** A `google_credentials` row (key `user_id`); `expiryDate` is absolute, in milliseconds. */
  datatype GoogleCredentials = GoogleCredentials(accessToken: string, refreshToken: Option<string>, expiryDate: int)

  /** An Analytics account; `name` (`accounts/…`) is the id it is stored under. */
  datatype GoogleAccount = GoogleAccount(name: string, displayName: Option<string>)
  /** An Analytics property; `name` (`properties/…`) is the id it is stored under. */
  datatype GoogleProperty = GoogleProperty(name: string, displayName: Option<string>)
  /** A `google_properties` row (key `(user_id, property_id)`). */
  datatype PropertyRow = PropertyRow(accountId: string, displayName: Option<string>)

  /** One row of a report: the `date` dimension and the five metrics, absent when the API leaves them out. */
  datatype ReportRow = ReportRow(date: string, sessions: Option<real>, activeUsers: Option<real>, newUsers: Option<real>,
                                 engagementRate: Option<real>, conversions: Option<real>)
  datatype Report = Report(rows: Option<seq<ReportRow>>)
  /** A `google_analytics_data` row (key `(user_id, property_id, date)`). */
  datatype AnalyticsRow = AnalyticsRow(sessions: real, activeUsers: real, newUsers: real, engagementRate: real,
                                       conversions: real)

  datatype DateRange = DateRange(startDate: string, endDate: string)

  /** The values this service caches as JSON (the token is cached as raw text). */
  datatype GooglePayload =
    | AccountList(accounts: seq<GoogleAccount>)
    | PropertyList(properties: seq<GoogleProperty>)
    | ReportValue(report: Report)

  /** The relational tables the service reads and writes. */
  datatype GoogleTables = GoogleTables(
    credentials: map<nat, GoogleCredentials>,
    accounts: map<(nat, string), Option<string>>,
    properties: map<(nat, string), PropertyRow>,
    analyticsData: map<(nat, string, string), AnalyticsRow>)

  /** Which statements of `saveUserToken` throw: the lookup, or the UPDATE/INSERT. */
  datatype SaveFaults = SaveFaults(selectFails: bool, writeFails: bool)

  /** What `getUserToken` depends on besides the stores: the clock, whether the
      credentials query throws, the refresh response, and the faults of the save it may run. */
  datatype TokenEnv = TokenEnv(now: int, queryFails: bool, refresh: Remote<TokenSet>, saveFaults: SaveFaults)

  /** The longest a token is cached, in seconds. */
  const TokenCacheCap := 3600
  const AccountsTtl := 1800
  const PropertiesTtl := 1800
  const ReportTtl := 3600

  // ---------------------------------------------------------------------
  // Cache keys

  const TokenPrefix := "google:token:"

  function TokenKey(userId: nat): string
  {
    TokenPrefix + Decimal(userId)
  }

  function AccountsKey(userId: nat): string
  {
    "google:accounts:" + Decimal(userId)
  }

  function PropertiesKey(accountId: string, userId: nat): string
  {
    "google:properties:" + accountId + ":" + Decimal(userId)
  }

  function ReportKey(propertyId: string, range: DateRange, userId: nat): string
  {
    "google:report:" + propertyId + ":" + range.startDate + "-" + range.endDate + ":" + Decimal(userId)
  }

  /** The keys of the token namespace. */
  predicate IsTokenKey(k: string)
  {
    |TokenPrefix| <= |k| && k[..|TokenPrefix|] == TokenPrefix
  }

  lemma TokenKeyIsTokenKey(userId: nat)
    ensures IsTokenKey(TokenKey(userId))
  {
    assert TokenKey(userId)[..|TokenPrefix|] == TokenPrefix;
  }

  /** The cached lists and reports never land in the token namespace. */
  lemma ResourceKeysAreNotTokenKeys(userId: nat, accountId: string, propertyId: string, range: DateRange)
    ensures !IsTokenKey(AccountsKey(userId))
    ensures !IsTokenKey(PropertiesKey(accountId, userId))
    ensures !IsTokenKey(ReportKey(propertyId, range, userId))
  {
    assert TokenPrefix[7] == 't';
    assert AccountsKey(userId)[7] == 'a';
    assert PropertiesKey(accountId, userId)[7] == 'p';
    assert ReportKey(propertyId, range, userId)[7] == 'r';
  }

  /** Each user's token is cached under a key of its own. */
  lemma TokenKeyInjective(u: nat, v: nat)
    requires TokenKey(u) == TokenKey(v)
    ensures u == v
  {
    assert Decimal(u) == TokenKey(u)[|TokenPrefix|..];
    assert Decimal(v) == TokenKey(v)[|TokenPrefix|..];
    DecimalInjective(u, v);
  }

  /** The token namespace holds raw token text only, so a hit there is the token itself. */
  predicate TokenKeysRaw(c: Cache<GooglePayload>)
  {
    forall k :: k in c && IsTokenKey(k) ==> c[k].stored.Raw?
  }

  lemma PutKeepsTokenKeysRaw(c: Cache<GooglePayload>, k: string, s: Stored<GooglePayload>, ttl: int)
    requires TokenKeysRaw(c) && AcceptsTtl(ttl)
    requires s.Raw? || !IsTokenKey(k)
    ensures TokenKeysRaw(Put(c, k, s, ttl))
  {
  }

  // ---------------------------------------------------------------------
  // Credentials

  /** `Math.min(tokens.expires_in, 3600)`: how long `saveUserToken` caches a new token. */
  function SaveCacheTime(expiresIn: int): (t: int)
    ensures t <= TokenCacheCap && t <= expiresIn
    ensures t == expiresIn || t == TokenCacheCap
    ensures t > 0 <==> expiresIn > 0
  {
    if expiresIn < TokenCacheCap then expiresIn else TokenCacheCap
  }

  /** `Math.min(Math.max(0, Math.floor((expiry_date - now) / 1000)), 3600)`:
      how long `getUserToken` caches a stored token. */
  function TokenCacheTime(expiryDate: int, now: int): (t: int)
    ensures 0 <= t <= TokenCacheCap
    // never beyond the expiry on record
    ensures t * 1000 <= expiryDate - now || t == 0
    // cached exactly when at least a whole second is left
    ensures t > 0 <==> expiryDate - now >= 1000
    ensures expiryDate - now >= TokenCacheCap * 1000 ==> t == TokenCacheCap
    // below the cap, exactly the whole seconds left
    ensures 0 < t < TokenCacheCap ==> t * 1000 <= expiryDate - now < t * 1000 + 1000
  {
    var seconds := (expiryDate - now) / 1000;
    var left := if seconds > 0 then seconds else 0;
    if left < TokenCacheCap then left else TokenCacheCap
  }

  /** The stored token has expired and can be refreshed. */
  predicate Refreshes(credentials: map<nat, GoogleCredentials>, userId: nat, now: int)
  {
    userId in credentials && now > credentials[userId].expiryDate && Truthy(credentials[userId].refreshToken)
  }

  /** The refresh token the UPDATE branch of `saveUserToken` writes, as the
      code stands: `tokens.refresh_token || result.rows[0].refresh_token`,
      where the row comes from `SELECT id` and has no refresh token, so the
      fallback is always empty. */
  function UpdatedRefreshTokenAsWritten(tokens: TokenSet, stored: GoogleCredentials): Option<string>
  {
    if Truthy(tokens.refreshToken) then tokens.refreshToken else None
  }

  /** The refresh token the UPDATE branch is meant to write: the new one if the
      token set carries one, the stored one otherwise. */
  function UpdatedRefreshToken(tokens: TokenSet, stored: GoogleCredentials): (r: Option<string>)
    ensures Truthy(tokens.refreshToken) ==> r == tokens.refreshToken
    ensures !Truthy(tokens.refreshToken) ==> r == stored.refreshToken
    // a usable refresh token is never lost
    ensures Truthy(stored.refreshToken) ==> Truthy(r)
  {
    if Truthy(tokens.refreshToken) then tokens.refreshToken else stored.refreshToken
  }

  /** What `saveUserToken` answers and the state it leaves. */
  datatype SaveOutcome = SaveOutcome(result: Result<(), GoogleFailure>, cache: Cache<GooglePayload>,
                                     credentials: map<nat, GoogleCredentials>)

  /** `saveUserToken(userId, tokens)`: UPDATE the user's row or INSERT one,
      with the expiry `now + expires_in` seconds, then cache the access token. */
  function SaveToken(cache: Cache<GooglePayload>, credentials: map<nat, GoogleCredentials>, userId: nat,
                     tokens: TokenSet, now: int, faults: SaveFaults): (o: SaveOutcome)
    ensures o.result.Err? ==> o.result.error == SaveTokenFailed
    ensures o.result.Ok? <==> !faults.selectFails && !faults.writeFails && tokens.expiresIn > 0
    // the row is written whenever its statements succeed, even if caching then fails
    ensures faults.selectFails || faults.writeFails ==> o.credentials == credentials
    ensures !faults.selectFails && !faults.writeFails ==>
              && o.credentials.Keys == credentials.Keys + {userId}
              && o.credentials[userId].accessToken == tokens.accessToken
              && o.credentials[userId].expiryDate == now + tokens.expiresIn * 1000
              && o.credentials[userId].refreshToken
                 == if userId in credentials then UpdatedRefreshToken(tokens, credentials[userId]) else tokens.refreshToken
    ensures forall u :: u in credentials && u != userId ==> u in o.credentials && o.credentials[u] == credentials[u]
    // only a successful save touches the cache: the new token, for at most an hour and never past its expiry
    ensures o.result.Err? ==> o.cache == cache
    ensures o.result.Ok? ==>
              && o.credentials[userId].expiryDate > now
              && o.cache == cache[TokenKey(userId) := Entry(Raw(tokens.accessToken), SaveCacheTime(tokens.expiresIn))]
              && 0 < SaveCacheTime(tokens.expiresIn) <= TokenCacheCap
              && SaveCacheTime(tokens.expiresIn) * 1000 <= o.credentials[userId].expiryDate - now
  {
    if faults.selectFails || faults.writeFails then SaveOutcome(Err(SaveTokenFailed), cache, credentials)
    else
      var expiryDate := now + tokens.expiresIn * 1000;
      var row := if userId in credentials
                 then GoogleCredentials(tokens.accessToken, UpdatedRefreshToken(tokens, credentials[userId]), expiryDate)
                 else GoogleCredentials(tokens.accessToken, tokens.refreshToken, expiryDate);
      var written := credentials[userId := row];
      var cacheTime := SaveCacheTime(tokens.expiresIn);
      if !AcceptsTtl(cacheTime) then SaveOutcome(Err(SaveTokenFailed), cache, written)
      else SaveOutcome(Ok(()), Put(cache, TokenKey(userId), Raw(tokens.accessToken), cacheTime), written)
  }

  /** `saveUserToken` as the code stands: as `SaveToken`, except that the
      UPDATE branch writes the refresh token `UpdatedRefreshTokenAsWritten`. */
  function SaveTokenAsWritten(cache: Cache<GooglePayload>, credentials: map<nat, GoogleCredentials>, userId: nat,
                             tokens: TokenSet, now: int, faults: SaveFaults): SaveOutcome
  {
    var s := SaveToken(cache, credentials, userId, tokens, now, faults);
    if userId in credentials && !faults.selectFails && !faults.writeFails then
      var row := s.credentials[userId];
      s.(credentials := s.credentials[userId := row.(refreshToken := UpdatedRefreshTokenAsWritten(tokens, credentials[userId]))])
    else s
  }

  /** As written, every save over an existing row with a token set that carries
      no refresh token (a refresh's usual answer) leaves a row that can never be
      refreshed again, at any later time, whatever refresh token it held. */
  lemma RefreshTokenLostAsWritten(cache: Cache<GooglePayload>, credentials: map<nat, GoogleCredentials>, userId: nat,
                                  tokens: TokenSet, now: int, faults: SaveFaults, later: int)
    requires userId in credentials && !faults.selectFails && !faults.writeFails
    requires !Truthy(tokens.refreshToken)
    ensures var s := SaveTokenAsWritten(cache, credentials, userId, tokens, now, faults);
            && userId in s.credentials
            && !Truthy(s.credentials[userId].refreshToken)
            && !Refreshes(s.credentials, userId, later)
  {
  }

  /** What `getUserToken` answers and the state it leaves. */
  datatype TokenOutcome = TokenOutcome(result: Result<string, GoogleFailure>, cache: Cache<GooglePayload>,
                                       credentials: map<nat, GoogleCredentials>)

  /** `getUserToken(userId)`. */
  function ReadToken(cache: Cache<GooglePayload>, credentials: map<nat, GoogleCredentials>, userId: nat,
                     env: TokenEnv): (o: TokenOutcome)
    requires TokenKeysRaw(cache)
    ensures TokenKeysRaw(o.cache)
    ensures o.result.Err? ==> o.result.error == GetTokenFailed
    // a hit returns the cached text and touches nothing
    ensures Get(cache, TokenKey(userId)).Some? ==>
              o == TokenOutcome(Ok(Get(cache, TokenKey(userId)).value.text), cache, credentials)
    // a miss fails without a stored row
    ensures Get(cache, TokenKey(userId)).None? && (env.queryFails || userId !in credentials) ==>
              o == TokenOutcome(Err(GetTokenFailed), cache, credentials)
    // a miss serves the stored token, expired or not, unless it has expired and can be refreshed,
    // caching it for `TokenCacheTime` seconds whenever that is positive
    ensures Get(cache, TokenKey(userId)).None? && !env.queryFails && userId in credentials
            && !Refreshes(credentials, userId, env.now) ==>
              && o.result == Ok(credentials[userId].accessToken) && o.credentials == credentials
              && var t := TokenCacheTime(credentials[userId].expiryDate, env.now);
              o.cache == if t > 0 then Put(cache, TokenKey(userId), Raw(credentials[userId].accessToken), t) else cache
    // an expired row with a refresh token is refreshed and saved: the call succeeds exactly when
    // both do, and leaves what the save leaves
    ensures Get(cache, TokenKey(userId)).None? && !env.queryFails && Refreshes(credentials, userId, env.now) ==>
              && (env.refresh.RemoteFailed? ==> o == TokenOutcome(Err(GetTokenFailed), cache, credentials))
              && (env.refresh.Fetched? ==>
                    var s := SaveToken(cache, credentials, userId, env.refresh.data, env.now, env.saveFaults);
                    && (o.result.Ok? <==> s.result.Ok?)
                    && o.cache == s.cache && o.credentials == s.credentials)
    // a refreshed token is stored and returned, and outlives the present moment
    ensures Get(cache, TokenKey(userId)).None? && !env.queryFails && Refreshes(credentials, userId, env.now)
            && o.result.Ok? ==>
              && env.refresh.Fetched?
              && o.result.value == env.refresh.data.accessToken
              && userId in o.credentials
              && o.credentials[userId].accessToken == o.result.value
              && o.credentials[userId].expiryDate > env.now
    // nothing but this user's token key is ever written, and a failure writes nothing
    ensures o.result.Err? ==> o.cache == cache
    ensures cache.Keys <= o.cache.Keys <= cache.Keys + {TokenKey(userId)}
    ensures forall k :: k in cache && k != TokenKey(userId) ==> o.cache[k] == cache[k]
  {
    var key := TokenKey(userId);
    TokenKeyIsTokenKey(userId);
    if Get(cache, key).Some? then TokenOutcome(Ok(Get(cache, key).value.text), cache, credentials)
    else if env.queryFails || userId !in credentials then TokenOutcome(Err(GetTokenFailed), cache, credentials)
    else
      var c := credentials[userId];
      if env.now > c.expiryDate && Truthy(c.refreshToken) then
        if env.refresh.RemoteFailed? then TokenOutcome(Err(GetTokenFailed), cache, credentials)
        else
          var tokens := env.refresh.data;
          var s := SaveToken(cache, credentials, userId, tokens, env.now, env.saveFaults);
          if s.result.Err? then TokenOutcome(Err(GetTokenFailed), s.cache, s.credentials)
          else TokenOutcome(Ok(tokens.accessToken), s.cache, s.credentials)
      else
        var t := TokenCacheTime(c.expiryDate, env.now);
        TokenOutcome(Ok(c.accessToken), if AcceptsTtl(t) then Put(cache, key, Raw(c.accessToken), t) else cache,
                     credentials)
  }

  /** Whatever `getUserToken` caches is the token it returns, also the token on
      record, for at most an hour and never beyond the expiry on record. */
  lemma ReadTokenCachesOnlyLiveToken(cache: Cache<GooglePayload>, credentials: map<nat, GoogleCredentials>,
                                     userId: nat, env: TokenEnv)
    requires TokenKeysRaw(cache)
    ensures var o := ReadToken(cache, credentials, userId, env);
            var key := TokenKey(userId);
            o.cache != cache ==>
              && o.result.Ok?
              && key in o.cache && userId in o.credentials
              && o.cache[key].stored == Raw(o.result.value)
              && o.credentials[userId].accessToken == o.result.value
              && 0 < o.cache[key].ttl <= TokenCacheCap
              && o.cache[key].ttl * 1000 <= o.credentials[userId].expiryDate - env.now
  {
  }

  /** A token that has expired and has no refresh token is still returned, but never cached. */
  lemma ExpiredWithoutRefreshIsServedUncached(cache: Cache<GooglePayload>, credentials: map<nat, GoogleCredentials>,
                                              userId: nat, env: TokenEnv)
    requires TokenKeysRaw(cache)
    requires Get(cache, TokenKey(userId)).None? && !env.queryFails
    requires userId in credentials && env.now > credentials[userId].expiryDate
    requires !Truthy(credentials[userId].refreshToken)
    ensures ReadToken(cache, credentials, userId, env) == TokenOutcome(Ok(credentials[userId].accessToken), cache, credentials)
  {
  }

  /** A refresh against a stored row keeps its refresh token when the token set carries none,
      so the next expiry can be refreshed again. */
  lemma RefreshKeepsRefreshToken(cache: Cache<GooglePayload>, credentials: map<nat, GoogleCredentials>,
                                 userId: nat, env: TokenEnv)
    requires TokenKeysRaw(cache)
    requires Get(cache, TokenKey(userId)).None? && !env.queryFails && Refreshes(credentials, userId, env.now)
    requires ReadToken(cache, credentials, userId, env).result.Ok?
    ensures var o := ReadToken(cache, credentials, userId, env);
            && Truthy(o.credentials[userId].refreshToken)
            && Refreshes(o.credentials, userId, o.credentials[userId].expiryDate + 1)
  {
  }

  /** A saved token is read back from the cache, whatever the stored row and the clock then say. */
  lemma SaveThenRead(cache: Cache<GooglePayload>, credentials: map<nat, GoogleCredentials>, userId: nat,
                     tokens: TokenSet, now: int, faults: SaveFaults, env: TokenEnv)
    requires TokenKeysRaw(cache)
    requires tokens.accessToken != ""
    requires SaveToken(cache, credentials, userId, tokens, now, faults).result.Ok?
    ensures var s := SaveToken(cache, credentials, userId, tokens, now, faults);
            TokenKeysRaw(s.cache)
            && ReadToken(s.cache, s.credentials, userId, env) == TokenOutcome(Ok(tokens.accessToken), s.cache, s.credentials)
  {
    var s := SaveToken(cache, credentials, userId, tokens, now, faults);
    PutKeepsTokenKeysRaw(cache, TokenKey(userId), Raw(tokens.accessToken), SaveCacheTime(tokens.expiresIn));
    assert Get(s.cache, TokenKey(userId)) == Some(Raw(tokens.accessToken));
  }

  /** Saving twice leaves one row for the user, holding the second token and expiry. */
  lemma SaveTwiceKeepsOneRow(cache: Cache<GooglePayload>, credentials: map<nat, GoogleCredentials>, userId: nat,
                             first: TokenSet, second: TokenSet, now1: int, now2: int)
    requires first.expiresIn > 0 && second.expiresIn > 0
    ensures var s1 := SaveToken(cache, credentials, userId, first, now1, SaveFaults(false, false));
            var s2 := SaveToken(s1.cache, s1.credentials, userId, second, now2, SaveFaults(false, false));
            && s2.credentials.Keys == credentials.Keys + {userId}
            && s2.credentials[userId].accessToken == second.accessToken
            && s2.credentials[userId].expiryDate == now2 + second.expiresIn * 1000
  {
  }

  /** The cache-aside round trip of every read: once a miss has cached `v`
      under a resource key, the token step of the next call leaves it in place,
      so that call is a hit answering `v` (with no fetch and no table write, by
      the hit clause of each method). */
  lemma CachedPayloadIsServed(cache: Cache<GooglePayload>, credentials: map<nat, GoogleCredentials>, userId: nat,
                              env: TokenEnv, key: string, v: GooglePayload, ttl: int, failure: GoogleFailure)
    requires TokenKeysRaw(cache) && AcceptsTtl(ttl) && !IsTokenKey(key)
    ensures TokenKeysRaw(Put(cache, key, Json(v), ttl))
    ensures var t := ReadToken(Put(cache, key, Json(v), ttl), credentials, userId, env);
            && Get(t.cache, key) == Some(Json(v))
            && FromCache(Get(t.cache, key).value, failure) == Ok(v)
  {
    PutKeepsTokenKeysRaw(cache, key, Json(v), ttl);
    TokenKeyIsTokenKey(userId);
    CachedJsonIsServed(cache, key, v, ttl, failure);
  }

  // ---------------------------------------------------------------------
  // Persistence of fetched entities

  function AccountWrites(userId: nat, accounts: seq<GoogleAccount>): seq<Write<(nat, string), Option<string>>>
  {
    seq(|accounts|, i requires 0 <= i < |accounts| => Write((userId, accounts[i].name), accounts[i].displayName))
  }

  /** The conflict rule of `google_properties`: only `display_name` is updated,
      so a property keeps the account it was first stored under. */
  function KeepAccountId(stored: PropertyRow, incoming: PropertyRow): (r: PropertyRow)
    ensures r.accountId == stored.accountId && r.displayName == incoming.displayName
  {
    stored.(displayName := incoming.displayName)
  }

  function PropertyWrites(userId: nat, accountId: string, properties: seq<GoogleProperty>)
    : seq<Write<(nat, string), PropertyRow>>
  {
    seq(|properties|, i requires 0 <= i < |properties| =>
          Write((userId, properties[i].name), PropertyRow(accountId, properties[i].displayName)))
  }

  /** A property listed again under another account keeps its first account and takes the new name. */
  lemma PropertyKeepsFirstAccount(table: map<(nat, string), PropertyRow>, userId: nat, accountId: string,
                                  properties: seq<GoogleProperty>, failing: set<nat>, i: nat)
    requires i < |properties| && i !in failing
    requires forall j :: i < j < |properties| && j !in failing ==> properties[j].name != properties[i].name
    requires (userId, properties[i].name) in table
    ensures var r := UpsertEach(table, PropertyWrites(userId, accountId, properties), failing, KeepAccountId);
            r[(userId, properties[i].name)] == PropertyRow(table[(userId, properties[i].name)].accountId,
                                                           properties[i].displayName)
  {
    var ws := PropertyWrites(userId, accountId, properties);
    UpsertEachLastWrite(table, ws, failing, KeepAccountId, i);
    var before := UpsertEach(table, ws[..i], failing, KeepAccountId);
    PropertyAccountIdsStay(table, userId, accountId, properties[..i], failing);
    assert ws[..i] == PropertyWrites(userId, accountId, properties[..i]);
  }

  /** No upsert of a property changes the account of a row already stored. */
  lemma {:induction false} PropertyAccountIdsStay(table: map<(nat, string), PropertyRow>, userId: nat, accountId: string,
                                                  properties: seq<GoogleProperty>, failing: set<nat>)
    ensures var r := UpsertEach(table, PropertyWrites(userId, accountId, properties), failing, KeepAccountId);
            forall k :: k in table ==> k in r && r[k].accountId == table[k].accountId
    decreases |properties|
  {
    if |properties| > 0 {
      var n := |properties| - 1;
      var ws := PropertyWrites(userId, accountId, properties);
      assert ws[..n] == PropertyWrites(userId, accountId, properties[..n]);
      PropertyAccountIdsStay(table, userId, accountId, properties[..n], failing);
    }
  }

  /** The upsert of one report row: the metrics `|| 0`. */
  function ReportWrite(userId: nat, propertyId: string, row: ReportRow): (w: Write<(nat, string, string), AnalyticsRow>)
    ensures w.key == (userId, propertyId, row.date)
    ensures w.row.sessions == OrElse(row.sessions, 0.0) && w.row.activeUsers == OrElse(row.activeUsers, 0.0)
    ensures w.row.newUsers == OrElse(row.newUsers, 0.0) && w.row.engagementRate == OrElse(row.engagementRate, 0.0)
    ensures w.row.conversions == OrElse(row.conversions, 0.0)
  {
    Write((userId, propertyId, row.date),
          AnalyticsRow(OrElse(row.sessions, 0.0), OrElse(row.activeUsers, 0.0), OrElse(row.newUsers, 0.0),
                       OrElse(row.engagementRate, 0.0), OrElse(row.conversions, 0.0)))
  }

  function ReportWrites(userId: nat, propertyId: string, rows: seq<ReportRow>)
    : seq<Write<(nat, string, string), AnalyticsRow>>
  {
    seq(|rows|, i requires 0 <= i < |rows| => ReportWrite(userId, propertyId, rows[i]))
  }

  /** After the report loop, the row of each date written before the first
      failing row holds the metrics of the last such report row for that date:
      each as the API sent it, 0 for every metric the API left out. */
  lemma ReportRowsStoredWithDefaults(table: map<(nat, string, string), AnalyticsRow>, userId: nat, propertyId: string,
                                     rows: seq<ReportRow>, failing: set<nat>, i: nat)
    requires i < FirstFailure(|rows|, failing)
    requires forall j :: i < j < FirstFailure(|rows|, failing) ==> rows[j].date != rows[i].date
    ensures var r := UpsertUntilFailure(table, ReportWrites(userId, propertyId, rows), failing, Overwrite);
            var x, k := rows[i], (userId, propertyId, rows[i].date);
            && k in r
            && Defaulted(x.sessions, r[k].sessions) && Defaulted(x.activeUsers, r[k].activeUsers)
            && Defaulted(x.newUsers, r[k].newUsers) && Defaulted(x.engagementRate, r[k].engagementRate)
            && Defaulted(x.conversions, r[k].conversions)
  {
    var ws := ReportWrites(userId, propertyId, rows);
    var stop := FirstFailure(|rows|, failing);
    UpsertUntilFailureStopsAt(table, ws, failing, Overwrite, stop);
    LastWriteWins(table, ws[..stop], {}, i);
  }

  // ---------------------------------------------------------------------
  // The service

  class GoogleAnalyticsService {
    var cache: Cache<GooglePayload>
    var db: GoogleTables

    predicate Valid()
      reads this
    {
      TokenKeysRaw(cache)
    }

    constructor (cache: Cache<GooglePayload>, db: GoogleTables)
      requires TokenKeysRaw(cache)
      ensures Valid()
      ensures this.cache == cache && this.db == db
    {
      this.cache := cache;
      this.db := db;
    }

    method SaveUserToken(userId: nat, tokens: TokenSet, now: int, faults: SaveFaults)
      returns (r: Result<(), GoogleFailure>)
      requires Valid()
      modifies this
      ensures Valid()
      ensures var o := SaveToken(old(cache), old(db).credentials, userId, tokens, now, faults);
              r == o.result && cache == o.cache && db == old(db).(credentials := o.credentials)
    {
      if faults.selectFails {
        return Err(SaveTokenFailed);
      }
      var existing := userId in db.credentials;
      var expiryDate := now + tokens.expiresIn * 1000;
      if faults.writeFails {
        return Err(SaveTokenFailed);
      }
      if existing {
        var refreshToken := UpdatedRefreshToken(tokens, db.credentials[userId]);
        db := db.(credentials := db.credentials[userId := GoogleCredentials(tokens.accessToken, refreshToken, expiryDate)]);
      } else {
        db := db.(credentials := db.credentials[userId := GoogleCredentials(tokens.accessToken, tokens.refreshToken, expiryDate)]);
      }
      var cacheTime := SaveCacheTime(tokens.expiresIn);
      if !AcceptsTtl(cacheTime) {
        return Err(SaveTokenFailed);
      }
      TokenKeyIsTokenKey(userId);
      PutKeepsTokenKeysRaw(cache, TokenKey(userId), Raw(tokens.accessToken), cacheTime);
      cache := Put(cache, TokenKey(userId), Raw(tokens.accessToken), cacheTime);
      r := Ok(());
    }

    method GetUserToken(userId: nat, env: TokenEnv) returns (r: Result<string, GoogleFailure>)
      requires Valid()
      modifies this
      ensures Valid()
      ensures var o := ReadToken(old(cache), old(db).credentials, userId, env);
              r == o.result && cache == o.cache && db == old(db).(credentials := o.credentials)
    {
      var key := TokenKey(userId);
      TokenKeyIsTokenKey(userId);
      var cached := Get(cache, key);
      if cached.Some? {
        return Ok(cached.value.text);
      }
      if env.queryFails || userId !in db.credentials {
        return Err(GetTokenFailed);
      }
      var c := db.credentials[userId];
      if env.now > c.expiryDate && Truthy(c.refreshToken) {
        if env.refresh.RemoteFailed? {
          return Err(GetTokenFailed);
        }
        var tokens := env.refresh.data;
        var saved := SaveUserToken(userId, tokens, env.now, env.saveFaults);
        if saved.Err? {
          return Err(GetTokenFailed);
        }
        return Ok(tokens.accessToken);
      }
      var cacheTime := TokenCacheTime(c.expiryDate, env.now);
      if AcceptsTtl(cacheTime) {
        PutKeepsTokenKeysRaw(cache, key, Raw(c.accessToken), cacheTime);
        cache := Put(cache, key, Raw(c.accessToken), cacheTime);
      }
      r := Ok(c.accessToken);
    }

    /** `getAccounts`: each account's upsert sits in its own try/catch. */
    method GetAccounts(userId: nat, env: TokenEnv, remote: Remote<Option<seq<GoogleAccount>>>, failing: set<nat>)
      returns (r: Result<GooglePayload, GoogleFailure>)
      requires Valid()
      modifies this
      ensures Valid()
      ensures var t := ReadToken(old(cache), old(db).credentials, userId, env);
              var key := AccountsKey(userId);
              var afterToken := old(db).(credentials := t.credentials);
              if t.result.Err? then r == Err(AccountsFailed) && cache == t.cache && db == afterToken
              else if Get(t.cache, key).Some? then
                r == FromCache(Get(t.cache, key).value, AccountsFailed) && cache == t.cache && db == afterToken
              else if remote.RemoteFailed? then r == Err(AccountsFailed) && cache == t.cache && db == afterToken
              else
                var accounts := OrElse(remote.data, []);
                && cache == Put(t.cache, key, Json(AccountList(accounts)), AccountsTtl)
                && db == afterToken.(accounts := UpsertEach(old(db).accounts, AccountWrites(userId, accounts), failing, Overwrite))
                && r == Ok(AccountList(accounts))
    {
      var token := GetUserToken(userId, env);
      if token.Err? {
        return Err(AccountsFailed);
      }
      var key := AccountsKey(userId);
      var cached := Get(cache, key);
      if cached.Some? {
        return FromCache(cached.value, AccountsFailed);
      }
      if remote.RemoteFailed? {
        return Err(AccountsFailed);
      }
      var accounts := OrElse(remote.data, []);
      ResourceKeysAreNotTokenKeys(userId, "", "", DateRange("", ""));
      PutKeepsTokenKeysRaw(cache, key, Json(AccountList(accounts)), AccountsTtl);
      cache := Put(cache, key, Json(AccountList(accounts)), AccountsTtl);
      SaveAccounts(userId, accounts, failing);
      r := Ok(AccountList(accounts));
    }

    /** The loop of `getAccounts` that saves the fetched accounts, each upsert in its own try/catch. */
    method SaveAccounts(userId: nat, accounts: seq<GoogleAccount>, failing: set<nat>)
      modifies this`db
      ensures db == old(db).(accounts := UpsertEach(old(db).accounts, AccountWrites(userId, accounts), failing, Overwrite))
    {
      ghost var ws := AccountWrites(userId, accounts);
      var i := 0;
      while i < |accounts|
        invariant 0 <= i <= |accounts|
        invariant db == old(db).(accounts := UpsertEach(old(db).accounts, ws[..i], failing, Overwrite))
      {
        UpsertEachStep(old(db).accounts, ws, failing, Overwrite, i);
        if i !in failing {
          db := db.(accounts := Upsert(db.accounts, Write((userId, accounts[i].name), accounts[i].displayName), Overwrite));
        }
        i := i + 1;
      }
      assert ws[..i] == ws;
    }

    /** `getProperties`: each property's upsert sits in its own try/catch and updates only the display name. */
    method GetProperties(userId: nat, accountId: string, env: TokenEnv, remote: Remote<Option<seq<GoogleProperty>>>,
                         failing: set<nat>)
      returns (r: Result<GooglePayload, GoogleFailure>)
      requires Valid()
      modifies this
      ensures Valid()
      ensures var t := ReadToken(old(cache), old(db).credentials, userId, env);
              var key := PropertiesKey(accountId, userId);
              var afterToken := old(db).(credentials := t.credentials);
              if t.result.Err? then r == Err(PropertiesFailed) && cache == t.cache && db == afterToken
              else if Get(t.cache, key).Some? then
                r == FromCache(Get(t.cache, key).value, PropertiesFailed) && cache == t.cache && db == afterToken
              else if remote.RemoteFailed? then r == Err(PropertiesFailed) && cache == t.cache && db == afterToken
              else
                var properties := OrElse(remote.data, []);
                && cache == Put(t.cache, key, Json(PropertyList(properties)), PropertiesTtl)
                && db == afterToken.(properties := UpsertEach(old(db).properties,
                                                              PropertyWrites(userId, accountId, properties),
                                                              failing, KeepAccountId))
                && r == Ok(PropertyList(properties))
    {
      var token := GetUserToken(userId, env);
      if token.Err? {
        return Err(PropertiesFailed);
      }
      var key := PropertiesKey(accountId, userId);
      var cached := Get(cache, key);
      if cached.Some? {
        return FromCache(cached.value, PropertiesFailed);
      }
      if remote.RemoteFailed? {
        return Err(PropertiesFailed);
      }
      var properties := OrElse(remote.data, []);
      ResourceKeysAreNotTokenKeys(userId, accountId, "", DateRange("", ""));
      PutKeepsTokenKeysRaw(cache, key, Json(PropertyList(properties)), PropertiesTtl);
      cache := Put(cache, key, Json(PropertyList(properties)), PropertiesTtl);
      SaveProperties(userId, accountId, properties, failing);
      r := Ok(PropertyList(properties));
    }

    /** The loop of `getProperties` that saves the fetched properties, each
        upsert in its own try/catch, a conflict updating only the display name. */
    method SaveProperties(userId: nat, accountId: string, properties: seq<GoogleProperty>, failing: set<nat>)
      modifies this`db
      ensures db == old(db).(properties := UpsertEach(old(db).properties, PropertyWrites(userId, accountId, properties),
                                                      failing, KeepAccountId))
    {
      ghost var ws := PropertyWrites(userId, accountId, properties);
      var i := 0;
      while i < |properties|
        invariant 0 <= i <= |properties|
        invariant db == old(db).(properties := UpsertEach(old(db).properties, ws[..i], failing, KeepAccountId))
      {
        UpsertEachStep(old(db).properties, ws, failing, KeepAccountId, i);
        if i !in failing {
          var w := Write((userId, properties[i].name), PropertyRow(accountId, properties[i].displayName));
          db := db.(properties := Upsert(db.properties, w, KeepAccountId));
        }
        i := i + 1;
      }
      assert ws[..i] == ws;
    }

    /** `getReportData`: one try around the whole persistence loop, so the
        first failing row abandons the rest, and the report is returned anyway. */
    method GetReportData(userId: nat, propertyId: string, range: DateRange, env: TokenEnv, remote: Remote<Report>,
                         failing: set<nat>)
      returns (r: Result<GooglePayload, GoogleFailure>)
      requires Valid()
      modifies this
      ensures Valid()
      ensures var t := ReadToken(old(cache), old(db).credentials, userId, env);
              var key := ReportKey(propertyId, range, userId);
              var afterToken := old(db).(credentials := t.credentials);
              if t.result.Err? then r == Err(ReportFailed) && cache == t.cache && db == afterToken
              else if Get(t.cache, key).Some? then
                r == FromCache(Get(t.cache, key).value, ReportFailed) && cache == t.cache && db == afterToken
              else if remote.RemoteFailed? then r == Err(ReportFailed) && cache == t.cache && db == afterToken
              else
                var report := remote.data;
                && cache == Put(t.cache, key, Json(ReportValue(report)), ReportTtl)
                && r == Ok(ReportValue(report))
                && db == if report.rows.None? then afterToken
                         else afterToken.(analyticsData := UpsertUntilFailure(old(db).analyticsData,
                                                                              ReportWrites(userId, propertyId, report.rows.value),
                                                                              failing, Overwrite))
    {
      var token := GetUserToken(userId, env);
      if token.Err? {
        return Err(ReportFailed);
      }
      var key := ReportKey(propertyId, range, userId);
      var cached := Get(cache, key);
      if cached.Some? {
        return FromCache(cached.value, ReportFailed);
      }
      if remote.RemoteFailed? {
        return Err(ReportFailed);
      }
      var report := remote.data;
      ResourceKeysAreNotTokenKeys(userId, "", propertyId, range);
      PutKeepsTokenKeysRaw(cache, key, Json(ReportValue(report)), ReportTtl);
      cache := Put(cache, key, Json(ReportValue(report)), ReportTtl);
      if report.rows.Some? && |report.rows.value| > 0 {
        SaveReportRows(userId, propertyId, report.rows.value, failing);
      }
      r := Ok(ReportValue(report));
    }

    /** The loop of `getReportData` that saves the report rows, inside one
        try/catch: the first upsert that throws abandons the rest. */
    method SaveReportRows(userId: nat, propertyId: string, rows: seq<ReportRow>, failing: set<nat>)
      modifies this`db
      ensures db == old(db).(analyticsData := UpsertUntilFailure(old(db).analyticsData,
                                                                 ReportWrites(userId, propertyId, rows), failing, Overwrite))
    {
      ghost var ws := ReportWrites(userId, propertyId, rows);
      var i := 0;
      var stopped := false;
      while i < |rows| && !stopped
        invariant 0 <= i <= |rows|
        invariant FirstFailure(i, failing) == i
        invariant stopped ==> i in failing
        invariant db == old(db).(analyticsData := UpsertEach(old(db).analyticsData, ws[..i], {}, Overwrite))
        decreases |rows| - i, if stopped then 0 else 1
      {
        if i in failing {
          stopped := true;
        } else {
          assert ws[i] == ReportWrite(userId, propertyId, rows[i]);
          UpsertUntilFailureStep(old(db).analyticsData, ws, failing, Overwrite, i);
          db := db.(analyticsData := Upsert(db.analyticsData, ReportWrite(userId, propertyId, rows[i]), Overwrite));
          i := i + 1;
        }
      }
      UpsertUntilFailureStopsAt(old(db).analyticsData, ws, failing, Overwrite, i);
    }
  }
}
