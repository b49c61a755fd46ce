/**
 * The Meta Ads service: a per-user access token kept in the cache and in
 * the relational store, and five cache-aside reads (ad accounts, campaigns,
 * ad sets, ads, campaign insights) that persist what the Graph API returns.
 *
 * Time `now` is in milliseconds, as JavaScript `Date` arithmetic is; cache
 * TTLs are in seconds.  Remote responses and the rows whose persistence
 * throws are inputs of each operation.
 */
module MetaAds {
  import opened Store
  import opened Tables

  /** Every operation re-raises all its failures as its own single error. */
  datatype MetaFailure =
    | StoreTokenFailed
    | GetTokenFailed
    | AdAccountsFailed
    | CampaignsFailed
    | AdSetsFailed
    | AdsFailed
    | InsightsFailed

  /** The `credentials` JSON of a `user_integrations` row: `accessToken` is ''
      when the field is missing or empty; `expiresAt` is None when it is
      missing or does not parse as a date. */
  datatype MetaCredentials = MetaCredentials(accessToken: string, expiresAt: Option<int>)

  /** A `user_tokens` row (key `user_id`). */
  datatype UserTokenRow = UserTokenRow(accessToken: string, expiresAt: int)

  datatype AdAccount = AdAccount(id: string, name: Option<string>, accountStatus: Option<int>, businessName: Option<string>)
  /** An `ad_accounts` row (key `(user_id, account_id)`). */
  datatype AdAccountRow = AdAccountRow(name: Option<string>, status: Option<int>, businessName: Option<string>)

  /** A campaign as fetched; `dbId` is the field the service adds to the returned objects. */
  datatype Campaign = Campaign(id: string, name: Option<string>, objective: Option<string>, status: Option<string>,
                               dbId: Option<nat>)
  /** Which of the two historical names the `campaigns` foreign key to the ad account has. */
  datatype AccountColumn = AdAccountIdColumn | AccountIdColumn
  /** The natural key `(accountIdColumn, campaign_id)` of `campaigns`. */
  datatype CampaignKey = CampaignKey(column: AccountColumn, accountId: string, campaignId: string)
  /** A `campaigns` row; `id` is its serial primary key. */
  datatype CampaignRow = CampaignRow(id: nat, name: string, objective: string, status: string)

  datatype AdSet = AdSet(id: string, name: Option<string>, status: Option<string>, bidStrategy: Option<string>,
                         dailyBudget: Option<string>, lifetimeBudget: Option<string>,
                         startTime: Option<string>, endTime: Option<string>)
  /** An `ad_sets` row (key `(campaign_id, ad_set_id)`). */
  datatype AdSetRow = AdSetRow(name: Option<string>, status: Option<string>, bidStrategy: Option<string>,
                               dailyBudget: Option<string>, lifetimeBudget: Option<string>,
                               startTime: Option<string>, endTime: Option<string>)

  datatype Ad = Ad(id: string, name: Option<string>, status: Option<string>, createdTime: Option<string>)
  /** An `ads` row (key `(ad_set_id, ad_id)`). */
  datatype AdRow = AdRow(name: Option<string>, status: Option<string>, createdTime: Option<string>)

  datatype DateRange = DateRange(start: string, end: string)

  /** One day of campaign insights; the metrics are absent when the API leaves them out. */
  datatype Insight = Insight(dateStart: string, impressions: Option<real>, clicks: Option<real>, ctr: Option<real>,
                             cpc: Option<real>, spend: Option<real>, reach: Option<real>, frequency: Option<real>,
                             uniqueClicks: Option<real>, costPerUniqueClick: Option<real>)
  /** Which of the two historical names the date column of `campaign_insights` has. */
  datatype InsightDateColumn = DateStartColumn | PlainDateColumn
  /** The natural key `(campaign_id, dateColumn)` of `campaign_insights`. */
  datatype InsightKey = InsightKey(column: InsightDateColumn, campaignId: string, date: string)
  datatype InsightRow = InsightRow(campaignDbId: nat, impressions: real, clicks: real, ctr: real, cpc: real,
                                   spend: real, reach: real, frequency: real, uniqueClicks: real,
                                   costPerUniqueClick: real)

  /** The values this service caches as JSON. */
  datatype MetaPayload =
    | CredentialsValue(credentials: MetaCredentials)
    | AdAccountList(accounts: seq<AdAccount>)
    | CampaignList(campaigns: seq<Campaign>)
    | AdSetList(adSets: seq<AdSet>)
    | AdList(ads: seq<Ad>)
    | InsightList(insights: seq<Insight>)

  /** The relational tables the service reads and writes. */
  datatype MetaTables = MetaTables(
    userTokens: map<nat, UserTokenRow>,
    userIntegrations: map<nat, Option<MetaCredentials>>,
    adAccounts: map<(nat, string), AdAccountRow>,
    campaigns: map<CampaignKey, CampaignRow>,
    nextCampaignId: nat,
    adSets: map<(string, string), AdSetRow>,
    ads: map<(string, string), AdRow>,
    insights: map<InsightKey, InsightRow>)

  // Cache lifetimes, in seconds.
  const AdAccountsTtl := 3600
  const CampaignsTtl := 1800
  const AdSetsTtl := 1800
  const AdsTtl := 1800
  const InsightsTtl := 7200

  // ---------------------------------------------------------------------
  // Cache keys

  /** The key `storeUserToken` writes. */
  function TokenWriteKey(userId: nat): string
  {
    "user:" + Decimal(userId) + ":meta_token"
  }

  /** The key `getUserToken` reads and writes. */
  function TokenReadKey(userId: nat): string
  {
    "meta_access_token:" + Decimal(userId)
  }

  function AdAccountsKey(userId: nat): string
  {
    "user:" + Decimal(userId) + ":ad_accounts"
  }

  function CampaignsKey(accountId: string): string
  {
    "account:" + accountId + ":campaigns"
  }

  function AdSetsKey(campaignId: string): string
  {
    "campaign:" + campaignId + ":adsets"
  }

  function AdsKey(adSetId: string): string
  {
    "adset:" + adSetId + ":ads"
  }

  function InsightsKey(campaignId: string, range: DateRange): string
  {
    "campaign:" + campaignId + ":insights:" + range.start + "-" + range.end
  }

  /** The token `storeUserToken` caches is never under a key `getUserToken` reads, for any two users. */
  lemma TokenKeysNeverMeet(u: nat, v: nat)
    ensures TokenWriteKey(u) != TokenReadKey(v)
  {
    assert TokenWriteKey(u)[0] == 'u';
    assert TokenReadKey(v)[0] == 'm';
  }

  /** Each user's credential is cached under a key of its own. */
  lemma TokenReadKeyInjective(u: nat, v: nat)
    requires TokenReadKey(u) == TokenReadKey(v)
    ensures u == v
  {
    var p := "meta_access_token:";
    assert Decimal(u) == TokenReadKey(u)[|p|..];
    assert Decimal(v) == TokenReadKey(v)[|p|..];
    DecimalInjective(u, v);
  }

  // ---------------------------------------------------------------------
  // Credentials

  /** `expires_at <= now`; an expiry that is missing or not a date compares false, so never expires. */
  predicate Expired(expiresAt: Option<int>, now: int)
  {
    expiresAt.Some? && expiresAt.value <= now
  }

  /** `Math.floor((expires_at - now) / 1000)`; Dafny's `/` floors for a positive divisor, as `Math.floor` does. */
  function SecondsLeft(expiresAt: int, now: int): (s: int)
    ensures s * 1000 <= expiresAt - now < s * 1000 + 1000
    ensures s > 0 <==> expiresAt - now >= 1000
  {
    (expiresAt - now) / 1000
  }

  /** A stored credential `getUserToken` accepts on a cache miss. */
  predicate Servable(integrations: map<nat, Option<MetaCredentials>>, userId: nat, now: int)
  {
    && userId in integrations
    && integrations[userId].Some?
    && integrations[userId].value.accessToken != ""
    && !Expired(integrations[userId].value.expiresAt, now)
  }

  /** `JSON.parse(cached).access_token`: raw text does not parse; a parsed
      value that is not a credential object has no `access_token` ('' here). */
  function CachedAccessToken(s: Stored<MetaPayload>): Result<string, MetaFailure>
  {
    match s
    case Raw(_) => Err(GetTokenFailed)
    case Json(CredentialsValue(c)) => Ok(c.accessToken)
    case Json(_) => Ok("")
  }

  /** What `getUserToken` answers and the cache it leaves. */
  datatype TokenRead = TokenRead(result: Result<string, MetaFailure>, cache: Cache<MetaPayload>)

  /** `getUserToken(userId)`.  `queryFails` says the `user_integrations` query throws. */
  function ReadToken(cacheConfigured: bool, cache: Cache<MetaPayload>, integrations: map<nat, Option<MetaCredentials>>,
                     userId: nat, now: int, queryFails: bool): (o: TokenRead)
    // every failure is re-raised as the one wrapped error
    ensures o.result.Err? ==> o.result.error == GetTokenFailed
    // without a cache client it fails before reading anything
    ensures !cacheConfigured ==> o == TokenRead(Err(GetTokenFailed), cache)
    // a hit answers from the cache alone: the store, the clock and the store's failures play no part
    ensures cacheConfigured && Get(cache, TokenReadKey(userId)).Some? ==>
              o == TokenRead(CachedAccessToken(Get(cache, TokenReadKey(userId)).value), cache)
    // on a miss it succeeds exactly for a stored, non-empty, unexpired token, and returns that token
    ensures cacheConfigured && Get(cache, TokenReadKey(userId)).None? ==>
              (o.result.Ok? <==> !queryFails && Servable(integrations, userId, now))
    ensures cacheConfigured && Get(cache, TokenReadKey(userId)).None? && o.result.Ok? ==>
              o.result.value == integrations[userId].value.accessToken
    // a served miss caches the whole credential for the whole seconds left, whenever at least one is left
    ensures cacheConfigured && Get(cache, TokenReadKey(userId)).None? && !queryFails && Servable(integrations, userId, now) ==>
              var c := integrations[userId].value;
              o.cache == if c.expiresAt.Some? && SecondsLeft(c.expiresAt.value, now) > 0
                         then Put(cache, TokenReadKey(userId), Json(CredentialsValue(c)), SecondsLeft(c.expiresAt.value, now))
                         else cache
    // nothing is cached on a failure or a hit, and nothing but this user's credential key is ever written
    ensures o.result.Err? || Get(cache, TokenReadKey(userId)).Some? ==> o.cache == cache
    ensures cache.Keys <= o.cache.Keys <= cache.Keys + {TokenReadKey(userId)}
    ensures forall k :: k in cache && k != TokenReadKey(userId) ==> o.cache[k] == cache[k]
    // what is cached is the whole credential, for exactly the whole seconds left before it expires
    ensures o.cache != cache ==>
              && Servable(integrations, userId, now)
              && var c := integrations[userId].value;
              && c.expiresAt.Some?
              && TokenReadKey(userId) in o.cache
              && o.cache[TokenReadKey(userId)] == Entry(Json(CredentialsValue(c)), SecondsLeft(c.expiresAt.value, now))
              && 0 < o.cache[TokenReadKey(userId)].ttl
              && o.cache[TokenReadKey(userId)].ttl * 1000 <= c.expiresAt.value - now
  {
    var key := TokenReadKey(userId);
    if !cacheConfigured then TokenRead(Err(GetTokenFailed), cache)
    else if Get(cache, key).Some? then TokenRead(CachedAccessToken(Get(cache, key).value), cache)
    else if queryFails || !Servable(integrations, userId, now) then TokenRead(Err(GetTokenFailed), cache)
    else
      var c := integrations[userId].value;
      if c.expiresAt.Some? && AcceptsTtl(SecondsLeft(c.expiresAt.value, now)) then
        TokenRead(Ok(c.accessToken), Put(cache, key, Json(CredentialsValue(c)), SecondsLeft(c.expiresAt.value, now)))
      else
        TokenRead(Ok(c.accessToken), cache)
  }

  /** What `storeUserToken` answers and the state it leaves. */
  datatype TokenStore = TokenStore(result: Result<(), MetaFailure>, cache: Cache<MetaPayload>,
                                   userTokens: map<nat, UserTokenRow>)

  /** `storeUserToken(userId, token, expiresIn)`.  `writeFails` says the `user_tokens` upsert throws. */
  function StoreToken(cacheConfigured: bool, cache: Cache<MetaPayload>, userTokens: map<nat, UserTokenRow>,
                      userId: nat, token: string, expiresIn: int, now: int, writeFails: bool): (o: TokenStore)
    ensures o.result.Err? ==> o.result.error == StoreTokenFailed
    ensures o.result.Ok? <==> cacheConfigured && expiresIn > 0 && !writeFails
    // the raw token is cached for `expiresIn` seconds before the row is written, so it stays cached when the row fails
    ensures o.cache == if cacheConfigured && expiresIn > 0 then cache[TokenWriteKey(userId) := Entry(Raw(token), expiresIn)]
                       else cache
    // one row per user, holding the token and its absolute expiry in milliseconds
    ensures o.result.Ok? ==> o.userTokens.Keys == userTokens.Keys + {userId}
    ensures o.result.Ok? ==> o.userTokens[userId] == UserTokenRow(token, now + expiresIn * 1000)
    ensures o.result.Ok? ==> o.userTokens[userId].expiresAt > now
    ensures userTokens.Keys <= o.userTokens.Keys
    ensures forall u :: u in userTokens && u != userId ==> o.userTokens[u] == userTokens[u]
    ensures o.result.Err? ==> o.userTokens == userTokens
  {
    if !cacheConfigured || !AcceptsTtl(expiresIn) then TokenStore(Err(StoreTokenFailed), cache, userTokens)
    else
      var cached := Put(cache, TokenWriteKey(userId), Raw(token), expiresIn);
      if writeFails then TokenStore(Err(StoreTokenFailed), cached, userTokens)
      else TokenStore(Ok(()), cached, Upsert(userTokens, Write(userId, UserTokenRow(token, now + expiresIn * 1000)), Overwrite))
  }

  /** Storing a token changes nothing `getUserToken` sees, for any user: the
      write key is not the read key and `user_tokens` is not `user_integrations`,
      so a freshly stored token is never read back. */
  lemma StoredTokenIsNeverReadBack(cacheConfigured: bool, cache: Cache<MetaPayload>, userTokens: map<nat, UserTokenRow>,
                                   integrations: map<nat, Option<MetaCredentials>>,
                                   userId: nat, token: string, expiresIn: int, now: int, writeFails: bool,
                                   reader: nat, later: int, queryFails: bool)
    ensures var s := StoreToken(cacheConfigured, cache, userTokens, userId, token, expiresIn, now, writeFails);
            ReadToken(cacheConfigured, s.cache, integrations, reader, later, queryFails).result
            == ReadToken(cacheConfigured, cache, integrations, reader, later, queryFails).result
  {
    var s := StoreToken(cacheConfigured, cache, userTokens, userId, token, expiresIn, now, writeFails);
    TokenKeysNeverMeet(userId, reader);
    assert Get(s.cache, TokenReadKey(reader)) == Get(cache, TokenReadKey(reader));
  }

  /** In particular, a user who has only been through `storeUserToken` cannot get a token. */
  lemma StoreThenReadFails(cache: Cache<MetaPayload>, userTokens: map<nat, UserTokenRow>,
                           integrations: map<nat, Option<MetaCredentials>>,
                           userId: nat, token: string, expiresIn: int, now: int, later: int)
    requires userId !in integrations
    requires Get(cache, TokenReadKey(userId)).None?
    ensures var s := StoreToken(true, cache, userTokens, userId, token, expiresIn, now, false);
            s.result.Ok? ==> ReadToken(true, s.cache, integrations, userId, later, false).result == Err(GetTokenFailed)
  {
    StoredTokenIsNeverReadBack(true, cache, userTokens, integrations, userId, token, expiresIn, now, false,
                               userId, later, false);
  }

  /** Storing twice leaves one row for the user, holding the second token and expiry. */
  lemma StoreTwiceKeepsLast(cache: Cache<MetaPayload>, userTokens: map<nat, UserTokenRow>, userId: nat,
                            token1: string, expiresIn1: int, now1: int,
                            token2: string, expiresIn2: int, now2: int)
    requires expiresIn1 > 0 && expiresIn2 > 0
    ensures var s1 := StoreToken(true, cache, userTokens, userId, token1, expiresIn1, now1, false);
            var s2 := StoreToken(true, s1.cache, s1.userTokens, userId, token2, expiresIn2, now2, false);
            s2.userTokens == userTokens[userId := UserTokenRow(token2, now2 + expiresIn2 * 1000)]
  {
  }

  /** The keys of the cached lists are never the credential key `getUserToken` may write. */
  lemma ResourceKeysAreNotTokenReadKey(userId: nat, owner: nat, accountId: string, campaignId: string, adSetId: string,
                                       range: DateRange)
    ensures AdAccountsKey(owner) != TokenReadKey(userId)
    ensures CampaignsKey(accountId) != TokenReadKey(userId)
    ensures AdSetsKey(campaignId) != TokenReadKey(userId)
    ensures AdsKey(adSetId) != TokenReadKey(userId)
    ensures InsightsKey(campaignId, range) != TokenReadKey(userId)
  {
    assert TokenReadKey(userId)[0] == 'm';
    assert AdAccountsKey(owner)[0] == 'u';
    assert CampaignsKey(accountId)[0] == 'a';
    assert AdSetsKey(campaignId)[0] == 'c';
    assert AdsKey(adSetId)[0] == 'a';
    assert InsightsKey(campaignId, range)[0] == 'c';
  }

  /** The cache-aside round trip of every read: once a miss has cached `v`
      under a resource key, the token step of the next call leaves it in place,
      so that call is a hit answering `v` (with no fetch and no table write, by
      the hit clause of each method). */
  lemma CachedPayloadIsServed(cacheConfigured: bool, cache: Cache<MetaPayload>,
                              integrations: map<nat, Option<MetaCredentials>>, userId: nat, now: int, queryFails: bool,
                              key: string, v: MetaPayload, ttl: int, failure: MetaFailure)
    requires AcceptsTtl(ttl) && key != TokenReadKey(userId)
    ensures var t := ReadToken(cacheConfigured, Put(cache, key, Json(v), ttl), integrations, userId, now, queryFails);
            && Get(t.cache, key) == Some(Json(v))
            && FromCache(Get(t.cache, key).value, failure) == Ok(v)
  {
    CachedJsonIsServed(cache, key, v, ttl, failure);
  }

  // ---------------------------------------------------------------------
  // Persistence of fetched entities

  function AdAccountWrite(userId: nat, a: AdAccount): Write<(nat, string), AdAccountRow>
  {
    Write((userId, a.id), AdAccountRow(a.name, a.accountStatus, a.businessName))
  }

  function AdAccountWrites(userId: nat, accounts: seq<AdAccount>): seq<Write<(nat, string), AdAccountRow>>
  {
    seq(|accounts|, i requires 0 <= i < |accounts| => AdAccountWrite(userId, accounts[i]))
  }

  function AdSetWrite(campaignId: string, s: AdSet): Write<(string, string), AdSetRow>
  {
    Write((campaignId, s.id),
          AdSetRow(s.name, s.status, s.bidStrategy, s.dailyBudget, s.lifetimeBudget, s.startTime, s.endTime))
  }

  function AdSetWrites(campaignId: string, adSets: seq<AdSet>): seq<Write<(string, string), AdSetRow>>
  {
    seq(|adSets|, i requires 0 <= i < |adSets| => AdSetWrite(campaignId, adSets[i]))
  }

  function AdWrite(adSetId: string, a: Ad): Write<(string, string), AdRow>
  {
    Write((adSetId, a.id), AdRow(a.name, a.status, a.createdTime))
  }

  function AdWrites(adSetId: string, ads: seq<Ad>): seq<Write<(string, string), AdRow>>
  {
    seq(|ads|, i requires 0 <= i < |ads| => AdWrite(adSetId, ads[i]))
  }

  /** The schema probe on `campaigns`: `ad_account_id` when that column exists, else `account_id`. */
  function AccountColumnFor(hasAdAccountId: bool): AccountColumn
  {
    if hasAdAccountId then AdAccountIdColumn else AccountIdColumn
  }

  /** The schema probe on `campaign_insights`: `date_start` when that column exists, else `date`. */
  function DateColumnFor(hasDateStart: bool): InsightDateColumn
  {
    if hasDateStart then DateStartColumn else PlainDateColumn
  }

  function CampaignWrites(column: AccountColumn, accountId: string, campaigns: seq<Campaign>): seq<Write<CampaignKey, Campaign>>
  {
    seq(|campaigns|, i requires 0 <= i < |campaigns| => Write(CampaignKey(column, accountId, campaigns[i].id), campaigns[i]))
  }

  /** The row a campaign is stored as, under row id `id`: missing strings become ''. */
  function CampaignRowOf(id: nat, c: Campaign): CampaignRow
  {
    CampaignRow(id, OrElse(c.name, ""), OrElse(c.objective, ""), OrElse(c.status, ""))
  }

  /** The `campaigns` table, its id sequence and the returned campaign objects after the persistence loop. */
  datatype CampaignSync = CampaignSync(rows: map<CampaignKey, CampaignRow>, nextId: nat, campaigns: seq<Campaign>)

  /** The loop of `getCampaigns` over `ws` (each campaign with its natural
      key): each upsert in its own try/catch, `RETURNING id` copied into the
      campaign's `db_id`; a failing campaign is returned as fetched.  The
      serial default is drawn before the conflict is detected, so every upsert
      that runs advances the id sequence, and an updated row keeps its id. */
  function SyncCampaigns(rows: map<CampaignKey, CampaignRow>, nextId: nat, ws: seq<Write<CampaignKey, Campaign>>,
                         failing: set<nat>): (s: CampaignSync)
    ensures |s.campaigns| == |ws|
    decreases |ws|
  {
    if |ws| == 0 then CampaignSync(rows, nextId, [])
    else
      var prior := SyncCampaigns(rows, nextId, ws[..|ws| - 1], failing);
      var w := ws[|ws| - 1];
      if |ws| - 1 in failing then prior.(campaigns := prior.campaigns + [w.row])
      else
        var existing := w.key in prior.rows;
        var id := if existing then prior.rows[w.key].id else prior.nextId;
        CampaignSync(prior.rows[w.key := CampaignRowOf(id, w.row)], prior.nextId + 1,
                     prior.campaigns + [w.row.(dbId := Some(id))])
  }

  /** One more turn of the loop of `getCampaigns`. */
  lemma SyncCampaignsStep(rows: map<CampaignKey, CampaignRow>, nextId: nat, ws: seq<Write<CampaignKey, Campaign>>,
                          failing: set<nat>, i: nat)
    requires i < |ws|
    ensures var prior := SyncCampaigns(rows, nextId, ws[..i], failing);
            var w := ws[i];
            var id := if w.key in prior.rows then prior.rows[w.key].id else prior.nextId;
            SyncCampaigns(rows, nextId, ws[..i + 1], failing)
            == if i in failing then prior.(campaigns := prior.campaigns + [w.row])
               else CampaignSync(prior.rows[w.key := CampaignRowOf(id, w.row)], prior.nextId + 1,
                                 prior.campaigns + [w.row.(dbId := Some(id))])
  {
    assert ws[..i + 1][..i] == ws[..i];
  }

  /** Campaigns are upserted by natural key: the table gains the keys of the
      campaigns that did not fail, and every other row is left as it was. */
  lemma {:induction false} SyncCampaignsRows(rows: map<CampaignKey, CampaignRow>, nextId: nat,
                                             ws: seq<Write<CampaignKey, Campaign>>, failing: set<nat>)
    ensures var s := SyncCampaigns(rows, nextId, ws, failing);
            && s.rows.Keys == rows.Keys + WrittenKeys(ws, failing)
            && forall k :: k in rows && k !in WrittenKeys(ws, failing) ==> s.rows[k] == rows[k]
    decreases |ws|
  {
    if |ws| > 0 {
      SyncCampaignsRows(rows, nextId, ws[..|ws| - 1], failing);
      WrittenKeysLast(ws, failing);
    }
  }

  /** The indices below `n` whose upsert runs (does not throw). */
  function Ran(n: nat, failing: set<nat>): set<nat>
  {
    set i | 0 <= i < n && i !in failing
  }

  lemma RanLast(n: nat, failing: set<nat>)
    ensures |Ran(n + 1, failing)| == |Ran(n, failing)| + if n in failing then 0 else 1
  {
    if n in failing {
      assert Ran(n + 1, failing) == Ran(n, failing);
    } else {
      assert Ran(n + 1, failing) == Ran(n, failing) + {n};
    }
  }

  /** A row updated in place keeps its id, and an inserted row takes a fresh
      one from the sequence. The sequence advances once for every upsert that
      runs, an update included, and never hands out an id twice. */
  lemma {:induction false} SyncCampaignsIds(rows: map<CampaignKey, CampaignRow>, nextId: nat,
                                            ws: seq<Write<CampaignKey, Campaign>>, failing: set<nat>)
    ensures var s := SyncCampaigns(rows, nextId, ws, failing);
            && s.nextId == nextId + |Ran(|ws|, failing)|
            && rows.Keys <= s.rows.Keys
            && (forall k :: k in rows ==> s.rows[k].id == rows[k].id)
            && (forall k :: k in s.rows && k !in rows ==> nextId <= s.rows[k].id < s.nextId)
            && (forall k1, k2 :: k1 in s.rows && k2 in s.rows && k1 !in rows && k2 !in rows && k1 != k2 ==>
                  s.rows[k1].id != s.rows[k2].id)
    decreases |ws|
  {
    if |ws| > 0 {
      var n := |ws| - 1;
      SyncCampaignsIds(rows, nextId, ws[..n], failing);
      RanLast(n, failing);
    }
  }

  /** Every fetched campaign is returned in its place, a failing one as fetched
      and a persisted one carrying the id of the row its key holds after the loop. */
  lemma {:induction false} SyncCampaignsReturnsRowId(rows: map<CampaignKey, CampaignRow>, nextId: nat,
                                                     ws: seq<Write<CampaignKey, Campaign>>, failing: set<nat>, i: nat)
    requires i < |ws|
    ensures var s := SyncCampaigns(rows, nextId, ws, failing);
            if i in failing then s.campaigns[i] == ws[i].row
            else ws[i].key in s.rows && s.campaigns[i] == ws[i].row.(dbId := Some(s.rows[ws[i].key].id))
    decreases |ws|
  {
    var n := |ws| - 1;
    var front := ws[..n];
    var prior := SyncCampaigns(rows, nextId, front, failing);
    var w := ws[n];
    if i < n {
      assert front[i] == ws[i];
      SyncCampaignsReturnsRowId(rows, nextId, front, failing, i);
      if n !in failing {
        var id := if w.key in prior.rows then prior.rows[w.key].id else prior.nextId;
        assert SyncCampaigns(rows, nextId, ws, failing).rows == prior.rows[w.key := CampaignRowOf(id, w.row)];
      }
    }
  }

  /** The row a campaign key holds is the defaulted fields of the last campaign with that key that did not fail. */
  lemma {:induction false} SyncCampaignsLastWrite(rows: map<CampaignKey, CampaignRow>, nextId: nat,
                                                  ws: seq<Write<CampaignKey, Campaign>>, failing: set<nat>, i: nat)
    requires i < |ws| && i !in failing
    requires forall j :: i < j < |ws| && j !in failing ==> ws[j].key != ws[i].key
    ensures ws[i].key in SyncCampaigns(rows, nextId, ws, failing).rows
    ensures var row := SyncCampaigns(rows, nextId, ws, failing).rows[ws[i].key];
            row == CampaignRowOf(row.id, ws[i].row)
    decreases |ws|
  {
    var n := |ws| - 1;
    var front := ws[..n];
    var prior := SyncCampaigns(rows, nextId, front, failing);
    if i < n {
      assert front[i] == ws[i];
      SyncCampaignsLastWrite(rows, nextId, front, failing, i);
      if n !in failing {
        assert ws[n].key != ws[i].key;
      }
    } else {
      assert ws[n] == ws[i];
    }
  }

  /** The upsert of one insight under the probed date column, linked to the campaign row `campaignDbId`. */
  function InsightWrite(column: InsightDateColumn, campaignId: string, campaignDbId: nat, x: Insight): (w: Write<InsightKey, InsightRow>)
    ensures w.key == InsightKey(column, campaignId, x.dateStart)
    ensures w.row.campaignDbId == campaignDbId
    ensures Defaulted(x.impressions, w.row.impressions) && Defaulted(x.clicks, w.row.clicks)
    ensures Defaulted(x.ctr, w.row.ctr) && Defaulted(x.cpc, w.row.cpc) && Defaulted(x.spend, w.row.spend)
    ensures Defaulted(x.reach, w.row.reach) && Defaulted(x.frequency, w.row.frequency)
    ensures Defaulted(x.uniqueClicks, w.row.uniqueClicks) && Defaulted(x.costPerUniqueClick, w.row.costPerUniqueClick)
  {
    Write(InsightKey(column, campaignId, x.dateStart),
          InsightRow(campaignDbId, OrElse(x.impressions, 0.0), OrElse(x.clicks, 0.0), OrElse(x.ctr, 0.0),
                     OrElse(x.cpc, 0.0), OrElse(x.spend, 0.0), OrElse(x.reach, 0.0), OrElse(x.frequency, 0.0),
                     OrElse(x.uniqueClicks, 0.0), OrElse(x.costPerUniqueClick, 0.0)))
  }

  function InsightWrites(column: InsightDateColumn, campaignId: string, campaignDbId: nat, insights: seq<Insight>)
    : seq<Write<InsightKey, InsightRow>>
  {
    seq(|insights|, i requires 0 <= i < |insights| => InsightWrite(column, campaignId, campaignDbId, insights[i]))
  }

  /** After the insight loop, the row of each date holds the campaign row id and
      the metrics of the last insight for that date that did not fail: each metric
      as the API sent it, 0 for every metric the API left out. */
  lemma InsightsStoredWithDefaults(table: map<InsightKey, InsightRow>, column: InsightDateColumn, campaignId: string,
                                   campaignDbId: nat, insights: seq<Insight>, failing: set<nat>, i: nat)
    requires i < |insights| && i !in failing
    requires forall j :: i < j < |insights| && j !in failing ==> insights[j].dateStart != insights[i].dateStart
    ensures var r := UpsertEach(table, InsightWrites(column, campaignId, campaignDbId, insights), failing, Overwrite);
            var x, k := insights[i], InsightKey(column, campaignId, insights[i].dateStart);
            && k in r
            && r[k].campaignDbId == campaignDbId
            && Defaulted(x.impressions, r[k].impressions) && Defaulted(x.clicks, r[k].clicks)
            && Defaulted(x.ctr, r[k].ctr) && Defaulted(x.cpc, r[k].cpc) && Defaulted(x.spend, r[k].spend)
            && Defaulted(x.reach, r[k].reach) && Defaulted(x.frequency, r[k].frequency)
            && Defaulted(x.uniqueClicks, r[k].uniqueClicks) && Defaulted(x.costPerUniqueClick, r[k].costPerUniqueClick)
  {
    var ws := InsightWrites(column, campaignId, campaignDbId, insights);
    assert ws[i].key == InsightKey(column, campaignId, insights[i].dateStart);
    LastWriteWins(table, ws, failing, i);
  }

  /** `SELECT id FROM campaigns WHERE campaign_id = $1` finds a row. */
  predicate HasCampaign(rows: map<CampaignKey, CampaignRow>, campaignId: string)
  {
    exists k :: k in rows && k.campaignId == campaignId
  }

  // ---------------------------------------------------------------------
  // The service

  class MetaService {
    /** Whether the service was given a cache client. */
    const cacheConfigured: bool
    /** Whether `campaigns` has an `ad_account_id` column (the schema the probe reads). */
    const campaignsHaveAdAccountId: bool
    /** Whether `campaign_insights` has a `date_start` column. */
    const insightsHaveDateStart: bool
    var cache: Cache<MetaPayload>
    var db: MetaTables

    constructor (cacheConfigured: bool, campaignsHaveAdAccountId: bool, insightsHaveDateStart: bool,
                 cache: Cache<MetaPayload>, db: MetaTables)
      ensures this.cacheConfigured == cacheConfigured
      ensures this.campaignsHaveAdAccountId == campaignsHaveAdAccountId
      ensures this.insightsHaveDateStart == insightsHaveDateStart
      ensures this.cache == cache && this.db == db
    {
      this.cacheConfigured := cacheConfigured;
      this.campaignsHaveAdAccountId := campaignsHaveAdAccountId;
      this.insightsHaveDateStart := insightsHaveDateStart;
      this.cache := cache;
      this.db := db;
    }

    method StoreUserToken(userId: nat, token: string, expiresIn: int, now: int, writeFails: bool)
      returns (r: Result<(), MetaFailure>)
      modifies this
      ensures var o := StoreToken(cacheConfigured, old(cache), old(db).userTokens, userId, token, expiresIn, now, writeFails);
              r == o.result && cache == o.cache && db == old(db).(userTokens := o.userTokens)
    {
      if !cacheConfigured || !AcceptsTtl(expiresIn) {
        return Err(StoreTokenFailed);
      }
      cache := Put(cache, TokenWriteKey(userId), Raw(token), expiresIn);
      if writeFails {
        return Err(StoreTokenFailed);
      }
      var expiresAt := now + expiresIn * 1000;
      db := db.(userTokens := Upsert(db.userTokens, Write(userId, UserTokenRow(token, expiresAt)), Overwrite));
      r := Ok(());
    }

    method GetUserToken(userId: nat, now: int, queryFails: bool) returns (r: Result<string, MetaFailure>)
      modifies this`cache
      ensures var o := ReadToken(cacheConfigured, old(cache), db.userIntegrations, userId, now, queryFails);
              r == o.result && cache == o.cache
    {
      if !cacheConfigured {
        return Err(GetTokenFailed);
      }
      var key := TokenReadKey(userId);
      var cached := Get(cache, key);
      if cached.Some? {
        return CachedAccessToken(cached.value);
      }
      if queryFails || userId !in db.userIntegrations {
        return Err(GetTokenFailed);
      }
      var credentials := db.userIntegrations[userId];
      if credentials.None? || credentials.value.accessToken == "" {
        return Err(GetTokenFailed);
      }
      var c := credentials.value;
      if Expired(c.expiresAt, now) {
        return Err(GetTokenFailed);
      }
      if c.expiresAt.Some? {
        var expiresIn := SecondsLeft(c.expiresAt.value, now);
        if AcceptsTtl(expiresIn) {
          cache := Put(cache, key, Json(CredentialsValue(c)), expiresIn);
        }
      }
      r := Ok(c.accessToken);
    }

    /** `getAdAccounts`: the token first, then the cache, then the API; the
        upserts have no catch, so the first failing one fails the call after
        the list was cached and the earlier rows written. */
    method GetAdAccounts(userId: nat, now: int, queryFails: bool, remote: Remote<seq<AdAccount>>, failing: set<nat>)
      returns (r: Result<MetaPayload, MetaFailure>)
      modifies this
      ensures var t := ReadToken(cacheConfigured, old(cache), old(db).userIntegrations, userId, now, queryFails);
              var key := AdAccountsKey(userId);
              if t.result.Err? then r == Err(AdAccountsFailed) && cache == t.cache && db == old(db)
              else if Get(t.cache, key).Some? then
                r == FromCache(Get(t.cache, key).value, AdAccountsFailed) && cache == t.cache && db == old(db)
              else if remote.RemoteFailed? then r == Err(AdAccountsFailed) && cache == t.cache && db == old(db)
              else
                var ws := AdAccountWrites(userId, remote.data);
                && cache == Put(t.cache, key, Json(AdAccountList(remote.data)), AdAccountsTtl)
                && db == old(db).(adAccounts := UpsertUntilFailure(old(db).adAccounts, ws, failing, Overwrite))
                && r == if FirstFailure(|ws|, failing) < |ws| then Err(AdAccountsFailed) else Ok(AdAccountList(remote.data))
    {
      var token := GetUserToken(userId, now, queryFails);
      if token.Err? {
        return Err(AdAccountsFailed);
      }
      var key := AdAccountsKey(userId);
      var cached := Get(cache, key);
      if cached.Some? {
        return FromCache(cached.value, AdAccountsFailed);
      }
      if remote.RemoteFailed? {
        return Err(AdAccountsFailed);
      }
      var accounts := remote.data;
      cache := Put(cache, key, Json(AdAccountList(accounts)), AdAccountsTtl);
      var saved := SaveAdAccounts(userId, accounts, failing);
      if !saved {
        return Err(AdAccountsFailed);
      }
      r := Ok(AdAccountList(accounts));
    }

    /** The loop of `getAdAccounts` that saves the fetched accounts.  Nothing
        catches a throwing upsert, so the loop ends at the first one; `saved`
        says whether every upsert ran. */
    method SaveAdAccounts(userId: nat, accounts: seq<AdAccount>, failing: set<nat>) returns (saved: bool)
      modifies this`db
      ensures var ws := AdAccountWrites(userId, accounts);
              && db == old(db).(adAccounts := UpsertUntilFailure(old(db).adAccounts, ws, failing, Overwrite))
              && (saved <==> FirstFailure(|ws|, failing) == |ws|)
    {
      var ws := AdAccountWrites(userId, accounts);
      ghost var t0 := db.adAccounts;
      var table := db.adAccounts;
      var i := 0;
      // the upsert at index `i` throws when `i` is in `failing`, which ends the loop
      while i < |ws| && i !in failing
        invariant 0 <= i <= |ws|
        invariant FirstFailure(i, failing) == i
        invariant table == UpsertEach(t0, ws[..i], {}, Overwrite)
        invariant db == old(db)
      {
        UpsertUntilFailureStep(t0, ws, failing, Overwrite, i);
        table := Upsert(table, ws[i], Overwrite);
        i := i + 1;
      }
      UpsertUntilFailureStopsAt(t0, ws, failing, Overwrite, i);
      db := db.(adAccounts := table);
      saved := i == |ws|;
    }
    /** `getCampaigns`: every campaign's upsert sits in its own try/catch, so a
        failing one is skipped; the returned campaigns carry the row id, the
        cached ones do not. */
    method GetCampaigns(userId: nat, accountId: string, now: int, queryFails: bool, remote: Remote<seq<Campaign>>,
                        failing: set<nat>)
      returns (r: Result<MetaPayload, MetaFailure>)
      modifies this
      ensures var t := ReadToken(cacheConfigured, old(cache), old(db).userIntegrations, userId, now, queryFails);
              var key := CampaignsKey(accountId);
              if t.result.Err? then r == Err(CampaignsFailed) && cache == t.cache && db == old(db)
              else if Get(t.cache, key).Some? then
                r == FromCache(Get(t.cache, key).value, CampaignsFailed) && cache == t.cache && db == old(db)
              else if remote.RemoteFailed? then r == Err(CampaignsFailed) && cache == t.cache && db == old(db)
              else
                var ws := CampaignWrites(AccountColumnFor(campaignsHaveAdAccountId), accountId, remote.data);
                var s := SyncCampaigns(old(db).campaigns, old(db).nextCampaignId, ws, failing);
                && cache == Put(t.cache, key, Json(CampaignList(remote.data)), CampaignsTtl)
                && db == old(db).(campaigns := s.rows, nextCampaignId := s.nextId)
                && r == Ok(CampaignList(s.campaigns))
    {
      var token := GetUserToken(userId, now, queryFails);
      if token.Err? {
        return Err(CampaignsFailed);
      }
      var key := CampaignsKey(accountId);
      var cached := Get(cache, key);
      if cached.Some? {
        return FromCache(cached.value, CampaignsFailed);
      }
      if remote.RemoteFailed? {
        return Err(CampaignsFailed);
      }
      var campaigns := remote.data;
      cache := Put(cache, key, Json(CampaignList(campaigns)), CampaignsTtl);
      var out := SaveCampaigns(accountId, campaigns, failing);
      r := Ok(CampaignList(out));
    }

    /** The loop of `getCampaigns` that saves the fetched campaigns, each upsert
        in its own try/catch; `out` is the fetched list, each persisted campaign
        given its `db_id`. */
    method SaveCampaigns(accountId: string, campaigns: seq<Campaign>, failing: set<nat>) returns (out: seq<Campaign>)
      modifies this`db
      ensures var ws := CampaignWrites(AccountColumnFor(campaignsHaveAdAccountId), accountId, campaigns);
              var s := SyncCampaigns(old(db).campaigns, old(db).nextCampaignId, ws, failing);
              && db == old(db).(campaigns := s.rows, nextCampaignId := s.nextId)
              && out == s.campaigns
    {
      ghost var ws := CampaignWrites(AccountColumnFor(campaignsHaveAdAccountId), accountId, campaigns);
      ghost var rows0, next0 := db.campaigns, db.nextCampaignId;
      var rows, nextId := db.campaigns, db.nextCampaignId;
      out := [];
      var i := 0;
      while i < |campaigns|
        invariant 0 <= i <= |campaigns|
        invariant CampaignSync(rows, nextId, out) == SyncCampaigns(rows0, next0, ws[..i], failing)
        invariant db == old(db)
      {
        SyncCampaignsStep(rows0, next0, ws, failing, i);
        if i !in failing {
          // the schema probe runs again for every campaign
          var column := AccountColumnFor(campaignsHaveAdAccountId);
          var k := CampaignKey(column, accountId, campaigns[i].id);
          var id;
          // the serial default is drawn whether the row is inserted or updated
          var drawn := nextId;
          nextId := nextId + 1;
          if k in rows {
            id := rows[k].id;
          } else {
            id := drawn;
          }
          rows := rows[k := CampaignRowOf(id, campaigns[i])];
          out := out + [campaigns[i].(dbId := Some(id))];
        } else {
          out := out + [campaigns[i]];
        }
        i := i + 1;
      }
      assert ws[..i] == ws;
      db := db.(campaigns := rows, nextCampaignId := nextId);
    }

    /** `getAdSets`: as `getAdAccounts`, with no catch around the upserts. */
    method GetAdSets(userId: nat, campaignId: string, now: int, queryFails: bool, remote: Remote<seq<AdSet>>,
                     failing: set<nat>)
      returns (r: Result<MetaPayload, MetaFailure>)
      modifies this
      ensures var t := ReadToken(cacheConfigured, old(cache), old(db).userIntegrations, userId, now, queryFails);
              var key := AdSetsKey(campaignId);
              if t.result.Err? then r == Err(AdSetsFailed) && cache == t.cache && db == old(db)
              else if Get(t.cache, key).Some? then
                r == FromCache(Get(t.cache, key).value, AdSetsFailed) && cache == t.cache && db == old(db)
              else if remote.RemoteFailed? then r == Err(AdSetsFailed) && cache == t.cache && db == old(db)
              else
                var ws := AdSetWrites(campaignId, remote.data);
                && cache == Put(t.cache, key, Json(AdSetList(remote.data)), AdSetsTtl)
                && db == old(db).(adSets := UpsertUntilFailure(old(db).adSets, ws, failing, Overwrite))
                && r == if FirstFailure(|ws|, failing) < |ws| then Err(AdSetsFailed) else Ok(AdSetList(remote.data))
    {
      var token := GetUserToken(userId, now, queryFails);
      if token.Err? {
        return Err(AdSetsFailed);
      }
      var key := AdSetsKey(campaignId);
      var cached := Get(cache, key);
      if cached.Some? {
        return FromCache(cached.value, AdSetsFailed);
      }
      if remote.RemoteFailed? {
        return Err(AdSetsFailed);
      }
      var adSets := remote.data;
      cache := Put(cache, key, Json(AdSetList(adSets)), AdSetsTtl);
      var saved := SaveAdSets(campaignId, adSets, failing);
      if !saved {
        return Err(AdSetsFailed);
      }
      r := Ok(AdSetList(adSets));
    }

    /** The loop of `getAdSets` that saves the fetched adSets.  Nothing
        catches a throwing upsert, so the loop ends at the first one; `saved`
        says whether every upsert ran. */
    method SaveAdSets(campaignId: string, adSets: seq<AdSet>, failing: set<nat>) returns (saved: bool)
      modifies this`db
      ensures var ws := AdSetWrites(campaignId, adSets);
              && db == old(db).(adSets := UpsertUntilFailure(old(db).adSets, ws, failing, Overwrite))
              && (saved <==> FirstFailure(|ws|, failing) == |ws|)
    {
      var ws := AdSetWrites(campaignId, adSets);
      ghost var t0 := db.adSets;
      var table := db.adSets;
      var i := 0;
      // the upsert at index `i` throws when `i` is in `failing`, which ends the loop
      while i < |ws| && i !in failing
        invariant 0 <= i <= |ws|
        invariant FirstFailure(i, failing) == i
        invariant table == UpsertEach(t0, ws[..i], {}, Overwrite)
        invariant db == old(db)
      {
        UpsertUntilFailureStep(t0, ws, failing, Overwrite, i);
        table := Upsert(table, ws[i], Overwrite);
        i := i + 1;
      }
      UpsertUntilFailureStopsAt(t0, ws, failing, Overwrite, i);
      db := db.(adSets := table);
      saved := i == |ws|;
    }

    /** `getAds`: as `getAdAccounts`, with no catch around the upserts. */
    method GetAds(userId: nat, adSetId: string, now: int, queryFails: bool, remote: Remote<seq<Ad>>, failing: set<nat>)
      returns (r: Result<MetaPayload, MetaFailure>)
      modifies this
      ensures var t := ReadToken(cacheConfigured, old(cache), old(db).userIntegrations, userId, now, queryFails);
              var key := AdsKey(adSetId);
              if t.result.Err? then r == Err(AdsFailed) && cache == t.cache && db == old(db)
              else if Get(t.cache, key).Some? then
                r == FromCache(Get(t.cache, key).value, AdsFailed) && cache == t.cache && db == old(db)
              else if remote.RemoteFailed? then r == Err(AdsFailed) && cache == t.cache && db == old(db)
              else
                var ws := AdWrites(adSetId, remote.data);
                && cache == Put(t.cache, key, Json(AdList(remote.data)), AdsTtl)
                && db == old(db).(ads := UpsertUntilFailure(old(db).ads, ws, failing, Overwrite))
                && r == if FirstFailure(|ws|, failing) < |ws| then Err(AdsFailed) else Ok(AdList(remote.data))
    {
      var token := GetUserToken(userId, now, queryFails);
      if token.Err? {
        return Err(AdsFailed);
      }
      var key := AdsKey(adSetId);
      var cached := Get(cache, key);
      if cached.Some? {
        return FromCache(cached.value, AdsFailed);
      }
      if remote.RemoteFailed? {
        return Err(AdsFailed);
      }
      var ads := remote.data;
      cache := Put(cache, key, Json(AdList(ads)), AdsTtl);
      var saved := SaveAds(adSetId, ads, failing);
      if !saved {
        return Err(AdsFailed);
      }
      r := Ok(AdList(ads));
    }

    /** The loop of `getAds` that saves the fetched ads.  Nothing
        catches a throwing upsert, so the loop ends at the first one; `saved`
        says whether every upsert ran. */
    method SaveAds(adSetId: string, ads: seq<Ad>, failing: set<nat>) returns (saved: bool)
      modifies this`db
      ensures var ws := AdWrites(adSetId, ads);
              && db == old(db).(ads := UpsertUntilFailure(old(db).ads, ws, failing, Overwrite))
              && (saved <==> FirstFailure(|ws|, failing) == |ws|)
    {
      var ws := AdWrites(adSetId, ads);
      ghost var t0 := db.ads;
      var table := db.ads;
      var i := 0;
      // the upsert at index `i` throws when `i` is in `failing`, which ends the loop
      while i < |ws| && i !in failing
        invariant 0 <= i <= |ws|
        invariant FirstFailure(i, failing) == i
        invariant table == UpsertEach(t0, ws[..i], {}, Overwrite)
        invariant db == old(db)
      {
        UpsertUntilFailureStep(t0, ws, failing, Overwrite, i);
        table := Upsert(table, ws[i], Overwrite);
        i := i + 1;
      }
      UpsertUntilFailureStopsAt(t0, ws, failing, Overwrite, i);
      db := db.(ads := table);
      saved := i == |ws|;
    }

    /** `getCampaignInsights`.  `lookupFails` says the campaign lookup throws;
        `parentId` names the row `LIMIT 1` picked, which the database does not
        determine when several accounts hold the campaign. */
    method GetCampaignInsights(userId: nat, campaignId: string, range: DateRange, now: int, queryFails: bool,
                               lookupFails: bool, remote: Remote<Option<seq<Insight>>>, failing: set<nat>)
      returns (r: Result<MetaPayload, MetaFailure>, ghost parentId: Option<nat>)
      modifies this
      ensures var t := ReadToken(cacheConfigured, old(cache), old(db).userIntegrations, userId, now, queryFails);
              var key := InsightsKey(campaignId, range);
              if t.result.Err? then r == Err(InsightsFailed) && cache == t.cache && db == old(db)
              else if Get(t.cache, key).Some? then
                r == FromCache(Get(t.cache, key).value, InsightsFailed) && cache == t.cache && db == old(db)
              // without a stored campaign there is nothing to attach insights to: an empty list, and no fetch
              else if lookupFails || !HasCampaign(old(db).campaigns, campaignId) then
                r == Ok(InsightList([])) && cache == t.cache && db == old(db)
              else if remote.RemoteFailed? then r == Err(InsightsFailed) && cache == t.cache && db == old(db)
              else
                && parentId.Some?
                && (exists k :: k in old(db).campaigns && k.campaignId == campaignId
                                && old(db).campaigns[k].id == parentId.value)
                && var insights := OrElse(remote.data, []);
                && cache == Put(t.cache, key, Json(InsightList(insights)), InsightsTtl)
                && r == Ok(InsightList(insights))
                && db == if parentId.value == 0 then old(db)
                         else old(db).(insights := UpsertEach(old(db).insights,
                                         InsightWrites(DateColumnFor(insightsHaveDateStart), campaignId, parentId.value, insights),
                                         failing, Overwrite))
    {
      parentId := None;
      var token := GetUserToken(userId, now, queryFails);
      if token.Err? {
        r := Err(InsightsFailed);
        return;
      }
      var key := InsightsKey(campaignId, range);
      var cached := Get(cache, key);
      if cached.Some? {
        r := FromCache(cached.value, InsightsFailed);
        return;
      }
      if lookupFails || !HasCampaign(db.campaigns, campaignId) {
        r := Ok(InsightList([]));
        return;
      }
      var row :| row in db.campaigns && row.campaignId == campaignId;
      var campaignDbId := db.campaigns[row].id;
      parentId := Some(campaignDbId);
      if remote.RemoteFailed? {
        r := Err(InsightsFailed);
        return;
      }
      var insights := OrElse(remote.data, []);
      cache := Put(cache, key, Json(InsightList(insights)), InsightsTtl);
      if campaignDbId != 0 {
        SaveInsights(campaignId, campaignDbId, insights, failing);
      }
      r := Ok(InsightList(insights));
    }

    /** The loop of `getCampaignInsights` that saves the fetched insights for
        the campaign row `campaignDbId`, each upsert in its own try/catch. */
    method SaveInsights(campaignId: string, campaignDbId: nat, insights: seq<Insight>, failing: set<nat>)
      modifies this`db
      ensures db == old(db).(insights := UpsertEach(old(db).insights,
                                                    InsightWrites(DateColumnFor(insightsHaveDateStart), campaignId,
                                                                  campaignDbId, insights),
                                                    failing, Overwrite))
    {
      ghost var ws := InsightWrites(DateColumnFor(insightsHaveDateStart), campaignId, campaignDbId, insights);
      var i := 0;
      while i < |insights|
        invariant 0 <= i <= |insights|
        invariant db == old(db).(insights := UpsertEach(old(db).insights, ws[..i], failing, Overwrite))
      {
        UpsertEachStep(old(db).insights, ws, failing, Overwrite, i);
        if i !in failing {
          // the schema probe runs again for every insight
          var column := DateColumnFor(insightsHaveDateStart);
          db := db.(insights := Upsert(db.insights, InsightWrite(column, campaignId, campaignDbId, insights[i]), Overwrite));
        }
        i := i + 1;
      }
      assert ws[..i] == ws;
    }
  }
}
