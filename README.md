# Credential lifecycle and cache-aside synchronisation, in Dafny

This project models the two backend services of a marketing-analytics
application that talk to the Meta Ads Graph API and to Google Analytics:

- `MetaService` keeps a per-user Meta access token in a TTL cache (Redis) and
  in a relational row (Postgres), and serves ad accounts, campaigns, ad sets,
  ads and campaign insights through a cache-aside read that persists every
  fetched entity by its natural key.
- `GoogleAnalyticsService` keeps the user's OAuth credentials in
  `google_credentials`, caches the access token for at most an hour,
  refreshes an expired token when a refresh token exists, and serves
  accounts, properties and report data through the same cache-aside pattern.

Both services are imperative, so each becomes a Dafny `class` whose fields are
the cache (`map<string, Entry>`, an entry being the stored text or JSON value
and its TTL in seconds) and the tables (one `map` per table, keyed by its
natural key, gathered in a `MetaTables`/`GoogleTables` record). Each method
follows the source statement by statement, with its loops and invariants,
and its `ensures` ties the result and the new state to specification
functions of the old state. The token logic, the TTL formulas and the
persistence loops are those functions (`ReadToken`, `StoreToken`,
`SaveToken`, `TokenCacheTime`, `SyncCampaigns`, `UpsertEach`,
`UpsertUntilFailure`). The lemmas beside them state what the services
promise: key separation, round trips, freshness of what is cached,
last-write-wins and idempotent upserts.

Everything outside the process is an input of the operation that uses it:

- the clock, as `now` in milliseconds;
- each remote response (`Remote<T>`: the parsed data, or a failure);
- whether a given query throws (`queryFails`, `lookupFails`, `SaveFaults`);
- the set `failing` of the indices of the fetched entities whose upsert throws.

The two services share one Redis instance and one Postgres pool in the
application. Here each class has its own cache and tables: the Google keys
all start with `google:` and no Meta key does, and the two services use
disjoint tables.

Files: `store.dfy` (cache, options, results, decimal rendering of ids),
`tables.dfy` (upsert by natural key and the three failure policies of the
persistence loops), `meta.dfy` (module `MetaAds`), `google.dfy` (module
`GoogleAnalytics`).

## Model

| member | source | states |
|---|---|---|
| Store.Put | backend/src/services/metaService.js:51-56 | `SET key value EX ttl` with a TTL Redis accepts: the key holds the value with that TTL, a later `GET` sees the value (an empty string reads as a miss), every other key reads as before |
| Store.CachedJsonIsServed | backend/src/services/metaService.js:159-179 | the cache-aside round trip: a value a miss cached as JSON, with a TTL Redis accepts, is what the next read of that key finds and parses back |
| Store.Decimal | backend/src/services/metaService.js:157 | a user id renders as a non-empty string of decimal digits |
| Store.DecimalInjective | backend/src/services/metaService.js:157 | distinct user ids render differently, so per-user keys never collide |
| Tables.Upsert | backend/src/services/metaService.js:183-189 | `INSERT … ON CONFLICT (natural key) DO UPDATE`: the table gains at most the written key, other rows are untouched |
| Tables.UpsertEach | backend/src/services/googleAnalyticsService.js:192-205 | writes applied in order, each in its own try/catch: the table gains exactly the keys of the writes that did not throw, and no other row changes |
| Tables.UpsertEachLastWrite | backend/src/services/googleAnalyticsService.js:247-260 | the row a key ends with is decided by the last successful write to that key (for `google_properties`, merged with the stored row) |
| Tables.LastWriteWins | backend/src/services/metaService.js:450-488 | with an overwriting conflict rule and each write in its own try/catch, a key holds the values of its last successful write |
| Tables.UpsertEachOverlays | backend/src/services/googleAnalyticsService.js:192-205 | with an overwriting conflict rule, a batch overlays the rows it writes on the table |
| Tables.RefetchIsIdempotent | backend/src/services/googleAnalyticsService.js:192-205 | fetching and persisting the same list twice leaves the table as once: rows are updated in place, never duplicated |
| Tables.FirstFailure | backend/src/services/metaService.js:182-190 | the index of the first write that throws, with no throwing write before it, or the length when none throws |
| Tables.UpsertUntilFailure | backend/src/services/googleAnalyticsService.js:332-361 | writes applied until the first one throws, that one and all later ones abandoned: the table gains exactly the keys of the writes before it |
| Tables.UpsertUntilFailureStopsAt | backend/src/services/metaService.js:182-190 | a loop without a catch that ends at the first throwing write, or after the last, has left what `UpsertUntilFailure` describes |
| MetaAds.TokenKeysNeverMeet | backend/src/services/metaService.js:51-82 | the key `storeUserToken` writes (`user:{u}:meta_token`) is never the key `getUserToken` reads (`meta_access_token:{v}`), for any two users |
| MetaAds.TokenReadKeyInjective | backend/src/services/metaService.js:82 | each user's credential is cached under a key of its own |
| MetaAds.SecondsLeft | backend/src/services/metaService.js:131 | the floor of the remaining lifetime in seconds: `s*1000 <= expires_at-now < s*1000+1000`, and positive exactly when at least one second is left |
| MetaAds.ReadToken | backend/src/services/metaService.js:77-147 | a hit returns the cached credential's `access_token` with no store read and no write (raw text fails); without a cache client it fails, changing nothing; a miss succeeds exactly for a stored, non-empty, unexpired (`expires_at <= now` is expired) token and returns it; every failure is the one wrapped error; nothing is cached on a failure or a hit; a servable miss caches the whole credential under the user's own key for exactly the whole seconds left when that is positive, and caches nothing otherwise |
| MetaAds.StoreToken | backend/src/services/metaService.js:49-70 | the raw token is cached under `user:{u}:meta_token` for `expiresIn` seconds before the row is written; the `user_tokens` row keyed by user holds the token and `now + expiresIn*1000`; it fails (wrapped) without a cache client, with a TTL Redis refuses, or when the row write throws, and the cache write stays |
| MetaAds.StoredTokenIsNeverReadBack | backend/src/services/metaService.js:49-97 | storing a token changes nothing `getUserToken` observes, for any user: the store is not a cache round trip |
| MetaAds.StoreThenReadFails | backend/src/services/metaService.js:49-128 | a user who only went through `storeUserToken` still gets the "token not found" failure |
| MetaAds.StoreTwiceKeepsLast | backend/src/services/metaService.js:59-64 | storing twice leaves one row for the user, holding the second token and expiry |
| MetaAds.ResourceKeysAreNotTokenReadKey | backend/src/services/metaService.js:82-396 | the account, campaign, ad set, ad and insight keys are never the key under which `getUserToken` caches a credential |
| MetaAds.CachedPayloadIsServed | backend/src/services/metaService.js:159-179 | a list a miss cached survives the token read the next call starts with, and that call finds and parses it back |
| MetaAds.SyncCampaigns | backend/src/services/metaService.js:233-267 | the persistence loop of `getCampaigns` returns one campaign per fetched campaign (its rows, ids and returned ids are stated by the lemmas below) |
| MetaAds.SyncCampaignsRows | backend/src/services/metaService.js:249-256 | campaigns are upserted by `(account column, campaign_id)`: the table gains exactly the keys of the campaigns that did not fail; other rows are untouched |
| MetaAds.SyncCampaignsIds | backend/src/services/metaService.js:249-259 | an updated row keeps its id; an inserted row takes a fresh id from the serial sequence; the sequence advances by exactly the number of upserts that ran, updates included, and no two inserted rows share an id |
| MetaAds.SyncCampaignsReturnsRowId | backend/src/services/metaService.js:259-264 | every campaign is returned in its place: a failing one as fetched, a persisted one with `db_id` the id of the row its key holds |
| MetaAds.SyncCampaignsLastWrite | backend/src/services/metaService.js:250-255 | a campaign's row holds its name, objective and status, each `''` when missing |
| MetaAds.InsightsStoredWithDefaults | backend/src/services/metaService.js:450-488 | after the insights loop, an insight that did not fail and is the last of its date holds its row under `(campaign_id, date column)` with the campaign row id, each metric the API sent and 0 for each it left out |
| MetaAds.MetaService.constructor | backend/src/services/metaService.js:7-13 | the service starts from the given cache client, schema and stores |
| MetaAds.MetaService.StoreUserToken | backend/src/services/metaService.js:49-70 | answers and updates cache and `user_tokens` as `StoreToken` says; no other table changes |
| MetaAds.MetaService.GetUserToken | backend/src/services/metaService.js:77-147 | answers and updates the cache as `ReadToken` says; the tables are untouched |
| MetaAds.MetaService.GetAdAccounts | backend/src/services/metaService.js:154-197 | the token comes first, so a token failure fails even a cache hit; a hit returns the cached list with no fetch and no write; a miss caches the fetched list under `user:{u}:ad_accounts` for 3600 s, then upserts by `(user_id, account_id)` with no catch: the first failing upsert fails the call, with the list cached and the earlier rows written |
| MetaAds.MetaService.SaveAdAccounts | backend/src/services/metaService.js:182-190 | the upsert loop of `getAdAccounts`, with no catch: the table is what `UpsertUntilFailure` leaves, and it reports whether every upsert ran |
| MetaAds.MetaService.GetCampaigns | backend/src/services/metaService.js:205-272 | same token, hit and miss rules, `account:{a}:campaigns` for 1800 s; then campaigns are upserted one by one, a failing one skipped, under the column the schema probe finds, and the whole list is returned with each persisted campaign's row id (the cached list has none) |
| MetaAds.MetaService.SaveCampaigns | backend/src/services/metaService.js:233-265 | the upsert loop of `getCampaigns`: campaign rows, the serial sequence and the returned campaigns are what `SyncCampaigns` gives |
| MetaAds.MetaService.GetAdSets | backend/src/services/metaService.js:280-333 | same rules, `campaign:{c}:adsets` for 1800 s; upsert by `(campaign_id, ad_set_id)` with no catch |
| MetaAds.MetaService.SaveAdSets | backend/src/services/metaService.js:308-326 | the upsert loop of `getAdSets`, with no catch, as `UpsertUntilFailure` describes, reporting whether every upsert ran |
| MetaAds.MetaService.GetAds | backend/src/services/metaService.js:341-384 | same rules, `adset:{s}:ads` for 1800 s; upsert by `(ad_set_id, ad_id)` with no catch |
| MetaAds.MetaService.SaveAds | backend/src/services/metaService.js:369-377 | the upsert loop of `getAds`, with no catch, as `UpsertUntilFailure` describes, reporting whether every upsert ran |
| MetaAds.MetaService.GetCampaignInsights | backend/src/services/metaService.js:393-496 | same token and hit rules under `campaign:{c}:insights:{start}-{end}`; with no stored campaign, or a failing lookup, `[]` with no fetch and no cache write; otherwise the fetched insights (or `[]`) are cached for 7200 s and, when the campaign row id is non-zero, upserted one by one with failures isolated |
| MetaAds.MetaService.SaveInsights | backend/src/services/metaService.js:449-489 | the insights loop, each upsert in its own try/catch, as `UpsertEach` describes over the insight rows with missing metrics as 0 |
| GoogleAnalytics.TokenKeyIsTokenKey | backend/src/services/googleAnalyticsService.js:99 | the token key lies in the `google:token:` namespace |
| GoogleAnalytics.ResourceKeysAreNotTokenKeys | backend/src/services/googleAnalyticsService.js:169-279 | the account, property and report keys never lie in the token namespace |
| GoogleAnalytics.TokenKeyInjective | backend/src/services/googleAnalyticsService.js:115 | each user's token is cached under a key of its own |
| GoogleAnalytics.PutKeepsTokenKeysRaw | backend/src/services/googleAnalyticsService.js:151 | the token namespace keeps holding raw token text when a token or a JSON resource is cached |
| GoogleAnalytics.SaveCacheTime | backend/src/services/googleAnalyticsService.js:98 | `min(expires_in, 3600)`: at most an hour, never longer than the token lives, positive exactly when `expires_in` is |
| GoogleAnalytics.TokenCacheTime | backend/src/services/googleAnalyticsService.js:148-149 | between 0 and 3600, never beyond the expiry on record, positive exactly when at least a whole second is left, 3600 when an hour or more is left, and below that exactly the whole seconds left |
| GoogleAnalytics.RefreshTokenLostAsWritten | backend/src/services/googleAnalyticsService.js:75-88 | as written, for every existing row and every token set without a refresh token, a successful save leaves the row with no refresh token, so it can never be refreshed |
| GoogleAnalytics.SaveTokenAsWritten | backend/src/services/googleAnalyticsService.js:72-105 | `saveUserToken` with the UPDATE as written: the same outcome as `SaveToken`, except that an updated row takes the refresh token the as-written rule gives |
| GoogleAnalytics.UpdatedRefreshToken | backend/src/services/googleAnalyticsService.js:87 | (corrected refresh-token rule, see Findings) the new refresh token if the token set carries one, else the stored one: a usable refresh token is never lost |
| GoogleAnalytics.SaveToken | backend/src/services/googleAnalyticsService.js:72-105 | (corrected refresh-token rule, see Findings) the lookup then UPDATE or INSERT leaves exactly one row for the user, with the new token and `now + expires_in*1000`; the token is then cached under `google:token:{u}` for `min(expires_in, 3600)` s, never past its expiry; a throwing statement or a TTL Redis refuses is the one wrapped error, the refused TTL only after the row was written |
| GoogleAnalytics.ReadToken | backend/src/services/googleAnalyticsService.js:112-159 | (corrected refresh-token rule, see Findings) a hit returns the cached text with no store read; a miss whose lookup throws or finds no row fails, changing neither cache nor credentials; an expired token with a refresh token is refreshed: a failed refresh fails changing nothing, a fetched one succeeds exactly when `SaveToken` does, leaving cache and row as `SaveToken` leaves them, and returns the new token; otherwise the stored token is returned, expired or not, and cached for `TokenCacheTime` seconds when that is positive, nothing cached otherwise; a failure caches nothing; only the user's token key is written |
| GoogleAnalytics.ReadTokenCachesOnlyLiveToken | backend/src/services/googleAnalyticsService.js:135-152 | whatever `getUserToken` caches is the token it returns and the one on record, for at most 3600 s and never beyond the recorded expiry |
| GoogleAnalytics.ExpiredWithoutRefreshIsServedUncached | backend/src/services/googleAnalyticsService.js:135-154 | an expired token with no refresh token is returned as it is and not cached |
| GoogleAnalytics.RefreshKeepsRefreshToken | backend/src/services/googleAnalyticsService.js:135-145 | (corrected refresh-token rule, see Findings) after a refresh the row still holds a usable refresh token, so it can be refreshed again once it expires |
| GoogleAnalytics.SaveThenRead | backend/src/services/googleAnalyticsService.js:97-118 | a saved non-empty token is what the next `getUserToken` returns, from the cache, whatever the row and the clock say, changing nothing |
| GoogleAnalytics.SaveTwiceKeepsOneRow | backend/src/services/googleAnalyticsService.js:75-95 | saving twice leaves one row for the user, holding the second token and expiry |
| GoogleAnalytics.CachedPayloadIsServed | backend/src/services/googleAnalyticsService.js:166-212 | a list a miss cached survives the token read the next call starts with, keeps the token namespace raw, and is found and parsed back |
| GoogleAnalytics.PropertyKeepsFirstAccount | backend/src/services/googleAnalyticsService.js:247-260 | a property listed again under another account keeps the account it was first stored under and takes the new display name |
| GoogleAnalytics.PropertyAccountIdsStay | backend/src/services/googleAnalyticsService.js:247-260 | no property upsert changes the account of a stored row |
| GoogleAnalytics.ReportRowsStoredWithDefaults | backend/src/services/googleAnalyticsService.js:331-362 | after the report loop, a row before the first failing upsert that is the last of its date before it holds each metric the API sent and 0 for each it left out |
| GoogleAnalytics.GoogleAnalyticsService.constructor | backend/src/services/googleAnalyticsService.js:9-24 | the service starts from the given cache and stores |
| GoogleAnalytics.GoogleAnalyticsService.SaveUserToken | backend/src/services/googleAnalyticsService.js:72-105 | answers and updates cache and `google_credentials` as `SaveToken` says, keeping the token namespace raw |
| GoogleAnalytics.GoogleAnalyticsService.GetUserToken | backend/src/services/googleAnalyticsService.js:112-159 | (corrected refresh-token rule, see Findings) answers and updates cache and `google_credentials` as `ReadToken` says, running `SaveUserToken` on a refresh |
| GoogleAnalytics.GoogleAnalyticsService.GetAccounts | backend/src/services/googleAnalyticsService.js:166-212 | the token comes first, so a token failure fails even a cache hit; a hit returns the cached list with no fetch and no write; a miss caches the list (or `[]`) under `google:accounts:{u}` for 1800 s and upserts each account by `(user_id, account_id)` in its own try/catch, returning the whole list |
| GoogleAnalytics.GoogleAnalyticsService.SaveAccounts | backend/src/services/googleAnalyticsService.js:192-205 | the upsert loop of `getAccounts`, each upsert in its own try/catch, as `UpsertEach` describes |
| GoogleAnalytics.GoogleAnalyticsService.GetProperties | backend/src/services/googleAnalyticsService.js:220-267 | same rules under `google:properties:{a}:{u}` for 1800 s; each property upserted by `(user_id, property_id)` in its own try/catch, a conflict updating only the display name |
| GoogleAnalytics.GoogleAnalyticsService.SaveProperties | backend/src/services/googleAnalyticsService.js:247-260 | the upsert loop of `getProperties`, each upsert in its own try/catch, a conflict keeping the stored account, as `UpsertEach` describes |
| GoogleAnalytics.GoogleAnalyticsService.GetReportData | backend/src/services/googleAnalyticsService.js:276-369 | same rules under `google:report:{p}:{start}-{end}:{u}` for 3600 s; the rows are upserted until the first one that throws, the rest abandoned, and the report is returned even then |
| GoogleAnalytics.GoogleAnalyticsService.SaveReportRows | backend/src/services/googleAnalyticsService.js:331-362 | the report loop inside one try/catch: the rows are upserted until the first that throws, as `UpsertUntilFailure` describes |

## Left out

- The OAuth code exchange (`exchangeCodeForToken` in both services), `getOAuth2Client` and `getAuthUrl`: transport and URL construction in foreign libraries. The token endpoint's answer to a refresh is an input (`TokenEnv.refresh`) carrying `access_token`, `refresh_token` and `expires_in`. The shape the OAuth library really returns is not part of this model.
- The Graph API, Analytics Admin and Analytics Data calls: their responses are inputs. The report is taken to be what `runReport` yields, and each report row's dimension and metrics are already extracted. A row whose extraction throws counts as a failing row.
- `JSON.stringify`/`JSON.parse`: a cached JSON value is the value itself. Raw token text does not parse. A parsed Meta value that is not a credential object has no `access_token`, modelled as `''`.
- SQL text and the `information_schema` probes: each table is a map keyed by its natural key. Each probe's answer is a constant of the service (`campaignsHaveAdAccountId`, `insightsHaveDateStart`), read again on every loop turn. The columns `created_at` and `updated_at` are not modelled.
- Redis expiry and the passage of time: the cache holds the live keys at the moment of a call, and the TTL is recorded but never counted down.
- Concurrency between requests, such as two refreshes of the same token: every operation runs alone.
- A missing cache client in the Google service, which makes every call fail, is not modelled. For Meta it is the `cacheConfigured` constant.
- MetaAds.MetaCredentials: `expires_at` is either a number of milliseconds or absent/unparseable (`None`: never expired, never cached). A `null` is read as 0.
- MetaAds.MetaService.GetCampaigns: the returned campaigns are built as a new sequence, not by mutating the fetched objects. The objects were already cached before they were mutated, which is modelled.
- GoogleAnalytics.SaveToken: uses the corrected refresh-token rule `UpdatedRefreshToken`; the rule as written is `UpdatedRefreshTokenAsWritten`, modelled by `SaveTokenAsWritten` (see Findings).
- GoogleAnalytics.ReadToken: a refresh saves through `SaveToken`, so it uses the corrected refresh-token rule (see Findings).
- GoogleAnalytics.RefreshKeepsRefreshToken: holds for the corrected refresh-token rule only; as written the refresh token is lost (`RefreshTokenLostAsWritten`).
- GoogleAnalytics.GoogleAnalyticsService.GetUserToken: a refresh runs the corrected `SaveUserToken` (see Findings).
- GoogleAnalytics.GoogleAnalyticsService.SaveUserToken: uses the corrected refresh-token rule `UpdatedRefreshToken`; the rule as written is `UpdatedRefreshTokenAsWritten` (see Findings).
- GoogleAnalytics.ReadToken: requires the token namespace of the cache to hold raw text (`TokenKeysRaw`), the class invariant every method keeps. A JSON value there would be returned as its serialised text, which the model does not compute.
- A Redis `GET` or `SET` that throws is not modelled: every cache call succeeds once a client exists. In the source such a throw would fail the call at that point, for example a `SET` after a fetch or after the row was saved.
- The Meta list fetches read `response.data.data` with no `|| []` default; the model always receives a list, so a response without `data` (which makes the source throw on the cache write or the loop) is not modelled.
- MetaAds.SyncCampaigns: a campaign upsert that throws is taken not to consume a value of the serial sequence; in Postgres a failed insert may consume one, which only makes later ids larger.
- The persistence loops are separate methods of the service classes (`SaveAdAccounts`, `SaveCampaigns`, …) that the fetching methods call; each is the loop of the source, statement by statement.
- Token sets and stored expiries are integers; `NaN` arithmetic on a malformed `expires_in` is not modelled.
- The controllers, routes, application set-up, the authentication service, the table-creation script and the frontend are not part of this model.

## Findings

| source | as written | input that shows it | evidently intended | confidence | as-written member | corrected member |
|---|---|---|---|---|---|---|
| backend/src/services/googleAnalyticsService.js:75-88 | the UPDATE writes `tokens.refresh_token` or else the `refresh_token` of the lookup row, but the lookup selects only `id`, so the fallback is always empty | a stored row with refresh token `"refresh"` that expired, refreshed with a token set carrying no refresh token (the usual refresh response) | keep the stored refresh token when the new token set has none, so the next expiry can be refreshed too | high (not executed) | GoogleAnalytics.RefreshTokenLostAsWritten | GoogleAnalytics.UpdatedRefreshToken |
