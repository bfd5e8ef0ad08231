# Spectra Market client bookkeeping, in Dafny

This project models the client-side bookkeeping of the Spectra prediction
market's Next.js front end, and proves properties of that model:

- **Sports-market mapping store** (`sports_market_mapping.dfy`). This is the
  `localStorage` record of which external sports event became which on-chain
  market. The store only appends, and it never records an event twice. The
  model proves lookups by event and by market, and that saving keeps event
  ids unique.
- **Sports fixtures** (`sports_api.dfy`). Fixtures from three fixed leagues
  (Premier League, NBA, NFL) become candidate markets: at most five per league
  and ten in all, with a fixed fallback list of five. The model also covers the
  sport-to-icon lookup. Ids of the generated markets are proved pairwise
  distinct.
- **Admin sports-markets page** (`sports_markets_admin.dfy`). The page holds
  an in-flight set and a created map, and creates one market or all pending
  ones. The contract is modelled by the list of its markets: a market's
  on-chain id is its position in that list.
- **Bet decryption hook** (`decrypt_user_bet.dfy`). The model covers handle
  extraction, building the decryption requests, the trigger condition and the
  handling of results, with JavaScript truthiness written out.
- **Market-list hook** (`markets.dfy`). The model covers the cache key and its
  two-minute freshness, splitting `0..count-1` into batches of five, numbering
  the markets that come back, and the in-flight guard.
- **Admin list** (`admin_config.dfy`). An address is an admin when it matches a
  listed wallet, ignoring letter case.
- **Shared conventions** (`base.dfy`). Optional values, decimal rendering of
  numbers and ASCII case mapping.

Clocks, the network, `localStorage`, `alert`/`confirm` and the decryption
service are inputs. Each effect or handler takes the value it would read
(the current time, a league's HTTP response, a multicall answer, the
decryption results) as a parameter. React state becomes fields of a class
whose methods are the effect bodies and event handlers.

## Model

| member | source | states |
|---|---|---|
| SportsMarketMapping.Read | packages/nextjs/utils/sportsMarketMapping.ts:25-31 | a stored array is returned as it is; a missing, empty or unparsable value reads as the empty list |
| SportsMarketMapping.LookupOnChainId | packages/nextjs/utils/sportsMarketMapping.ts:60-64 | the answer is null exactly when no record has the event id; otherwise it is the on-chain id of the first record for that event (`find`) |
| SportsMarketMapping.FindByMarket | packages/nextjs/utils/sportsMarketMapping.ts:69-72 | the answer is null exactly when no record names the market; otherwise it is the first record that names it |
| SportsMarketMapping.CreatedIffRecorded | packages/nextjs/utils/sportsMarketMapping.ts:77-79 | an event counts as created exactly when some record has its id, whatever market id it names (market 0 included) |
| SportsMarketMapping.EventIndexAppend | packages/nextjs/utils/sportsMarketMapping.ts:44-50 | after appending a record, the first record for an id is the old first one if there was one, otherwise the appended record if it matches |
| SportsMarketMapping.SaveAppendsOnly | packages/nextjs/utils/sportsMarketMapping.ts:37-51 | saving keeps the old list as a prefix and adds at most one record; it adds one exactly when the event was not yet recorded, and that record is the saved one |
| SportsMarketMapping.SaveIdempotent | packages/nextjs/utils/sportsMarketMapping.ts:44-48 | saving the same record twice leaves the same list as saving it once |
| SportsMarketMapping.SaveKeepsUnique | packages/nextjs/utils/sportsMarketMapping.ts:44-51 | saving keeps event ids pairwise distinct |
| SportsMarketMapping.LookupAfterSave | packages/nextjs/utils/sportsMarketMapping.ts:37-64 | after a save, the saved event resolves to the new record's market if it was new; every other lookup is unchanged |
| SportsMarketMapping.LookupUnique | packages/nextjs/utils/sportsMarketMapping.ts:60-64 | when event ids are unique, each record's event resolves to that record's market |
| SportsMarketMapping.FindByMarketPrefersEarlier | packages/nextjs/utils/sportsMarketMapping.ts:69-72 | two records for different events may name one market; the lookup by market then returns the earlier record |
| SportsMarketMapping.MappingStore.Mappings | packages/nextjs/utils/sportsMarketMapping.ts:22-32 | in the browser, the stored array or the empty list; outside it, always the empty list |
| SportsMarketMapping.MappingStore.Save | packages/nextjs/utils/sportsMarketMapping.ts:37-55 | the new slot holds the old list plus the record, unless the event was already recorded or there is no window; event ids stay unique |
| SportsMarketMapping.MappingStore.GetOnChainMarketId | packages/nextjs/utils/sportsMarketMapping.ts:60-64 | returns null exactly when no stored record has the event id |
| SportsMarketMapping.MappingStore.GetSportsEventInfo | packages/nextjs/utils/sportsMarketMapping.ts:69-72 | returns the first stored record for the market, or null |
| SportsMarketMapping.MappingStore.IsSportsMarketCreated | packages/nextjs/utils/sportsMarketMapping.ts:77-79 | true exactly when a stored record has the event id |
| SportsMarketMapping.MappingStore.Clear | packages/nextjs/utils/sportsMarketMapping.ts:84-87 | in the browser the key is removed; afterwards every read is empty |
| SportsApi.OrDefault | packages/nextjs/utils/sportsApi.ts:57-59 | a missing, null or empty field is replaced by the fallback; any other field is kept |
| SportsApi.LeagueMarkets | packages/nextjs/utils/sportsApi.ts:49-65 | a league gives nothing unless its response is ok and holds an event array; otherwise it gives its first five fixtures in order, the i-th numbered i |
| SportsApi.FetchUpcomingSportsEvents | packages/nextjs/utils/sportsApi.ts:31-82 | the loop collects the leagues in order; the result has 1 to 10 markets with distinct ids, and is the fallback list when nothing was collected |
| SportsApi.UpcomingShape | packages/nextjs/utils/sportsApi.ts:72-77 | the result is the fallback list when no league contributed; otherwise it is the first min(10, n) collected markets |
| SportsApi.AllFailedGivesMock | packages/nextjs/utils/sportsApi.ts:67-75 | when every league fails, the result is the fallback list |
| SportsApi.FailedLeagueSkipped | packages/nextjs/utils/sportsApi.ts:43-70 | a failing league adds nothing and the loop goes on with the next league |
| SportsApi.MarketIdShape | packages/nextjs/utils/sportsApi.ts:54 | a generated id is `sport-`, the four-character league id, `-` and one digit for the position |
| SportsApi.LeagueIdsMatch | packages/nextjs/utils/sportsApi.ts:35-39 | the three league ids are four characters long and pairwise distinct |
| SportsApi.LeagueMarketIds | packages/nextjs/utils/sportsApi.ts:53-54 | every id a league contributes names that league and ends in the fixture's position |
| SportsApi.CollectedIds | packages/nextjs/utils/sportsApi.ts:43-65 | the ids collected from the first n leagues are pairwise distinct, and each names one of those leagues |
| SportsApi.MockIdsDistinct | packages/nextjs/utils/sportsApi.ts:87-140 | the five fallback markets have distinct ids |
| SportsApi.UpcomingDistinctIds | packages/nextjs/utils/sportsApi.ts:31-82 | every result, fetched or fallback, has pairwise distinct ids |
| SportsApi.GetSportIcon | packages/nextjs/utils/sportsApi.ts:145-157 | a listed sport gets its icon; any other sport gets the trophy |
| SportsApi.SportIconsDistinct | packages/nextjs/utils/sportsApi.ts:146-156 | the trophy is shown exactly for unlisted sports, and listed sports get pairwise distinct icons |
| SportsMarketsAdmin.CreatedMap | packages/nextjs/app/admin/sports-markets/page.tsx:31-38 | the keys of the rebuilt map are exactly the event ids of the stored records |
| SportsMarketsAdmin.CreatedMapKeys | packages/nextjs/app/admin/sports-markets/page.tsx:31-38 | an event is in the page's map exactly when the store reports it created |
| SportsMarketsAdmin.CreatedMapAgreesWithLookup | packages/nextjs/app/admin/sports-markets/page.tsx:31-38 | when event ids are unique, the map gives each event the market id that the store's lookup gives |
| SportsMarketsAdmin.Pending | packages/nextjs/app/admin/sports-markets/page.tsx:107 | the pending list holds exactly the events not in the map, and each of them comes from the event list; a one-event list is kept or dropped by its own id |
| SportsMarketsAdmin.PendingAppend | packages/nextjs/app/admin/sports-markets/page.tsx:107 | filtering keeps list order: the pending events of a concatenation are those of the first part followed by those of the second |
| SportsMarketsAdmin.PendingDistinct | packages/nextjs/app/admin/sports-markets/page.tsx:107 | filtering keeps distinct event ids distinct |
| SportsMarketsAdmin.RecordsMatchAccepted | packages/nextjs/app/admin/sports-markets/page.tsx:116-120 | in a bulk run, the i-th stored record belongs to the i-th market the contract accepted |
| SportsMarketsAdmin.FreshRecordsNumbered | packages/nextjs/app/admin/sports-markets/page.tsx:75-77 | when the count is re-read before each creation, the i-th record of a run names market base + i |
| SportsMarketsAdmin.FreshRecordsPointToOwnMarkets | packages/nextjs/app/admin/sports-markets/page.tsx:75-82 | with a re-read count, every record names the on-chain market created for its event |
| SportsMarketsAdmin.FreshRunPointsToOwnMarkets | packages/nextjs/app/admin/sports-markets/page.tsx:75-89 | every record a run with a re-read count appends to the store names the market the contract created for its event |
| SportsMarketsAdmin.StaleRecordsMisnumbered | packages/nextjs/app/admin/sports-markets/page.tsx:106-121 | as written, every record of a run names the same market, so from the second record on the recorded id is not the market's id |
| SportsMarketsAdmin.StaleRecordsSameId | packages/nextjs/app/admin/sports-markets/page.tsx:116-117 | as written, every record of a run carries the count read when the run started |
| SportsMarketsAdmin.BulkRunCounterexample | packages/nextjs/app/admin/sports-markets/page.tsx:106-121 | two fallback events created in one run on an empty contract are both recorded as market 0 |
| SportsMarketsAdmin.AdminPage.constructor | packages/nextjs/app/admin/sports-markets/page.tsx:31-38 | on mount nothing is in flight and the map mirrors the stored records |
| SportsMarketsAdmin.AdminPage.LoadExistingMappings | packages/nextjs/app/admin/sports-markets/page.tsx:31-38 | the loop rebuilds the map from the stored records; its keys are their event ids |
| SportsMarketsAdmin.AdminPage.BeginCreate | packages/nextjs/app/admin/sports-markets/page.tsx:52-72 | an event already in flight or recorded is refused; otherwise it is marked in flight and one createMarket call is issued (category 2, target price 0); a deadline that does not parse issues nothing and clears the mark |
| SportsMarketsAdmin.AdminPage.FinishCreate | packages/nextjs/app/admin/sports-markets/page.tsx:72-103 | an accepted transaction adds one market, saves the record and sets the map entry to the count read by the handler; in every case the in-flight mark is cleared |
| SportsMarketsAdmin.AdminPage.CreateSportsMarket | packages/nextjs/app/admin/sports-markets/page.tsx:52-104 | the effect on calls, contract, store and map, blocked or not; the map keeps mirroring the store; with an up-to-date count the new record names its own market |
| SportsMarketsAdmin.AdminPage.RunStep | packages/nextjs/app/admin/sports-markets/page.tsx:116-120 | one creation of a bulk run adds its call, its market and its record under the count the run reads |
| SportsMarketsAdmin.AdminPage.RunAll | packages/nextjs/app/admin/sports-markets/page.tsx:116-120 | the loop issues, accepts and records exactly what the per-event functions say, in order, and keeps the map mirroring the store |
| SportsMarketsAdmin.AdminPage.CreateAllSportsMarkets | packages/nextjs/app/admin/sports-markets/page.tsx:106-121 | nothing happens when no event is pending or the run is not confirmed; otherwise every pending event is created in order and every record carries the starting count |
| SportsMarketsAdmin.AdminPage.CreateAllSportsMarketsFresh | packages/nextjs/app/admin/sports-markets/page.tsx:106-121 | the same run with the count re-read before each creation, which assumes each transaction's receipt is awaited before the next creation; every new record names the market created for it |
| DecryptUserBet.ExtractHandle | packages/nextjs/hooks/useDecryptUserBet.ts:6-9 | `""` and `"0x"` give `""`; a leading `0x` is dropped; anything else is kept |
| DecryptUserBet.ExtractHandleRestores | packages/nextjs/hooks/useDecryptUserBet.ts:8 | putting `0x` back in front of the handle of a prefixed ciphertext gives the ciphertext |
| DecryptUserBet.ExtractHandleEmpty | packages/nextjs/hooks/useDecryptUserBet.ts:6-9 | the handle is empty exactly for `""` and `"0x"`, and it is a suffix of the input at most two characters shorter |
| DecryptUserBet.BuildRequests | packages/nextjs/hooks/useDecryptUserBet.ts:35-47 | requests exist exactly when the hook is enabled, the address is known and both handles are non-empty; they are the amount and then the side handle, both against the contract |
| DecryptUserBet.BuildRequestsWhen | packages/nextjs/hooks/useDecryptUserBet.ts:35-47 | requests exist exactly when neither ciphertext is missing, empty or a bare `0x` (and the hook is enabled with a known address) |
| DecryptUserBet.NextAmount | packages/nextjs/hooks/useDecryptUserBet.ts:84-87 | the amount changes only to the truthy result under a non-empty handle, and then it always does; a stored amount is never 0 |
| DecryptUserBet.NextSide | packages/nextjs/hooks/useDecryptUserBet.ts:89-92 | the side changes only to the truthy result under a non-empty handle; the only value it can change to is true |
| DecryptUserBet.ShouldTriggerOnReachable | packages/nextjs/hooks/useDecryptUserBet.ts:58-63 | on values the handler can store, the truthiness trigger fires exactly when the service is ready, the hook is enabled and idle, and nothing has been decrypted |
| DecryptUserBet.NextKeepsReachable | packages/nextjs/hooks/useDecryptUserBet.ts:78-92 | the result handler never stores a 0 amount or a false side |
| DecryptUserBet.FalseSideSkipped | packages/nextjs/hooks/useDecryptUserBet.ts:89-92 | a decrypted side of false (or 0) leaves the side unchanged |
| DecryptUserBet.NextSidePresent | packages/nextjs/hooks/useDecryptUserBet.ts:89-92 | the corrected side update: a result present under a non-empty handle is stored whatever its value |
| DecryptUserBet.NextSidePresentStoresBoth | packages/nextjs/hooks/useDecryptUserBet.ts:89-92 | the corrected update stores both true and false, and agrees with the code as written when the side is true |
| DecryptUserBet.DecryptState.constructor | packages/nextjs/hooks/useDecryptUserBet.ts:22-25 | the hook starts with nothing decrypted, not decrypting and no error |
| DecryptUserBet.DecryptState.TriggerEffect | packages/nextjs/hooks/useDecryptUserBet.ts:58-63 | decrypt is called once, and the flag set, exactly when the service is ready, the hook is enabled and idle, and nothing is decrypted yet |
| DecryptUserBet.DecryptState.SyncDecrypting | packages/nextjs/hooks/useDecryptUserBet.ts:66-68 | the in-progress flag mirrors the service's flag; nothing else changes |
| DecryptUserBet.DecryptState.ErrorEffect | packages/nextjs/hooks/useDecryptUserBet.ts:71-75 | a non-empty service error is copied; an absent one leaves the old error, so an error is never cleared |
| DecryptUserBet.DecryptState.ResultsEffect | packages/nextjs/hooks/useDecryptUserBet.ts:78-93 | missing or empty results change nothing; otherwise amount and side follow the update rules above, under the handles of the current ciphertexts |
| Markets.CacheKey | packages/nextjs/hooks/useMarkets.ts:53 | the key is the address, a `-` and the decimal count |
| Markets.CacheKeyInjective | packages/nextjs/hooks/useMarkets.ts:53 | for addresses without `-`, equal keys mean the same address and the same count |
| Base.NatToStringInjective | packages/nextjs/hooks/useMarkets.ts:53 | distinct counts render as distinct decimal strings |
| Markets.Cached | packages/nextjs/hooks/useMarkets.ts:54-61 | a cached list is served exactly when an entry exists for the key and less than 120000 ms have passed since its timestamp |
| Markets.CachedAfterStore | packages/nextjs/hooks/useMarkets.ts:57-120 | a list stored at time t is served while now < t + 120000, and storing it changes no other key's answer |
| Markets.BatchingCovers | packages/nextjs/hooks/useMarkets.ts:72-84 | the batches, concatenated, are 0..count-1 in order, and each batch holds 1 to 5 indices |
| Markets.FlattenPrefix | packages/nextjs/hooks/useMarkets.ts:75-84 | the first n batches cover 0..min(5n, count)-1 |
| Markets.BuildBatches | packages/nextjs/hooks/useMarkets.ts:72-84 | the loop builds ceil(count/5) batches; batch k is 5k..min(5k+5, count)-1; together they cover 0..count-1 |
| Markets.KeptIndicesSound | packages/nextjs/hooks/useMarkets.ts:96-116 | the kept positions increase, each names a successful call with a payload, and every such call is kept |
| Markets.KeptAll | packages/nextjs/hooks/useMarkets.ts:96-116 | as many markets come back as were asked for exactly when every call succeeded with a payload |
| Markets.PositionIsIndexIff | packages/nextjs/hooks/useMarkets.ts:103-104 | a kept market's number is at most its call's index, and equals it exactly when no earlier call was dropped |
| Markets.NumberBatch | packages/nextjs/hooks/useMarkets.ts:97-116 | the inner loop extends the numbered list by the kept results of one multicall |
| Markets.NumberAll | packages/nextjs/hooks/useMarkets.ts:94-117 | the outer loop numbers the kept results of all multicalls, in order |
| Markets.FlattenResults | packages/nextjs/hooks/useMarkets.ts:94-117 | the markets are the kept payloads, in order, numbered 0, 1, 2 by position |
| Markets.FlattenResultsIndexed | packages/nextjs/hooks/useMarkets.ts:103-104 | the corrected numbering: each market carries the index of the call that read it |
| Markets.AnswersLineUp | packages/nextjs/hooks/useMarkets.ts:75-82 | position p of the flattened batches is market index p, so position in the answers is the on-chain index |
| Markets.FailedCallShiftsIds | packages/nextjs/hooks/useMarkets.ts:96-116 | one failed call before a good one gives the good market number 0 although it is market 1 |
| Markets.MarketsHook.constructor | packages/nextjs/hooks/useMarkets.ts:28-33 | the hook starts with no markets, loading, and no fetch in flight |
| Markets.MarketsHook.Trigger | packages/nextjs/hooks/useMarkets.ts:35-84 | each early exit is covered: no contract or client, unknown count, zero count, a fresh cache hit, a fetch in flight; otherwise loading starts, the flag is set and the batches of 0..count-1 are planned under the key |
| Markets.MarketsHook.Complete | packages/nextjs/hooks/useMarkets.ts:86-129 | on success the numbered list goes to state and to the cache under the key, stamped now; on failure the list is emptied and the cache untouched; both flags are cleared either way |
| AdminConfig.AnyMatches | packages/nextjs/utils/adminConfig.ts:15 | true exactly when some listed address equals the given one up to letter case |
| AdminConfig.IsAdmin | packages/nextjs/utils/adminConfig.ts:13-16 | true exactly when the address is present, non-empty and equal to a listed admin up to letter case |
| AdminConfig.IsAdminIff | packages/nextjs/utils/adminConfig.ts:6-16 | with the single listed wallet, an address is an admin exactly when it spells the production wallet in any case |
| AdminConfig.IsAdminIgnoresCase | packages/nextjs/utils/adminConfig.ts:13-16 | addresses that differ only in letter case get the same answer |
| AdminConfig.ProductionAdminAnyCase | packages/nextjs/utils/adminConfig.ts:6-16 | the production wallet is an admin as checksummed, in lower case and in upper case |

## Left out

- Network requests (league fixtures, multicalls, `createMarket` transactions) are inputs: a league's response, a multicall answer, and whether a transaction is accepted.
- Transaction outcome: the `accepted` flag of `SportsMarketsAdmin.Attempt` stands for a `createMarket` transaction that is submitted and then mined successfully, in submission order, before the next creation starts. `writeContractAsync` resolves on submission, so the page also records a transaction that later reverts (gas is fixed at 300000), and a fresh `marketCount` is seen only after mining and the next 60-second poll; neither the revert nor the polling delay is modelled.
- Parsing JSON from `localStorage` is reduced to three cases: missing, unparsable, or a parsed array of well-formed records. A parsed value that is not an array of records is not modelled.
- Storage write failures (quota errors caught in `saveSportsMarketMapping`) are not modelled; a write always succeeds.
- `volume` and `participants` of a sports market come from `Math.random` and are dropped from the market datatype.
- The fallback deadline ("a week from now" as an ISO date) and the event deadline converted to Unix seconds come from the clock and `Date` parsing, so both are inputs. A deadline that does not parse is `None`.
- The outer `catch` of `fetchUpcomingSportsEvents` cannot be reached once each league's errors are caught, so it is not modelled.
- `getSportIcon` on keys inherited from `Object.prototype` (such as `"constructor"`) is not modelled.
- Letter case is mapped for ASCII letters only; addresses are hex, so this is enough for them.
- `alert`, `confirm`, `console` and the one-second delay between bulk creations are not modelled; `confirm`'s answer is an input.
- React scheduling is not modelled: each effect or handler runs to completion as one method call, and interleavings of concurrent handlers are not modelled.
- SportsMarketsAdmin.AdminPage.CreateAllSportsMarkets: requires the page's map to mirror the store, distinct event ids and nothing in flight. This holds whenever the page's own handlers have run to completion, and events come from `fetchUpcomingSportsEvents`, whose ids are proved distinct.
- SportsMarketsAdmin.AdminPage.CreateAllSportsMarketsFresh: has the same requirements as `CreateAllSportsMarkets`.
- DecryptUserBet.DecryptState.TriggerEffect: requires `Valid()` (no stored `0n` amount or `false` side). The effects keep it, and the handler can store no other values.
- Decrypted values that arrive as strings or hex text (converted with `BigInt`/`Boolean`) are not modelled; a clear value is a bigint or a boolean.
- The decryption service (`useFHEDecrypt`) is not part of this model. Its readiness, in-progress flag, error and results are inputs.
- `Number(marketCount)` is modelled as exact; precision loss above 2^53 is not modelled.
- Markets.MarketsHook: the module-wide cache is one object shared by the hook instances given it. The `useEffect` dependency list (what re-runs the effect) is not modelled.

## Findings

| source | as written | input that shows it | evidently intended | confidence | as-written member | corrected member |
|---|---|---|---|---|---|---|
| packages/nextjs/app/admin/sports-markets/page.tsx:77 | in a bulk run, every `createSportsMarket` reads `marketCount` from the render that started the run, so every record of the run names the same market | two pending events, both created on a contract with 0 markets: both records name market 0 | each record names the market created for it (count at the start of the run + number of earlier successes, with each receipt awaited before the next creation) | not executed; high | SportsMarketsAdmin.AdminPage.CreateAllSportsMarkets, SportsMarketsAdmin.BulkRunCounterexample | SportsMarketsAdmin.AdminPage.CreateAllSportsMarketsFresh |
| packages/nextjs/hooks/useDecryptUserBet.ts:89 | the decrypted side is stored only when it is truthy, so a bet on the `false` side never gets its side | results `{h: false}` for side handle `h`: `decryptedSide` stays null | store any result present under the handle | not executed; medium | DecryptUserBet.FalseSideSkipped | DecryptUserBet.NextSidePresent |
| packages/nextjs/hooks/useMarkets.ts:104 | a market's `id` is its position among the markets that came back, not the index it was read from | calls for markets 0 and 1 where the first fails: market 1 is listed with `id` 0 | `id` is the index passed to `getMarket` | not executed; medium | Markets.FailedCallShiftsIds | Markets.FlattenResultsIndexed |
