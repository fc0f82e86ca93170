# Harvest autopilot mini-app: vault cache, balance chart and middleware

This project is a Dafny model of the three pieces of the mini-app that carry logic. Each piece's contracts state its behaviour, and they are proved.

- **The shared vault-data cache behind `useVaultsData`** (`vaults_cache.dfy`).
  - Every component using the hook shares four module-level variables: the cached `base` object, the time of the last successful fetch, the pending request and a subscriber count.
  - Each mount, unmount, `fetchData`/`refetch` call, request settlement and 60-second polling tick changes them.
  - `Shared` is that state as a value, with one step function per event. `Run` plays a sequence of events.
  - `CacheStore` holds the same state as mutable fields. Each of its methods is proved to perform exactly its event's step.
  - The properties are proved about the steps and about every run of events:
    - requests are deduplicated (at most one is outstanding);
    - the subscriber count is mounts minus unmounts;
    - the cache is replaced only by a successful response (`CacheReplacedOnlyBySuccess`);
    - the per-hook polling intervals are created and cleared by the rule below.
- **The user-balance chart** (`balance_chart.dfy`, with the vault record type in `vault_data.dfy`).
  - Pure functions cover:
    - how a vault record's optional `usdPrice`, `totalValueLocked`, `sharePrice`, `pricePerFullShare` and `decimals` fields resolve to a token price and a share price;
    - how a balance series becomes the plotted series;
    - the tops of the two axes.
  - The class `ChartView` holds the component's display state (`data`, `loading`, `isDataReady` and the three readout values). That state is updated by:
    - the data effect and the settling of the balance request it starts;
    - the two pointer handlers.
- **The request middleware** (`middleware.dfy`):
  - the whitespace normalisation of the Content Security Policy template;
  - the CORS origin allow-list check, with its wildcard rule;
  - the assembly of the forwarded request headers and the response headers;
  - the empty 204 answer to an `OPTIONS` preflight.

`wrappers.dfy` holds the `Option` type used throughout.

### How the model reads the code

- **Optional string fields.** A vault record's optional field is `Absent` (missing or empty, so falsy) or `Present(parsed)`. `parsed` is `None` when `parseFloat` gives NaN. As in the code, truthiness is tested before parsing.
- **Numbers and NaN.** Numbers are reals. `JsNumber` adds NaN, which propagates through products.
- **Mount.** A mount is the first render's `useState` initialisers followed by the effect body, taken as one event.
- **Events from the outside.** Time, request outcomes and the nonce are parameters:
  - the current time `now`;
  - the outcome of the vaults request (`Received(base)`, `MissingBase`, `TransportFailure`);
  - the outcome of the balance request (`Loaded(balance)`, `Failed`);
  - the nonce.
- **Where the code departs from the behaviour one would expect, the model follows the code.**
  - A positivity check on `usdPrice` would be expected, as the fallback price has one. The code has none and uses any non-empty `usdPrice` as parsed, zero, negative and NaN included (`BalanceChart.NonPositiveUsdPriceIsUsed`).
  - One would expect the polling timer to stop exactly when the count returns to 0. The code clears an interval only when the hook that created it is the one whose unmount brings the count to 0. If the first subscriber unmounts before the others, its interval keeps running with no subscriber. The next first mount then adds a second one (`VaultsCache.FirstOutLeavesIntervalRunning`, `VaultsCache.MountAfterLeakAddsInterval`). Even then, at most one request is outstanding (`VaultsCache.AtMostOneRequestOutstanding`).
  - The wildcard allow-list entries drop the `*` and test `endsWith`. So `https://*.walletconnect.com` admits only origins ending with `https://.walletconnect.com`, and no real subdomain such as `https://relay.walletconnect.com` (`Middleware.SubdomainsRejected`, `Middleware.RelayRejected`).

## Model

| member | source | states |
|---|---|---|
| VaultsCache.Initial | src/hooks/useVaultsData.ts:30-33 | The page-load state: nothing cached, time 0, no pending request, no subscriber, no interval; it satisfies the cache invariant |
| VaultsCache.FetchStep | src/hooks/useVaultsData.ts:40-51 | While a request is pending, `fetchData` changes nothing. Otherwise it issues exactly one request, records the calling hook as its initiator and marks that hook loading with no error. No other hook, the cache, the count and the intervals are untouched |
| VaultsCache.MountStep | src/hooks/useVaultsData.ts:88-118 | A mount gets the next id and raises the count by one. It serves cached data iff the data is present and younger than 7,200,000 ms. Otherwise it starts a fetch iff none is pending, or else joins the pending one. The new hook starts from the cache (`useState(cachedData)`), with no error; on the fetch path it is loading, and on the join path it is loading iff nothing is cached. A mount that serves or joins leaves the pending request's initiator as it was, so the settle still reaches the hook that started it. It creates a polling interval iff the count was 0. The cache and every other hook's state are unchanged |
| VaultsCache.UnmountStep | src/hooks/useVaultsData.ts:120-128 | An unmount lowers the count by one. It removes the hook's interval iff that hook created it and the count is now 0. It removes only that hook, including from the hooks waiting on a pending request; the other waiting hooks stay waiting. The pending request, its initiator, the next id and the cache are unchanged |
| VaultsCache.SettledHook | src/hooks/useVaultsData.ts:59-73 | The initiating hook stops loading. It takes the response's `base` on success; otherwise it keeps its data and records the error matching the failure. Its interval ownership is unchanged |
| VaultsCache.SettleStep | src/hooks/useVaultsData.ts:55-76 | A settle clears the pending request and counts it as settled. A response with `base` replaces the cache wholesale and stamps the time; a failure leaves both unchanged. Every joiner then holds whatever is cached and stops loading. An initiator that did not also join ends exactly as `SettledHook` gives: `base` on success, its old data on failure. Only the initiator's error changes, and hooks that are neither the initiator nor joiners are unchanged |
| VaultsCache.TickStep | src/hooks/useVaultsData.ts:112-117 | A tick issues one request, on behalf of the interval's owner, iff the window has elapsed and nothing is pending. That request is exactly the owner's `fetchData`: the owner turns loading, and the cache, count, intervals and other hooks are unchanged. Otherwise it changes nothing. When data is cached, it fetches exactly when a mount at the same time would start a fetch |
| VaultsCache.FetchKeepsInv | src/hooks/useVaultsData.ts:40-51 | `fetchData` preserves the cache invariant |
| VaultsCache.SubscribeKeepsInv | src/hooks/useVaultsData.ts:88-90 | Adding the new hook and raising the count preserves the invariant |
| VaultsCache.EngageKeepsInv | src/hooks/useVaultsData.ts:95-107 | The mount's data decision (serve, fetch or join) preserves the invariant |
| VaultsCache.StartPollingKeepsInv | src/hooks/useVaultsData.ts:110-118 | Creating the interval on the first subscription preserves the invariant |
| VaultsCache.MountKeepsInv | src/hooks/useVaultsData.ts:88-118 | A whole mount preserves the invariant |
| VaultsCache.UnmountKeepsInv | src/hooks/useVaultsData.ts:120-128 | An unmount preserves the invariant |
| VaultsCache.SettleKeepsInv | src/hooks/useVaultsData.ts:55-76 | A settle preserves the invariant |
| VaultsCache.StepKeepsInv | src/hooks/useVaultsData.ts:40-128 | Every enabled event preserves the invariant |
| VaultsCache.RunKeepsInv | src/hooks/useVaultsData.ts:40-128 | Every run of enabled events from a valid state ends in a valid state |
| VaultsCache.AtMostOneRequestOutstanding | src/hooks/useVaultsData.ts:42-51 | After any history from page load, requests issued equal requests settled plus one if a request is pending. So at most one request is ever outstanding, whatever mounts, refetches and ticks occurred |
| VaultsCache.CountIsMountsMinusUnmounts | src/hooks/useVaultsData.ts:90-122 | Across any run, the subscriber count changes by exactly the number of mounts minus the number of unmounts |
| VaultsCache.CacheOnlyBySuccess | src/hooks/useVaultsData.ts:55-61 | An event changes the cache only if it is a settle whose response carries `base`, and then the cache becomes that `base` |
| VaultsCache.CacheReplacedOnlyBySuccess | src/hooks/useVaultsData.ts:55-61 | After any run, a cache different from the starting one holds the `base` of some successful settle in that run |
| VaultsCache.IntervalsGrowOnlyOnFirstMount | src/hooks/useVaultsData.ts:110-118 | Only a mount onto a count of 0 adds an interval, and only the new hook's. Every other event adds none |
| VaultsCache.LastOutClearsInterval | src/hooks/useVaultsData.ts:120-127 | Two mounts followed by unmounts in reverse order leave no subscriber and no new interval: the creator leaves last and clears its interval |
| VaultsCache.FirstOutLeavesIntervalRunning | src/hooks/useVaultsData.ts:110-127 | Two mounts followed by unmounts in mount order leave no subscriber, but the first hook's interval is still live |
| VaultsCache.MountAfterLeakAddsInterval | src/hooks/useVaultsData.ts:109-118 | A first mount while a leaked interval is live adds a second live interval |
| VaultsCache.CacheStore.constructor | src/hooks/useVaultsData.ts:30-33 | The store starts in the page-load state and satisfies the invariant |
| VaultsCache.CacheStore.FetchData | src/hooks/useVaultsData.ts:40-86 | Performs exactly `FetchStep`, reports whether a request was started (iff none was pending) and preserves the invariant |
| VaultsCache.CacheStore.Mount | src/hooks/useVaultsData.ts:88-118 | Performs exactly `MountStep` and returns its id and action; preserves the invariant |
| VaultsCache.CacheStore.Unmount | src/hooks/useVaultsData.ts:120-128 | Performs exactly `UnmountStep`; preserves the invariant |
| VaultsCache.CacheStore.Settle | src/hooks/useVaultsData.ts:55-76 | Performs exactly `SettleStep`: the request's own continuation, then the `finally` clause, then the joiners' callbacks. Preserves the invariant |
| VaultsCache.CacheStore.Tick | src/hooks/useVaultsData.ts:112-117 | Performs exactly `TickStep`; preserves the invariant |
| BalanceChart.ParseFloat | src/components/Charts/UserBalanceChart/index.tsx:54 | A present field reads as its number, or NaN when it does not parse |
| BalanceChart.Pow10 | src/components/Charts/UserBalanceChart/index.tsx:78 | `Math.pow(10, d)` is positive for every integer `d` and at least 1 for `d >= 0` |
| BalanceChart.CurrentVaultData | src/components/Charts/UserBalanceChart/index.tsx:43-49 | A record exists iff the vaults data has loaded, the id is non-empty and present; it is that entry |
| BalanceChart.TokenPrice | src/components/Charts/UserBalanceChart/index.tsx:52-69 | A non-empty `usdPrice` gives its parsed value. Otherwise a `sharePrice` gives the price when it and `totalValueLocked` are both present and positive, and the price is then positive. In every other case the price is 1 |
| BalanceChart.SharePrice | src/components/Charts/UserBalanceChart/index.tsx:72-81 | 1 without a record or `pricePerFullShare`, and NaN when it does not parse. Otherwise the share price times `10^d` is `pricePerFullShare`, with `d` the record's `decimals` if present, else `vaultDecimals` |
| BalanceChart.UsdValue | src/components/Charts/UserBalanceChart/index.tsx:328-331 | The USD value is a number iff both prices are, and then equals value × token price × share price |
| BalanceChart.ChartData | src/components/Charts/UserBalanceChart/index.tsx:326-338 | One point per sample, in order: the sample's timestamp and value, and its USD value |
| BalanceChart.MaxOf | src/components/Charts/UserBalanceChart/index.tsx:342 | `Math.max` of a non-empty list is an upper bound of the list and one of its elements |
| BalanceChart.TokenAxisTop | src/components/Charts/UserBalanceChart/index.tsx:341-342 | For a non-empty series, the token axis top is 1.1 times the largest token value: at least every point's 1.1-scaled value and equal to one of them |
| BalanceChart.UsdAxisTop | src/components/Charts/UserBalanceChart/index.tsx:344-345 | Defined iff the series is non-empty and no USD value is NaN. It is then 1.3 times the largest USD value: a bound attained by a point |
| BalanceChart.LatestReadout | src/components/Charts/UserBalanceChart/index.tsx:243-253 | For a non-empty series the readout is the last sample's timestamp and value, with the USD value plotted for that sample; none for an empty series |
| BalanceChart.ScreenFor | src/components/Charts/UserBalanceChart/index.tsx:293-323 | The no-data message shows iff `isDataReady` is "false" and not loading. The spinner shows iff loading. The chart shows iff neither |
| BalanceChart.ChartView.constructor | src/components/Charts/UserBalanceChart/index.tsx:28-37 | The first render starts from the handed-in series (else empty). It is loading iff the parent is loading or no series was handed in. `isDataReady` is "true" iff a series was handed in. The readout is empty |
| BalanceChart.ChartView.ShowLatest | src/components/Charts/UserBalanceChart/index.tsx:101-107 | The readout shows the latest sample as `LatestReadout` gives it |
| BalanceChart.ChartView.RunEffect | src/components/Charts/UserBalanceChart/index.tsx:83-179 | The data effect, case by case. With a handed-in series and no parent loading, it takes that series and stops loading without fetching. `isDataReady` is then "true" iff the series is non-empty, and a non-empty series shows its latest sample. With the parent loading, it keeps loading and does not fetch. Otherwise it fetches iff both addresses are present (loading, "loading"); a missing address gives "false" and no loading |
| BalanceChart.ChartView.SettleFetch | src/components/Charts/UserBalanceChart/index.tsx:129-162 | A settled balance request always stops loading. A non-empty result becomes the data, gives "true" and shows its latest sample at the prices the request captured. An empty result clears the data and gives "false"; a failure gives "false" and keeps the data. The screen is then the chart iff the result was non-empty, else the no-data message |
| BalanceChart.ChartView.MouseMove | src/components/Charts/UserBalanceChart/index.tsx:211-240 | A hover shows its label as the date and, when the token payload is present, that value and its USD value. Otherwise nothing more changes, and nothing changes without a hover |
| BalanceChart.ChartView.MouseLeave | src/components/Charts/UserBalanceChart/index.tsx:243-253 | Leaving the chart shows the latest sample of the data again; an empty series changes nothing |
| BalanceChart.LeaveRestoresEffectReadout | src/components/Charts/UserBalanceChart/index.tsx:95-253 | After the effect shows a handed-in series, any hover followed by leaving the chart restores exactly the readout the effect showed |
| BalanceChart.UsdPriceWins | src/components/Charts/UserBalanceChart/index.tsx:52-55 | With a non-empty `usdPrice`, the `totalValueLocked` and `sharePrice` fields cannot change the token price |
| BalanceChart.NonPositiveUsdPriceIsUsed | src/components/Charts/UserBalanceChart/index.tsx:53-54 | A zero or negative `usdPrice` is the token price; it is not replaced by the fallback |
| BalanceChart.TvlOnlyGates | src/components/Charts/UserBalanceChart/index.tsx:57-66 | Any two positive `totalValueLocked` values give the same token price |
| BalanceChart.NoRecordPricesAreOne | src/components/Charts/UserBalanceChart/index.tsx:43-81 | With vaults not loaded, an empty id or an unknown id, both prices are 1 |
| BalanceChart.UsdPriceBeatsFallbackExample | src/components/Charts/UserBalanceChart/index.tsx:52-69 | `usdPrice` 2.0 beats a positive `totalValueLocked` and `sharePrice` 1.5: the price is 2.0 |
| BalanceChart.SharePriceExample | src/components/Charts/UserBalanceChart/index.tsx:72-79 | `pricePerFullShare` 150000000 with 8 decimals gives share price 1.5 |
| BalanceChart.ZeroDecimalsKept | src/components/Charts/UserBalanceChart/index.tsx:76 | A record's `decimals` of 0 is used (`??` keeps it), so the share price is `pricePerFullShare` itself |
| BalanceChart.SeriesExample | src/components/Charts/UserBalanceChart/index.tsx:326-338 | Samples 10 and 20 at token price 2 and share price 1 plot as USD values 20 and 40 |
| BalanceChart.HoverShowsPlottedPoint | src/components/Charts/UserBalanceChart/index.tsx:211-240 | Hovering a plotted point, with its token value as payload, shows that point's date, its token value and exactly the USD value plotted for it |
| Middleware.SkipSpaces | src/middleware.ts:48 | Drops exactly the leading run of whitespace: the result is a suffix, everything dropped is whitespace and the result does not start with it |
| Middleware.TrimEnd | src/middleware.ts:48 | Drops exactly the trailing run of whitespace: the result is a prefix, everything dropped is whitespace and the result does not end with it |
| Middleware.CollapseSpaces | src/middleware.ts:47 | The result is empty iff the input is, starts with whitespace iff the input does, and contains only plain spaces, never two adjacent |
| Middleware.NormalizeCsp | src/middleware.ts:47-48 | The normalised policy uses only plain spaces, never two adjacent, and has no leading or trailing whitespace |
| Middleware.MarksCollapse | src/middleware.ts:47 | Collapsing keeps the text: the same non-whitespace characters in order, each preceded by whitespace iff it was before |
| Middleware.MarksTrimEnd | src/middleware.ts:48 | Trimming the end keeps the text in the same sense |
| Middleware.NormalizeKeepsMarks | src/middleware.ts:46-48 | The normalised policy has the template's text, with a space exactly where the template had a whitespace run between two pieces of text |
| Middleware.CollapseFixesPlainSpacing | src/middleware.ts:47 | A string with only plain, non-adjacent spaces is left unchanged by the collapse |
| Middleware.NormalizeIdempotent | src/middleware.ts:46-48 | Normalising twice gives the same policy as normalising once |
| Middleware.CspHeader | src/middleware.ts:6-48 | The policy built from the template is in normal form |
| Middleware.IndexOf | src/middleware.ts:77 | The position of the first occurrence of the character |
| Middleware.RemoveFirst | src/middleware.ts:77 | `replace` with a one-character pattern removes only the first occurrence, or nothing if there is none |
| Middleware.AnyMatches | src/middleware.ts:75-79 | `some` over the list: true iff some entry matches |
| Middleware.WildcardEntryMatches | src/middleware.ts:76-77 | An entry `scheme*rest` matches an origin iff the origin ends with `scheme + rest` |
| Middleware.ExactEntryMatches | src/middleware.ts:78 | An entry without `*` matches an origin iff the two are equal |
| Middleware.ExactEntriesMatch | src/middleware.ts:64-66 | The three plain entries each match only themselves |
| Middleware.WalletConnectComEntryMatches | src/middleware.ts:67 | The `*.walletconnect.com` entry matches iff the origin ends with `https://.walletconnect.com` |
| Middleware.WalletConnectOrgEntryMatches | src/middleware.ts:68 | The `*.walletconnect.org` entry matches iff the origin ends with `https://.walletconnect.org` |
| Middleware.AllowedOrigins | src/middleware.ts:63-79 | A non-empty origin is allowed iff it is one of the three plain entries or ends with one of the two wildcard suffixes |
| Middleware.SubdomainsRejected | src/middleware.ts:67-77 | No `https://<host>.walletconnect.com` origin is allowed, unless the host is `explorer-api` or ends with `/` |
| Middleware.RelayRejected | src/middleware.ts:67-77 | `https://relay.walletconnect.com` is not allowed |
| Middleware.ResponseHeaders | src/middleware.ts:60-93 | The response carries the policy and the four fixed CORS headers with their values whatever the origin. It carries `access-control-allow-origin`, set to the request's origin, iff that origin is allowed, and no other header |
| Middleware.ForwardedHeaders | src/middleware.ts:50-52 | The forwarded request keeps all its headers and gains the nonce and the policy |
| Middleware.Respond | src/middleware.ts:50-103 | Builds the headers by successive sets. An `OPTIONS` request, and only that, gets an empty 204 answer. Any other request is passed on with the forwarded headers. Both carry the response headers, with the same policy string in the forwarded request and the response |
| Middleware.Handle | src/middleware.ts:4-103 | The middleware answers as `Respond` with the normalised policy |

## Left out

- Network requests: `axios.get("/api/vaults")` and `fetchUserBalanceData` are not modelled. Their outcomes are parameters of the settle events.
- Time and timers: `Date.now`, `setInterval` and `clearInterval` are not modelled. The time is the `now` parameter, a tick is an event, and clearing an interval removes it from the set of live intervals.
- The interleaving of events is left to the caller. Any order is allowed in which the event is possible: only mounted hooks unmount, only a pending request settles, only live intervals tick.
- React scheduling: batching of state updates, re-renders and `useMemo` caching are not modelled. A mount is its first render plus its effect run.
- `ChartView` and its props: the effect is re-run explicitly with new props and prices.
- JSX, recharts and the tooltip markup are not modelled, because they only render values the model computes.
- Formatting is not modelled: `formatBalance`, `toFixed(2)`, `toLocaleDateString` and the x-axis tick labels, which depend on the locale and time zone. The readout keeps the raw timestamp, token value and USD value.
- BalanceChart.TokenAxisTop: for an empty series, `Math.max()` yields minus infinity, which the model gives as None.
- BalanceChart.UsdAxisTop: for an empty series the axis top is minus infinity, which the model gives as None. With a NaN USD value the top is NaN, which the model also gives as None.
- Floating point: products, `Math.pow` and division are exact on reals, without IEEE rounding.
- Parsing: `parseFloat`'s prefix-parsing rules are abstracted as `Present(parsed)`.
- A `cachedData` object without `balance` is modelled as an empty series, as `cachedData.balance || []` reads it.
- The `cachedData.balance?.length > 0` test is taken on that series.
- The promise setup's own `catch` (src/hooks/useVaultsData.ts:80-85) is not modelled, because it cannot be reached: building the promise does not throw.
- The nonce's generation (`crypto.randomUUID` and base64) is not modelled. The nonce is a parameter.
- Framework internals: the `config.matcher` path rules are not modelled. Neither are the headers `NextResponse.next` adds of its own, nor the status of the pass-through response.
- Header names are kept lower-case, as the `Headers` class stores them. So a set replaces a header of the same name in any case.
- Logging (`console.error`) is not modelled.
- next.config.js, src/constants/index.ts, src/app/layout.tsx and src/providers/Wagmi/index.tsx are not part of this model. They hold static configuration and provider wiring.
