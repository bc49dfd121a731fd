# Coin dashboard rules, modelled in Dafny

The repository is a Next.js coin-price dashboard. It fetches tickers from Bithumb, Upbit and
Binance, stores a coin list in a remote SQL store, and lets the user keep favorites and draw
price charts. This project models the deterministic rules that sit between its I/O calls:

- **Membership toggles.** The favorites hook and the chart's indicator buttons share one rule:
  a present item is removed everywhere it occurs, and an absent one is appended
  (`Toggle`, `UseFavorites`, `CoinChart`).
- **Search and filter.** Case-insensitive substring search over a coin's symbol and names
  (`CoinService`). The add-coin form uses the same search and shows every market for a blank
  term (`AddCoinForm`, with the string operations in `Text`).
- **Ordering and paging.** `sortCoins` is a stable sort that reads a missing key as 0
  (`Utils`). The favorites page pages its list with `Array.prototype.slice` (`FavoritesPage`).
- **Record normalisation.** These modules reshape records:
  - the coin list route's GET/POST handlers and its initialise-once flag (`CoinsRoute`);
  - the prices route's market-keyed map, filled by a loop (`PricesRoute`);
  - the Upbit ticker reshaping and error classifier (`UpbitApi`);
  - the Binance coin mapping and name tables (`CoinService`).

Modelling conventions:
- JavaScript's `undefined`/`null` is `None` in an `Option`.
- Prices are `real`. Every JSON number is taken as already parsed.
- JavaScript truthiness is written out. `a || b` on numbers keeps `a` unless it is missing or 0
  (`Wrappers.OrNum`, `OrZero`). On strings, `""` is falsy (`TruthyStr`).
- Results from outside the model are parameters. These are: whether `initializeDatabase`
  succeeds, what `getCoins`/`addCoin`/`getTicker` return or throw, whether the POST in the
  add-coin form succeeds, and whether building the chart data throws.
- Coin ids are strings. `types/coin.ts` declares `id: number`, but `fetchCoins` fills the id
  with the trading symbol. The model follows the code. The favorites page checks
  `favorites.has(coin.id)` (app/favorites/page.tsx:70). The store that holds `favorites` is not
  part of this model, so it is modelled as a set of ids.

## Model

| member | source | states |
|---|---|---|
| Seqs.Filter | services/coinService.ts:52 | `filter` (also at components/AddCoinForm.tsx:95, app/favorites/page.tsx:46, hooks/useFavorites.ts:21 and components/CoinChart.tsx:435) keeps, as an order-preserving subsequence, exactly the elements that pass |
| Seqs.FilterCounts | services/coinService.ts:52 | `filter` keeps every copy of an element that passes and no copy of one that fails |
| Toggle.Toggled | hooks/useFavorites.ts:20-22 | the shared toggle rule: afterwards the toggled item is in the list iff it was not before, and every other item's membership is unchanged |
| Toggle.ToggleAbsent | hooks/useFavorites.ts:20-22 | toggling an absent item appends it at the end and leaves the rest unchanged |
| Toggle.TogglePresent | hooks/useFavorites.ts:20-21 | toggling a present item removes every occurrence; the result is an order-preserving subsequence, and every other item keeps its count |
| Toggle.ToggleTwiceAbsent | hooks/useFavorites.ts:20-22 | toggling an absent item twice restores the original list exactly |
| Toggle.ToggleNoDuplicates | hooks/useFavorites.ts:20-22 | one toggle keeps a duplicate-free list duplicate-free |
| Toggle.ToggleAllNoDuplicates | hooks/useFavorites.ts:20-22 | a duplicate-free list stays duplicate-free under any sequence of toggles |
| UseFavorites.Favorites.constructor | hooks/useFavorites.ts:7 | the favorites state starts empty; storage keeps what it held |
| UseFavorites.Favorites.ToggleFavorite | hooks/useFavorites.ts:18-29 | the new state is the toggled list, and the stored copy equals the new state |
| UseFavorites.Favorites.IsFavorite | hooks/useFavorites.ts:32-34 | true exactly when the symbol is in the current list |
| UseFavorites.Favorites.GetFavorites | hooks/useFavorites.ts:37-39 | returns the current list unchanged |
| UseFavorites.ToggleObserved | hooks/useFavorites.ts:18-34 | after the re-render that commits the new state: `isFavorite` of the toggled symbol flips, another symbol's is kept, and storage matches the state |
| CoinChart.ChartState.constructor | components/CoinChart.tsx:433 | the `indicators` state holds the list it starts from; where that initial list is declared is not part of this model |
| CoinChart.ChartState.ToggleIndicator | components/CoinChart.tsx:432-440 | a present indicator is removed everywhere; an absent one is appended at the end |
| CoinChart.ToggleTwice | components/CoinChart.tsx:432-440 | toggling an absent indicator twice restores the indicator list |
| CoinChart.RenderCharts | components/CoinChart.tsx:325-429 | precedence is loading, then a non-empty error, then empty data, then a build failure (error panel), then charts; the volume, MACD and RSI panels are each shown iff their indicator is in the list |
| Utils.PreprocessChartData | lib/utils.ts:22-31 | one point per row, in order; time is entry 0 / 1000, and open/high/low/close/volume are entries 1-5; each field a short row lacks is absent (`NaN`) |
| Utils.PreprocessConcat | lib/utils.ts:22-31 | the conversion works row by row: converting a concatenation concatenates the conversions |
| Utils.CalculatePriceChange | lib/utils.ts:33-35 | the result times `previous` is `current - previous`; no finite result when `previous` is 0 |
| Utils.PriceChangeSign | lib/utils.ts:33-35 | for `previous > 0` the change is positive, negative or zero exactly when `current` is above, below or equal to `previous` |
| Utils.PriceChangeUnchanged | lib/utils.ts:33-35 | equal prices give a change of 0 |
| Utils.KeyOf | lib/utils.ts:39-40 | the sort key is the field's value, or 0 when it is missing |
| Utils.MissingKeyIsZero | lib/utils.ts:39-40 | a missing (null or undefined) key compares as 0 |
| Utils.Compare | lib/utils.ts:41-43 | the comparator is the difference of the coins' ranks: the key, negated when descending |
| Utils.SortCoins | lib/utils.ts:37-45 | the result is a permutation of the input, of the same length, and no pair is out of comparator order |
| Utils.SortDescending | lib/utils.ts:37-45 | with `ascending = false` (the default) the result is non-increasing in the key |
| Utils.SortAscending | lib/utils.ts:37-45 | with `ascending = true` the result is non-decreasing in the key |
| Utils.SortCoinsStable | lib/utils.ts:38-44 | coins with equal keys leave the sort in the order they entered it |
| FavoritesPage.FavoriteCoins | app/favorites/page.tsx:45-47 | the loaded coins whose id is a favorite, in load order, each with all its copies and no other coin; empty when no data is loaded |
| FavoritesPage.SliceIndex | app/favorites/page.tsx:52 | `slice` reads every index into [0, n]; an index already in [0, n] is kept as it is |
| FavoritesPage.Slice | app/favorites/page.tsx:52 | `slice(start, end)` is never longer than the list, is `s[start..end]` for indices already in order within the list, and is empty when the read end is not past the read start |
| FavoritesPage.PageItems | app/favorites/page.tsx:50-52 | page p ≥ 1 holds the items at indices [(p−1)·10, p·10), clamped to the list; every page, whatever its number, holds at most 10 items |
| FavoritesPage.PagesDisjoint | app/favorites/page.tsx:50-52 | for 1 ≤ p < q, pages p and q are the list's windows [start p, end p) and [start q, end q), and page p ends at or before page q starts |
| FavoritesPage.PagesCoverAll | app/favorites/page.tsx:50-52 | pages 1..⌈n/10⌉ joined in order give back the whole list |
| FavoritesPage.Render | app/favorites/page.tsx:27-83 | loading, then the error with its own message, then the empty message exactly when no favorite coin is loaded; otherwise the current page's slice, with pagination shown iff there are more than 10 favorite coins |
| CoinService.KoreanName | services/coinService.ts:59-68 | the table's Korean name for the five listed symbols, the symbol itself otherwise |
| CoinService.EnglishName | services/coinService.ts:70-79 | the table's English name for the five listed symbols, the symbol itself otherwise |
| CoinService.FetchCoins | services/coinService.ts:16-26 | one coin per symbol, in order: id is `symbols[i]`, market is 'Binance', not a favorite, change rate is percent / 100, names come from the tables |
| CoinService.SearchCoins | services/coinService.ts:50-56 | an order-preserving subsequence of the coins: a coin whose lower-cased symbol, Korean name or English name contains the lower-cased query keeps all its copies, any other coin none |
| CoinService.SearchEmptyQuery | services/coinService.ts:53-55 | the empty query keeps every coin |
| CoinService.MatchesQueryIff | services/coinService.ts:53-55 | the match holds iff the lower-cased query occurs at some position of one of the three lower-cased names |
| Text.Lower | services/coinService.ts:53-55 | `toLowerCase` keeps the length and lowers each character on its own (ASCII letters only) |
| Text.Contains | services/coinService.ts:53-55 | `includes` holds for the empty needle, and only for a needle no longer than the haystack |
| Text.ContainsIff | services/coinService.ts:53-55 | the `includes` scan is true iff the needle occurs at some position of the haystack |
| Text.Trim | components/AddCoinForm.tsx:91 | `trim()` of a term is empty iff every character is ECMAScript white space; otherwise it neither starts nor ends with white space |
| Text.BeforeDash | components/AddCoinForm.tsx:69 | `split('-')[0]` is a prefix of the code with no '-', followed in the code by '-' unless it is the whole code |
| AddCoinForm.Form.constructor | components/AddCoinForm.tsx:14-20 | the form starts not loading, with no error, no success message, no selection and an empty search term; both market lists hold the loaded markets, as `fetchMarkets` leaves them (lines 33-35) |
| AddCoinForm.FilterMarkets | components/AddCoinForm.tsx:90-103 | a blank term yields all markets; any other term keeps, in order, every copy of each market whose lower-cased code or names contain the lower-cased, untrimmed term, and no other market |
| AddCoinForm.Form.ApplySearch | components/AddCoinForm.tsx:90-103 | the effect sets the shown markets to the filtered list and changes nothing else |
| AddCoinForm.FindMarket | components/AddCoinForm.tsx:56 | the first market with the selected code, or none iff no market has it |
| AddCoinForm.Form.AddCoin | components/AddCoinForm.tsx:45-87 | no selection: error and no request. Code not found: error and no request. Otherwise one request carrying the code's quote currency. Success resets the selection; a failure keeps it and sets the error; loading ends false |
| CoinsRoute.DbGuard.constructor | app/api/coins/route.ts:5 | the flag starts false, with no initialisation attempted |
| CoinsRoute.DbGuard.EnsureDbInitialized | app/api/coins/route.ts:5-15 | initialisation runs only while the flag is false; the flag becomes true only on success |
| CoinsRoute.NoCallsOnceInitialized | app/api/coins/route.ts:6-10 | once the flag is true, no later request calls `initializeDatabase` |
| CoinsRoute.CallsUntilFirstSuccess | app/api/coins/route.ts:6-13 | from a fresh start, with requests handled one after another, every request retries until the first success, and none calls again afterwards |
| CoinsRoute.InitCalls | app/api/coins/route.ts:6-13 | a series of requests calls `initializeDatabase` at most once per request |
| CoinsRoute.FirstSuccess | app/api/coins/route.ts:9-13 | the index of the first successful attempt: all before it failed |
| CoinsRoute.SafeJsonify | app/api/coins/route.ts:18-44 | null or undefined gives an empty array, as does a failed round trip; otherwise the round-tripped value |
| CoinsRoute.FormatCoin | app/api/coins/route.ts:66-74 | market falls back to `KRW-` + symbol when empty or missing; `is_favorite` is a boolean, true iff the stored value is non-zero; other fields are copied |
| CoinsRoute.FormatCoins | app/api/coins/route.ts:66-74 | formatting preserves length and order |
| CoinsRoute.DefaultMarket | app/api/coins/route.ts:69 | a coin with an empty or missing market is shown on `KRW-` + its symbol |
| CoinsRoute.Get | app/api/coins/route.ts:47-84 | a thrown lookup gives 500. A missing, non-array or empty result gives 200 with []. Otherwise 200 with each coin formatted, in order |
| CoinsRoute.Post | app/api/coins/route.ts:87-121 | an unparseable body gives 500. A missing or empty field gives 400 and no `addCoin` call. Otherwise `addCoin` gets the four fields: a null or undefined result gives 201 `{success: true}`, a thrown one 500, anything else 201 with its safe JSON copy |
| CoinsRoute.AddedCoinIsComplete | app/api/coins/route.ts:94-106 | `addCoin` is only ever called with four non-empty fields |
| PricesRoute.ChangeOf | app/api/coins/prices/route.ts:43 | RISE iff `fluctate_24H` > 0, FALL iff < 0, EVEN otherwise (including missing) |
| PricesRoute.FormatQuote | app/api/coins/prices/route.ts:31-58 | market is `KRW-` + key; opening and previous closing price are copied. `signed_change_price` is `fluctate_24H` or 0, `change` is its RISE/FALL/EVEN class, `change_price` its absolute value. `change_rate` is the absolute percentage / 100; `signed_change_rate` is the given rate, or else the percentage / 100. High, low and trade price fall back to max, min and closing price when the primary value is missing or 0. Volumes, traded values and 52-week prices read a missing or zero field as 0 |
| PricesRoute.QuotesKeys | app/api/coins/prices/route.ts:25-31 | the map has a key exactly for each market of an entry that is an object with a `market` key |
| PricesRoute.QuotesLastWins | app/api/coins/prices/route.ts:26-31 | each key holds the record of the last kept entry with that market |
| PricesRoute.Quotes | app/api/coins/prices/route.ts:23-32 | the map the loop specifies; every stored record's market is `KRW-` + its key |
| PricesRoute.SkippedEntry | app/api/coins/prices/route.ts:27 | non-objects and entries without `market` leave the map unchanged |
| PricesRoute.BuildQuotes | app/api/coins/prices/route.ts:23-61 | the `forEach` loop builds exactly the specified map |
| PricesRoute.Get | app/api/coins/prices/route.ts:4-76 | missing or empty `symbols` gives 400. A thrown fetch gives 500 with its message or the default text. Non-array data gives 200 with an empty map; otherwise 200 with the built map |
| UpbitApi.View | lib/upbit-api.ts:45-65 | one reshaped ticker copies its input's fields under the same names, with `trade_timestamp` taken from `timestamp` |
| UpbitApi.ViewAll | lib/upbit-api.ts:45-65 | preserves length and order; each output copies its input's fields under the same names, with `trade_timestamp` taken from `timestamp` |
| UpbitApi.FormatTickerData | lib/upbit-api.ts:40-66 | null, non-array or empty input gives []; otherwise length and order are kept and fields are copied |
| UpbitApi.LogAndThrowError | lib/upbit-api.ts:7-24 | never returns normally. With a response: "API Error: " + the response's message, or else the error's. With only a request: "Network error: " + message. Otherwise the original error is rethrown |

## Left out

- Technical indicators (SMA, EMA, RSI, MACD, Bollinger Bands) and candle aggregation: they are
  chart computations that none of the dashboard rules modelled here contains, so they are not
  modelled.
- Network and database I/O: lib/cloudflare-api.ts, lib/bithumb-api.ts, the request parts of
  lib/upbit-api.ts and services/coinService.ts, and the seeding, setup, markets and favorite
  routes are not part of this model. Their results are parameters.
- The clock-derived fields of the prices route (trade date and time, `trade_timestamp`,
  `timestamp`, 52-week dates) come from `new Date()` and `Date.now()` and are not modelled.
- Loading favorites from browser storage and the JSON encoding (hooks/useFavorites.ts:10-15) are
  not modelled. Storage is a ghost field holding the list last written.
- `fetchMarkets` in the add-coin form is I/O. The form is constructed with the loaded market list.
- UI and chart configuration, zoom listeners, layout, polling timers and network-status events
  are not modelled.
- `formatNumber`/`formatPercent` (Intl), `toFixed`, chart heights, and `parseFloat`/`parseInt`
  are not modelled. Parsed values are given as `real`. `parseInt`'s truncation of the open time
  is not modelled, because kline open times are whole milliseconds.
- Text.Lower: `toLowerCase` is modelled for the ASCII letters only. Hangul has no case, but
  non-ASCII Latin letters are not lowered here.
- Utils.SortCoins: only the numeric keys `current_price` and `change_rate` are modelled. Sorting
  by a string key makes the comparator return NaN, which has no counterpart over `real`. Sorting
  by `is_favorite` is meaningful in JavaScript, where `true - false` is 1, but it is not
  modelled either. Nor is `id`, which is typed as a number but holds the trading symbol.
- Utils.CalculatePriceChange: division by zero gives `Infinity` or `NaN` in the source. Here it
  gives an absent result, without telling the two apart.
- CoinService.KoreanName and CoinService.EnglishName: a symbol that names a property every object
  inherits (such as `constructor`) finds a function in the source's table. That case is not
  modelled; such symbols map to themselves here.
- PricesRoute.FormatQuote: the Bithumb fields are modelled as numbers. String-typed values and
  JavaScript's coercion of them in `>`, `<` and `Math.abs` are not modelled.
- CoinsRoute.SafeJsonify: the round trip through `JSON.stringify` (with its BigInt and Date
  replacer) and `JSON.parse` is a parameter, not computed.
- CoinsRoute.CallsUntilFirstSuccess and CoinsRoute.InitCalls: requests are modelled one after
  another, each finishing `ensureDbInitialized` before the next starts. The source sets the flag
  only once `initializeDatabase` resolves. So requests that overlap each call
  `initializeDatabase` while the flag is still false, and the count can then be higher.
- UseFavorites.ToggleObserved: React state updates are modelled as committed before the next
  query. In the source, `isFavorite` and `getFavorites` read the state of the render that created
  them, and `setFavorites` takes effect at the next render. So a handler that calls
  `toggleFavorite` and then `isFavorite` sees the old value.
- CoinsRoute.Post: only a null or undefined `addCoin` result gives `{success: true}` here. The
  source gives it for any falsy result, but `addCoin` (lib/cloudflare-api.ts) always returns an
  object, so the other falsy values (`0`, `""`, `false`, `NaN`) are not modelled.
- CoinsRoute.Get and CoinsRoute.Post: `ensureDbInitialized` runs first in both handlers, but it
  swallows its own errors. The handlers' results do not depend on it, so the pure handler
  functions leave it out; `DbGuard` models it.
