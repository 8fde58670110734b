# crypto-dashboard, modelled in Dafny

This project models the core of crypto-dashboard. The dashboard is a Next.js
site that charts cryptocurrency prices from a Supabase database. It computes
user-defined metrics with mathjs formulas and shows indicator charts. Python
scripts produce those indicators and upload them.

The model covers the following parts:

- **Custom metrics.** `Formula`, `MetricEvaluator`, `MetricIsolation`,
  `MetricBuilder` and `MetricsWorkbench` model `lib/metricEvaluator.ts` and
  the metric components: data preparation, per-coin formula evaluation with
  its try/catch, the chart format, the formula builder form and the saved
  metrics kept in local storage. The mathjs evaluator is a parameter: any
  total function from a formula and a scope to a value, or to "throws".
- **Coin selection and the API routes.** `CoinSelector`, `PricesRoute`,
  `CoinsRoute`, `IndicatorsListRoute`, `IndicatorsUpdateRoute` and
  `FetchSpecialRoute` model the routes. Each route is a function of the
  request and of the rows the database returns.
- **The Python side.** `IndicatorServer` is the Flask indicator server with
  its plug-in discovery. `Top100` is the top-100 tracker. `DotEnv` and
  `Credentials` model environment loading and client creation.
  `IndicatorUpload` and `Chunking` model the indicator and crowding
  uploaders. The table checker's `.env.local` parser and key choice are
  modelled by `DotEnv` and `Credentials`. `IndicatorParams`, `AvsIndicator`,
  `FundingSignals` and `SimpleIndicator` model the indicator scripts'
  parameter handling, period filters, signals and plot shapes.

`Common` and `Strings` hold the value model shared by everything:
- JSON-like values;
- floats with NaN, compared the IEEE way;
- Python's truthiness and `int()`;
- string helpers.

## Model

| member | source | states |
|---|---|---|
| Formula.Prev | lib/metricEvaluator.ts:76-82 | `prev(steps)` gives the coin's value at row index-steps when that row exists and the value is truthy. It gives 0 when the value is falsy or the row is out of range. |
| Formula.PrevWhole | lib/metricEvaluator.ts:76-82 | For a whole k, `prev(k)` reads exactly row index-k when it exists and is 0 otherwise. The default step is 1. |
| Formula.PrevAtFirstRow | lib/metricEvaluator.ts:76-82 | At row 0, `prev()` is 0. |
| MetricEvaluator.SeriesField | lib/metricEvaluator.ts:207-216 | `series[index][coin]` is defined exactly when the index is in range, the entry is an object and it holds the coin. It is then that field. |
| MetricEvaluator.PrepareCoin | lib/metricEvaluator.ts:199-220 | One coin adds the price under the coin's name, `<coin>_marketCap` and `<coin>_volume`, each only when defined. Every other key is unchanged. |
| MetricEvaluator.PrepareDataForMetrics | lib/metricEvaluator.ts:178-225 | One output row per price point, in order. Empty price data gives []. |
| MetricEvaluator.PrepareRowKeys | lib/metricEvaluator.ts:193-224 | A prepared row holds only "date" and the listed coins' price, market-cap and volume keys. Its date is the price point's date. |
| MetricEvaluator.PrepareRowFields | lib/metricEvaluator.ts:199-220 | When no coin name collides with another coin's suffixed key, a listed coin's three fields in a prepared row are its price, market cap and volume at that index. |
| MetricEvaluator.SuffixedKeys | lib/metricEvaluator.ts:208-216 | `<c>_marketCap` never equals `<c'>_volume`. Each suffixed key determines its coin. |
| MetricEvaluator.CoinList | lib/metricEvaluator.ts:35-44 | A non-empty coin list is used as given. Otherwise the coins are the first row's keys other than date, custom_*, price, volume and marketCap. |
| MetricEvaluator.FlatKeyIsNotDate | lib/metricEvaluator.ts:98 | A flattened metric key `<coin>_<name>` is never "date". |
| MetricEvaluator.FlatKeyIsNotName | lib/metricEvaluator.ts:98-102 | A flattened metric key never equals the metric's own name. |
| MetricEvaluator.CoinVars | lib/metricEvaluator.ts:65-89 | The scope binds index, price, volume and marketCap. Each of the last three is the row's coin field when truthy and 0 otherwise. |
| MetricEvaluator.Column | lib/metricEvaluator.ts:76-82 | The column `prev` reads has one entry per row: that row's coin field. |
| MetricEvaluator.MetricStep | lib/metricEvaluator.ts:93-113 | One try/catch step writes only the flattened key and the metric's name. A throw writes null to the flattened key. A success writes the result there and under `[name][coin]`, creating the nested object when it is absent and keeping the other coins' entries. |
| MetricEvaluator.ApplyRows | lib/metricEvaluator.ts:47-116 | The row loop over the first n rows keeps the length and leaves rows from n on untouched. |
| MetricEvaluator.CalculatedData | lib/metricEvaluator.ts:23-119 | The result has one row per input row. With no metrics, the data comes back unchanged. |
| MetricEvaluator.CalculateCustomMetrics | lib/metricEvaluator.ts:23-119 | The method works on a fresh array copied from the input. It returns exactly CalculatedData, the specification the isolation lemmas are proved about. |
| MetricEvaluator.ProcessRow | lib/metricEvaluator.ts:49-115 | The coin loop for row i leaves the array equal to ApplyCoins of its old contents. |
| MetricEvaluator.ProcessCoin | lib/metricEvaluator.ts:92-114 | The metric loop for one row and coin leaves the array equal to ApplyMetrics of its old contents. |
| MetricEvaluator.TryStep | lib/metricEvaluator.ts:93-113 | The in-place update of the try/catch body equals MetricStep. |
| MetricEvaluator.UnwrittenKeysKept | lib/metricEvaluator.ts:47-116 | Every field that no (coin, metric) pair writes keeps its input value in every row. |
| MetricEvaluator.DatesKept | lib/metricEvaluator.ts:32-116 | Output rows keep their input dates, unless a metric is itself named "date". |
| MetricEvaluator.ChartValue | lib/metricEvaluator.ts:144-155 | The nested `point[name][coin]` is taken when it is an object entry that is neither undefined nor null. Otherwise the flattened key is read, which may be undefined. |
| MetricEvaluator.ChartPoint | lib/metricEvaluator.ts:136-164 | A chart point's keys are exactly "date" and the coins. Each coin maps to its ChartValue. The date is copied when no coin is named "date". |
| MetricEvaluator.FormatMetricDataForChart | lib/metricEvaluator.ts:128-168 | One chart point per row, in order, with the keys and values of ChartPoint. |
| MetricIsolation.CellPrev | lib/metricEvaluator.ts:76-82 | In a cell's scope, `prev(k)` reads the coin's input field at row i-k. It is 0 when that field is falsy or the row does not exist. |
| MetricIsolation.CellsAreIsolated | lib/metricEvaluator.ts:23-119 | When written keys do not collide, each flattened cell holds its own formula's value in a scope built from the input, or null when that formula threw. Each metric's nested object holds exactly the coins whose formula succeeded. Every unwritten field keeps its input value. |
| MetricIsolation.ChartShowsCells | lib/metricEvaluator.ts:128-168 | The chart of a metric shows, for each chart coin and row, that cell's own outcome. A failing formula for one coin never changes another coin's value. |
| MetricBuilder.AllMetrics | components/metrics/MetricBuilder.tsx:46-52 | The options are the three built-in metrics, then one per saved metric, in order, labelled by name and inserting `custom.<id>`. |
| MetricBuilder.TokenIsNotBinding | components/metrics/MetricBuilder.tsx:77-85 | The token a saved metric inserts (`custom.<id>`) is never a name the preview binds (`custom_<id>`). The token is built at line 50. |
| MetricBuilder.BaseScope | components/metrics/MetricBuilder.tsx:65-74 | The preview scope binds exactly price, volume and marketCap. Each is the sample row's field, or 0 when that field is falsy. |
| MetricBuilder.BuildScope | components/metrics/MetricBuilder.tsx:77-85 | The in-place forEach over the saved metrics gives the chained scope. |
| MetricBuilder.ChainKeepsOtherKeys | components/metrics/MetricBuilder.tsx:77-85 | Chaining changes no key other than the `custom_<id>` bindings. |
| MetricBuilder.ChainKeepsBase | components/metrics/MetricBuilder.tsx:70-85 | Saved metrics never shadow price, volume or marketCap. |
| MetricBuilder.ChainBindsEarlierResults | components/metrics/MetricBuilder.tsx:77-85 | A saved metric whose id is not reused later stays bound to its own result, or to 0 when it threw. It is evaluated in the scope of the metrics before it. |
| MetricBuilder.Preview | components/metrics/MetricBuilder.tsx:55-109 | No preview when the formula is shorter than 3 characters or there is no sample. The whole preview fails when a sample row is null. Otherwise there is one point per row. |
| MetricBuilder.PreviewRowsIndependent | components/metrics/MetricBuilder.tsx:63-100 | A preview point depends only on its own sample row. |
| MetricBuilder.PreviewPointMeaning | components/metrics/MetricBuilder.tsx:87-99 | A point carries its row's date. Its value is the formula's result, or null exactly when the formula threw. |
| MetricBuilder.Append | components/metrics/MetricBuilder.tsx:114-131 | Appending to an empty formula gives the token alone. Otherwise it gives the old formula, a space, then the token. |
| MetricBuilder.AddMetricToFormula | components/metrics/MetricBuilder.tsx:112-119 | Nothing changes without a selection. Otherwise the selected token is appended and the selection is cleared. |
| MetricBuilder.OperationText | components/metrics/MetricBuilder.tsx:125-127 | An operation containing "(" inserts `op() `. Any other inserts `op `. |
| MetricBuilder.OperationsInsertPlainText | components/metrics/MetricBuilder.tsx:20-28 | Every offered operation inserts its value followed by a space. The value is appended by addOperationToFormula at lines 125-127. |
| MetricBuilder.AddOperationToFormula | components/metrics/MetricBuilder.tsx:122-134 | Nothing changes without a selection. Otherwise the operation text is appended and the selection is cleared. |
| MetricBuilder.HandleSave | components/metrics/MetricBuilder.tsx:137-159 | A draft is passed to onSave exactly when name, formula and preview are present. The form is then cleared. A missing name or formula sets the "required" error. A missing preview sets the "valid formula" error. |
| MetricBuilder.ComposeFormula | components/metrics/MetricBuilder.tsx:112-134 | Adding a metric and then an operation gives the old formula followed by both tokens, and clears both selections. |
| MetricBuilder.SavedFormIsCleared | components/metrics/MetricBuilder.tsx:137-159 | A form that was just saved cannot be saved again. Saving it reports the "required" error. |
| MetricsWorkbench.Encode | components/metrics/MetricsWorkbench.tsx:11-13 | A saved metric is written as a record with string id, name and formula, which the loader accepts as valid. |
| MetricsWorkbench.Decode | components/metrics/MetricsWorkbench.tsx:24-37 | A valid stored record is read back with the id, name and formula it holds. |
| MetricsWorkbench.DecodeEncode | components/metrics/MetricsWorkbench.tsx:11-37 | Reading back a written metric gives the same metric. |
| MetricsWorkbench.LoadMetrics | components/metrics/MetricsWorkbench.tsx:16-44 | Nothing stored gives [] and leaves storage alone. Unparsable text or a non-array clears storage and gives []. An array keeps exactly its valid records, in order. |
| MetricsWorkbench.LoadPersisted | components/metrics/MetricsWorkbench.tsx:11-44 | Loading what a save wrote gives the saved list back, without clearing storage. |
| MetricsWorkbench.Deleted | components/metrics/MetricsWorkbench.tsx:76 | The kept metrics are exactly those with another id. An absent id changes nothing. |
| MetricsWorkbench.DeleteIdempotent | components/metrics/MetricsWorkbench.tsx:76 | Deleting an id twice is the same as deleting it once. |
| MetricsWorkbench.DeleteUndoesSave | components/metrics/MetricsWorkbench.tsx:64-76 | Deleting a just-saved metric whose id is fresh restores the old list. |
| MetricsWorkbench.NextSelection | components/metrics/MetricsWorkbench.tsx:88-100 | Selecting the selected metric deselects it. Selecting another selects it. |
| MetricsWorkbench.SelectTwice | components/metrics/MetricsWorkbench.tsx:88-100 | Selecting the same metric twice returns to the original selection. |
| MetricsWorkbench.Workbench.constructor | components/metrics/MetricsWorkbench.tsx:46-54 | The workbench starts with the loaded metrics and nothing selected. Storage is cleared exactly when loading says so. |
| MetricsWorkbench.Workbench.SaveMetric | components/metrics/MetricsWorkbench.tsx:57-72 | The new metric is appended and persisted. It becomes the selection and is announced, and creation mode ends. |
| MetricsWorkbench.Workbench.DeleteMetric | components/metrics/MetricsWorkbench.tsx:75-85 | The metric is removed and the list persisted. A deleted selection is cleared and null is announced. Any other selection is kept. |
| MetricsWorkbench.Workbench.SelectMetric | components/metrics/MetricsWorkbench.tsx:88-100 | The selection toggles as NextSelection says, and the new selection (or null) is announced. Nothing else changes. |
| CoinSelector.IncludesEmpty | components/CoinSelector.tsx:24 | Every string includes "". |
| CoinSelector.IncludesItself | components/CoinSelector.tsx:24 | Every string includes itself. |
| CoinSelector.FilteredCoins | components/CoinSelector.tsx:23-25 | The shown coins are exactly the available coins whose lower-cased name contains the lower-cased search term. |
| CoinSelector.EmptySearchShowsAll | components/CoinSelector.tsx:23-25 | An empty search shows every available coin, in order. |
| CoinSelector.CoinMatchesItsName | components/CoinSelector.tsx:23-25 | A coin matches a search for its own name, in any case. |
| CoinSelector.Toggle | components/CoinSelector.tsx:27-37 | A selected coin is removed. An unselected one is appended while fewer than maxCoins are selected. Otherwise the toggle is refused (the alert). |
| CoinSelector.FilterKeepsNoDuplicates | components/CoinSelector.tsx:29 | Removing a coin keeps a selection free of duplicates. |
| CoinSelector.ToggleKeepsValid | components/CoinSelector.tsx:27-37 | A toggle keeps the selection duplicate-free and within maxCoins. |
| CoinSelector.ToggleTwice | components/CoinSelector.tsx:27-37 | Adding a coin and then toggling it again restores the selection. |
| CoinSelector.ScopeChange | components/CoinSelector.tsx:39-43 | A scope change reaches the parent exactly when a handler is given. |
| PricesRoute.CoinsParam | app/api/crypto/prices/route.ts:8 | A missing `coins` parameter gives BTC, ETH, SOL and BNB. A given one is split at commas into a non-empty list that joins back to the parameter. |
| PricesRoute.CoinsParamRoundTrip | app/api/crypto/prices/route.ts:8 | Splitting a comma-joined list of comma-free symbols gives the list back. |
| PricesRoute.Projection | app/api/crypto/prices/route.ts:28-34 | A row's keys are "date" and the requested coins that have a price. Each coin keeps its price. The date is kept unless a coin is named "date". |
| PricesRoute.ProjectRow | app/api/crypto/prices/route.ts:28-36 | The forEach that builds a row in place gives Projection. |
| PricesRoute.GetPrices | app/api/crypto/prices/route.ts:10-46 | A query error, or a row with null prices, gives the 500 response, and nothing else does. An empty result gives []. Otherwise there is one projected row per database row, in order. |
| PricesRoute.RowsProjectRequestedCoins | app/api/crypto/prices/route.ts:27-37 | Each output row carries its input date. It holds a requested coin exactly when that coin has a price, and holds no other coin. |
| CoinsRoute.ScopeParam | app/api/crypto/coins/route.ts:6 | A missing scope means "current". Only "all" selects the tracked-coins branch. |
| CoinsRoute.RecentSymbols | app/api/crypto/coins/route.ts:15-25 | Scope "all" lists the symbols of the rows with last_in_top100 on or after the cutoff, as a permutation sorted by symbol. |
| CoinsRoute.RecentSymbolsMembership | app/api/crypto/coins/route.ts:15-25 | A symbol is listed exactly when some tracked row with it is recent enough. |
| CoinsRoute.ByRank | app/api/crypto/coins/route.ts:61-64 | The ranking's symbols are listed in an order sorted by rank, as a permutation of the entries. |
| CoinsRoute.ByRankOrder | app/api/crypto/coins/route.ts:61-64 | Sorting by rank lists every symbol of the ranking once per entry and no other. |
| CoinsRoute.KeysOfSort | app/api/crypto/coins/route.ts:62-64 | Sorting the entries keeps the multiset of their symbols. |
| CoinsRoute.GetCoins | app/api/crypto/coins/route.ts:4-75 | Scope "all" lists the recent symbols. Otherwise the latest ranking is listed by rank. Without a ranking, the latest price row's keys are listed sorted. Without that row the response is 404, and no other case is. The response is 500 exactly when the query used fails, or its ranking or price object is null (Object.keys and Object.entries throw on null). |
| CoinsRoute.SortedKeys | app/api/crypto/coins/route.ts:56 | The fallback lists the price keys as a sorted permutation. |
| CoinsRoute.SortedKeysIgnoreOrder | app/api/crypto/coins/route.ts:56 | Two duplicate-free key lists with the same members give the same listing, whatever their order. |
| CoinsRoute.SortedSetsAgree | app/api/crypto/coins/route.ts:56 | Two sorted duplicate-free lists with the same members are equal. |
| IndicatorsListRoute.AddIndicators | app/api/indicators/list/route.ts:48-52 | Adding a coin's keys keeps the list so far as a prefix and adds exactly the new keys other than "price". It keeps the list duplicate-free and free of "price". |
| IndicatorsListRoute.DistinctIndicators | app/api/indicators/list/route.ts:41-53 | The listed indicators are duplicate-free and never "price". They are exactly the non-price keys of some coin. |
| IndicatorsListRoute.PushIndicators | app/api/indicators/list/route.ts:48-52 | The inner loop over one coin's keys appends exactly what AddIndicators adds: the new keys other than "price", first-seen first. |
| IndicatorsListRoute.CollectIndicators | app/api/indicators/list/route.ts:37-53 | The nested forEach loops, which push in place, give DistinctIndicators and the coins in key order. |
| IndicatorsListRoute.Combinations | app/api/indicators/list/route.ts:58-63 | One combination per coin, in order. Each holds that coin's keys without "price", in their order: the keys are the order-keeping Filter of the coin's keys. |
| IndicatorsListRoute.ListIndicators | app/api/indicators/list/route.ts:4-76 | A missing or empty URL or anon key gives the configuration error, and nothing else does. A query error gives 500. No row gives an empty listing. Otherwise the response holds the distinct indicators, the coins and the combinations of the latest row. |
| IndicatorsListRoute.ListingAgreesWithCombinations | app/api/indicators/list/route.ts:41-63 | An indicator is listed exactly when some coin's combination offers it. |
| IndicatorsListRoute.MoreCoinsExtendListing | app/api/indicators/list/route.ts:41-53 | Another coin never removes or reorders the indicators listed before it. |
| IndicatorsUpdateRoute.SecondToken | app/api/indicators/update/route.ts:10 | The token compared with the secret is the second space-separated word of the header. It contains no space. |
| IndicatorsUpdateRoute.BearerHasSecondToken | app/api/indicators/update/route.ts:10 | A header starting with "Bearer " always has a second token: the first word after the prefix. |
| IndicatorsUpdateRoute.BearerSecretAccepted | app/api/indicators/update/route.ts:10 | "Bearer <secret>" is accepted for a secret without spaces. |
| IndicatorsUpdateRoute.UnusableSecrets | app/api/indicators/update/route.ts:5-10 | With no secret configured, or one containing a space, every request is unauthorized. |
| IndicatorsUpdateRoute.FirstRejected | app/api/indicators/update/route.ts:44-54 | The index of the first indicator lacking a truthy date, indicator_name or base_coin. Every one before it passes. |
| IndicatorsUpdateRoute.CheckIndicators | app/api/indicators/update/route.ts:44-54 | All pass exactly when none is rejected. The first rejected indicator is reported. A null indicator throws instead. |
| IndicatorsUpdateRoute.IndicatorsOf | app/api/indicators/update/route.ts:33-41 | The body is accepted exactly when `indicators` is a non-empty array. |
| IndicatorsUpdateRoute.Update | app/api/indicators/update/route.ts:7-84 | A bad header or secret is 401, and only that. Missing configuration is 500, and only that. An authorized, configured request succeeds exactly when the body is accepted, every indicator is valid and the upsert succeeds; it reports the number of indicators. It is 400 exactly when the non-null body lacks a non-empty indicators array, and 400 naming the indicator exactly when the check finds an invalid one. |
| IndicatorsUpdateRoute.InvalidIndicatorWritesNothing | app/api/indicators/update/route.ts:44-62 | An invalid indicator is answered before the upsert: the upsert's outcome does not matter. |
| IndicatorsUpdateRoute.WellFormedBatch | app/api/indicators/update/route.ts:7-72 | A correctly authorized, configured, non-empty, valid batch is processed with its count when the upsert succeeds, and fails with 500 otherwise. |
| FetchSpecialRoute.StartOf | app/api/indicators/fetch-special/route.ts:11-34 | 7D, 1M, 3M, 6M and 1Y move the start back by that span. ALL starts on 2010-01-01. Any other value leaves the start at now. |
| FetchSpecialRoute.OnlyExactRangesMove | app/api/indicators/fetch-special/route.ts:14-34 | Lower-case or numeric ranges, and a missing range, leave the start at now. |
| FetchSpecialRoute.ToCrowding | app/api/indicators/fetch-special/route.ts:94-103 | A kept row keeps its date, is named Crowding for base coin BTC, takes `data.BTC.Crowding.value` as its value and carries only `data.BTC`. |
| FetchSpecialRoute.CrowdingRows | app/api/indicators/fetch-special/route.ts:92-104 | At most one output row per input row. |
| FetchSpecialRoute.CrowdingRowsSnoc | app/api/indicators/fetch-special/route.ts:92-104 | A row with BTC crowding data adds its converted row at the end. Any other row adds nothing. |
| FetchSpecialRoute.AllRowsKept | app/api/indicators/fetch-special/route.ts:92-104 | When every row has crowding data, each is converted in place and order. |
| FetchSpecialRoute.CrowdingRowsComeFromRows | app/api/indicators/fetch-special/route.ts:92-104 | Every output row is the conversion of an input row with crowding data, and every such row appears. |
| FetchSpecialRoute.FetchSpecial | app/api/indicators/fetch-special/route.ts:5-121 | A body that is missing or null throws outside the handler's try. Missing credentials give 500. A query error gives 500. An empty result gives []. Otherwise the response is the crowding rows of the query. |
| IndicatorServer.IndicatorFiles | server.py:184-186 | The candidate files are exactly the listed files that end in ".py", do not start with "__" and are neither base_indicator.py nor utils.py. |
| IndicatorServer.ModuleName | server.py:189 | The module name is the file name without its last three characters. |
| IndicatorServer.ClassName | server.py:196 | The class name has one character fewer than the module name for each underscore. Underscores split the name into words, which are capitalized and joined. |
| IndicatorServer.FundingIndicatorClass | server.py:196 | funding_indicator is looked up as class FundingIndicator. |
| IndicatorServer.AvsModuleIsSkipped | server.py:196-198 | avs_indicator_ci is looked up as AvsIndicatorCi, never as AVSIndicator. |
| IndicatorServer.LoadOne | server.py:189-208 | A module defining the expected class registers that class's instance under the instance's name, replacing an earlier one. An import error, a raising constructor or a missing class leaves the registry unchanged. |
| IndicatorServer.FailuresAreSkipped | server.py:190-208 | A file that fails to load changes nothing, and later files load as if it were absent. |
| IndicatorServer.RegisteredKeyedByName | server.py:203 | Every registered indicator is stored under its own name. |
| IndicatorServer.Server.constructor | server.py:23 | The registry starts empty. |
| IndicatorServer.Server.LoadIndicators | server.py:175-208 | The loop over the candidate files leaves the registry equal to loading each candidate in turn. |
| IndicatorServer.GenerateIndicatorData | server.py:162-173 | An unknown name yields the error of a KeyError, whose message is the name in single quotes (for names without quotes or escapes; every route checks membership first). A known one yields that indicator's own result. |
| Top100.SelectFrom | top100_supabase.py:161-168 | At most 100 coins are selected. Each is a market coin that is not excluded, carrying its id and its upper-cased symbol. |
| Top100.SelectCoins | top100_supabase.py:150-168 | The selection with the fixed exclusion list holds at most 100 coins. |
| Top100.SelectedByPosition | top100_supabase.py:161-168 | A non-excluded coin is selected at position p, the number of non-excluded coins before it, exactly when p < 100. |
| Top100.UpdateRankings | top100_supabase.py:80-85 | The loop builds the rankings dict of the 1-based positions, in place. |
| Top100.RankedSymbols | top100_supabase.py:83-85 | The ranked symbols are exactly the selected coins' symbols. |
| Top100.RankIsLastPosition | top100_supabase.py:83-85 | A symbol is ranked at its last 1-based position in the list. |
| Top100.RanksAreDistinctPositions | top100_supabase.py:83-85 | Every rank lies between 1 and the list length, and different symbols have different ranks. |
| Top100.ToAddExactlyNew | top100_supabase.py:41-53 | Exactly the coins whose symbol is not tracked yet are queued. Each is first tracked and last seen today, and is active. |
| Top100.FailedReadQueuesAll | top100_supabase.py:33-53 | When the read of tracked_coins fails, every coin is queued. |
| Top100.QueueNewCoins | top100_supabase.py:41-53 | The loop over the list queues exactly ToAdd: the coins whose symbol is not tracked, in list order. |
| Top100.RefreshTracked | top100_supabase.py:55-62 | The loop over the tracked symbols updates exactly those still in the list, in tracked order. |
| Top100.UpdateTrackedCoins | top100_supabase.py:24-73 | The rows queued are ToAdd of the known symbols. The refreshed symbols are the known ones still in the list. An insert is sent exactly when something is queued. The list's symbols are returned in order. |
| Top100.AdditionalExactlyMissing | top100_supabase.py:114-119 | The additional coins are exactly the recently tracked rows whose symbol is not in the current list. |
| Top100.GetAllActiveCoins | top100_supabase.py:100-127 | The current list followed by the additional coins. A failed query gives the current list alone. |
| Top100.ActiveCoinsExtendCurrent | top100_supabase.py:121 | The combined list starts with the current list. Every later coin is a tracked row whose symbol the current list lacks. |
| Top100.DailyLastWins | top100_supabase.py:224-233 | The per-day dict's days are exactly the days of the points. Each day holds the value of its last point. |
| Top100.FetchCoinData | top100_supabase.py:205-239 | A 429 is retried once. A failure, or a second 429, gives three empty dicts. Otherwise the prices, market caps and volumes are each the per-day dict (keyed by UTC day, the later point of a day winning) of the reply that was used. |
| Top100.RetriedOnce | top100_supabase.py:213-220 | Two 429 replies in a row leave the coin without prices. |
| Top100.StoreAll | top100_supabase.py:242-251 | The loop over the coins to track leaves the three dicts equal to Stored. |
| Top100.StoredAlike | top100_supabase.py:248-251 | The three dicts always have the same symbols, and no empty price dict is stored. |
| Top100.StoredOnlyWithPrices | top100_supabase.py:248-251 | A symbol is stored exactly when some coin with it fetched non-empty prices. |
| Top100.CoinData | top100_supabase.py:280-283 | A row's coin data is exactly its non-NaN cells other than "Date", with their values. |
| Top100.RecordsKeepRowsWithValues | top100_supabase.py:277-290 | No record is empty or holds "Date". Every row with a value is sent under its date, and there are no more records than rows. |
| Top100.BatchInsert | top100_supabase.py:272-303 | The records are sent in consecutive batches of 100. The failed batch numbers are exactly the failed sends. An empty frame sends nothing. |
| Chunking.Chunks | top100_supabase.py:296-297 | Every batch has between 1 and size elements. |
| Chunking.ChunksCover | top100_supabase.py:296-297 | The batches concatenate back to the list: no gap, no overlap, same order. |
| Chunking.ChunkCount | top100_supabase.py:296-297 | There are ceil(n/size) batches, and all but the last are full. |
| Chunking.FailedMembers | top100_supabase.py:298-303 | A batch number is logged exactly when that send failed. The numbers increase. |
| Chunking.SendBatches | indicators_uploader.py:250-268 | Every batch is sent in order, whatever happened to earlier ones, and the failures are recorded. |
| DotEnv.ParseLine | indicators_uploader.py:24-28 | A line stripped of Python's whitespace that is not empty and not a comment is an assignment when it reads NAME=value, where NAME is a non-empty run of letters, digits and underscores. The line is exactly the name, "=" and the value. |
| DotEnv.ParseWrittenLine | indicators_uploader.py:24-28 | A line written as NAME=value, with a value not ending in white space, parses back to that name and value. |
| DotEnv.SeparatorIsStripped | indicators_uploader.py:24-28 | `line.strip()` also removes the separators \x1c to \x1f, which JavaScript's `\s` does not match: a written NAME=value line behind such a separator still sets NAME to value. |
| DotEnv.SkippedLines | indicators_uploader.py:25-27 | Blank lines, comments and lines without "=" assign nothing. |
| DotEnv.NameHasNoEquals | indicators_uploader.py:26 | A variable name never contains "=", so the first "=" ends it. |
| DotEnv.ParseAll | indicators_uploader.py:23-28 | Every line of the file is parsed on its own, in order. |
| DotEnv.AssignedNames | indicators_uploader.py:23-29 | After loading, a variable is set exactly when it was set before or some line assigns it. |
| DotEnv.AssignedKeepsUnset | indicators_uploader.py:23-29 | A variable no line assigns keeps its value. |
| DotEnv.AssignedLastWins | indicators_uploader.py:23-29 | A variable takes the value of the last line that assigns it, overriding the environment. The same loader is copied in crowding_indicator_supabase.py:20-32 and check_indicators_table.py:16-28. |
| DotEnv.Environment.constructor | indicators_uploader.py:20 | The environment starts with the given variables. |
| DotEnv.Environment.LoadDotEnv | indicators_uploader.py:20-32 | A missing or unreadable file leaves the environment unchanged. Otherwise each assignment is applied in file order. |
| Credentials.Or | indicators/avs_indicator_ci.py:47-48 | Python's `a or b` on optional strings: a when it is a non-empty string, b otherwise. |
| Credentials.Connect | indicators_uploader.py:45-50 | A client is created exactly when both URL and key are non-empty, with those values. Otherwise ValueError is raised. |
| Credentials.ServiceRoleClient | indicators_uploader.py:35-50 | The uploaders connect exactly when the public URL and either the service-role key or the anon key are usable. |
| Credentials.ServiceRolePreferred | indicators_uploader.py:40-43 | The service-role key is used when usable, the anon key otherwise. The URL is the public URL. The same choice is copied in crowding_indicator_supabase.py:44-59 and check_indicators_table.py:31-46. |
| Credentials.LastOfIsLast | indicators/avs_indicator_ci.py:56-65 | Without a matching line the value is kept. Otherwise it is the value of the last matching line. |
| Credentials.ScanDotEnv | indicators/avs_indicator_ci.py:53-69 | The loop over the file, reassigning URL and key, leaves each equal to its last assignment in the file, or to its old value. A missing file changes nothing. |
| Credentials.AvsClient | indicators/avs_indicator_ci.py:47-74 | After the .env.local fallback, ValueError is raised exactly when the URL or the key is missing or empty. Otherwise the client is created with exactly that URL and key, which are non-empty. |
| Credentials.FundingClient | indicators/funding_indicator.py:30-72 | After the .env.local fallback, ValueError is raised exactly when the URL or the key (with the anon key as last resort) is missing or empty. Otherwise the client is created with exactly that URL and key, which are non-empty. |
| Credentials.FundingCiClient | indicators/funding_indicator_ci.py:72-78 | The CI indicator connects exactly when some URL variable and SUPABASE_KEY or the service-role key are usable. |
| Credentials.CiIgnoresAnonKey | indicators/funding_indicator_ci.py:72-76 | The anon key has no effect on the CI indicator's client. |
| Credentials.EnvironmentFirst | indicators/avs_indicator_ci.py:47-51 | With SUPABASE_URL and SUPABASE_KEY set, all three indicators connect with them and the file is not read. |
| Credentials.FileFillsMissingUrl | indicators/avs_indicator_ci.py:51-65 | With no URL in the environment, the URL comes from the file's last URL line. |
| Credentials.NoFileNoClient | indicators/avs_indicator_ci.py:71-72 | Without a usable key and without a file, ValueError is raised. |
| IndicatorUpload.SamplesFail | indicators_uploader.py:70-107 | The price read gives None exactly when some row fails. A row fails when its prices text does not parse, when its "BTC" entry does not convert to float, or when `"BTC" in` matches a list or a string. |
| IndicatorUpload.SamplesKept | indicators_uploader.py:70-89 | Every kept sample is some row's date with that row's converted price. Every row holding the key is kept. There are no more samples than rows. |
| IndicatorUpload.GetPriceData | indicators_uploader.py:53-107 | A failed or empty query gives None. Otherwise the loop over the rows, with its early exit on a failing row, gives exactly Samples. |
| IndicatorUpload.GtNotBtc | crowding_indicator_supabase.py:90-98 | The crowding uploader reads "GT": a row holding only a BTC price is skipped there, but kept by the indicator uploader. |
| IndicatorUpload.ReadWrittenRecord | indicators_uploader.py:173-201 | A written record reads back to its row: date, price, RSI, crowding value, ROC and z-score. Its periods are 14, 100, 90 and 14. |
| IndicatorUpload.PrepareIndicators | indicators_uploader.py:165-206 | One record per row, in order. Each reads back to its row. Empty input gives []. |
| IndicatorUpload.Grouped | crowding_indicator_supabase.py:185-219 | The by-date dict and its date order have the same dates, each once. Every date's data holds exactly "BTC". |
| IndicatorUpload.GroupedDates | crowding_indicator_supabase.py:188-196 | A date is listed exactly when some row has it. There are no more dates than rows. |
| IndicatorUpload.GroupedLastWins | crowding_indicator_supabase.py:199-219 | A date's BTC entry is that of the last row with the date. |
| IndicatorUpload.GroupedDistinct | crowding_indicator_supabase.py:185-222 | With distinct dates, the date order is the rows' order. |
| IndicatorUpload.DistinctDatesSameRecords | crowding_indicator_supabase.py:180-224 | With distinct dates, the crowding uploader builds the same records as the indicator uploader. |
| IndicatorUpload.PrepareByDate | crowding_indicator_supabase.py:180-224 | The loop filling the by-date dict, followed by `list(values())`, gives DateRecords. |
| IndicatorUpload.DateRecordsShape | crowding_indicator_supabase.py:180-224 | There are no more records than rows. The last row of each date appears as its record. |
| IndicatorUpload.Missing | indicators_uploader.py:243-244 | The missing fields are exactly the required fields (price, RSI, Crowding) absent from the BTC entry. |
| IndicatorUpload.ProblemsExact | indicators_uploader.py:225-247 | A problem is logged for index i exactly when record i fails a check, with that check's problem. |
| IndicatorUpload.PreparedPass | indicators_uploader.py:165-247 | Records built by prepare_indicators_data raise no validation problem. |
| IndicatorUpload.Validate | indicators_uploader.py:225-247 | The validation loop logs exactly Problems. |
| IndicatorUpload.UploadIndicators | indicators_uploader.py:209-268 | An empty list or a failed table check does nothing. Otherwise the problems are logged, every record is sent in chunks of 50, and the failed chunks are recorded. |
| IndicatorUpload.UploadCrowding | crowding_indicator_supabase.py:227-257 | An empty list or a failed table check does nothing. Otherwise the records are sent in chunks of 50 and the failed chunks are recorded. |
| IndicatorUpload.InvalidStillSent | indicators_uploader.py:225-268 | The chunks cover every record, valid or not. There are ceil(n/50) of them. |
| IndicatorParams.Validated | indicators/avs_indicator_ci.py:134-156 | validate_params keeps exactly the request's keys that are default parameters, plus a period from the whitelist and a theme from the whitelist. Values are unchanged. An absent request gives the empty map. |
| IndicatorParams.ValidatedKeys | indicators/funding_indicator.py:243-276 | The validated keys are request keys, and each is a default parameter, "period" or "theme". |
| IndicatorParams.ValidatedIdempotent | indicators/funding_indicator_ci.py:142-164 | Validating an already validated request changes nothing. |
| IndicatorParams.ValidateParams | indicators/avs_indicator_ci.py:134-156 | The loop over the request computes Validated. |
| IndicatorParams.Coerce | indicators/avs_indicator_ci.py:86-91 | A successful override keeps the default's kind: an int default gets an int and a float default gets a float. |
| IndicatorParams.MergeOverrides | indicators/funding_indicator.py:186-196 | The override loop yields Merged: None when some int() or float() raises, otherwise the defaults with every coerced override. |
| IndicatorParams.MergedShape | indicators/funding_indicator_ci.py:89-95 | The merged chart parameters have exactly the default keys and each keeps its kind. A key without an override keeps its default. |
| IndicatorParams.UnknownKeysIgnored | indicators/avs_indicator_ci.py:86-91 | Request keys that are not default parameters do not affect the merge. |
| IndicatorParams.NumericOverride | indicators/avs_indicator_ci.py:86-91 | A numeric override replaces its key with int() of the number (truncation) or float() of it, and leaves every other default alone. |
| IndicatorParams.UnconvertibleFails | indicators/avs_indicator_ci.py:86-132 | An override of None, a list or a dict makes int() or float() raise, so the merge fails. |
| IndicatorParams.GenerateErrors | indicators/funding_indicator.py:174-241 | generate_data replies with an error exactly when a coercion raises or the computation itself fails. When it goes on, the chart parameters have exactly the default keys. |
| IndicatorParams.PeriodDays | indicators/funding_indicator.py:293-313 | Exactly the six named periods map to a number of days, from 7 to 365. |
| IndicatorParams.FilterByPeriod | indicators/funding_indicator.py:293-313 | With a named period, the rows kept are exactly those at or after now minus that many days. Any other period keeps every row. |
| IndicatorParams.AvsFilterByPeriod | indicators/avs_indicator_ci.py:158-180 | For a named period the rows kept are exactly those at or after now minus its days. For any other period they are exactly those on or after 2013-05-01. |
| IndicatorParams.PeriodDispatchAgrees | indicators/funding_indicator_ci.py:107-109 | After validation, the funding indicator's dispatch on the period and the CI indicators' skip of 'all' select the same frame. |
| IndicatorParams.LongerPeriodKeepsMore | indicators/funding_indicator_ci.py:166-190 | Every row kept for a shorter period is kept for a longer one. |
| AvsIndicator.SignalOf | indicators/avs_indicator_ci.py:109-118 | Strong buy exactly when the average is at most the strong-buy threshold. Buy exactly when it is above that and at most the buy threshold. Past both buy tests: strong sell exactly when it reaches the strong-sell threshold, sell exactly when it reaches only the sell threshold, and neutral exactly when it reaches neither. A NaN average is neutral. |
| AvsIndicator.ZoneColour | indicators/avs_indicator_ci.py:274-282 | Dark red exactly when the average reaches the strong-sell threshold. Red exactly when it is below that and reaches the sell threshold. Past both sell tests: dark green exactly when it is at most the strong-buy threshold, green exactly when it is at most only the buy threshold, and no colour exactly when it passes neither. A NaN average has no colour. |
| AvsIndicator.ColourAgreesWithSignal | indicators/avs_indicator_ci.py:274-282 | With ordered thresholds, the zone colour is the colour of the reported signal. The signal chain is at lines 109-118. |
| AvsIndicator.DefaultsOrdered | indicators/avs_indicator_ci.py:38-44 | The default thresholds are ordered. |
| AvsIndicator.CrossedThresholdsDisagree | indicators/avs_indicator_ci.py:274-282 | With crossed thresholds, the same average is reported as a buy and drawn as dark red. The chain orders differ. The signal chain is at lines 109-118. |
| AvsIndicator.RunRectsCount | indicators/avs_indicator_ci.py:284-300 | The loop draws at most one rectangle per consecutive pair of rows. |
| AvsIndicator.RunRectsComplete | indicators/avs_indicator_ci.py:284-300 | Every pair of consecutive coloured rows gets its rectangle. |
| AvsIndicator.RunRectsSound | indicators/avs_indicator_ci.py:284-300 | Every rectangle of the loop spans a pair of consecutive coloured rows. |
| AvsIndicator.UncolouredBreaksRun | indicators/avs_indicator_ci.py:284-316 | With increasing dates, no rectangle starts or ends at an uncoloured row. |
| AvsIndicator.ZeroWidthOnlyLast | indicators/avs_indicator_ci.py:284-316 | With increasing dates every rectangle runs forward. The only zero-width one is the extra shape at the last date, and only when that row is coloured. |
| AvsIndicator.PlotShapes | indicators/avs_indicator_ci.py:284-316 | The loop and the final shape produce ZoneShapes. |
| AvsIndicator.LatestSignal | indicators/avs_indicator_ci.py:106-132 | An empty frame is an error reply. Otherwise the reply is the signal of the last row's average. |
| AvsIndicator.MaxWidth | indicators/avs_indicator_ci.py:208 | The width of the sheet is the length of its longest row and bounds every row. |
| AvsIndicator.Cells | indicators/avs_indicator_ci.py:208-219 | A row has one cell per column. Present cells are to_numeric of the text with commas read as decimal points. Missing cells are NaN. |
| AvsIndicator.DatedRows | indicators/avs_indicator_ci.py:211-222 | At most one row per sheet line. Every row kept is dated on or after 2013-05-01 and has every column. |
| AvsIndicator.LoadSheet | indicators/avs_indicator_ci.py:203-224 | A sheet of at most one line gives no rows. Otherwise loading fails exactly when the header is empty, the widest data line does not match the header's width, or some date does not parse. On success the rows are the dated rows of the data lines (so DatedRowsKeep applies): at most one per line, dated on or after 2013-05-01, with one cell per header column after the date. |
| AvsIndicator.DatedRowsKeep | indicators/avs_indicator_ci.py:211-222 | A line with a date on or after 2013-05-01 is kept with its cells, and every kept row comes from one line. |
| FundingSignals.AdaptiveEmaBuy | indicators/funding_indicator.py:373-378 | The adaptive EMA is one of the three buy EMAs. It is the long one when the close is above the long-short EMA, and the second short one when the close is NaN. |
| FundingSignals.SignalsConsistent | indicators/funding_indicator.py:401-442 | A bull or bear buy is a buy, never both. A crossover is never up and down at once. |
| FundingSignals.BuyIsBullOrBear | indicators/funding_indicator_ci.py:259-266 | A buy with distinct finite EMAs is exactly one of bull and bear. |
| FundingSignals.BuyExcludesSell | indicators/funding_indicator.py:401-427 | With the RSI buy limit at most the RSI sell limit, no row is both a buy and a sell. |
| FundingSignals.DefaultLimits | indicators/funding_indicator.py:103-151 | The default thresholds: RSI buy 32, funding rate 0, RSI sell 48, sell rate 0.005, weak RSI 20, weak rate 0.009. |
| FundingSignals.FirstRowQuiet | indicators/funding_indicator_ci.py:280-300 | A row without a previous row has no sell, no weak sell and no crossover. |
| SimpleIndicator.ValidateSimple | indicators/simple_indicator.py:103-124 | A period is present exactly when requested and lies in 1..365: it is int() of the request when that converts into 1..365, and 30 when int() raises or lands out of range. A theme is present exactly when requested, is light or dark, is the requested one when valid, and light otherwise. |
| SimpleIndicator.PeriodKeptInRange | indicators/simple_indicator.py:106-114 | An integer period in 1..365 is kept. Any other integer becomes 30. |
| SimpleIndicator.TextPeriod | indicators/simple_indicator.py:106-114 | A period given as text (as the server's query arguments are) is kept when int() reads a value in 1..365 from it, and becomes 30 when int() raises or reads a value out of range. |
| SimpleIndicator.Settings | indicators/simple_indicator.py:53-55 | The days lie in 1..365 and the theme is valid. They are the validated period and theme when the request has them, and 30 days and the light theme when the request, or just that key, is missing. |
| SimpleIndicator.SimpleSignals | indicators/simple_indicator.py:72-73 | Buy exactly when the oscillator is below 30, sell exactly when it is above 70. |
| SimpleIndicator.SimpleSignalsExclusive | indicators/simple_indicator.py:72-73 | No point is both a buy and a sell, and a NaN oscillator is neither. |

## Left out

- The mathjs library is not part of this model. The evaluator is a parameter, so every theorem holds for any evaluator. A formula that assigns into its scope (mathjs `x = ...`) is not modelled; each evaluation sees only the scope it is given.
- MetricsWorkbench.Encode and MetricsWorkbench.Decode treat `createdAt` as an opaque value: a JavaScript Date becoming an ISO string in JSON storage is not modelled. Decode keeps `description` only when it is a string, whereas the loader keeps whatever the record holds; DecodeEncode and LoadPersisted hold for the records the model writes, whose description is a string or absent.
- JSON text is not modelled. Stored metrics are nothing, the empty string, text that does not parse, or an already parsed JSON value. The JSON deep copy in calculateCustomMetrics is a copy of the rows into a fresh array. That the round trip turns NaN and undefined into null is not modelled.
- JavaScript `Date` parsing, getTime, getDay and the other date parts are inputs: the date fields of a scope are given by a calendar parameter.
- The clock is a parameter everywhere (`now`, `today`, the 30-day cutoff).
- Database queries are inputs. Each query result is the rows returned, or None when the query reported an error. Their filters and ordering are not re-derived, except in CoinsRoute.RecentSymbols, which models the `last_in_top100 >= cutoff` filter and the order by symbol of the tracked-coins query. There the ASCII string order of the dates stands in for Postgres' date comparison, and the ASCII order of symbols for the column's collation.
- String ordering, case mapping and whitespace are restricted to ASCII (Python's strip uses the ASCII whitespace of `str.isspace()`, JavaScript's `\s` its own ASCII set). Unicode collation and case folding are not modelled.
- Sorting is specified as "a permutation, ordered by the comparison". Stability of the sort, and the order of ties, are not modelled.
- The pandas, numpy and ta numerics are per-row inputs to the signal logic: EMA, RSI, rate of change, rolling mean and standard deviation, z-score and pct_change. This covers calculate_indicators in indicators_uploader.py, calculate_rsi and calculate_crowding_indicator in crowding_indicator_supabase.py, and dip_hunter_with_funding_and_sopr in the funding indicators.
- The SOPR parameters of the funding indicators appear among the defaults. The signal columns modelled do not read them.
- The funding indicators' sheet loader is not modelled: to_numeric, duplicate dropping, forward fill and the join with the funding rates. The frames it yields are inputs.
- AvsIndicator.PlotShapes takes the lowest positive price as the parameter `low` rather than computing it from the frame.
- AvsIndicator.LoadSheet does not model pandas raising on duplicate column names or other shape mismatches. pd.to_datetime is a parser parameter, and the final sort_index is not modelled.
- IndicatorUpload.GetPriceData does not model sort_index or pd.to_datetime. Dates are kept as the strings the rows carry, and strftime formatting is taken as the date given.
- Python's `str(e)` and JavaScript's `error.message` are inputs: the text of an error reply is not derived.
- Dict iteration order in the override and validate loops is not modelled. The loops are proved to give the same result in any order, except for which coercion error is reported, and that text is an input.
- Supabase, Google Sheets, CoinGecko, Flask, localStorage and file reads and writes are I/O. Their results are inputs, and the writes are the values returned.
- Logging is not modelled: json.dumps of the records, the warning when an upsert result has no `data`, and the final count query.
- The Flask cache and the HTML and PNG rendering of the route handlers in server.py are not modelled. The import of a module and the construction of its class are a parameter.
- The simple indicator's random price and oscillator data is not modelled. Its signals are stated over any oscillator value.
- CoinGecko's numeric conversions are not modelled. The replies' points are taken as numbers.
- Rendering is not modelled: Plotly and Chart.js figures and themes, and the React pages and component bodies outside the handlers modelled.
- The remaining page-level components and routes are outside this model: app/page.tsx statistics, PriceChart.tsx axes, Navigation, PasswordProtection, the fetch, crowding and debug routes, crowding-indicator.py, ci_update_*.py and save_to_supabase.py. They build queries, format numbers or draw charts around the parts modelled here.
