# Trading dashboard view models in Dafny

This project models the state logic of a small trading dashboard written in
React. It covers:

- the strategies page: the strategy list, the search box, and the create/edit
  form with its handlers;
- the accounts page: the account list, the search box, the create-form
  button, and the page reload that submitting its handler-less form causes;
- the record reshaping that feeds the candlestick/volume chart and the
  equity, strategy-bar and activity charts, with their "no data" guards, the
  benchmark-line rule, the metric colours and the tooltip guard;
- the number formatters `formatNumber`, `formatPercent` and `formatCurrency`.

Each page is a class whose fields are the page's React state and whose
methods are its event handlers. A simulated fetch (`setTimeout`) is split in
two steps. The start step sets `loading` (the constructor for mount,
`HandleRefresh` for refresh). `CompleteFetch` then installs the fixed sample
list and clears `loading`. Filters, adapters and formatters are functions
over sequences and records.

The strategies page keeps one invariant, `StrategiesPage.Valid()`: the ids
are exactly `strat-1 … strat-n` in list order. Mount establishes it,
`CompleteFetch` restores it, and every handler keeps it. Under it the id
that "New Strategy" generates (`strat-` followed by length + 1) is used by
no existing entry, and no two entries share an id. This holds because the
decimal rendering of numbers is injective (`Text.NatToStringInjective`).

Foreign calls are passed in as function parameters and left uninterpreted:
`Intl.NumberFormat(...).format`, `Date.toISOString`, `toLocaleDateString`
and `toLocaleString`. `toLowerCase` is ASCII lowercasing. `includes` is
modelled exactly and proved equivalent to "occurs at some position".

`formatCurrency` and `formatPercent` in lib/utils.js are the same
expressions as in lib/utils.ts (lib/utils.js:14-19 and lib/utils.js:25-31).
`FormatUtils.FormatCurrency` and `FormatUtils.FormatPercent` model both
copies. The JavaScript `formatNumber` uses early returns. It is modelled as
a method in that form and proved equal to the TypeScript function.

Points where the code's behaviour may be unexpected; the model follows the code:

- Changing the strategy type in the form does not reset the parameters.
  `handleInputChange` overwrites only the named field
  (app/strategies/page.jsx:137-143).
- A chart time that is already a string passes through unchanged. Only a
  non-string time goes through `toISOString().split('T')[0]`
  (components/dashboard/price-chart.jsx:49).
- The benchmark test is JavaScript truthiness, so a benchmark of 0 is
  treated like an absent one (components/dashboard/performance-chart.jsx:75).
- Strategy types are the strings `simple_momentum`, `mean_reversion` and
  `custom`. They are not a closed enumeration: the form writes any string
  the select delivers, and the search reads the type as text.
- Submitting the form does not clear `editingStrategy`
  (app/strategies/page.jsx:155-184). Only "New Strategy" clears it.

## Model

| member | source | states |
|---|---|---|
| Text.ToLower | app/strategies/page.jsx:95-96 | the result has the input's length, each character is lowercased, and no upper-case ASCII letter remains |
| Text.ToLowerIdempotent | app/strategies/page.jsx:95-96 | lowercasing an already lowercased string changes nothing |
| Text.IncludesIffOccurs | app/strategies/page.jsx:95-96 | `includes` is true exactly when the needle occurs at some position of the text |
| Text.IncludesEmpty | app/accounts/page.jsx:62-63 | every string includes the empty string |
| Text.NatToString | app/strategies/page.jsx:169 | the `${n}` text of a number is non-empty and all digits, a single digit exactly when n < 10, ends in the digit n mod 10, and starts with 0 only for n = 0 (no leading zeros) |
| Text.NatToStringInjective | app/strategies/page.jsx:169 | two numbers with the same decimal text are equal |
| Text.PrefixedNatInjective | app/strategies/page.jsx:169 | a fixed prefix followed by two decimal texts gives equal strings only for equal numbers |
| SearchFilter.FilterIsSubsequence | app/strategies/page.jsx:93-97 | `filter` returns an order-preserving subsequence of its input |
| SearchFilter.FilterCounts | app/accounts/page.jsx:60-64 | every value that passes the test occurs in the result exactly as often as in the input; a value that fails does not occur |
| SearchFilter.FilterAllPass | app/accounts/page.jsx:60-64 | when every element passes the test, `filter` returns its input unchanged |
| SearchFilter.FilterCongruent | app/strategies/page.jsx:93-97 | two tests that agree on every element give the same filtered list |
| SearchFilter.EmptyTermMatches | app/strategies/page.jsx:95-96 | the empty search term matches every field |
| SearchFilter.MatchIgnoresTermCase | app/strategies/page.jsx:95-96 | search terms with the same lowercase form match the same fields |
| SearchFilter.MatchMeansOccurrence | app/accounts/page.jsx:62-63 | a field matches exactly when the lowercased term occurs in the lowercased field |
| ListView.Select | app/strategies/page.jsx:426-444 | the spinner shows exactly while loading; the empty state shows exactly when not loading and the filtered list is empty; otherwise the items are the filtered list in order |
| Strategies.StrategyIdInjective | app/strategies/page.jsx:169 | ids `strat-a` and `strat-b` are equal only when a = b |
| Strategies.MockStrategiesSequential | app/strategies/page.jsx:11-68 | the sample list's ids are strat-1, strat-2, strat-3 in order |
| Strategies.SequentialIdsDistinct | app/strategies/page.jsx:169-180 | when the ids are strat-1..strat-n in order, no two entries share an id |
| Strategies.NextIdFresh | app/strategies/page.jsx:169 | when the ids are strat-1..strat-n, the generated id strat-(n+1) is used by no entry |
| Strategies.FilterStrategies | app/strategies/page.jsx:93-97 | the filtered list is an order-preserving subsequence; every entry in it matches on name or type, ignoring case; every occurrence of a matching entry is kept |
| Strategies.FilterEmptyTermIsIdentity | app/strategies/page.jsx:93-97 | an empty search term yields the whole list |
| Strategies.FilterIgnoresTermCase | app/strategies/page.jsx:93-97 | search terms that differ only in letter case give the same list |
| Strategies.FindIndex | app/strategies/page.jsx:115 | `find` yields the first entry whose id matches, or nothing exactly when no entry has that id |
| Strategies.ApplyEdit | app/strategies/page.jsx:160-165 | the update keeps the length and order and every entry with a different id; an entry with the edited id takes the form's name, type, description and parameters and the new timestamp, and keeps its id, status and performance |
| Strategies.ApplyEditKeepsIds | app/strategies/page.jsx:160-165 | an update keeps the ids strat-1..strat-n |
| Strategies.NewStrategy | app/strategies/page.jsx:168-179 | the new record has id strat-(n+1), the form's fields, status "inactive", zero win rate, profit factor, trades and successful trades, and the submit time |
| Strategies.CreateKeepsIdsSequential | app/strategies/page.jsx:166-180 | appending the new record keeps the ids strat-1..strat-(n+1), and the new id differs from every earlier one |
| Strategies.SetField | app/strategies/page.jsx:137-143 | an input change sets exactly the named top-level field; the parameters, including on a type change, are untouched |
| Strategies.SetParameter | app/strategies/page.jsx:145-153 | a parameter change sets exactly one key to the value; the other keys and the top-level fields are untouched |
| Strategies.StrategiesPage.constructor | app/strategies/page.jsx:71-81 | the initial state is an empty list, an empty search, loading, the form closed, no edit target and the empty draft |
| Strategies.StrategiesPage.CompleteFetch | app/strategies/page.jsx:84-90 | completing a fetch installs the sample list and clears loading; nothing else changes; the id invariant holds |
| Strategies.StrategiesPage.HandleRefresh | app/strategies/page.jsx:128-135 | a refresh sets loading and changes nothing else |
| Strategies.StrategiesPage.SetSearchTerm | app/strategies/page.jsx:329 | typing in the search box sets the term and nothing else |
| Strategies.StrategiesPage.HandleCreateStrategy | app/strategies/page.jsx:99-112 | "New Strategy" clears the edit target, loads the momentum defaults into the draft and opens the form; the list is unchanged |
| Strategies.StrategiesPage.HandleEditStrategy | app/strategies/page.jsx:114-126 | with an unknown id nothing changes; with a known id the matching entry becomes the edit target, its name, type, description and parameters are copied into the draft and the form opens; the list is unchanged |
| Strategies.StrategiesPage.CancelForm | app/strategies/page.jsx:412 | Cancel closes the form and changes nothing else |
| Strategies.StrategiesPage.HandleInputChange | app/strategies/page.jsx:137-143 | an input change replaces the draft by the one-field update and changes nothing else |
| Strategies.StrategiesPage.HandleParameterChange | app/strategies/page.jsx:145-153 | a parameter change replaces the draft by the one-key update and changes nothing else |
| Strategies.StrategiesPage.HandleFormSubmit | app/strategies/page.jsx:155-184 | without an edit target the submit appends exactly the new record, whose id is fresh, after the unchanged earlier entries; with one it applies the update by the target's id; the form always closes; the id invariant holds |
| Strategies.StrategiesPage.SubmitForm | app/strategies/page.jsx:356-369 | with an empty name the required-field check blocks the submit and nothing changes; otherwise the submit handler runs, so a created or edited record never has an empty name |
| Strategies.StrategiesPage.Filtered | app/strategies/page.jsx:93-97 | the page's filtered list is a subsequence of its strategies, and all of them when the search is empty |
| Strategies.StrategiesPage.View | app/strategies/page.jsx:426-444 | the list area shows the spinner exactly while loading, "No strategies found" exactly when the filtered list is empty, else one card per filtered entry in order |
| Accounts.FilterAccounts | app/accounts/page.jsx:60-64 | the filtered list is an order-preserving subsequence; every account in it matches on name or account number, ignoring case; every occurrence of a matching account is kept |
| Accounts.AccountFilterEmptyTermIsIdentity | app/accounts/page.jsx:60-64 | an empty search term yields every account |
| Accounts.AccountsPage.constructor | app/accounts/page.jsx:45-57 | mount starts with an empty list, an empty search, loading and the form closed |
| Accounts.AccountsPage.CompleteFetch | app/accounts/page.jsx:53-56 | completing a fetch installs the sample accounts and clears loading; the search and form are untouched |
| Accounts.AccountsPage.HandleRefresh | app/accounts/page.jsx:70-77 | a refresh sets loading and changes nothing else |
| Accounts.AccountsPage.HandleCreateAccount | app/accounts/page.jsx:66-68 | "New Account" only opens the form; the accounts are unchanged |
| Accounts.AccountsPage.ReloadPage | app/accounts/page.jsx:127 | submitting the handler-less form reloads the page: empty list, empty search, loading, form closed |
| Accounts.AccountsPage.CancelCreateForm | app/accounts/page.jsx:170-175 | Cancel closes the form and changes nothing else |
| Accounts.AccountsPage.SubmitCreateForm | app/accounts/page.jsx:176 | "Create Account" submits the handler-less form, so the page reloads to its mount state and no account is added |
| Accounts.AccountsPage.SetSearchTerm | app/accounts/page.jsx:105 | typing in the search box sets the term and nothing else |
| Accounts.AccountsPage.Filtered | app/accounts/page.jsx:60-64 | by definition `FilterAccounts(accounts, searchTerm)`; ensures a subsequence of the accounts, and all of them for an empty search |
| Accounts.AccountsPage.View | app/accounts/page.jsx:199-256 | the table shows the spinner row exactly while loading, "No accounts found." exactly when the filtered list is empty, else one row per filtered account in order |
| PriceChart.DatePart | components/dashboard/price-chart.jsx:49 | `split('T')[0]` is the longest prefix without a 'T': it is a prefix, contains no 'T', and is followed by 'T' unless it is the whole text |
| PriceChart.FormattedData | components/dashboard/price-chart.jsx:48-54 | one candle per point, in order, with open, high, low and close copied and the point's chart time |
| PriceChart.VolumeData | components/dashboard/price-chart.jsx:71-75 | one bar per point, in order, with the volume as value; the colour is #22c55e exactly when close >= open and #ef4444 exactly when close < open |
| PriceChart.SeriesAligned | components/dashboard/price-chart.jsx:48-75 | the k-th candle and the k-th volume bar carry the same time; a string time passes through, a timestamp becomes the date part of its ISO text |
| PriceChart.Render | components/dashboard/price-chart.jsx:10-108 | absent or empty data builds no chart and shows "No price data available"; otherwise both series are built from all points |
| PerformanceChart.BenchmarkOrNull | components/dashboard/performance-chart.jsx:75 | the `or null` fallback keeps a truthy benchmark and turns an absent or zero one into null |
| PerformanceChart.EquityChartData | components/dashboard/performance-chart.jsx:70-77 | absent or empty input gives no rows; otherwise one row per point, in order, with equity copied and the benchmark kept exactly when truthy |
| PerformanceChart.BenchmarkLineIffFirstPoint | components/dashboard/performance-chart.jsx:108 | the benchmark line is drawn exactly when the input is non-empty and its first point has a non-zero benchmark |
| PerformanceChart.BenchmarkIgnoresLaterPoints | components/dashboard/performance-chart.jsx:108 | inputs whose first points have the same benchmark get the same benchmark-line decision, whatever their later points hold |
| PerformanceChart.RenderEquity | components/dashboard/performance-chart.jsx:86-124 | the equity card shows "No data available" exactly for absent or empty input; otherwise it draws the rows, with the benchmark line exactly when the first point's benchmark is truthy |
| PerformanceChart.StrategyBarsData | components/dashboard/performance-chart.jsx:133-136 | the strategy-bar adapter maps absent input to no rows and is the identity otherwise |
| PerformanceChart.ActivityData | components/dashboard/performance-chart.jsx:194-197 | the activity adapter maps absent or empty input to no rows and is the identity otherwise |
| PerformanceChart.ActivityAgreesWithStrategyBars | components/dashboard/performance-chart.jsx:194-197 | the two adapters give the same rows for every input |
| PerformanceChart.RenderCard | components/dashboard/performance-chart.jsx:145-184 | a chart card shows "No data available" exactly when it has no rows, else a chart of exactly those rows |
| PerformanceChart.RenderStrategyPerformance | components/dashboard/performance-chart.jsx:133-184 | the strategy-performance card shows no data exactly for absent or empty input, else bars of the input |
| PerformanceChart.RenderTradingActivity | components/dashboard/performance-chart.jsx:194-237 | the trading-activity card shows no data exactly for absent or empty input, else areas of the input |
| PerformanceChart.Overview | components/dashboard/performance-chart.jsx:24-45 | null data shows the no-data card; otherwise six tiles in order, coloured as profit exactly when totalPnL >= 0, winRate >= 50, profitFactor >= 1 and sharpeRatio >= 1 respectively; trade count plain, drawdown always loss |
| PerformanceChart.CustomTooltip | components/dashboard/performance-chart.jsx:6-21 | the tooltip renders exactly when active with a non-empty payload, with one line per entry, in order, reading name, prefix, formatted value and suffix in the entry's colour |
| FormatUtils.Spread | lib/utils.ts:23-26 | spreading the caller's options over the defaults keeps every caller key and fills the other keys from the defaults |
| FormatUtils.FormatCurrency | lib/utils.ts:18-28 | the en-US formatter gets currency style and the given currency, "USD" when none is given, and any caller option overrides these |
| FormatUtils.FormatPercent | lib/utils.ts:33-43 | the en-US formatter formats value / 100 in percent style with minimum and maximum fraction digits 2, unless the caller's options override them |
| FormatUtils.Suffix | lib/utils.ts:54-60 | the suffix is B exactly when abs(value) >= 1e9, M exactly when 1e6 <= abs(value) < 1e9, K exactly when 1e3 <= abs(value) < 1e6, and empty below 1000 |
| FormatUtils.FormatNumber | lib/utils.ts:48-63 | for abs(value) >= 1e9 the text is format(value / 1e9) + "B"; for 1e6 <= abs(value) < 1e9 it is format(value / 1e6) + "M"; for 1e3 <= abs(value) < 1e6 it is format(value / 1e3) + "K"; below 1000 it is format(value) with no suffix |
| FormatUtils.SuffixIgnoresSign | lib/utils.ts:54-60 | a value and its negation get the same suffix and divisor |
| FormatUtils.ScaledMagnitude | lib/utils.ts:54-60 | below a billion the number handed to the formatter has magnitude under 1000, and at least 1 whenever a suffix is added |
| FormatUtilsJs.FormatNumber | lib/utils.js:37-53 | the early-return version gives the same text as the TypeScript `formatNumber` for every input, and meets the same four threshold cases |

## Left out

- JSX markup, class names, icons, layout, the sidebar, header, not-found
  page, providers and next.config.js are presentation only. The form title
  and button texts are presentation too. So are the dashboard cards
  (strategy-card.jsx and account-card.jsx), which only apply default values
  and colour by sign.
- `setTimeout` delays are not modelled; each fetch is a start step and a
  completion step. So is the header's `setInterval` clock. A completion
  that arrives after the page has unmounted is not modelled either.
- The random mock-data generators are not modelled. They live in app/page.tsx,
  app/page.jsx and app/performance/page.jsx and use `Math.random` and
  floating-point compounding.
- `Intl.NumberFormat`, `toLocaleString`, `toLocaleDateString`, `toISOString`
  and `toFixed` are parameters or tags, left uninterpreted. The RangeError
  that `toISOString` throws for an invalid date is therefore not modelled.
- The lightweight-charts and recharts objects are not modelled, and neither
  is the `chartRef` create/remove lifecycle.
- Floating-point arithmetic is modelled with exact reals. This covers
  `value / 100`, `value / 1e9` and the like. NaN is not modelled, and neither
  is the NaN that `parseInt`/`parseFloat` give for an empty parameter input.
- `console.log` and `e.preventDefault()` in the submit handler are not
  modelled.
- `toLowerCase` lowercases ASCII letters only; Unicode case mapping is not
  modelled.
- Theme toggling through next-themes is library state and is not modelled.
- The type and status selects on both pages have no `onChange` and no
  value, so they hold no state. The page classes have no field for them,
  and the filters read only the list and the search term.
- The reload on "Create Account" assumes the `Button` component renders a
  plain `<button>`, whose default type inside a form is submit;
  components/ui/button is not part of this model. The reload itself is
  modelled only by its effect on the page state.
- Non-string `date` and `time` values are modelled as millisecond
  timestamps. A JavaScript `Date` object given directly is taken to be the
  same thing.
