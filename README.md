# Crypto market dashboard — model of the client core

This project models the logic behind a small crypto-market dashboard: a
client-side store and the pure computations the page and chart widgets run.

- **Store.** The store keeps the market list and the view state:
  - search text, sort key and direction, and quote filter;
  - the selected symbols, at most five;
  - candle resolution and the date window.
- **Normalisation.** Upstream market records are turned into canonical
  markets, with fallbacks for fields that have moved or are missing.
- **Market table.** The page filters markets with a hard SOL/BTC allow-list,
  a search, a quote filter and a spot-only switch. It then sorts them stably
  by a numeric key.
- **Lightweight chart.** Shows one symbol as candles with an optional
  SMA/EMA line, or several symbols as close-price lines in palette colours.
- **ApexCharts panel.** One candlestick series per accepted symbol, in
  selection order.
- **Date-range picker.** Turns a quick range or a custom pair of dates into
  the `(range, from, to)` it hands to its `onChange` callback. No file of the
  repository renders the picker. The lemmas relating it to the store assume
  that `onChange` is the store's `setDateRange`.

Modules:

- `JsValues`: JSON values, `??`, `Boolean()`, array reads past the end.
  JavaScript's `Number()` is passed in as a parameter.
- `Seqs`: `filter`, `filter(Boolean)`, `slice(0, n)`, sums, and their
  algebra.
- `MarketStore`: the canonical `Market`, normalisation, the selection
  transitions, and the date-window arithmetic. `MarketStore.Store` is a class
  whose fields are the store's state and whose methods are its actions.
- `MarketPage`: the filter/sort pipeline, proved against `Passes` (the
  conjunction of the active predicates) and a sortedness/stability
  specification.
- `Chart`: `sma`/`ema` as loop methods proved against reference series,
  payload acceptance, bar and line mapping, the palette, and one chart load.
- `ApexChart`: the stricter payload test, candle mapping, and the ordered
  series list.
- `DateFilter`: the quick-range table, the label, and the two handlers. The
  handlers are related to the store's `setDateRange`, assuming it is the
  `onChange` callback.

Two behaviours of the code are easy to miss:

- **`price` has no fallback.** Only the 24h change, 24h volume and 7-day
  change fall back to the `stats` value and then to 0
  (store/marketStore.ts:88-90). `price` is `Number(m.price)`
  (store/marketStore.ts:87), so an absent price is `Number(undefined)`.
- **Custom bounds must be truthy.** `setDateRange('custom', from, to)` keeps
  the bounds only when both are truthy (store/marketStore.ts:108). A bound of
  0 therefore falls back to the 30-day window (`DateWindow`,
  `CustomSelectGuard`).

## Model

| member | source | states |
|---|---|---|
| JsValues.At | components/chart/Chart.tsx:135-138 | reading a JSON array gives the element in range and `undefined` past the end |
| JsValues.Coalesce | store/marketStore.ts:88-90 | `a ?? b`: the right operand exactly when the left one is null or undefined; its use is characterised by MarketStore.NormalizeFallbacks |
| JsValues.Boolean | store/marketStore.ts:91-93 | `Boolean(flag)` on an optional boolean: true exactly when present and true; characterised by MarketStore.NormalizeFallbacks |
| Seqs.Take | store/marketStore.ts:103 | `slice(0, n)` is a prefix of length min(n, length) |
| Seqs.FilterCount | store/marketStore.ts:103 | filter keeps each passing element exactly as often as it occurs and drops all others |
| Seqs.FilterMembers | app/page.tsx:49-56 | an element is in the filtered list iff it is in the list and passes |
| Seqs.FilterAt | store/marketStore.ts:103 | a passing element lands at the position given by the number of passing elements before it |
| Seqs.FilterKeepsOrder | app/page.tsx:49-56 | filtering preserves the relative order of any two passing elements |
| Seqs.FilterPositions | app/page.tsx:49-56 | two passing elements have positions in the filtered list in the same order |
| Seqs.FilterAppend | app/page.tsx:49-56 | filtering distributes over concatenation |
| Seqs.FilterAll | app/page.tsx:49-56 | when everything passes, filter is the identity |
| Seqs.FilterNone | components/chart/Chart.tsx:157 | when nothing passes, filter gives the empty list |
| Seqs.FilterSuffix | components/chart/Chart.tsx:157 | when exactly the elements from position n pass, filter drops the first n |
| Seqs.FilterAllSlice | app/page.tsx:49-56 | a slice whose elements all pass is kept whole |
| Seqs.FilterDropsOne | store/marketStore.ts:103 | filtering out exactly one position cuts that position out |
| Seqs.FilterKeepsNoDuplicates | store/marketStore.ts:103 | filtering a duplicate-free list keeps it duplicate-free |
| Seqs.Filter | app/page.tsx:49-56 | a filtered list is never longer than its input |
| Seqs.Present | components/chart/ApexChart.tsx:56 | `filter(Boolean)` over nullable results is never longer than its input |
| Seqs.PresentAppend | components/chart/ApexChart.tsx:56 | dropping nulls distributes over concatenation |
| Seqs.PresentAt | components/chart/ApexChart.tsx:56 | a present value lands at the position given by the number of present values before it |
| Seqs.PresentFrom | components/chart/ApexChart.tsx:56 | every kept value comes from a present position with exactly that many present values before it |
| Seqs.PresentAllSome | components/chart/ApexChart.tsx:56 | with no nulls every value is kept in place |
| Seqs.PresentNoneSome | components/chart/ApexChart.tsx:56 | with only nulls the result is empty |
| Seqs.SumAppend | components/chart/Chart.tsx:16 | adding an element to the window adds it to the sum |
| Seqs.SumConstant | components/chart/Chart.tsx:16-18 | the sum of n copies of c is n * c |
| MarketStore.NormalizeMarket | store/marketStore.ts:82-93 | one upstream record to one canonical market: identity fields copied, `price` coerced, the three numeric fallbacks, the three flags; characterised by NormalizeKeepsRecords and NormalizeFallbacks |
| MarketStore.StatsChange24h | store/marketStore.ts:88 | `m?.stats?.['24h_ch']`: the nested value, undefined when `stats` is absent; characterised by NormalizeFallbacks |
| MarketStore.StatsVolume24h | store/marketStore.ts:89 | `m?.stats?.['24h_volume']`: the nested value, undefined when `stats` is absent; characterised by NormalizeFallbacks |
| MarketStore.StatsChange7d | store/marketStore.ts:90 | `m?.stats?.['7d_ch']`: the nested value, undefined when `stats` is absent; characterised by NormalizeFallbacks |
| MarketStore.WithFallback | store/marketStore.ts:88-90 | `top ?? nested ?? 0` before `Number()`: the first of the two that is defined, else 0; characterised by NormalizeFallbacks |
| MarketStore.Normalize | store/marketStore.ts:81-94 | `(data?.markets \|\| []).map(...)`: one canonical market per record, in order; characterised by NormalizeKeepsRecords and NormalizeIdempotent |
| MarketStore.NormalizeKeepsRecords | store/marketStore.ts:81-87 | normalisation keeps the number and order of records, copies symbol, base, quote and the localized names, and gives [] for an absent list |
| MarketStore.NormalizeFallbacks | store/marketStore.ts:87-93 | 24h change, 24h volume and 7-day change take the top-level value, else the stats value, else 0; each flag is true iff present and true |
| MarketStore.NormalizeIdempotent | store/marketStore.ts:81-94 | normalising canonical markets read back as upstream records gives the same markets |
| MarketStore.Toggle | store/marketStore.ts:101-104 | the new selection: every copy of a selected symbol removed, else the symbol appended and the list cut to five; characterised by the Toggle* lemmas |
| MarketStore.SelectionValid | store/marketStore.ts:103 | the invariant the store keeps for `selected`: at most five symbols (the `slice(0, 5)`), none twice; the initial selection at :57 satisfies it; established by SelectionAlwaysValid and kept by ToggleKeepsValid and ReplayKeepsValid |
| MarketStore.Apply | store/marketStore.ts:101-105 | one selection action, a toggle or a clear; characterised by ReplayKeepsValid |
| MarketStore.Replay | store/marketStore.ts:101-105 | a sequence of selection actions applied in order; characterised by ReplayKeepsValid and SelectionAlwaysValid |
| MarketStore.ToggleAppends | store/marketStore.ts:101-104 | a new symbol is appended at the end while fewer than five are selected |
| MarketStore.ToggleWhenFull | store/marketStore.ts:103 | with five selected, a new symbol leaves the selection unchanged |
| MarketStore.ToggleRemoves | store/marketStore.ts:103 | toggling a selected symbol removes every occurrence and keeps exactly the others |
| MarketStore.ToggleRemovesAt | store/marketStore.ts:103 | in a duplicate-free selection, toggling removes that one position and keeps the order of the rest |
| MarketStore.ToggleTwice | store/marketStore.ts:101-104 | adding then removing a symbol restores the selection |
| MarketStore.ToggleKeepsValid | store/marketStore.ts:101-104 | toggling keeps the selection duplicate-free and at most five long |
| MarketStore.ReplayKeepsValid | store/marketStore.ts:101-105 | any sequence of toggles and clears keeps the selection valid |
| MarketStore.SelectionAlwaysValid | store/marketStore.ts:57 | from the initial SOLUSDT/BTCUSDT selection, every action sequence keeps the selection valid |
| MarketStore.PresetDays | store/marketStore.ts:115-136 | the day count of each case of the switch, 30 for the default (custom) case; TableMatchesStore checks it against the picker's table |
| MarketStore.Truthy | store/marketStore.ts:108 | a bound is truthy when given and non-zero |
| MarketStore.DateWindow | store/marketStore.ts:107-138 | the `(dateFrom, dateTo)` pair setDateRange stores; characterised by CustomWindowVerbatim and PresetWindow, and Store.SetDateRange's switch is proved equal to it |
| MarketStore.CustomWindowVerbatim | store/marketStore.ts:108-109 | a custom range with truthy bounds is stored verbatim |
| MarketStore.PresetWindow | store/marketStore.ts:111-138 | any other call sets `to = now` and `from = now - days * 86400`, with 30 days for custom without bounds |
| MarketStore.Store.Valid | store/marketStore.ts:57 | the class invariant: the selection is duplicate-free and at most five long; the constructor establishes it and every action keeps it |
| MarketStore.Store.constructor | store/marketStore.ts:50-61 | the initial state: no markets, not loading, empty search, 24h change descending, USDT, SOLUSDT/BTCUSDT, daily candles, the last 30 days for one clock reading `now` |
| MarketStore.Store.BeginFetch | store/marketStore.ts:63 | a fetch sets `loading` and nothing else |
| MarketStore.Store.CompleteFetch | store/marketStore.ts:81-95 | the market list becomes the normalised payload and `loading` clears; nothing else changes |
| MarketStore.Store.SetSearch | store/marketStore.ts:97 | sets the search text and nothing else |
| MarketStore.Store.SetSort | store/marketStore.ts:98 | sets the sort key and nothing else |
| MarketStore.Store.ToggleSortOrder | store/marketStore.ts:99 | negates the sort direction and nothing else, so two calls restore it |
| MarketStore.Store.SetQuoteFilter | store/marketStore.ts:100 | sets the quote filter and nothing else |
| MarketStore.Store.ToggleSelected | store/marketStore.ts:101-104 | the selection becomes its toggle, removing a present symbol, appending a new one, or staying put when full; validity is preserved |
| MarketStore.Store.ClearSelected | store/marketStore.ts:105 | empties the selection and nothing else |
| MarketStore.Store.SetResolution | store/marketStore.ts:106 | sets the resolution and nothing else |
| MarketStore.Store.SetDateRange | store/marketStore.ts:107-140 | stores the range and the window its switch computes, and nothing else |
| MarketPage.AllowListed | app/page.tsx:49-52 | the symbol starts with "SOL" or "BTC" |
| MarketPage.StartsWith | app/page.tsx:50-51 | `s.startsWith(prefix)`: the prefix is no longer than s and equals its first characters |
| MarketPage.Includes | app/page.tsx:53 | `s.includes(t)`: t occurs at some position of s; IncludesEmpty gives the empty-search case |
| MarketPage.FaBaseName | app/page.tsx:53 | `(m.fa_base_asset \|\| "")`: the localized base name, or "" when it is missing |
| MarketPage.LowerChar | app/page.tsx:53 | `toLowerCase()` on one character: an ASCII capital becomes its small letter, every other character is kept |
| MarketPage.MatchesSearch | app/page.tsx:53 | the lowercased symbol contains the lowercased search, or the localized base name (missing as "") contains the search as typed |
| MarketPage.QuoteMatches | app/page.tsx:54-55 | ALL accepts every market, USDT the USDT-based ones, TMN the TMN-based ones |
| MarketPage.Passes | app/page.tsx:49-56 | the reference the pipeline is proved against: allow-listed, matching a non-empty search, matching the quote filter, spot when spot-only |
| MarketPage.Filtered | app/page.tsx:48-56 | the five filter steps in the page's order; characterised by FilteredCount and FilteredKeepsOrder |
| MarketPage.Key | app/page.tsx:58-59 | the market's price, 24h change or 24h volume, by sort key |
| MarketPage.Compare | app/page.tsx:60 | the comparator `va - vb` ascending or `vb - va` descending |
| MarketPage.Visible | app/page.tsx:46-63 | the filtered markets sorted stably by the comparator; characterised by VisibleCount, VisibleMembers, VisibleSorted and VisibleStable |
| MarketPage.IncludesEmpty | app/page.tsx:53 | every string includes the empty string |
| MarketPage.Lower | app/page.tsx:53 | lowercasing keeps the length |
| MarketPage.EmptySearchPassesAll | app/page.tsx:53 | an empty search matches every market |
| MarketPage.Insert | app/page.tsx:57-61 | inserting adds exactly one element |
| MarketPage.Sort | app/page.tsx:57-61 | sorting keeps the length |
| MarketPage.InsertCount | app/page.tsx:57-61 | inserting adds the element to the multiset |
| MarketPage.InsertBounded | app/page.tsx:57-61 | a lower bound of a list and the new element bounds the list after insertion |
| MarketPage.InsertSorted | app/page.tsx:57-61 | inserting into a sorted list keeps it sorted |
| MarketPage.SortSortsPermutation | app/page.tsx:57-61 | the sort output is ordered by the key in the chosen direction and is a permutation of its input |
| MarketPage.WithKeyCons | app/page.tsx:57-61 | the markets with key v in a list headed by x |
| MarketPage.InsertStable | app/page.tsx:57-61 | insertion puts the new element before every element with an equal key |
| MarketPage.SortStable | app/page.tsx:57-61 | for every key value, the markets with that value keep their relative order |
| MarketPage.FilteredCount | app/page.tsx:49-56 | the filter chain keeps each market as often as it occurs iff it passes every active predicate |
| MarketPage.VisibleCount | app/page.tsx:46-63 | the output is a permutation of the passing subset of the input, so a sub-multiset of it |
| MarketPage.VisibleMembers | app/page.tsx:46-63 | a market is listed iff it is in the input and passes allow-list, search, quote and spot predicates |
| MarketPage.VisibleRestrictions | app/page.tsx:49-56 | every listed market is a SOL or BTC pair, of the filtered quote, and spot when spot-only is on |
| MarketPage.QuoteFilterExact | app/page.tsx:54-55 | ALL keeps every otherwise passing market, USDT exactly the USDT-based ones, TMN exactly the TMN-based ones |
| MarketPage.VisibleSorted | app/page.tsx:57-61 | the output is ordered by the sort key, ascending or descending per `sortAsc` |
| MarketPage.VisibleStable | app/page.tsx:57-61 | markets with equal keys appear in their filtered order |
| MarketPage.FilteredKeepsOrder | app/page.tsx:49-56 | two passing markets keep their relative order through the filter chain |
| Chart.SmaSeries | components/chart/Chart.tsx:12-22 | the reference SMA has one entry per input |
| Chart.Sma | components/chart/Chart.tsx:12-22 | the loop with its running sum computes the reference: NaN for the first period-1 entries, then the mean of the last `period` values |
| Chart.SlideWindow | components/chart/Chart.tsx:16-17 | one loop step adds the new value to the window sum and subtracts the one leaving it |
| Chart.SmaEntry | components/chart/Chart.tsx:18-19 | entry i is NaN below period-1 and otherwise the window sum after i+1 steps over `period` |
| Chart.SmaOfConstant | components/chart/Chart.tsx:12-22 | on a constant series every full-window average is that constant |
| Chart.EmaSeries | components/chart/Chart.tsx:23-33 | the reference EMA has one entry per input |
| Chart.Smoothing | components/chart/Chart.tsx:25 | `k = 2 / (period + 1)` for any real period other than -1, fractional ones included |
| Chart.Blend | components/chart/Chart.tsx:28 | `values[i] * k + prev * (1 - k)`; Ema states its recurrence with it and EmaOfConstant shows it keeps a constant |
| Chart.EmaAt | components/chart/Chart.tsx:26-30 | the i-th EMA value: `values[0]` at 0, else the blend of `values[i]` with the previous value; Ema is proved equal to it at every index |
| Chart.Ema | components/chart/Chart.tsx:23-33 | same length, first entry `values[0]`, `out[i] = Blend(values[i], out[i-1], k)`, i.e. `values[i]*k + out[i-1]*(1-k)` with `k = 2/(period+1)` for any real period other than -1, equal to the reference series |
| Chart.EmaSeriesRecurrence | components/chart/Chart.tsx:26-30 | a series agreeing with the reference at every index starts with `values[0]` and blends each value with its predecessor |
| Chart.EmaOfConstant | components/chart/Chart.tsx:23-33 | on a constant series the EMA is that constant everywhere |
| Chart.HasCandles | components/chart/Chart.tsx:37-39 | t, o, h, l and c are all arrays and t is non-empty |
| Chart.Accepted | components/chart/Chart.tsx:117 | the payload is used unless it lacks candles or carries a status that is non-empty and not 'ok'; the same test is at :164; characterised by AcceptedIff |
| Chart.AcceptedIff | components/chart/Chart.tsx:37-39 | a payload is used iff all five arrays are present, t is non-empty, and the status is absent, empty or 'ok' |
| Chart.Bars | components/chart/Chart.tsx:133-139 | one bar per time |
| Chart.BarsRoundTrip | components/chart/Chart.tsx:133-139 | bars written as parallel arrays are accepted and map back to the same bars, each price from the same index |
| Chart.Closes | components/chart/Chart.tsx:144 | `data.c.map(Number)` |
| Chart.IndicatorSamples | components/chart/Chart.tsx:145 | the SMA or EMA series of the closes, by indicator; the period is the real number read from the input |
| Chart.IndicatorLine | components/chart/Chart.tsx:156-157 | one point per time carrying the indicator value at that index (undefined past its end), NaN points dropped; characterised by IndicatorLineHasNoNaN and SmaLine |
| Chart.SampleAt | components/chart/Chart.tsx:156 | `calc[i]`: the indicator sample at i, undefined past the end of the series; IndicatorLine keeps such points since `Number.isNaN(undefined)` is false |
| Chart.CloseLine | components/chart/Chart.tsx:177-180 | one point per time carrying the close at that index |
| Chart.IndicatorLineHasNoNaN | components/chart/Chart.tsx:156-157 | the indicator line has no NaN points |
| Chart.SmaLine | components/chart/Chart.tsx:143-157 | the SMA line has exactly the points from time index period-1 on, each carrying its window mean |
| Chart.SeriesColor | components/chart/Chart.tsx:167 | `palette[idx % palette.length]`; characterised by SeriesColorsDistinct |
| Chart.SeriesColorsDistinct | components/chart/Chart.tsx:41 | two series share a palette colour iff their indices agree modulo five |
| Chart.SymbolLine | components/chart/Chart.tsx:164-182 | the line of the idx-th symbol for an accepted payload, titled by the symbol, coloured by its index; nothing for a rejected one |
| Chart.ChartLoad | components/chart/Chart.tsx:105-183 | one load: empty for no selection, candles plus an optional indicator line for one symbol, an optional line per symbol for several; characterised by SingleSymbolChart, MultiSymbolChart and MultiSymbolColorsDistinct |
| Chart.SingleSymbolChart | components/chart/Chart.tsx:112-158 | one symbol: a rejected payload draws nothing; an accepted one draws one bar per time and a NaN-free indicator line exactly when an indicator is chosen |
| Chart.MultiSymbolChart | components/chart/Chart.tsx:160-183 | several symbols: the idx-th has a line iff accepted, titled by its symbol, coloured `palette[idx % 5]`, carrying its closes |
| Chart.MultiSymbolColorsDistinct | components/chart/Chart.tsx:160-183 | within a selection of at most five, no two lines share a colour |
| ApexChart.ApexAccepted | components/chart/ApexChart.tsx:39-41 | all five arrays present (an empty one counts) and the status exactly 'ok'; characterised by AcceptanceDiffers |
| ApexChart.SeriesFor | components/chart/ApexChart.tsx:36-52 | what one symbol's fetch resolves to: a series named by the symbol, or null when rejected |
| ApexChart.LoadSeries | components/chart/ApexChart.tsx:23-56 | the series after a load: [] for an empty selection, else the non-null results in selection order; characterised by LoadSeriesShows, LoadSeriesKeepsOrder, LoadSeriesSound and LoadSeriesNames |
| ApexChart.CandleData | components/chart/ApexChart.tsx:43-46 | one candle per time |
| ApexChart.Entries | components/chart/ApexChart.tsx:35-53 | one result per selected symbol |
| ApexChart.LoadSeriesShows | components/chart/ApexChart.tsx:35-56 | every accepted symbol's series is shown, at its rank among the accepted symbols, whatever the other payloads are |
| ApexChart.LoadSeriesKeepsOrder | components/chart/ApexChart.tsx:35-56 | two accepted symbols' series appear in selection order, each at its rank among accepted symbols |
| ApexChart.LoadSeriesSound | components/chart/ApexChart.tsx:35-56 | every shown series is an accepted symbol's, named by it, at its rank |
| ApexChart.LoadSeriesNames | components/chart/ApexChart.tsx:48-56 | all accepted: series named by the selection one for one; none accepted: no series |
| ApexChart.CandlesMatchBars | components/chart/ApexChart.tsx:43-46 | each candle is `x = t*1000`, `y = [o, h, l, c]` of the same index, agreeing with the lightweight chart's bar |
| ApexChart.AcceptanceDiffers | components/chart/ApexChart.tsx:39-41 | acceptance here implies the lightweight chart's once t is non-empty; an absent status is accepted there but rejected here, and an empty t the other way round |
| DateFilter.DateRanges | components/ui/date-filter.tsx:17-24 | the six quick ranges with their labels and day counts; characterised by TableMatchesStore |
| DateFilter.CurrentLabel | components/ui/date-filter.tsx:32-35 | the table label of the value, or the fallback label; characterised by CurrentLabelCases |
| DateFilter.QuickSelect | components/ui/date-filter.tsx:37-45 | the change a quick range reports, none for a value outside the table; characterised by QuickSelectWindow |
| DateFilter.CustomSelect | components/ui/date-filter.tsx:47-54 | the custom change, fired only when both inputs are non-empty; characterised by CustomSelectGuard |
| DateFilter.FindRange | components/ui/date-filter.tsx:33 | `find` gives the first entry with the value, and none iff no entry has it |
| DateFilter.TableMatchesStore | components/ui/date-filter.tsx:17-24 | the table covers exactly the non-custom ranges, without repeats, with the day counts the store's switch uses |
| DateFilter.QuickSelectWindow | components/ui/date-filter.tsx:37-45 | a tabled range reports `(range, now - days*86400, now)`; custom reports nothing |
| DateFilter.QuickSelectAgreesWithStore | components/ui/date-filter.tsx:37-45 | for one shared clock reading `now`, the store stores exactly the window a quick selection reports; the two clock reads are not modelled as separate |
| DateFilter.CustomSelectGuard | components/ui/date-filter.tsx:47-54 | custom select fires iff both inputs are non-empty; the store then keeps the bounds unless one is 0 |
| DateFilter.CurrentLabelCases | components/ui/date-filter.tsx:32-35 | the label is the table's for every quick range and the fallback for custom |

## Left out

- Network calls are not modelled. This covers `fetch`/`res.json()`, the API routes, the upstream exchange and response caching. `CompleteFetch` takes the parsed payload, and the chart loads take one payload per symbol.
- Async timing is not modelled. This covers `async`/`Promise.all` interleaving, the stale-response window and thrown exceptions. Each load is a function of the payloads it receives.
- The charting libraries are not modelled (`createChart`, adding and removing series, `ReactApexChart`). Only the data handed to them is modelled, and not the order in which concurrent multi-symbol series are created.
- React hooks, component state and rendering are not modelled.
- Reading the clock (`Date.now()`) and the date-string parsing in custom select are parameters: `now` and `toSeconds`. The model does not cover fractional or NaN seconds from unparsable dates.
- `MarketStore.Store.constructor`: uses one `now` for both bounds, so the initial window is exactly 30 days. The source reads the clock once for `dateFrom` and again for `dateTo` (store/marketStore.ts:60-61); when a second boundary falls between the reads, `dateTo - dateFrom` is 30 days plus one second.
- `DateFilter.QuickSelectAgreesWithStore`: holds for one shared `now`. For a preset range the store ignores the bounds it is handed and reads the clock again (store/marketStore.ts:108-112). That read and the handler's (components/ui/date-filter.tsx:40) can fall on either side of a second boundary, and then the stored window starts and ends later than the reported one.
- `handlePresetSelect` in the date picker is not modelled because it depends on JavaScript `Date` calendar rules.
- `Number()` is a parameter, `number: JsValue -> real`. It always returns a finite number, so the model has no NaN. The model does not say how strings are parsed. An absent `price` is `number(Undefined)`, not a NaN constant.
- `MarketPage.VisibleSorted`, `MarketPage.VisibleStable`: hold only when every coerced key is a finite number. With an absent price, `Number(undefined)` is NaN (store/marketStore.ts:87). The comparator at app/page.tsx:60 then returns NaN, which the sort treats as 0. The comparator is then inconsistent, and the order JavaScript produces is implementation-defined.
- `Chart.Sma`: is the reference only when every close coerces to a finite number. One NaN close (components/chart/Chart.tsx:144) makes the running `sum` NaN for every later index, so the rest of the SMA line is dropped at components/chart/Chart.tsx:157. The window-mean reference would recover once the NaN leaves the window.
- `JsValues.JsValue`: uses one `Undefined` case for both an absent field and `null`. `Number(null)` is 0 but `Number(undefined)` is NaN, and the model does not tell them apart; `price` is where it matters.
- Floating-point rounding is not modelled; prices, sums and averages are exact reals.
- `MarketPage.Lower`: lowercases ASCII letters only; other scripts are left as they are, which `toLowerCase` does not always do.
- `Chart.Sma`, `Chart.IndicatorSamples`, `Chart.SingleSymbolChart`, `Chart.ChartLoad`: require a whole-number `period >= 1` for a single-symbol SMA load; a multi-symbol load never reads the period and is covered for every period. The period comes from `Number(e.target.value)` (components/chart/Chart.tsx:270), and `min={2}` does not stop a cleared input from giving 0. With 0 the source divides by zero. With a fractional period, `values[i - period]` is `undefined`, so `sum` turns NaN. Neither case is modelled.
- `Chart.Ema`, `Chart.Smoothing`, `Chart.IndicatorSamples`, `Chart.SingleSymbolChart`, `Chart.ChartLoad`: require `period != -1` for a single-symbol EMA load, where `k` would be a division by zero. Every other real period, fractional ones included, is covered, and a multi-symbol load is covered for every period.
- Payload fields that are present but are not arrays are not modelled. Each field is either an array or missing, and timestamps are integers.
- The flags are modelled as booleans or missing; truthy non-boolean flag values are not modelled.
- `MarketStore.Store.CompleteFetch`: assumes `BeginFetch` and the response arrive in order; interleaved fetches are not modelled.
- The date-range type is declared once in the store and reused by the date picker. The source has two identical declarations.
- The utility helpers (number formatting, class-name merging), the layout and the other UI primitives are presentation only and not modelled.
