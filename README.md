# Stock dashboard portfolio engine, in Dafny

This project models the engine inside the stock dashboard's `client/src/Dashboard.js`.
The engine turns account snapshots pushed by the server, and the live price feed, into
the portfolio the dashboard shows. It derives each holding's unrealized profit and loss,
the portfolio total, and a "trending" ticker. The file holds three versions of the
component. The first two (lines 1-331 and 332-762) are commented out. Only the third
(lines 763-967) is live. The engine logic is spread across all three, so the model
follows all three:

- `money.dfy` (module `Money`) holds prices and amounts as exact `real`s. It also holds
  `Round2`, the two-decimal rounding that `toFixed(2)` applies to an exact value: the
  nearest cent, with ties going away from zero.
- `portfolio.dfy` (module `Portfolio`) models `normalizePortfolio` and
  `recalcPortfolioWithPrices` as pure functions over snapshot and view datatypes.
  - A snapshot's holdings come either as an array of records or as a legacy object
    from ticker to quantity.
  - Where the source reads a number with `||` (the fields of a holding record and a
    legacy quantity), a missing or falsy number is `None`. Where it reads one with
    `??` (cash, realized and the snapshot's unrealized total), `None` means null or
    undefined only, and a 0 is `Some(0.0)`, which is kept.
  - The key result is `RecalcCompose`: pricing with one map and then another is the
    same as pricing once with the merged map. Idempotence follows from it, and so does
    the fact that a snapshot and a price delta commute.
- `trend.dfy` (module `Trend`) models the trending detector of the live version.
  - `Trending` is a loop method, proved against a left fold `Scan`, and returns the
    first ticker with the largest strictly positive change.
  - `TrendingAsWritten` is the loop as the source writes it, with JavaScript's
    infinities and NaN (see Findings). The live component uses this one.
- `validation.dfy` (module `Validation`) models the local checks on a trade quantity
  and a deposit amount, made before any request is sent.
- `dashboard.dfy` (module `Dashboard`) holds the component state as classes, with one
  method per server event.
  - `DashboardState` is the earlier versions: deltas are merged and the portfolio is
    re-priced. Its invariant says that the portfolio is always the last snapshot priced
    at the latest price received for each ticker.
  - `LiveDashboardState` is the live version, where every event is a plain replacement.

Behaviours of the code worth noting:

- The live `stockUpdate` replaces the price map instead of merging into it.
- The live `trending` does not skip a window that starts at a price of 0. The live
  component's `Trending` is modelled with that behaviour, and it agrees with the
  guarded detector whenever no window starts at 0.
- The earlier versions' `history` state is the selected ticker's series alone.

## Model

| member | source | states |
|---|---|---|
| Money.Round2 | client/src/Dashboard.js:57 | the result is a whole number of cents within half a cent of the input; a tie goes away from zero (strictly above x - 0.005 for x >= 0, strictly below x + 0.005 for x <= 0) |
| Money.Round2Negate | client/src/Dashboard.js:57 | rounding is symmetric around zero (losses round like gains, ties away from zero) |
| Money.Round2OfCents | client/src/Dashboard.js:68 | a whole number of cents is left unchanged, so rounding an already-rounded total does nothing |
| Money.Round2Idempotent | client/src/Dashboard.js:57 | rounding twice is rounding once |
| Portfolio.Normalize | client/src/Dashboard.js:23-50 | an absent snapshot gives the empty portfolio; array holdings keep length, order and ticker with missing numbers read as 0; legacy entries give one holding each with only a quantity; absent cash/realized read as 0; an absent total is the sum of the holdings' unrealized values, a present one (0 included) is kept |
| Portfolio.NormalizeRoundTrip | client/src/Dashboard.js:23-50 | a normalised view written back as a snapshot normalises to itself |
| Portfolio.NormalizeIdempotent | client/src/Dashboard.js:23-50 | normalising the output of normalisation changes nothing |
| Portfolio.LegacySnapshotHasZeroTotal | client/src/Dashboard.js:35-47 | a legacy snapshot without a total has total 0, and its holdings carry no cost, price or profit |
| Portfolio.LegacyScenario | client/src/Dashboard.js:35-42 | `{GOOG: 5}` gives one GOOG holding of 5 with cost, price and profit 0 |
| Portfolio.Reprice | client/src/Dashboard.js:55-63 | the holding keeps ticker, quantity and cost, takes the map's price when its ticker is a key (0 included) or keeps its own, and its profit is the rounded profit at that price |
| Portfolio.Recalc | client/src/Dashboard.js:53-70 | holdings keep count, order, ticker, quantity and cost and are each re-priced and rounded; cash and realized are untouched; the total is the rounded sum of the rounded profits, and equals that sum exactly |
| Portfolio.RepriceCompose | client/src/Dashboard.js:56 | re-pricing a holding with P then Q equals re-pricing it once with P merged with Q |
| Portfolio.RecalcCompose | client/src/Dashboard.js:103-111 | re-pricing a portfolio with P then Q equals re-pricing once with P merged with Q |
| Portfolio.RecalcIdempotent | client/src/Dashboard.js:53-70 | re-pricing twice with the same prices gives the same view as once |
| Portfolio.RecalcReadsOnlyHeldTickers | client/src/Dashboard.js:56 | two price maps that agree on the held tickers give the same view: a tick for another ticker changes nothing |
| Portfolio.RecalcFixesConsistent | client/src/Dashboard.js:53-70 | a view whose profits and total are already consistent is unchanged by re-pricing without prices |
| Portfolio.SnapshotAndDeltaCommute | client/src/Dashboard.js:136-141 | a snapshot priced and then hit by a delta ends as the snapshot priced at the merged prices |
| Portfolio.RoundingPerHoldingFirst | client/src/Dashboard.js:57-68 | each holding is rounded before the total: two raw profits of 0.005 total 0.02, not the 0.01 that rounding the raw sum would give |
| Portfolio.ProfitScenario | client/src/Dashboard.js:53-70 | cost 100, quantity 10, price 115 gives an unrealized 150.00 for the holding and the total |
| Trend.ScanFindsFirstLargestRise | client/src/Dashboard.js:816-833 | the scan records nothing exactly when no ticker rose; otherwise it records the first ticker, in list order, whose change is at least every other measurable change |
| Trend.Trending | client/src/Dashboard.js:816-833 | the loop returns the fold's answer: none exactly when no ticker has a strictly positive change, otherwise the first ticker with the largest change and that change rounded to cents |
| Trend.GoogScenario | client/src/Dashboard.js:816-833 | GOOG at 100..110 over six samples, with no other window, gives GOOG at 10.00 |
| Trend.ShortHistoriesScenario | client/src/Dashboard.js:822 | when every series has five samples there is no signal |
| Trend.TrendingAsWritten | client/src/Dashboard.js:816-833 | the unguarded loop, with JavaScript division and comparison, returns its fold's answer |
| Trend.AsWrittenAgreesWithoutZeroBase | client/src/Dashboard.js:823-829 | when no window starts at 0 the code as written and the guarded detector give the same answer |
| Trend.ZeroBaseWinsAsWritten | client/src/Dashboard.js:825 | over the live ticker list, a GOOG window from 0 to 5 makes the code as written report GOOG with an infinite trend, where the guarded detector reports nothing |
| Validation.CheckTrade | client/src/Dashboard.js:184-187 | a trade is accepted iff a ticker is selected and the quantity is an integer above 0; the request carries that ticker and quantity; otherwise "Invalid quantity" |
| Validation.CheckDeposit | client/src/Dashboard.js:206-209 | a deposit is accepted iff the amount is a number above 0, sent as is; otherwise "Enter valid amount" |
| Dashboard.DashboardState.constructor | client/src/Dashboard.js:76-81 | empty prices, empty portfolio and chart, GOOG selected; no snapshot and no price seen yet; the invariant holds |
| Dashboard.DashboardState.StockUpdate | client/src/Dashboard.js:103-111 | a non-object payload changes nothing; otherwise payload keys take the payload price, other keys keep theirs, and the portfolio is re-priced from the merged map; the snapshot is kept and the merged prices become the latest seen; the invariant is kept |
| Dashboard.DashboardState.PricesSnapshot | client/src/Dashboard.js:114-119 | a non-object payload changes nothing; otherwise the map is replaced and the portfolio re-priced from it; the snapshot is kept and the new prices become the latest seen; the invariant is kept |
| Dashboard.DashboardState.History | client/src/Dashboard.js:122-124 | a reply for the selected ticker replaces the chart series (empty if not an array); any other reply is dropped |
| Dashboard.DashboardState.HistoryUpdate | client/src/Dashboard.js:127-134 | the selected ticker's truthy entry replaces the series (empty if not an array); otherwise nothing changes |
| Dashboard.DashboardState.PortfolioUpdate | client/src/Dashboard.js:136-141 | the portfolio becomes the normalised snapshot priced at the current prices; that snapshot is recorded with the current prices as the latest seen; prices and chart are untouched |
| Dashboard.DashboardState.Select | client/src/Dashboard.js:258 | selecting a ticker changes the selection only |
| Dashboard.SnapshotDeltaOrder | client/src/Dashboard.js:103-141 | from any prior price map, a snapshot then a delta and a delta then a snapshot end in the same portfolio: the snapshot priced at the prior map merged with the delta |
| Dashboard.TslaTick | client/src/Dashboard.js:103-111 | a TSLA tick of 250 on 2 shares bought at 200 gives an unrealized 100.00, in the holding and in the total, at once |
| Dashboard.LiveDashboardState.constructor | client/src/Dashboard.js:784-787 | empty prices and history, no portfolio, GOOG selected |
| Dashboard.LiveDashboardState.StockUpdate | client/src/Dashboard.js:808 | the payload replaces the price map; nothing else changes |
| Dashboard.LiveDashboardState.HistoryUpdate | client/src/Dashboard.js:809 | the payload replaces the history map; nothing else changes |
| Dashboard.LiveDashboardState.PortfolioUpdate | client/src/Dashboard.js:810 | the snapshot replaces the portfolio as received; nothing else changes |
| Dashboard.LiveDashboardState.Select | client/src/Dashboard.js:887 | a click on a ticker card selects it and changes nothing else |
| Dashboard.LiveDashboardState.Trending | client/src/Dashboard.js:816-833 | the unguarded loop's signal over the fixed ticker list and the current history; when no window starts at 0 it is the guarded detector's signal, with a finite change |

## Findings

| source | as written | input that shows it | evidently intended | confidence | as-written member | corrected member |
|---|---|---|---|---|---|---|
| client/src/Dashboard.js:823-825 | the change is divided by the window's first sample without a guard, so a first sample of 0 gives Infinity (or NaN), and Infinity beats every finite change | `history.GOOG = [0,0,0,0,0,5]` is reported as trending at "+Infinity%" | a percentage change from a price of 0 is undefined and "+Infinity%" is plainly not a meaningful trend, so such a window should be skipped | medium; not executed | Trend.ZeroBaseWinsAsWritten | Trend.Trending |

## Left out

- Rendering is not modelled: the JSX, chart data and options, the flash animations and
  the connection indicator are presentation and DOM effects.
- The socket connect/disconnect lifecycle is not modelled. Neither are the `fetch`
  calls to `/me`, `/trade`, `/deposit` and `/trades`, nor the token and email kept in
  `localStorage`: all of these are I/O.
  - Once `/me`, `/trade` or `/deposit` succeeds, its portfolio goes through the same
    transition as a `portfolioUpdate` event. That transition is modelled.
  - The `/trades` transaction list (`loadTrades`) is a plain replacement by fetched data
    and is not modelled.
- The `tradeExecuted` message and the result messages of trade and deposit are display
  text and are not modelled.
- Floating point is not modelled. Amounts are exact reals, so `Round2` is the exact
  rounding rule of `toFixed(2)` without binary floating-point artefacts.
- `Number(...)` coercion of arbitrary JavaScript values is not modelled. Inputs are
  typed optional numbers. For a field read with `||`, `None` stands for a missing or
  falsy value. For a field read with `??` (cash, realized, the unrealized total),
  `None` stands for null or undefined, and 0 is `Some(0.0)`. Unparsable values and
  the infinities are not modelled for inputs.
- Dashboard.DashboardState.PortfolioUpdate: prices the snapshot with the current price
  map. The source closure reads the `prices` captured when the socket effect ran, a
  React artefact.
- Portfolio.Recalc: takes a portfolio that is always present. The source's guard for a
  null portfolio never fires in the earlier versions, whose state starts as an object
  and is only ever set to normalised values.
- Trend.Trending: skips a window whose first sample is 0, which the source does not do.
  The unguarded behaviour is Trend.TrendingAsWritten (see Findings), and that is what
  Dashboard.LiveDashboardState.Trending runs.
- Trend.Trending: returns the change as a number rounded to cents, where the source
  returns the string `toFixed(2)` makes of it. Trend.TrendingAsWritten does the same:
  its change is a `Pct` number, not the string. It reads "a ticker was recorded" for the
  source's truthiness test on the ticker name, which is the same thing because every
  listed ticker is a non-empty string.
- The history payload of `history` events is taken to be an object. Destructuring a
  null payload would throw in the source.
- Dashboard.LiveDashboardState.StockUpdate: the payload is taken to be a price map. The
  live handler stores any payload, null included, without a check; only rendering reads
  the live prices, so no modelled behaviour depends on it.
- Dashboard.LiveDashboardState.HistoryUpdate: the payload is taken to be an object (a
  map from ticker to series). The live handler stores any payload without the earlier
  versions' `typeof` guard, so a null or non-object payload would be stored and make
  the trending computation throw; that case is not modelled.
- Changes to the supported-ticker list through `/me` (`setSupported`) are not modelled:
  they feed only the rendering and the initial selection.
