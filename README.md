# RealTicker in Dafny

RealTicker is a dashboard. It lists the ten most traded stocks of a simulated market. When a
stock is picked, it shows the stock's price history as a chart, together with a short
analysis: a trend, a risk level and a suggested action. This project models the decision
logic of both halves of the program and proves properties about it.

The backend (`backend/main.py`, module `Backend` in `backend.dfy`) is modelled with these
pieces:
- the whitelist of fifteen tickers behind the history and analyze endpoints;
- the top-ten selection, a stable sort by volume (descending) followed by truncation;
- the trend and risk classifiers over the price history, and the short-history case;
- the rule-based suggestion table, and the second table used when the AI answers with text;
- the assembly of the analysis response, including its error outcomes.

The front end is modelled with these pieces:
- the root component (`frontend/src/App.js`, module `AppState` in `app.dfy`): a class `App`
  with the five state fields `stocks`, `selectedStock`, `loading`, `error` and
  `detailLoading`. It has one method per transition. Each asynchronous handler is split at
  its `await` into a start transition and a completion transition. A function `View` picks
  the spinner, the detail pane or the table.
- the table (`StockTable.js`, module `StockTable` in `stock_table.dfy`): the volume
  abbreviation and the rows.
- the detail view (`StockDetail.js`, module `StockDetail` in `stock_detail.dfy`): its
  guards, the 90-point chart window, the two headline prices and the case-insensitive
  colour and icon maps.
- the sign rule for percentage changes, which both views use (`display.dfy`).
- the shared records (`domain.dfy`).

Facts the proofs bring out about the code as written:
- With fewer than two prices, `analyze_price_trend` returns a pair instead of a 4-tuple. The
  4-way unpacking in `analyze_stock` then raises, so the endpoint answers 500
  (`Backend.AnalyzeStock`).
- The two suggestion tables agree on the kind of action (long-term, short-term watch, avoid)
  exactly when the trend is not sideways (`Backend.TablesAgreeUnlessSideways`).
- Selecting a stock clears `selectedStock` before the requests go out. So while the detail
  fetch is in flight the root shows the table. The detail view's own "analyzing"
  placeholder can never be reached from the root (`AppState.App.StartSelect`,
  `AppState.DetailPaneRendersInFull`).
- A successful retry from the detail view returns to the same detail view, not to the
  table (`AppState.RetryFromDetail`).
- In the K tier, volumes from 999,950 to 999,999 are shown as "1000.0K"
  (`StockTable.ThousandKAtTop`).
- With more than 90 points of history, the six-month change is measured from a point the
  chart does not show (`StockDetail.ChartEnds`).

## Model

| member | source | states |
|---|---|---|
| `Backend.GetStockHistory` | backend/main.py:202-220 | fails with 404 "Stock not found" iff the ticker is not one of the fifteen keys; otherwise returns the ticker, its company name and the history |
| `Backend.UnknownTickerRejected` | backend/main.py:204-226 | an unknown ticker gets 404 from both the history and the analyze endpoint, whatever the history and AI outcome |
| `Backend.SortByVolume` | backend/main.py:198 | the sorted list is a permutation of the input with volumes non-increasing |
| `Backend.SortByVolumeStable` | backend/main.py:198 | the stocks of any one volume appear in the sorted list in exactly their input order (the sort is stable) |
| `Backend.InsertByVolumeStable` | backend/main.py:198 | inserting the earliest stock keeps it ahead of the later stocks of equal volume |
| `Backend.InsertByVolumeSorted` | backend/main.py:198 | inserting into a non-increasing list keeps it non-increasing |
| `Backend.TopTen` | backend/main.py:193-199 | returns min(10, n) stocks, volumes non-increasing, all drawn from the input (sub-multiset), and no left-out stock has a higher volume than any returned one |
| `Backend.TopTenStable` | backend/main.py:198 | for each volume, the returned stocks of that volume are a prefix of the input's stocks of that volume, in input order |
| `Backend.ClassifyTrend` | backend/main.py:114-120 | Upward iff change > 10, Downward iff change < -10, Sideways iff -10 <= change <= 10 (so exactly ±10 is sideways) |
| `Backend.ClassifyRisk` | backend/main.py:122-128 | High iff volatility > 5, Medium iff 2.5 < volatility <= 5, Low iff volatility <= 2.5 |
| `Backend.ClassifiersMonotone` | backend/main.py:114-128 | a larger change or volatility never yields a lower trend or risk class |
| `Backend.Variance` | backend/main.py:109-111 | the population variance of the prices is non-negative |
| `Backend.AnalyzePriceTrend` | backend/main.py:99-130 | fewer than 2 prices give exactly the pair (Sideways, Medium); a zero first price or zero mean raises; otherwise the returned change is (last − first) / first × 100, the volatility is sqrt(variance) / mean × 100, and the trend and risk are their classes |
| `Backend.TrendFromEndpoints` | backend/main.py:104-120 | for a positive first price: Upward iff last > 1.1 × first, Downward iff last < 0.9 × first |
| `Backend.FlatHistory` | backend/main.py:104-130 | a constant non-zero history gives (Sideways, Low) with zero change and zero volatility |
| `Backend.FallbackSuggestion` | backend/main.py:171-185 | long-term iff (Upward and Low) or Sideways; avoid iff Downward and High; short-term watch iff Upward with Medium/High or Downward without High |
| `Backend.FallbackCasesDistinct` | backend/main.py:171-185 | two (trend, risk) pairs get the same suggestion iff they fall in the same one of the five branches |
| `Backend.SecondarySuggestion` | backend/main.py:242-250 | long-term iff Upward and Low; avoid iff Downward and High; short-term watch in every other case |
| `Backend.TablesAgreeUnlessSideways` | backend/main.py:171-250 | the two tables give the same kind of action iff the trend is not Sideways |
| `Backend.FallbackSentences` | backend/main.py:167-185 | the rule-based analysis has two sentences, the first naming the ticker with the lower-cased trend and risk |
| `Backend.HuggingFaceAnalysis` | backend/main.py:132-187 | AI text is passed through unchanged; otherwise the rule-based result carries the fallback table's suggestion |
| `Backend.AnalyzeStock` | backend/main.py:222-259 | 404 for an unknown ticker; 500 for a known ticker with fewer than 2 prices or a zero first price or mean; success exactly when the ticker is known and the price analysis completes; on success: the ticker, the fixed disclaimer, the names of the trend and risk the price analysis computes, the AI text when there is one and the two rule-based sentences otherwise, and the suggestion from the secondary table after AI text or from the fallback table otherwise |
| `Display.ChangeCellOf` | frontend/src/components/StockTable.js:31-32 | class "positive" and prefix "+" iff the change is >= 0 (zero included); otherwise "negative" and no prefix |
| `StockTable.DecimalString` | frontend/src/components/StockTable.js:60 | a non-empty string of decimal digits with no leading zero unless the number is 0 |
| `StockTable.DecimalStringRoundTrip` | frontend/src/components/StockTable.js:60 | reading the decimal string back gives the number |
| `StockTable.OneDecimalRoundTrip` | frontend/src/components/StockTable.js:55-58 | a one-decimal rendering reads back as the same count of tenths |
| `StockTable.RoundTenths` | frontend/src/components/StockTable.js:55-58 | the rounded count n of tenths satisfies 2·unit·n <= 20·volume + unit < 2·unit·(n+1) |
| `StockTable.RoundTenthsClose` | frontend/src/components/StockTable.js:55-58 | the shown number n/10 is within 0.05 of the exact quotient volume/unit |
| `StockTable.FormatVolume` | frontend/src/components/StockTable.js:54-61 | ends in "M" iff volume >= 1,000,000; ends in "K" iff 1,000 <= volume < 1,000,000; all digits below 1,000 |
| `StockTable.FormatVolumeReadsBack` | frontend/src/components/StockTable.js:54-61 | the shown number reads back as the rounded quotient in the M and K tiers, and is exactly the decimal string of the volume below 1,000 |
| `StockTable.ThousandKAtTop` | frontend/src/components/StockTable.js:57-58 | every volume from 999,950 to 999,999 is shown as "1000.0K" |
| `StockTable.Rows` | frontend/src/components/StockTable.js:21-45 | one row per stock, row i built from stock i with rank i + 1 |
| `StockTable.RowsFollowInput` | frontend/src/components/StockTable.js:21-41 | ranks run 1..n in input order, each row's ticker and action callback are its own stock's ticker, and the tone follows the sign rule |
| `StockDetail.ChartData` | frontend/src/components/StockDetail.js:22-25 | the chart has min(90, n) points, and they are exactly the last that-many history points, in order, with their prices and formatted dates |
| `StockDetail.ChartEnds` | frontend/src/components/StockDetail.js:22-28 | the chart is empty iff the history is; an empty history gives current and start price 0; the chart ends at the current price; it starts at the start price when n <= 90, and at point n - 90 otherwise |
| `StockDetail.LowerMatches` | frontend/src/components/StockDetail.js:31-32 | lower-casing a label gives a lower-case word iff the label spells that word with each letter in either case |
| `StockDetail.RiskColorMap` | frontend/src/components/StockDetail.js:31-38 | #00ff88 / #ffaa00 / #ff4466 iff the label is low / medium / high in any letter case; #8892b0 iff it is none of them |
| `StockDetail.TrendIconMap` | frontend/src/components/StockDetail.js:40-47 | the upward / downward / sideways icon iff the label is that word in any letter case; the default icon iff it is none of them |
| `StockDetail.Render` | frontend/src/components/StockDetail.js:5-160 | the placeholder whenever loading, whatever the stock; nothing when there is no stock or no analysis; otherwise the full view, carrying the stock's ticker and company and the analysis' trend, risk, free-text analysis, suggestion and disclaimer |
| `StockDetail.RenderDerivations` | frontend/src/components/StockDetail.js:19-68 | the full view holds the chart window, current and start price, risk colour and trend icon, and is positive with "+" iff the parsed change is >= 0 |
| `AppState.App.constructor` | frontend/src/App.js:11-15 | starts with no stocks, no selection, loading, no error and no detail fetch |
| `AppState.App.StartFetch` | frontend/src/App.js:21-25 | sets loading and clears the error, changes nothing else, and the spinner is shown |
| `AppState.App.FetchSucceeded` | frontend/src/App.js:25-32 | replaces the stocks and clears loading; nothing else changes |
| `AppState.App.FetchFailed` | frontend/src/App.js:27-32 | keeps the stocks, sets the fixed list-failure message and clears loading |
| `AppState.App.StartSelect` | frontend/src/App.js:35-44 | sets detailLoading and clears the selection, leaves error and stocks alone; unless the list is loading, the table is shown |
| `AppState.App.SelectSucceeded` | frontend/src/App.js:46-55 | the selection becomes the history payload with the analysis attached and detailLoading is cleared; the error is not cleared |
| `AppState.App.SelectFailed` | frontend/src/App.js:50-55 | sets "Failed to fetch details for " + ticker, clears detailLoading and leaves the selection as it was |
| `AppState.App.Back` | frontend/src/App.js:58-60 | clears the selection and nothing else |
| `AppState.App.View` | frontend/src/App.js:95-113 | spinner iff loading; detail pane iff not loading and a stock is selected; table iff not loading and none is |
| `AppState.App.Banner` | frontend/src/App.js:87-93 | the banner is shown iff an error is set, whatever the main area shows, and it shows that error |
| `AppState.DetailPaneRendersInFull` | frontend/src/App.js:95-102 | whenever the root shows the detail pane, the detail view renders in full, never its placeholder or its empty state |
| `AppState.OpenDetail` | frontend/src/App.js:35-55 | picking a stock from the table and receiving both answers shows its detail view with the error and list untouched |
| `AppState.FailDetail` | frontend/src/App.js:35-55 | a failed pick keeps the table on screen and shows the ticker's message |
| `AppState.RetryFromDetail` | frontend/src/App.js:87-102 | Retry from the detail view shows the spinner, then returns to the same detail view with the new list and no banner |
| `AppState.FailureDuringListLoad` | frontend/src/App.js:21-55 | selecting from the table, pressing Refresh, then the detail failure landing leaves the spinner and an error banner on screen together |

## Left out

- The HuggingFace request and its JSON handling (backend/main.py:139-164) are a network call. The parameter `aiText` stands for its outcome: the generated text, or `None` when there is no token, the call fails or the answer is not a non-empty list.
- The random price and volume generation and the clock (backend/main.py:60-97) are left out. The history and the generated stock list are parameters. The model therefore does not capture that `analyze_stock` analyses a freshly generated history rather than the one the chart shows.
- The second "Stock not found" check in `get_stock_history` (backend/main.py:209-212) is not modelled. It cannot fire, because the generated list contains every known ticker.
- Python floats are modelled as exact reals. The square root behind the volatility is the parameter `sqrt`. The `round(…, 2)` of generated prices is not modelled.
- Backend.FallbackSentences: the one-decimal text of the price change (`:.1f`) is the parameter `formatPct`; the digits it produces are not modelled.
- Backend.AnalyzePriceTrend: trend and risk are enumerations rather than strings, since the classifiers are their only producers; the response carries their names.
- FastAPI routing, CORS, the pydantic models, the root and health endpoints and the server start-up are left out.
- axios and `Promise.all` are left out, and so are logging and the stale-response race between overlapping detail selections. Completions are separate events. A failure of either paired request is a single `SelectFailed` event.
- React rendering is left out: the header's stock count, the footer, animation delays, the chart configuration and CSS other than the positive/negative choice.
- StockTable.Rows: prices and changes keep their numeric value; their two-decimal `toFixed(2)` text is not modelled.
- StockDetail.Render: the six-month change text `((current - start) / start * 100).toFixed(2)` and its `parseFloat` are the parameter `parsedChange`. A zero start price makes the source produce NaN or Infinity, which a real-valued parameter cannot represent. The locale date label is the parameter `dateLabel`.
- StockTable.FormatVolume: rounds a tie (an exact half tenth) upward on the exact quotient. The source's `toFixed(1)` works on the binary value of the quotient, so a tie may go either way. The model also does not capture the exponent notation `toFixed` uses from 10^21 upward, or the loss of precision above 2^53.
- StockDetail.Lower: lower-cases ASCII letters only. No character outside ASCII lower-cases to a string that spells one of the six keywords, so the colour and icon choices are the same as with full `toLowerCase`.
