# Crypto news and price dashboards: the derivation and aggregation rules

This project models the small computational core of two Bokeh dashboards over
cryptocurrency data. The rest of both scripts is loading, rendering and widget wiring.

- `main.py` colours each Bitcoin price point by its change from the previous
  day. A higher High is green, otherwise a lower Low is red, otherwise grey,
  and the first day is grey. It also colours and sizes each crypto news point
  by its sentiment label ("good", "bad" or anything else).
- `main_v0.py` turns each news item's polarity score into `positive`,
  `negative` or `neutral`. On every change of the sentiment selector it
  filters the items ("All" means no filter). It then counts them per
  (formatted date, sentiment) into a pivot table. The table's first column is
  `formatted_date`, followed by one count column per sentiment present.

Files:

- `palette.dfy` (module `Palette`): the three point colours and their names
  (`"green"`, `"red"`, `"grey"`).
- `crypto_dashboard.dfy` (module `CryptoDashboard`): the rules of `main.py`.
  `MapPriceChangeToColor` is the source's index loop that appends one colour
  per row. It is proved against `IsPriceColoring`, the per-row rule.
- `sentiment_dashboard.dfy` (module `SentimentDashboard`): the rules of
  `main_v0.py`. `Update` is the selector's change handler. It filters, calls
  `GroupCount` (the group-by/size/unstack step), then copies the columns one
  by one into the chart's table. Its result is specified by `IsPivotOf`, which
  does not depend on the order of the pivot's dates or columns. The lemmas
  prove cell correctness, zero-fill, the total count, the column names and
  filter idempotence.

Price rows keep only `High` and `Low`, and news rows only `formatted_date` and
`sentiment`. These are the only columns the modelled rules read. Dates and
sentiments are opaque strings. Prices and polarities are `real`, because the
rules only compare them.

The chart draws one bar series for each of the three sentiments
(`main_v0.py:45-46`), but the pivot makes a count column only for the
sentiments present in the filtered rows (`main_v0.py:59-69`). The model follows
the pivot, as `SingleItemPivot` shows: one positive item gives only a
`positive` column.

Colours are compared as the datatype `Palette.Color`; `Palette.Name` gives the
strings the program returns, and `MapSentimentToColor` states its result at
that string level too.

## Model

| member | source | states |
|---|---|---|
| `CryptoDashboard.MapPriceChangeToColor` | main.py:45-57 | one colour per row; row 0 grey; every later row coloured by comparison with the previous row only |
| `CryptoDashboard.ChangeColor` | main.py:51-56 | the comparison of one row with its predecessor: green iff High rose; red iff High did not rise and Low fell; grey iff neither |
| `CryptoDashboard.PriceColoringCases` | main.py:51-56 | for row i>0: green iff High rose (whatever Low did); red iff High did not rise and Low fell; grey iff neither |
| `CryptoDashboard.PriceColoringUnique` | main.py:45-57 | the colouring of a table is uniquely determined by the table |
| `CryptoDashboard.PriceColoringLocal` | main.py:51-53 | colour i depends only on rows i and i-1: tables that agree there give the same colour at i |
| `CryptoDashboard.MapSentimentToColor` | main.py:63-69 | total: "good" gives green, "bad" gives red, every other label gives grey; the colour names are "green", "red", "grey" |
| `CryptoDashboard.MapSentimentToSize` | main.py:75-81 | total: "good" gives 10, "bad" gives 5, every other label gives 7; the size is always in {5, 7, 10} |
| `CryptoDashboard.SizeFollowsColor` | main.py:63-81 | colour and size agree: green iff size 10, red iff size 5, grey iff size 7 |
| `SentimentDashboard.DetermineSentiment` | main_v0.py:21-27 | "positive" iff polarity > 0, "negative" iff polarity < 0, "neutral" iff polarity == 0 (exact zero is neutral) |
| `SentimentDashboard.ClassifiedSentimentHasColor` | main_v0.py:33 | every classified sentiment has a bar colour: green for positive polarity, red for negative, grey for zero |
| `SentimentDashboard.Select` | main_v0.py:57 | the selection is no longer than the input, and every kept row comes from the input and has the selected sentiment |
| `SentimentDashboard.Filter` | main_v0.py:54-57 | with "All" the rows are unchanged; otherwise a row is kept iff it is an input row with the selected sentiment |
| `SentimentDashboard.FilterAllKeepsEverything` | main_v0.py:54-57 | with the selection "All" the filtered rows are the input rows |
| `SentimentDashboard.SelectMembers` | main_v0.py:56-57 | a row is kept iff it is an input row whose sentiment equals the selection |
| `SentimentDashboard.SelectAppend` | main_v0.py:57 | selection preserves order: selecting from a + b is the selection from a followed by the selection from b |
| `SentimentDashboard.SelectKeepsMatching` | main_v0.py:57 | rows that all carry the selected sentiment are kept unchanged |
| `SentimentDashboard.FilterIdempotent` | main_v0.py:54-57 | applying the same selection twice gives the same rows as applying it once |
| `SentimentDashboard.Unique` | main_v0.py:59 | the group keys: repetition-free, and holding exactly the values of the column |
| `SentimentDashboard.Column` | main_v0.py:59 | a count column has one entry per date, each the size of the (date, sentiment) group |
| `SentimentDashboard.GroupCount` | main_v0.py:59 | the group-by/size/unstack result is a pivot of its rows: distinct dates that are exactly the rows' dates, distinct columns that are exactly the rows' sentiments, each cell its group size |
| `SentimentDashboard.Update` | main_v0.py:51-72 | the table handed to the chart is the pivot of the rows that pass the selector |
| `SentimentDashboard.CountOf` | main_v0.py:59 | the size of a (date, sentiment) group is at most the number of rows and equals the multiplicity of that key among the rows |
| `SentimentDashboard.CountZeroIffAbsent` | main_v0.py:59 | a count is zero iff no row has that date and sentiment |
| `SentimentDashboard.PivotCell` | main_v0.py:59 | every cell of a pivot is the number of filtered rows with its date and sentiment, and zero exactly for a missing combination |
| `SentimentDashboard.PivotTotal` | main_v0.py:59 | the cells of a pivot sum to the number of rows counted |
| `SentimentDashboard.PivotDeterminedUpToOrder` | main_v0.py:59 | two pivots of the same rows have the same column names and agree on every (date, sentiment) cell, whatever the order of their dates |
| `SentimentDashboard.UpdateColumns` | main_v0.py:62-69 | the chart's columns are `formatted_date` plus exactly the sentiments present after filtering; with a specific selection at most that one count column, present iff some item has that sentiment |
| `SentimentDashboard.SingleItemPivot` | main_v0.py:59-69 | one positive item on one day gives one date and a single `positive` column holding 1 |
| `SentimentDashboard.EmptySelection` | main_v0.py:54-72 | when no row passes the filter, the chart gets an empty table with only the `formatted_date` column |

## Left out

- CSV loading, changing the working directory and the `print` calls (main.py:21-31, main_v0.py:8-11) are file and console I/O.
- `fillna` (main.py:35-37, main_v0.py:14) is a pandas call. Price rows are assumed to have numeric High and Low, and news rows a sentiment.
- `GroupCount`, `Update`, `PivotTotal`: the model assumes every news row has a formatted date. In the program, `fillna('')` runs before the date conversion (main_v0.py:14, 17-18), so a missing or unparseable date becomes NaN after `strftime`, and the `groupby` at main_v0.py:59 silently drops those rows. Their cells then sum to less than the number of filtered rows; the model does not capture that exclusion.
- Date parsing and formatting (`pd.to_datetime(..., errors='coerce')`, `strftime`; main.py:40-42, main_v0.py:17-18) is library date handling. `formatted_date` is an opaque string.
- The `eval(x)['polarity']` parse of the sentiment field (main_v0.py:30) executes input as code. The model takes the already-extracted polarity.
- The order pandas gives to group keys and columns (sorted) is library behaviour. The model builds them in order of first appearance. `IsPivotOf` and every lemma about it are stated independently of this order.
- `Update`: the date column is held apart from the count columns. If a sentiment value were the string `formatted_date`, pandas `reset_index` would raise; the model does not capture that failure.
- `Update`: the final assignment to `source.data` is modelled as the method's returned table. The Bokeh column data source object is not modelled.
- The selector's option list (main_v0.py:49) and the module-level first pivot (main_v0.py:36) are not separate members. The first pivot is `GroupCount` on the unfiltered table, the same as `Update` with "All".
- All Bokeh rendering, layouts, `curdoc` and the `on_change` wiring (main.py:87-121, main_v0.py:39-46, 74-88) are UI plumbing. The empty `update()` of main.py:102-103 has no behaviour.
- The unused matplotlib, plotly and seaborn imports (main.py:13-16) are not modelled.
- Floating point is not modelled: `High`, `Low` and polarity are only compared, so they are `real`. NaN comparisons are excluded because missing values are filled before the rules run.
