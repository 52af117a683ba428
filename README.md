# LoRa transmission dashboard: the data-shaping core

The system records LoRa test transmissions, sent with a `standard` or an
`enhanced` source, in a SQLite database and shows them on a web dashboard.
This project models the parts of it that shape data. It proves properties
of that model.

- **Category axes and series** (`webserver/static/script.js`). `updateCharts`
  builds the spreading-factor and bandwidth charts. Each axis is the
  distinct keys of a metrics list in ascending order. Each series holds the
  value of the first matching record per axis entry, or null when no record
  matches. Labels read `SF<sf>` and `<bw/1000> kHz`. The shared routine
  `updateChart` draws its axis from the standard and enhanced records only.
  Its four datasets are RSSI then data rate.
- **Chart handles**. Each chart is created once. Later refreshes overwrite
  only its labels and dataset data, then request a redraw.
- **Stats refresher** (`updateStats`).
  - The per-source cards show the latest standard or enhanced row.
  - The average cards divide the sums by the row count. A null or 0 value
    adds 0 to the sum but still counts as a row.
  - The transmissions table is rebuilt from empty, one row per record.
  - Every table row gets the failed-transmission test and its source style.
  - The defaults are `standard` for a missing source and 1.0 for a missing
    compression ratio.
  - JavaScript reads null as 0 in `<=`. Formatting a null average with
    `toFixed` throws, which stops the refresh where it stands; this is
    modelled.
- **Time-series grouping** (`webserver/application.py`, `get_timeseries`).
  It keeps each timestamp once, in order of first occurrence. Each row's
  five readings go onto the lists of its source.
- **Ingest defaults** (`add_transmission`). These are the twelve INSERT
  parameters. Ten keys are required, and the first missing one is the error.
  `source` defaults to `standard` and `compressionRatio` to 1.0.

Modules:
- `Common`: Option, Result and the two source names.
- `Labels`: the label text and its inverse.
- `CategoryAxis`: the sorted distinct keys.
- `CategorySeries`: lookups, columns and datasets for both chart routines.
- `Stats`: averages, cards and table rows.
- `Dashboard`: the `Chart` and `Dashboard` classes, which hold the mutable
  page state.
- `Timeseries`: the grouping loop.
- `Ingest`: the INSERT parameters.

Nullability follows the table definition in `webserver/setup_db.py`:
- `source`, `sf`, `bw` and `type` are NOT NULL.
- The readings and averages are nullable, so they are `Option<real>`.

Calls to the outside world are replaced by inputs:
- The JSON a `fetch` returns becomes the method parameters.
- The query result is a sequence of rows.

## Model

| member | source | states |
|---|---|---|
| CategoryAxis.Insert | webserver/static/script.js:126 | adding one key to a strictly increasing axis keeps it strictly increasing, adds that key and nothing else, and grows it by at most one |
| CategoryAxis.SortedDistinct | webserver/static/script.js:126 | the axis is strictly increasing (ascending, no duplicates), holds exactly the keys that occur, and is no longer than the key list |
| CategoryAxis.StrictlyIncreasingUnique | webserver/static/script.js:126 | two strictly increasing sequences with the same elements are equal, so folding keys in gives the same axis as building a set and sorting it |
| CategoryAxis.SortedDistinctBySet | webserver/static/script.js:126 | the axis depends only on which keys occur, not on their order or repetition |
| CategorySeries.Find | webserver/static/script.js:128-129 | `find` returns nothing exactly when no record has that key and source; otherwise it returns a record of the list with that key and source |
| CategorySeries.FindIsFirst | webserver/static/script.js:128-129 | when record j is the first with the key and source, `find` returns record j |
| CategorySeries.Column | webserver/static/script.js:127-142 | a series has one entry per axis entry |
| CategorySeries.ColumnAt | webserver/static/script.js:128-129 | series entry i is null when no record has key axis[i] and the source, and is the metric of the first such record otherwise |
| CategorySeries.ChartDatasets | webserver/static/script.js:127-142 | the four datasets of an `updateCharts` chart each have the axis's length (same for the bandwidth chart, 205-220) |
| CategorySeries.AxisLabels | webserver/static/script.js:150 | one label per axis entry (also 228 for the bandwidth chart) |
| CategorySeries.AxisIsSortedKeySet | webserver/static/script.js:204 | the axis is strictly increasing and holds k exactly when some record has key k; no longer than the record list (also 126) |
| CategorySeries.AxisLabelsFaithful | webserver/static/script.js:228 | each label reads back as its axis entry, and labels of a strictly increasing axis are pairwise distinct (also 150) |
| CategorySeries.OfSource | webserver/static/script.js:288-289 | `filter` keeps exactly the records of that source and is no longer than its input |
| CategorySeries.OfSourceConcat | webserver/static/script.js:288-289 | filtering distributes over concatenation |
| CategorySeries.OfSourceSkips | webserver/static/script.js:288-289 | a record of another source, inserted anywhere, does not change the filtered list |
| CategorySeries.KeyColumn | webserver/static/script.js:303-306 | an `updateChart` series has one entry per axis entry |
| CategorySeries.FindKeyOfSource | webserver/static/script.js:304-305 | `find` by key on the filtered list equals `find` by key and source on the whole list |
| CategorySeries.KeyColumnIsColumn | webserver/static/script.js:302-324 | an `updateChart` series equals the `updateCharts` series of the same source, metric and axis |
| CategorySeries.SharedDatasets | webserver/static/script.js:302-324 | the four datasets of `updateChart` each have the shared axis's length |
| CategorySeries.KeyOfSource | webserver/static/script.js:295 | k is among the keys of a source's records exactly when some record of that source has key k |
| CategorySeries.OtherSourceIgnored | webserver/static/script.js:288-297 | a record whose source is neither standard nor enhanced, inserted anywhere, changes neither the shared axis nor any of the four series |
| CategorySeries.SharedAxisOfKnownSources | webserver/static/script.js:295-296 | when every record is standard or enhanced, the shared axis equals the `updateCharts` axis |
| CategorySeries.DatasetOrders | webserver/static/script.js:302-324 | with only standard and enhanced records, datasets 2 and 3 of `updateChart` equal datasets 0 and 1 of `updateCharts`; for SF, its datasets 0 and 1 also equal datasets 2 and 3 |
| CategorySeries.SpreadingFactorExample | webserver/static/script.js:126-150 | standard and enhanced records at SF 7 give the single label `SF7` and one data-rate value per series |
| CategorySeries.MissingValueExample | webserver/static/script.js:128-129 | a key seen only for enhanced gives a null standard entry; a record of another source is on the `updateCharts` axis with nulls in every series, and the `updateChart` axis is empty |
| Labels.ParseNatRoundTrip | webserver/static/script.js:150 | decimal text of a natural number parses back to it |
| Labels.ParseIntRoundTrip | webserver/static/script.js:150 | decimal text of an integer, with its sign, parses back to it |
| Labels.SfLabelRoundTrip | webserver/static/script.js:150 | `SF<sf>` reads back as sf |
| Labels.SfLabelInjective | webserver/static/script.js:150 | different spreading factors give different labels |
| Labels.DotIndexSkipsDigits | webserver/static/script.js:228 | the decimal point of an integer part followed by a fraction is found after the integer part |
| Labels.FractionRoundTrip | webserver/static/script.js:228 | a nonzero remainder in thousandths is written as `.` and its digits without trailing zeros, and reads back as the remainder |
| Labels.UnsignedRoundTrip | webserver/static/script.js:228 | the text of m/1000 reads back as m |
| Labels.ThousandthsRoundTrip | webserver/static/script.js:228 | the text of v/1000, negative values included, reads back as v |
| Labels.BwLabelRoundTrip | webserver/static/script.js:228 | `<bw/1000> kHz` reads back as bw |
| Labels.BwLabelInjective | webserver/static/script.js:228 | different bandwidths give different labels |
| Labels.LabelExamples | webserver/static/script.js:228 | `SF7`, `SF12`, `125 kHz`, `62.5 kHz` and `7.8 kHz` for the usual LoRa settings (also 150) |
| Stats.Contribution | webserver/static/script.js:33-34 | `if (v) total += v` adds the value, and adds nothing when it is null (adding a 0 is the same) |
| Stats.AverageCards | webserver/static/script.js:51-56 | no average exists exactly when there are no rows; otherwise average times the row count equals the total, for data rate and for latency |
| Stats.MissingCountsAsZero | webserver/static/script.js:33-35 | replacing every null by 0 changes neither the totals nor the averages: a null still counts as a row |
| Stats.TotalDataRateWithin | webserver/static/script.js:33 | when every row reports a data rate in [lo, hi], the total lies between lo and hi times the row count |
| Stats.AverageDataRateWithin | webserver/static/script.js:52 | when there is a row and every row reports a data rate in [lo, hi], so does the average data rate |
| Stats.AverageExample | webserver/static/script.js:31-57 | 100 and 200 bps with 10 and 30 ms average to 150 bps and 20 ms |
| Stats.ThrowSticks | webserver/static/script.js:37-46 | once a source row has thrown, later rows change nothing |
| Stats.ShowSourceRowsSpec | webserver/static/script.js:37-46 | the loop throws exactly when some standard or enhanced row has a null average; otherwise each card shows the latest row of its source, or what it showed before when there is none |
| Stats.RowOf | webserver/static/script.js:82-102 | a row is failed exactly when RSSI is at most -120, SNR at most 0 and data rate at most 0; failed rows get the failed style; other rows get the enhanced style exactly when the source is enhanced; an empty source reads `standard`; a null or zero compression reads 1.0 |
| Stats.IncompleteSticks | webserver/static/script.js:79-105 | once a record has thrown, later records add no rows |
| Stats.RenderTable | webserver/static/script.js:78-105 | the body never has more rows than records, and it is complete exactly when it has one row per record |
| Stats.RenderTableRow | webserver/static/script.js:79-102 | row i of the body is the rendered row of record i, which has all four averages |
| Stats.RenderTableStops | webserver/static/script.js:96-99 | an incomplete body stops at a record that has a null average |
| Stats.RenderTableRows | webserver/static/script.js:79-102 | every row of the body is the rendered row of the record at the same position |
| Stats.RenderTableComplete | webserver/static/script.js:78-105 | the body is complete exactly when every record has all four averages |
| Dashboard.Chart.constructor | webserver/static/script.js:147-150 | a new chart holds the given labels and datasets and has no redraws |
| Dashboard.Chart.Redraw | webserver/static/script.js:200 | `chart.update()` changes neither labels nor data |
| Dashboard.Chart.UpdateChart | webserver/static/script.js:286-360 | labels become the shared-axis labels; datasets 0-3 become the shared datasets; any further datasets and their count are unchanged; one redraw |
| Dashboard.Dashboard.constructor | webserver/static/script.js:2-3 | the page starts with no chart handles, blank cards and an empty table |
| Dashboard.Dashboard.UpdateCharts | webserver/static/script.js:145-201 | a missing chart is created (fresh, no redraw); an existing handle is kept and redrawn once; either way its labels and datasets are those of the new snapshot, so each dataset has one value per label (the class invariant); cards and table are untouched (bandwidth chart: 223-279) |
| Dashboard.ShowChart | webserver/static/script.js:145-201 | with no handle a fresh chart holding the labels and four datasets, with no redraw; otherwise the same handle with labels and datasets 0-3 overwritten and one more redraw (bandwidth chart: 223-279) |
| Dashboard.ChartsCreatedOnce | webserver/static/script.js:145 | two refreshes from a fresh page create each chart once and redraw it once (also 193, 223, 271) |
| Dashboard.Dashboard.UpdateStats | webserver/static/script.js:26-105 | cards as the source-row loop leaves them; on a throw nothing after it changes; otherwise averages are written when there is a row and the table becomes the rendered body |
| Dashboard.Dashboard.ShowSources | webserver/static/script.js:26-48 | the loop's cards and throw flag; with no throw, the totals and a count equal to the number of rows |
| Dashboard.Dashboard.RebuildTable | webserver/static/script.js:77-105 | the body is rebuilt from empty to the rendered body; other state is untouched |
| Dashboard.StatsRefreshKeepsOneRowPerRecord | webserver/static/script.js:78-105 | two refreshes from the same well-formed snapshot leave exactly one row per record, not two |
| Timeseries.Timestamps | webserver/application.py:215-217 | one timestamp per row |
| Timeseries.Dedup | webserver/application.py:219-220 | the timestamps list has no duplicates, holds exactly the timestamps that occur, and is no longer than the rows |
| Timeseries.DedupKeepsFirstOccurrenceOrder | webserver/application.py:219-220 | timestamps are listed in order of first occurrence: every occurrence of a later one comes after an occurrence of each earlier one |
| Timeseries.DedupAscending | webserver/application.py:190 | rows ordered by timestamp give a strictly ascending timestamps list |
| Timeseries.Selected | webserver/application.py:223 | no more rows of a source than rows |
| Timeseries.SelectedMembers | webserver/application.py:223 | the rows of a source are exactly the input rows with that source |
| Timeseries.SelectedConcat | webserver/application.py:223 | selecting a source distributes over concatenation |
| Timeseries.GetTimeseries | webserver/application.py:196-236 | timestamps are the deduplicated row timestamps, so every row's timestamp appears once, including rows of unknown source; each source's lists are what appending its rows builds; empty input gives all-empty output |
| Timeseries.ProjectionSpec | webserver/application.py:223-234 | each of a source's five lists has one entry per row of that source, and entry i is that field of the source's i-th row |
| Timeseries.ProjectBySelected | webserver/application.py:223-234 | a source's lists depend only on the rows of that source |
| Timeseries.OtherSourceAddsNothing | webserver/application.py:223-234 | a row of another source, inserted anywhere, leaves a source's lists unchanged |
| Ingest.Lookup | webserver/application.py:36-38 | the subscripts succeed exactly when every key is present, yielding the values in order; otherwise the error names a missing key with every earlier key present |
| Ingest.Parameters | webserver/application.py:31-39 | a non-object body fails; a missing key is reported as the first absent one; otherwise the required values in order, then `source` (the stored value when present, `standard` when absent) and `compressionRatio` (the stored value when present, 1.0 when absent) |
| Ingest.InsertParameters | webserver/application.py:31-39 | twelve parameters: the ten required fields in order, then `source` (the body's value when the key is present, `standard` when it is absent) and `compressionRatio` (the body's value when present, 1.0 when absent); the error case exactly when the body is not an object or lacks a required key, and then it names the first required key, in tuple order, that is absent |
| Ingest.DefaultsExample | webserver/application.py:38 | a body without `source` or `compressionRatio` is stored as `standard` with ratio 1.0 |
| Ingest.MissingKeyExample | webserver/application.py:36-38 | a body lacking only `latency` is refused with that key |

## Left out

- The time-series chart refresher `updateTimeSeriesCharts` (script.js 363 onward) is not part of this model.
- The reception cards (script.js 15-23) and the comparison cards (59-74) are single guarded writes of a formatted value. They are not part of this model.
- The call to `updateChart` at the end of `updateStats` (script.js 108-113) is not modelled. `/api/stats` returns no `sf_metrics` or `bw_metrics`, so the call throws inside the `try` and changes nothing. It would change something only if those fields existed. `Dashboard.Chart.UpdateChart` models the routine itself, and `CategorySeries.DatasetOrders` states which of its datasets agree with those of `updateCharts`.
- `Dashboard.Chart.UpdateChart`: requires at least four datasets. Every chart the page creates has four; with fewer, JavaScript would throw at the first missing dataset.
- `fetch`, JSON decoding, `setInterval` polling and a response arriving after a newer one are network and timer plumbing. The snapshots are parameters.
- DOM lookups, HTML templating, CSS class names and the Chart.js options (colours, titles, `hidden`, `beginAtZero`) are presentation. A chart is its labels, its dataset data and a redraw counter, and a row style is an enumeration.
- `Stats.RowOf`: keeps the numbers as values, not their `toFixed` text. It keeps the timestamp raw instead of its `toLocaleString` text. Floating-point and locale formatting are outside the model.
- The `console.error` logging in the `catch` blocks (script.js 115-117, 281-283) is not modelled. In `Dashboard.Dashboard.UpdateStats` a throw ends the refresh where it stands and returns `completed == false`; the log line itself is output only.
- Averages are exact rational arithmetic, not IEEE doubles. NaN and rounding are not modelled.
- The source cards and the table body are assumed to exist in the page. Their `getElementById` guards (script.js 39, 43) always pass.
- `Labels.BwLabel`: writes bw/1000 as exact decimal text. JavaScript prints the same text for integer bandwidths below 10^15 in absolute value; beyond that the double quotient may print a rounded value, which is not modelled.
- All SQL (AVG, GROUP BY, the WHERE and ORDER BY clauses, NOT NULL constraints), Flask routing, `sqlite3` connections and `jsonify` are database and framework calls. Their results are the input sequences.
- `Ingest.InsertParameters`: gives the parameters, not the stored row. A null `source` passed through this way is rejected by the NOT NULL constraint in the database; that constraint is not modelled.
- `Timeseries.Row`: takes the timestamp as never null. The column is nullable, but `add_transmission` never names it in its INSERT (application.py 31-34), so its default `CURRENT_TIMESTAMP` always fills it.
- `Timeseries.DedupAscending`: orders TEXT timestamps by character, as SQLite with the default BINARY collation does. Character order equals UTF-8 byte order for Unicode scalar values.
- `webserver/setup_db.py` (table creation and CSV export) is file and database I/O. Only its column nullability is used, to choose `Option` types.
