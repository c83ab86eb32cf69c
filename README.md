# Stock charts client: a Dafny model

The client fetches one stock symbol's intraday quotes from a backend once,
when the `App` component mounts, and draws three charts from them: the open
price over time (line), the traded volume over time (bar) and the
open/high/low/close of one observation (pie). While the request is pending
it shows "Loading...", and when the request fails it shows the error.

This project models the two pieces of logic in `src/App.js`:

- `processData` (module `Charts`, file `process_data.dfy`). It is a pure
  reshaping of the `"Time Series (5min)"` object into the line, bar and pie
  chart inputs. The object is a sequence of `(timestamp, record)` entries
  with distinct keys (module `TimeSeries`). `Object.keys`, `Object.values`
  and the property read `series[key]` are all defined on that one
  sequence, so keys and values share one iteration order by construction.
  The timestamp keys are not integer-like, so that order is insertion
  order. `.map` and `.reverse()` are the functions of module `Seqs`.
  `parseFloat` is a parameter of any type `string -> N`, so nothing is
  assumed about floating point. The faults the function raises on a
  malformed body are results, not preconditions: `KeysOfUndefined` when the
  series key is absent (`Object.keys(undefined)`, line 57), and
  `ReadOfUndefined` when the series is empty (a field read on `undefined`,
  line 73).
- The presentation state (module `App`, file `app.dfy`). A class `App`
  holds the three state slots `stockData`, `loading` and `error`.
  `FetchStockData` applies the outcome of the one GET request, which is a
  parameter: a response body or a rejection with a message. `Render` makes
  the render choice of lines 51-52 and 112, and `Session` plays one
  lifetime of the component: first render, fetch, second render.

Three behaviours of the code are easy to misread, and the model keeps
them as written:

- The code does not parse prices and volumes. Lines 59 and 62 keep the
  `"1. open"` and `"5. volume"` strings, so the line and bar datasets hold
  strings. Only the four pie values go through `parseFloat`.
- The pie reads `timeSeries[labels[0]]` after the labels were reversed.
  That is the entry that came last in stored order. `PieSnapshot` states
  exactly that. The backend sends the newest observation first, so this
  is the OLDEST observation of the window, not the latest one that the
  comment at line 65 ("Using the last day's data") and the name
  `lastDayData` suggest; `TwoObservationsCharts` shows it (the pie reads
  09:25, not 09:30). The model keeps the code's choice and leaves this
  open.
- `if (error)` tests JavaScript truthiness. A rejection whose message is
  the empty string therefore shows no error: the component returns the
  chart layout with undefined chart data (`chartData` is `{}`) instead. `Render` and `Session` state this case.

## Model

| member | source | states |
|---|---|---|
| `Seqs.Reverse` | src/App.js:57 | `.reverse()` keeps the length, and element `i` of the result is element `n-1-i` of the input |
| `Seqs.ReverseReverse` | src/App.js:57 | reversing twice gives back the original order |
| `Seqs.Map` | src/App.js:58-59 | `.map(f)` keeps the length, and element `i` of the result is `f` of element `i` |
| `TimeSeries.Keys` | src/App.js:57 | `Object.keys` lists one key per entry, in stored order |
| `TimeSeries.Values` | src/App.js:58 | `Object.values` lists one record per entry, in the same stored order as the keys |
| `TimeSeries.Lookup` | src/App.js:66 | `series[key]` is defined exactly when `key` is one of the object's own keys, and is `undefined` otherwise |
| `TimeSeries.LookupAt` | src/App.js:66 | with distinct keys, reading any entry's own key gives back that entry's record |
| `Charts.ProcessData` | src/App.js:55-110 | over any body, faults with `KeysOfUndefined` exactly when the series key is absent, faults with `ReadOfUndefined` exactly when the series is empty, and succeeds exactly when the series is present and non-empty |
| `Charts.ChartShapes` | src/App.js:83-107 | line and bar charts carry the identical label sequence, one label per observation, and one dataset each ("Stock Price", "Volume") whose data is as long as the labels |
| `Charts.LabelsReverseKeys` | src/App.js:57 | label `i` is the key of stored entry `n-1-i`, and reversing the labels again gives back the key order |
| `Charts.ReversedSeriesAligned` | src/App.js:57-63 | for any series, the reversed keys, opens and volumes are aligned (see `Charts.SeriesAligned`) |
| `Charts.ReversedAt` | src/App.js:57-63 | at index `i`, the reversed keys name the record stored at `n-1-i`, and the reversed opens and volumes are that record's "1. open" and "5. volume" |
| `Charts.SeriesAligned` | src/App.js:57-63 | for every `i`, the series holds under label `i` the record whose "1. open" is price `i` and whose "5. volume" is volume `i`, namely stored entry `n-1-i` |
| `Charts.PieSnapshot` | src/App.js:66-77 | the pie has the labels Open, High, Low, Close in that order and one dataset, "Stock Prices" with its four fixed colours, holding the parsed "1. open", "2. high", "3. low" and "4. close" of the record keyed by the first label, which is the last entry in stored order |
| `Charts.TwoObservationsCharts` | src/App.js:55-110 | on two observations stored 09:30 then 09:25, the labels are 09:25 then 09:30, the prices are "0.9" then "1", the volumes are "90" then "100", and the pie holds the parsed fields of the 09:25 record |
| `App.App.constructor` | src/App.js:32-34 | the initial state: no data, loading, no error |
| `App.App.FetchStockData` | src/App.js:36-45 | a response sets the data and a rejection sets the error to its message; loading ends either way; from the initial state exactly one of data and error ends up set |
| `App.App.Render` | src/App.js:51-112 | loading is shown exactly while loading, regardless of the error; otherwise a truthy error is shown; `processData` runs only on data that has arrived, and the chart layout with undefined chart data is returned exactly when there is neither error nor data |
| `App.Session` | src/App.js:31-52 | the first render shows loading and the render after the fetch never does; a rejection with a non-empty message shows that message; a response shows the charts `processData` builds from it, or the fault it raises |

## Left out

- The HTTP GET through axios (line 38) is not modelled. Its outcome is the `FetchOutcome` parameter: a response body or a rejection message.
- The `await` suspension and React's scheduling of state updates are not modelled. `FetchStockData` applies its updates in one step, so no render can see the data set while `loading` is still true. Because `Render` checks `loading` first, such a render would show the loading message anyway.
- The `useEffect` mount hook (lines 47-49) is not modelled as such. `Session` runs the fetch exactly once, between the first and the second render.
- JSX, the `<Line>`, `<Bar>` and `<Pie>` components (lines 114-130) and the Chart.js registration (lines 19-29) are not modelled. They are UI and foreign library calls. A fault raised by `processData` while rendering becomes the `Crashed` view.
- `parseFloat` (lines 73-76) is an arbitrary function supplied by the caller. Decimal-to-float conversion and NaN are not modelled.
- Only the `"Time Series (5min)"` member of the response body is modelled. A non-object value under that key and records that lack a field or hold non-string values are not modelled: every record has all five fields as strings.
- A falsy response body (`response.data` empty) is not modelled. A response always sets `stockData` to a body.
- A rejection whose `message` is not a string is not modelled.
- TimeSeries.Lookup: properties inherited from `Object.prototype` (`toString`, `constructor`, ...) are not modelled; `series[name]` for such a name is defined in JavaScript but `None` here. Line 66 reads only an own key (`labels[0]`) or, for an empty series, the key `"undefined"`, which no prototype defines, so `processData` is unaffected.
- Integer-like object keys, which JavaScript would enumerate in numeric order, are not modelled. Timestamps never are integer-like.
- The styling literals (colours, border width, tension, `fill`) are copied into the chart datasets as plain fields. Their effect on drawing is not modelled.
