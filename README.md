# dotbot-charts: candle derivation, run gate and publish decision

`generate_chart.py` fetches two days of Polkadot (DOT) prices in USD from
CoinGecko. It turns them into OHLC candles, renders a candlestick chart and
uploads the image to `charts/dot_chart.png` in the GitHub repository
`jkwfung87/dotbot-charts` on branch `main`. This project models the three
rules inside that pipeline and proves what they guarantee:

- **Candle derivation** (`fetch.dfy`, module `Fetch`). This is `fetch_dot_data`.
  The pandas column steps are modelled one by one. `shift(1)` and
  `rolling(2).max()/min()` leave a NaN (`None`) in the first row, and
  `dropna` removes exactly that row. The result is proved equal to an
  independent pairing rule, `PairCandle`, in which each sample is paired with
  the sample before it. Any failure inside the `try` block gives the empty
  table.
- **Publish decision** (`publish.dfy`, module `Publish`). This is `upload_chart`.
  The GET and PUT replies are inputs. The model covers the `sha` lookup and
  when it raises, the payload (branch always `main`, `sha` only when truthy),
  and the report after the PUT (success iff status 200 or 201).
- **Run gate** (`script.dfy`, module `Script`). These are the top-level lines. The run is a
  list of steps: a skip notice, or a render followed by an upload of the
  rendered file. The run publishes iff the fetch succeeded with at least
  two samples.

`optional.dfy` holds the `Option` and `Result` datatypes.

Timestamps are epoch milliseconds (`int`). Converting to Asia/Singapore
changes only the display zone, not the instant, so the order of timestamps is
unchanged. Prices are `real`: they are only copied and compared.

Two behaviours of the script are worth knowing:

- One sample yields an empty table, so the script skips softly rather than
  aborting.
- Publishing can raise. The model covers two of these raises (the others are
  listed under "Left out"):
  - The GET returns 200 with a body that is not a JSON object. This is
    `Publish.NotSent`, and no PUT is issued.
  - A failed PUT returns a body that is not JSON, and the `res.json()` call
    inside the failure message raises. This is `Publish.ReportRaised`.

## Model

| member | source | states |
|---|---|---|
| `Fetch.Shift1` | generate_chart.py:23 | the open column is NaN in the first row and the previous price in every later row |
| `Fetch.RollingMax2` | generate_chart.py:25 | the high column is NaN in the first row, then a value at least both prices of the two-row window and equal to one of them |
| `Fetch.RollingMin2` | generate_chart.py:26 | the low column is NaN in the first row, then a value at most both prices of the window and equal to one of them |
| `Fetch.FrameRowAt` | generate_chart.py:23-26 | row k ≥ 1 of the frame has open = price[k-1], close = price[k], high/low = max/min of the two |
| `Fetch.DropNa` | generate_chart.py:27 | dropna keeps a row iff it has no NaN: every kept row is complete and from the input, every complete input row is kept |
| `Fetch.DropNaAppend` | generate_chart.py:27 | dropna filters row by row: dropping from a concatenation is concatenating the drops, so order is kept |
| `Fetch.Select` | generate_chart.py:28 | each candle keeps its row's timestamp, open, high, low and close, in row order; the price column is dropped |
| `Fetch.DropNaKeepsComplete` | generate_chart.py:27 | dropna leaves a frame without NaN unchanged |
| `Fetch.DropNaDropsFirstRow` | generate_chart.py:23-27 | on the derived frame dropna removes exactly the first row, nothing else |
| `Fetch.SelectPairs` | generate_chart.py:23-28 | the selected columns after dropna are the pairing of each sample with its predecessor |
| `Fetch.DeriveCandles` | generate_chart.py:22-28 | n samples give max(n−1, 0) candles; candle k has timestamp of sample k+1, open = price[k], close = price[k+1], high/low = max/min of the two |
| `Fetch.FetchDotData` | generate_chart.py:16-31 | any failure in the try-block gives the empty table; otherwise n samples give max(n−1, 0) rows |
| `Fetch.EmptyIffFailedOrShort` | generate_chart.py:19-31 | the table is empty iff the fetch failed or returned fewer than two samples |
| `Fetch.CandlesWellFormed` | generate_chart.py:23-26 | every candle has low ≤ open ≤ high, low ≤ close ≤ high, and {high, low} is the set of its window's two prices |
| `Fetch.CandleTimestamps` | generate_chart.py:19-28 | candle timestamps are the sample timestamps from index 1 on, in order; strictly increasing samples give strictly increasing candles |
| `Fetch.WorkedExample` | generate_chart.py:19-28 | prices 10, 12, 11 give (10, 12, 10, 12) at t1 and (12, 12, 11, 11) at t2 |
| `Publish.PriorSha` | generate_chart.py:65-66 | the lookup raises iff status is 200 and the body is not a JSON object; it gives a truthy marker iff the destination has a prior version, and then the body's "sha" |
| `Publish.Truthy` | generate_chart.py:72 | `if sha:` rejects exactly None, False, zero and the empty string, list and dict |
| `Publish.BuildPayload` | generate_chart.py:67-73 | branch is always "main", message and content are carried, and "sha" is present iff the marker is truthy, then equal to it |
| `Publish.ReportPut` | generate_chart.py:74-78 | success iff status is 200 or 201; any other status is a failure carrying that status and the body, or raises iff the body is not JSON |
| `Publish.UploadChart` | generate_chart.py:57-78 | a PUT is issued iff the GET reply is readable; it is an update carrying the found marker iff GET was 200 with a truthy "sha", and it reports success iff the PUT status is 200 or 201 |
| `Publish.CreateWhenAbsent` | generate_chart.py:66-74 | a non-200 GET always leads to a PUT without "sha" (a create) |
| `Publish.UpdateCarriesMarker` | generate_chart.py:66-74 | a 200 GET with a non-empty string "sha" leads to an update carrying exactly that marker |
| `Publish.FailureIsReported` | generate_chart.py:75-78 | a non-success status with a JSON body is reported as a failure with that status and body, not raised |
| `Script.Gate` | generate_chart.py:80-85 | an empty table gives only the skip notice; otherwise exactly a render of the table into dot_chart.png, then an upload of that file to charts/dot_chart.png |
| `Script.Run` | generate_chart.py:80-85 | render and upload happen iff the fetch succeeded with at least two samples; otherwise the run is only the skip notice |
| `Script.OneSampleSkips` | generate_chart.py:80-85 | a single sample gives only the skip notice, no abort |
| `Script.NoSamplesNoWrite` | generate_chart.py:80-85 | zero samples give no chart file and no remote write |

## Left out

- HTTP requests (lines 17, 65, 74) and JSON decoding are network I/O. Their
  outcomes are inputs: `Fetch.Reply` for the market data, and
  `Publish.Response` (status and optional JSON body) for GitHub.
- The URL and header construction (lines 14-15, 60-64) formats fixed
  constants. The destination is fixed, so the model keeps only the repository
  path.
- Chart rendering with plotly and `write_image` (lines 33-55) is an external
  library with a file side effect. It is the `Render` step and carries no
  content.
- File reading and base64 encoding (lines 58-59) are library calls. The
  encoded text is the opaque `content` parameter.
- The commit message (line 68) reads the clock. It is the opaque `message`
  parameter.
- The Asia/Singapore conversion and `strftime` labels (lines 20-21, 34) only
  change how an instant is shown. Timestamps stay as epoch milliseconds.
- Reading `GITHUB_TOKEN` (line 9) reads the environment.
- Fetch.DeriveCandles assumes no price is NaN and no timestamp is null. A
  NaN price would make `dropna` drop that row and the row after it. A null
  timestamp becomes NaT, so `dropna` drops that row, but the next row still
  opens at that sample's price. `Sample.timestamp: int` cannot express NaT.
- Uncaught raises outside the fetch's `try` block are not modelled beyond
  `Publish.NotSent` and `Publish.ReportRaised`:
  - a connection error from `requests.get` (line 65) or `requests.put`
    (line 74). `Publish.Response` always carries a status, so it cannot
    express these;
  - an error from `write_image` (line 53);
  - an error from `open` on the chart file (line 58).
- Which malformed provider entries make pandas raise is not decided by the
  model. Such a reply arrives as the `MalformedEntries` failure.
- The log lines printed at lines 30, 54, 76, 78 and 85 are not modelled
  beyond the `SkipNotice` step and the `Report` value.
