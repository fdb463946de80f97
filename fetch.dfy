/** The fetcher of generate_chart.py (`fetch_dot_data`): one market-chart reply
    becomes a table of OHLC candles, or an empty table when anything in the
    try-block raises.

    The pandas steps are modelled column by column as the script writes them:
    `shift(1)` and `rolling(2)` leave a NaN (here `None`) in their first cell,
    and `dropna` removes every row that holds one. `PairCandle` is the
    independent reading of the same rule (each sample paired with the one
    before it), and `DeriveCandles` is proved to agree with it. */
module Fetch {
  import opened Optional

  /** One entry of the provider's "prices" list: epoch milliseconds and a price. */
  datatype Sample = Sample(timestamp: int, price: real)

  /** One row of the returned table. */
  datatype Candle = Candle(timestamp: int, open: real, high: real, low: real, close: real)

  /** One row of the working frame before `dropna`; `None` stands for NaN. */
  datatype Row = Row(timestamp: int, price: real, open: Option<real>, close: real,
                     high: Option<real>, low: Option<real>)

  /** Why the try-block raised: the request, the JSON decoding, the missing
      "prices" key, or entries that the frame constructor, `to_datetime` or
      `astype(float)` reject. */
  datatype FetchError = RequestFailed | BodyNotJson | NoPricesKey | MalformedEntries

  /** What the provider interaction yields, with every failure collapsed into its cause. */
  type Reply = Result<seq<Sample>, FetchError>

  function Max(a: real, b: real): (m: real)
    ensures m >= a && m >= b && (m == a || m == b)
  {
    if a >= b then a else b
  }

  function Min(a: real, b: real): (m: real)
    ensures m <= a && m <= b && (m == a || m == b)
  {
    if a <= b then a else b
  }

  function Prices(samples: seq<Sample>): (col: seq<real>)
    ensures |col| == |samples|
    ensures forall k :: 0 <= k < |col| ==> col[k] == samples[k].price
  {
    seq(|samples|, k requires 0 <= k < |samples| => samples[k].price)
  }

  function Timestamps(samples: seq<Sample>): (col: seq<int>)
    ensures |col| == |samples|
    ensures forall k :: 0 <= k < |col| ==> col[k] == samples[k].timestamp
  {
    seq(|samples|, k requires 0 <= k < |samples| => samples[k].timestamp)
  }

  /** `Series.shift(1)`: every value moves down one row; the first row becomes NaN. */
  function Shift1(col: seq<real>): (r: seq<Option<real>>)
    ensures |r| == |col|
    ensures |col| > 0 ==> r[0] == None
    ensures forall k :: 0 < k < |col| ==> r[k] == Some(col[k - 1])
  {
    if col == [] then []
    else [None] + seq(|col| - 1, k requires 0 <= k < |col| - 1 => Some(col[k]))
  }

  /** `Series.rolling(2).max()`: NaN until the window holds two values. */
  function RollingMax2(col: seq<real>): (r: seq<Option<real>>)
    ensures |r| == |col|
    ensures |col| > 0 ==> r[0] == None
    ensures forall k :: 0 < k < |col| ==>
      r[k].Some? && r[k].value >= col[k - 1] && r[k].value >= col[k]
      && (r[k].value == col[k - 1] || r[k].value == col[k])
  {
    seq(|col|, k requires 0 <= k < |col| => if k == 0 then None else Some(Max(col[k - 1], col[k])))
  }

  /** `Series.rolling(2).min()`: NaN until the window holds two values. */
  function RollingMin2(col: seq<real>): (r: seq<Option<real>>)
    ensures |r| == |col|
    ensures |col| > 0 ==> r[0] == None
    ensures forall k :: 0 < k < |col| ==>
      r[k].Some? && r[k].value <= col[k - 1] && r[k].value <= col[k]
      && (r[k].value == col[k - 1] || r[k].value == col[k])
  {
    seq(|col|, k requires 0 <= k < |col| => if k == 0 then None else Some(Min(col[k - 1], col[k])))
  }

  /** The frame after the column assignments for open, close, high and low. */
  function Frame(samples: seq<Sample>): (rows: seq<Row>)
    ensures |rows| == |samples|
  {
    var prices := Prices(samples);
    var opens := Shift1(prices);
    var highs := RollingMax2(prices);
    var lows := RollingMin2(prices);
    seq(|samples|, k requires 0 <= k < |samples| =>
      Row(samples[k].timestamp, prices[k], opens[k], prices[k], highs[k], lows[k]))
  }

  predicate Complete(row: Row) {
    row.open.Some? && row.high.Some? && row.low.Some?
  }

  /** `DataFrame.dropna()`: keeps, in order, exactly the rows without a NaN. */
  function DropNa(rows: seq<Row>): (kept: seq<Row>)
    ensures |kept| <= |rows|
    ensures forall k :: 0 <= k < |kept| ==> Complete(kept[k])
    ensures forall r :: r in kept ==> r in rows
    ensures forall r :: r in rows && Complete(r) ==> r in kept
  {
    if rows == [] then []
    else if Complete(rows[0]) then [rows[0]] + DropNa(rows[1..])
    else DropNa(rows[1..])
  }

  /** `dropna` filters row by row, so it keeps the input's order: dropping
      from a concatenation is concatenating the drops. */
  lemma {:induction false} DropNaAppend(a: seq<Row>, b: seq<Row>)
    ensures DropNa(a + b) == DropNa(a) + DropNa(b)
  {
    if a == [] {
      assert a + b == b;
    } else {
      assert (a + b)[0] == a[0];
      assert (a + b)[1..] == a[1..] + b;
      DropNaAppend(a[1..], b);
    }
  }

  /** `df[["timestamp", "open", "high", "low", "close"]]` on rows without NaN:
      row for row, the candle keeps the timestamp and the four OHLC cells and
      drops the `price` column. */
  function Select(rows: seq<Row>): (table: seq<Candle>)
    requires forall k :: 0 <= k < |rows| ==> Complete(rows[k])
    ensures |table| == |rows|
    ensures forall k :: 0 <= k < |rows| ==>
      && table[k].timestamp == rows[k].timestamp
      && Some(table[k].open) == rows[k].open
      && Some(table[k].high) == rows[k].high
      && Some(table[k].low) == rows[k].low
      && table[k].close == rows[k].close
  {
    seq(|rows|, k requires 0 <= k < |rows| && Complete(rows[k]) =>
      Candle(rows[k].timestamp, rows[k].open.value, rows[k].high.value, rows[k].low.value, rows[k].close))
  }

  /** The pairing rule: the candle that `cur` closes, opened by `prev`. */
  function PairCandle(prev: Sample, cur: Sample): Candle {
    Candle(cur.timestamp, prev.price, Max(prev.price, cur.price), Min(prev.price, cur.price), cur.price)
  }

  /** A candle whose range contains its open and its close. */
  predicate WellFormed(c: Candle) {
    c.low <= c.open <= c.high && c.low <= c.close <= c.high
  }

  predicate StrictlyIncreasing(s: seq<int>) {
    forall i, j :: 0 <= i < j < |s| ==> s[i] < s[j]
  }

  lemma {:induction false} DropNaKeepsComplete(rows: seq<Row>)
    requires forall k :: 0 <= k < |rows| ==> Complete(rows[k])
    ensures DropNa(rows) == rows
  {
    if rows != [] {
      DropNaKeepsComplete(rows[1..]);
    }
  }

  /** On the frame of lines 23-26 `dropna` removes exactly the first row. */
  lemma {:induction false} DropNaDropsFirstRow(samples: seq<Sample>)
    ensures DropNa(Frame(samples)) == if samples == [] then [] else Frame(samples)[1..]
  {
    var rows := Frame(samples);
    if rows != [] {
      assert !Complete(rows[0]);
      assert forall k :: 0 <= k < |rows[1..]| ==> Complete(rows[1..][k]) by {
        forall k | 0 <= k < |rows[1..]| ensures Complete(rows[1..][k]) {
          assert rows[1..][k] == rows[k + 1];
        }
      }
      DropNaKeepsComplete(rows[1..]);
    }
  }

  /** Row `k >= 1` of the frame holds sample `k` with its window `k - 1 .. k`. */
  lemma FrameRowAt(samples: seq<Sample>, k: int)
    requires 0 < k < |samples|
    ensures Frame(samples)[k] == Row(samples[k].timestamp, samples[k].price, Some(samples[k - 1].price),
      samples[k].price, Some(Max(samples[k - 1].price, samples[k].price)),
      Some(Min(samples[k - 1].price, samples[k].price)))
  {
  }

  /** After `dropna` and the column selection, the frame is the pairing of
      adjacent samples. */
  lemma {:induction false} SelectPairs(samples: seq<Sample>)
    ensures |Select(DropNa(Frame(samples)))| == if samples == [] then 0 else |samples| - 1
    ensures forall k :: 0 <= k < |Select(DropNa(Frame(samples)))| ==>
      Select(DropNa(Frame(samples)))[k] == PairCandle(samples[k], samples[k + 1])
  {
    DropNaDropsFirstRow(samples);
    var table := Select(DropNa(Frame(samples)));
    forall k | 0 <= k < |table| ensures table[k] == PairCandle(samples[k], samples[k + 1]) {
      FrameRowAt(samples, k + 1);
    }
  }

  /** The candle derivation of lines 22-28: `n - 1` candles for `n >= 1`
      samples, candle `k` being sample `k + 1` paired with sample `k`. */
  function DeriveCandles(samples: seq<Sample>): (table: seq<Candle>)
    ensures |table| == if samples == [] then 0 else |samples| - 1
    ensures forall k :: 0 <= k < |table| ==> table[k] == PairCandle(samples[k], samples[k + 1])
  {
    SelectPairs(samples);
    Select(DropNa(Frame(samples)))
  }

  /** `fetch_dot_data`: the derived table, or the empty frame when the
      try-block raised. */
  function FetchDotData(reply: Reply): (table: seq<Candle>)
    ensures reply.Err? ==> table == []
    ensures reply.Ok? ==> |table| == if reply.value == [] then 0 else |reply.value| - 1
  {
    match reply
    case Err(_) => []
    case Ok(samples) => DeriveCandles(samples)
  }

  /** The table is empty exactly when the fetch failed or gave fewer than two samples. */
  lemma EmptyIffFailedOrShort(reply: Reply)
    ensures FetchDotData(reply) == [] <==> reply.Err? || |reply.value| < 2
  {
  }

  /** Every candle lies within its own high/low range, and high/low are the
      two prices of its window. */
  lemma {:induction false} CandlesWellFormed(samples: seq<Sample>)
    ensures forall c :: c in DeriveCandles(samples) ==> WellFormed(c) && c.low <= c.high
    ensures forall k :: 0 <= k < |DeriveCandles(samples)| ==>
      var c := DeriveCandles(samples)[k];
      {c.high, c.low} == {samples[k].price, samples[k + 1].price}
  {
    var table := DeriveCandles(samples);
    forall c | c in table ensures WellFormed(c) && c.low <= c.high {
      var k :| 0 <= k < |table| && table[k] == c;
      assert c == PairCandle(samples[k], samples[k + 1]);
    }
  }

  /** Candle timestamps are the sample timestamps from index 1 on, in order;
      strictly increasing samples give strictly increasing candles. */
  lemma {:induction false} CandleTimestamps(samples: seq<Sample>)
    ensures samples != [] ==> CandleTimes(DeriveCandles(samples)) == Timestamps(samples)[1..]
    ensures StrictlyIncreasing(Timestamps(samples)) ==>
      StrictlyIncreasing(CandleTimes(DeriveCandles(samples)))
  {
    var table := DeriveCandles(samples);
    assert forall k :: 0 <= k < |table| ==> table[k].timestamp == samples[k + 1].timestamp;
  }

  function CandleTimes(table: seq<Candle>): (col: seq<int>)
    ensures |col| == |table|
    ensures forall k :: 0 <= k < |col| ==> col[k] == table[k].timestamp
  {
    seq(|table|, k requires 0 <= k < |table| => table[k].timestamp)
  }

  /** Prices 10, 12, 11 give (open 10, high 12, low 10, close 12) at t1 and
      (open 12, high 12, low 11, close 11) at t2. */
  lemma WorkedExample(t0: int, t1: int, t2: int)
    ensures FetchDotData(Ok([Sample(t0, 10.0), Sample(t1, 12.0), Sample(t2, 11.0)]))
      == [Candle(t1, 10.0, 12.0, 10.0, 12.0), Candle(t2, 12.0, 12.0, 11.0, 11.0)]
  {
    var samples := [Sample(t0, 10.0), Sample(t1, 12.0), Sample(t2, 11.0)];
    var table := FetchDotData(Ok(samples));
    assert table == DeriveCandles(samples);
    assert table[0] == PairCandle(samples[0], samples[1]);
    assert table[1] == PairCandle(samples[1], samples[2]);
  }
}
