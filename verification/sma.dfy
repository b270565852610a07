/**
 Simple moving averages: a `SimpleMA` point averages six fields over a chunk
 of candle records, and `CalculateSMAForData` slides a window of `n` records
 over a series, starting at offsets `0 .. |data| - n - 1` (the window that
 would end at the last record is not produced).
 */
module SimpleMovingAverage {
  import opened Stats
  import opened Ohlcv

  /** One simple-moving-average point. */
  datatype SimpleMA = SimpleMA(nDays: nat, timestamp: int,
                               typicalPriceMA: real, ohlcMA: real, highMA: real,
                               lowMA: real, openMA: real, closeMA: real)

  /** Every record of the chunk has its fields (none is `Malformed`). */
  predicate AllCandles(chunk: seq<OhlcvData>)
  {
    forall i :: 0 <= i < |chunk| ==> chunk[i].Candle?
  }

  /** The six averaged fields of a candle record. */
  datatype Field = Typical | OhlcAvg | High | Low | Open | Close

  function FieldOf(d: OhlcvData, f: Field): real
    requires d.Candle?
  {
    match f
    case Typical => d.typicalPrice
    case OhlcAvg => d.ohlcAverage
    case High => d.highPrice
    case Low => d.lowPrice
    case Open => d.openPrice
    case Close => d.closePrice
  }

  /** One field of every record of a chunk, in order. */
  function Column(chunk: seq<OhlcvData>, f: Field): (col: seq<real>)
    requires AllCandles(chunk)
    ensures |col| == |chunk|
    ensures forall i :: 0 <= i < |chunk| ==> col[i] == FieldOf(chunk[i], f)
  {
    seq(|chunk|, i requires 0 <= i < |chunk| => FieldOf(chunk[i], f))
  }

  /** The averaged value a point holds for a field. */
  function AverageOf(p: SimpleMA, f: Field): real
  {
    match f
    case Typical => p.typicalPriceMA
    case OhlcAvg => p.ohlcMA
    case High => p.highMA
    case Low => p.lowMA
    case Open => p.openMA
    case Close => p.closeMA
  }

  /** The `SimpleMA` constructor: the chunk must be non-empty (its last record
      gives the timestamp and its length is the divisor) and every record in
      it must have its fields. Each average is the arithmetic mean of its
      field over the chunk. */
  function SimpleMAOf(chunk: seq<OhlcvData>): (p: SimpleMA)
    requires |chunk| > 0 && AllCandles(chunk)
    ensures p.nDays == |chunk| && p.timestamp == chunk[|chunk| - 1].timestamp
    ensures forall f :: AverageOf(p, f) == Mean(Column(chunk, f))
  {
    SimpleMA(|chunk|, chunk[|chunk| - 1].timestamp,
             Mean(Column(chunk, Typical)), Mean(Column(chunk, OhlcAvg)),
             Mean(Column(chunk, High)), Mean(Column(chunk, Low)),
             Mean(Column(chunk, Open)), Mean(Column(chunk, Close)))
  }

  /** Each average of a point lies between the smallest and the largest value
      of that field over the chunk. */
  lemma SimpleMAWithinRange(chunk: seq<OhlcvData>, f: Field)
    requires |chunk| > 0 && AllCandles(chunk)
    ensures Min(Column(chunk, f)) <= AverageOf(SimpleMAOf(chunk), f) <= Max(Column(chunk, f))
  {
    MeanWithin(Column(chunk, f));
  }

  /** Over a chunk whose every close is `c`, the close average is `c`. */
  lemma ConstantCloseAverage(chunk: seq<OhlcvData>, c: real)
    requires |chunk| > 0 && AllCandles(chunk)
    requires forall i :: 0 <= i < |chunk| ==> chunk[i].closePrice == c
    ensures SimpleMAOf(chunk).closeMA == c
  {
    var col := Column(chunk, Close);
    assert AverageOf(SimpleMAOf(chunk), Close) == Mean(col);
    MeanOfConstant(col, c);
  }

  /** The number of points `range(0, len(data) - n)` yields. */
  function SmaCount(len: nat, n: nat): nat
  {
    if len > n then len - n else 0
  }

  /** What `calculateSMAForData` needs to run without an exception: when at
      least one window is taken, windows are non-empty and every record
      they cover (all but the last one) has its fields. */
  predicate SmaInputOk(data: seq<OhlcvData>, n: nat)
  {
    |data| > n ==> n >= 1 && forall j :: 0 <= j < |data| - 1 ==> data[j].Candle?
  }

  /** `p` is the average of the window of `n` records starting at offset `i`,
      and that window ends before the series' last record. */
  predicate IsWindowAverage(data: seq<OhlcvData>, n: nat, i: nat, p: SimpleMA)
  {
    n >= 1 && i + n < |data| && AllCandles(data[i..i + n]) && p == SimpleMAOf(data[i..i + n])
  }

  /** `calculateSMAForData`: point `i` is the average of exactly the window
      `data[i .. i + n]`, stamped with the window's last record; no window
      reaches the series' last record. */
  method CalculateSMAForData(data: seq<OhlcvData>, n: nat) returns (sma: seq<SimpleMA>)
    requires SmaInputOk(data, n)
    ensures |sma| == SmaCount(|data|, n)
    ensures forall i :: 0 <= i < |sma| ==> IsWindowAverage(data, n, i, sma[i])
    ensures forall i :: 0 <= i < |sma| ==>
      sma[i].nDays == n && sma[i].timestamp == data[i + n - 1].timestamp
  {
    sma := [];
    for i := 0 to SmaCount(|data|, n)
      invariant |sma| == i
      invariant forall j :: 0 <= j < i ==> IsWindowAverage(data, n, j, sma[j])
    {
      var chunk := data[i..i + n];
      assert AllCandles(chunk) by {
        forall k | 0 <= k < n ensures chunk[k].Candle? {
          assert chunk[k] == data[i + k];
        }
      }
      sma := sma + [SimpleMAOf(chunk)];
    }
    forall i | 0 <= i < |sma|
      ensures sma[i].nDays == n && sma[i].timestamp == data[i + n - 1].timestamp
    {
      assert IsWindowAverage(data, n, i, sma[i]);
    }
  }
}
