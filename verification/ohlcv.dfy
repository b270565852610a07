/**
 The OHLCV normalizer: a raw block `[ms, open, high, low, close, volume]`
 from the exchange becomes an `OhlcvData` record carrying two derived prices.
 A block of any other length gives a record without fields (`Malformed`),
 and that record is still kept in the transformed series.
 */
module Ohlcv {
  import Stats

  /** A raw block: the Unix millisecond timestamp at position 0, then the
      remaining numeric fields (open, high, low, close, volume when well formed). */
  datatype Row = Row(stamp: int, fields: seq<real>)

  /** The number of fields of a raw block, the timestamp included. */
  function Arity(row: Row): nat
  {
    1 + |row.fields|
  }

  /** One candle record. `Malformed` is the object the constructor leaves
      without attributes when the block does not have six fields. */
  datatype OhlcvData =
    | Candle(timestamp: int, openPrice: real, highPrice: real, lowPrice: real,
             closePrice: real, typicalPrice: real, ohlcAverage: real, volume: real)
    | Malformed

  /** Typical price: the mean of high, low and close. */
  function TypicalPrice(high: real, low: real, close: real): (p: real)
    ensures p == Stats.Mean([high, low, close])
    ensures (low <= p || high <= p || close <= p) && (p <= low || p <= high || p <= close)
  {
    assert [high, low, close][..2] == [high, low];
    assert [high, low][..1] == [high];
    assert Stats.Sum([high]) == high;
    assert Stats.Sum([high, low]) == high + low;
    assert Stats.Sum([high, low, close]) == high + low + close;
    (high + low + close) / 3.0
  }

  /** OHLC average: the mean of open, high, low and close. */
  function OhlcAverage(open: real, high: real, low: real, close: real): (p: real)
    ensures p == Stats.Mean([open, high, low, close])
    ensures (open <= p || high <= p || low <= p || close <= p)
    ensures (p <= open || p <= high || p <= low || p <= close)
  {
    assert [open, high, low, close][..3] == [open, high, low];
    assert [open, high, low][..2] == [open, high];
    assert [open, high][..1] == [open];
    assert Stats.Sum([open]) == open;
    assert Stats.Sum([open, high]) == open + high;
    assert Stats.Sum([open, high, low]) == open + high + low;
    assert Stats.Sum([open, high, low, close]) == open + high + low + close;
    (open + high + low + close) / 4.0
  }

  /** The record built from one raw block (the `OhlcvData` constructor). */
  function FromRawBlock(row: Row): (d: OhlcvData)
    ensures d.Candle? <==> Arity(row) == 6
    ensures d.Candle? ==>
      && d.timestamp == row.stamp
      && d.openPrice == row.fields[0] && d.highPrice == row.fields[1]
      && d.lowPrice == row.fields[2] && d.closePrice == row.fields[3]
      && d.volume == row.fields[4]
      && d.typicalPrice == TypicalPrice(d.highPrice, d.lowPrice, d.closePrice)
      && d.ohlcAverage == OhlcAverage(d.openPrice, d.highPrice, d.lowPrice, d.closePrice)
  {
    if Arity(row) != 6 then Malformed
    else
      var f := row.fields;
      Candle(row.stamp, f[0], f[1], f[2], f[3],
             TypicalPrice(f[1], f[2], f[3]), OhlcAverage(f[0], f[1], f[2], f[3]), f[4])
  }

  /** The raw block a candle record was read from. */
  function ToRawBlock(d: OhlcvData): Row
    requires d.Candle?
  {
    Row(d.timestamp, [d.openPrice, d.highPrice, d.lowPrice, d.closePrice, d.volume])
  }

  /** A candle whose derived prices are those its four prices determine. */
  predicate Consistent(d: OhlcvData)
  {
    d.Candle? &&
    d.typicalPrice == TypicalPrice(d.highPrice, d.lowPrice, d.closePrice) &&
    d.ohlcAverage == OhlcAverage(d.openPrice, d.highPrice, d.lowPrice, d.closePrice)
  }

  /** A six-field block survives normalization unchanged, and a consistent
      record is exactly what its own block normalizes to. */
  lemma RawBlockRoundTrip(row: Row, d: OhlcvData)
    requires Arity(row) == 6
    requires Consistent(d)
    ensures Consistent(FromRawBlock(row)) && ToRawBlock(FromRawBlock(row)) == row
    ensures FromRawBlock(ToRawBlock(d)) == d
  {
  }

  /** For a block whose low is the lowest and whose high is the highest of its
      four prices, both derived prices lie within [low, high]. */
  lemma DerivedPricesWithinRange(row: Row)
    requires Arity(row) == 6
    requires row.fields[2] <= row.fields[0] <= row.fields[1]
    requires row.fields[2] <= row.fields[3] <= row.fields[1]
    ensures var d := FromRawBlock(row);
      d.lowPrice <= d.typicalPrice <= d.highPrice && d.lowPrice <= d.ohlcAverage <= d.highPrice
  {
  }

  /** `_transformRawOhlcvData`: one record per raw block, in order, malformed
      blocks kept as `Malformed` records. */
  method TransformRawOhlcvData(data: seq<Row>) returns (records: seq<OhlcvData>)
    ensures |records| == |data|
    ensures forall i :: 0 <= i < |data| ==> records[i] == FromRawBlock(data[i])
    ensures forall i :: 0 <= i < |data| ==> (records[i].Malformed? <==> Arity(data[i]) != 6)
  {
    records := [];
    for i := 0 to |data|
      invariant |records| == i
      invariant forall j :: 0 <= j < i ==> records[j] == FromRawBlock(data[j])
    {
      records := records + [FromRawBlock(data[i])];
    }
  }
}
