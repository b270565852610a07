/**
 The signal assembler: both moving averages over the same series, each with
 a period of 10 records.
 */
module Signals {
  import opened Ohlcv
  import opened SimpleMovingAverage
  import opened ExponentialMovingAverage

  /** The period `findTradingSignals` uses for both averages. */
  const SignalPeriod: nat := 10

  /** `findTradingSignals`: the SMA and EMA series of `data`. Both have one
      point per record after the first ten; SMA point `i` is stamped with
      `data[i + 9]` and EMA point `i` with `data[i + 10]`. */
  method FindTradingSignals(data: seq<OhlcvData>) returns (maList: seq<SimpleMA>, emaList: seq<ExponentialMA>)
    requires SmaInputOk(data, SignalPeriod) && EmaInputOk(data, SignalPeriod)
    ensures |maList| == SmaCount(|data|, SignalPeriod)
    ensures forall i :: 0 <= i < |maList| ==> IsWindowAverage(data, SignalPeriod, i, maList[i])
    ensures emaList == EmaSeries(data, SignalPeriod)
    ensures |emaList| == |maList|
    ensures forall i :: 0 <= i < |maList| ==>
      maList[i].timestamp == data[i + SignalPeriod - 1].timestamp
      && emaList[i].timestamp == data[i + SignalPeriod].timestamp
  {
    maList := CalculateSMAForData(data, SignalPeriod);
    emaList := CalculateEMAForData(data, SignalPeriod);
    EmaSeriesShape(data, SignalPeriod);
  }

  /** Over a series whose every close is `c`, every SMA close average and
      every EMA value is `c` (for any period `n >= 2`). */
  lemma FlatSeries(data: seq<OhlcvData>, n: nat, c: real)
    requires n >= 2 && |data| >= 1 && AllCandles(data)
    requires forall i :: 0 <= i < |data| ==> data[i].closePrice == c
    ensures SmaInputOk(data, n) && EmaInputOk(data, n)
    ensures forall i: nat, p :: IsWindowAverage(data, n, i, p) ==> p.closeMA == c
    ensures forall j :: 0 <= j < |EmaSeries(data, n)| ==> EmaSeries(data, n)[j].ema == c
  {
    var seedWindow, tail := SeedWindow(data, n), Tail(data, n);
    assert AllCandles(seedWindow) by {
      forall i | 0 <= i < |seedWindow| ensures seedWindow[i].Candle? { assert seedWindow[i] == data[i]; }
    }
    assert AllCandles(tail) by {
      forall i | 0 <= i < |tail| ensures tail[i].Candle? { assert tail[i] == data[n + i]; }
    }
    forall i: nat, p | IsWindowAverage(data, n, i, p) ensures p.closeMA == c {
      var window := data[i..i + n];
      assert forall k :: 0 <= k < |window| ==> window[k] == data[i + k];
      ConstantCloseAverage(window, c);
    }
    assert forall k :: 0 <= k < |seedWindow| ==> seedWindow[k] == data[k];
    ConstantCloseAverage(seedWindow, c);
    assert forall k :: 0 <= k < |tail| ==> tail[k] == data[n + k];
    EmaChainWithin(tail, Seed(data, n), n, c, c);
  }
}
