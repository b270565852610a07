/**
 Exponential moving averages. The smoothing constant is `2 / (n + 1)`
 rounded to four decimals; the chain is seeded with the close average of
 the first `n - 1` records (Python's `data[0:n-1]`) and then runs left to
 right over `data[n:]`, so the record at index `n - 1` is never read.
 */
module ExponentialMovingAverage {
  import opened Stats
  import opened Ohlcv
  import opened SimpleMovingAverage

  function Abs(x: int): nat
  {
    if x < 0 then -x else x
  }

  /** `u / 10000` is nearest to `2 / (n + 1)` among multiples of 0.0001,
      an exact tie going to the even neighbour (Python's `round(x, 4)`). */
  predicate RoundsTwoOver(n: nat, u: int)
  {
    var d := n + 1;
    2 * Abs(u * d - 20000) <= d && (2 * Abs(u * d - 20000) == d ==> u % 2 == 0)
  }

  /** `round(2 / (n + 1), 4)` in ten-thousandths. */
  function SmoothingUnits(n: nat): (u: nat)
    ensures RoundsTwoOver(n, u)
  {
    var d := n + 1;
    var q := 20000 / d;
    var r := 20000 % d;
    assert q * d + r == 20000;
    assert (q + 1) * d == q * d + d;
    if 2 * r < d then q
    else if 2 * r > d then q + 1
    else if q % 2 == 0 then q
    else q + 1
  }

  lemma ScaleAtLeast(x: int, y: int, d: nat)
    requires x >= y
    ensures x * d >= y * d
  {
  }

  lemma Distribute(x: int, c: int, d: int)
    ensures (x + c) * d == x * d + c * d
  {
  }

  /** The rounding is determined by its contract: whatever number of
      ten-thousandths rounds `2 / (n + 1)` to nearest, ties to even, is
      `SmoothingUnits(n)`. */
  lemma SmoothingUnitsUnique(n: nat, v: int)
    requires RoundsTwoOver(n, v)
    ensures v == SmoothingUnits(n)
  {
    var u, d := SmoothingUnits(n), n + 1;
    if v >= u + 2 {
      Distribute(u, 2, d);
      ScaleAtLeast(v, u + 2, d);
    } else if v == u + 1 {
      Distribute(u, 1, d);
    } else if u >= v + 2 {
      Distribute(v, 2, d);
      ScaleAtLeast(u, v + 2, d);
    } else if u == v + 1 {
      Distribute(v, 1, d);
    }
  }

  /** The smoothing constant `k`; for every period `n >= 1` it lies in [0, 1]. */
  function Smoothing(n: nat): (k: real)
    ensures n >= 1 ==> 0.0 <= k <= 1.0
  {
    SmoothingUnits(n) as real / 10000.0
  }

  /** `n = 10` gives `k = 0.1818`. */
  lemma SmoothingForTen()
    ensures Smoothing(10) == 0.1818
  {
  }

  /** One exponential-moving-average point. */
  datatype ExponentialMA = ExponentialMA(nDays: nat, k: real, timestamp: int, price: real, ema: real)

  /** `x` lies between `a` and `b`, inclusive, in either order. */
  predicate Between(a: real, b: real, x: real)
  {
    (a <= x <= b) || (b <= x <= a)
  }

  /** One smoothing step: move from `previous` towards `price` by the fraction `k`. */
  function Smooth(previous: real, price: real, k: real): real
  {
    (price - previous) * k + previous
  }

  lemma StepBetween(previous: real, price: real, k: real)
    ensures 0.0 <= k <= 1.0 ==> Between(previous, price, Smooth(previous, price, k))
  {
    var delta := price - previous;
    if k < 0.0 || k > 1.0 {
    } else if delta >= 0.0 {
      assert 0.0 <= delta * k;
      assert delta * k <= delta;
      assert previous <= delta * k + previous <= price;
    } else {
      assert delta * k <= 0.0;
      assert delta <= delta * k;
      assert price <= delta * k + previous <= previous;
    }
  }

  /** The `ExpotentialMA` constructor: the point takes the record's timestamp
      and close, and for `n >= 1` its EMA lies between the previous EMA and
      the close. */
  function ExponentialMAOf(point: OhlcvData, previous: real, n: nat): (e: ExponentialMA)
    requires point.Candle?
    ensures e.nDays == n && e.k == Smoothing(n)
    ensures e.timestamp == point.timestamp && e.price == point.closePrice
    ensures n >= 1 ==> Between(previous, e.price, e.ema)
  {
    var k := Smoothing(n);
    StepBetween(previous, point.closePrice, k);
    ExponentialMA(n, k, point.timestamp, point.closePrice, Smooth(previous, point.closePrice, k))
  }

  /** The EMA value carried forward: the last point's, or the seed. */
  function LastEma(chain: seq<ExponentialMA>, seed: real): real
  {
    if chain == [] then seed else chain[|chain| - 1].ema
  }

  /** The strict left-to-right EMA recurrence over `points`, started at `seed`. */
  function EmaChain(points: seq<OhlcvData>, seed: real, n: nat): (chain: seq<ExponentialMA>)
    requires AllCandles(points)
    ensures |chain| == |points|
  {
    if points == [] then []
    else
      var init := points[..|points| - 1];
      assert AllCandles(init) by {
        forall i | 0 <= i < |init| ensures init[i].Candle? { assert init[i] == points[i]; }
      }
      var prefix := EmaChain(init, seed, n);
      prefix + [ExponentialMAOf(points[|points| - 1], LastEma(prefix, seed), n)]
  }

  /** The chain over a prefix is the prefix of the chain. */
  lemma {:induction false} EmaChainPrefix(points: seq<OhlcvData>, seed: real, n: nat, m: nat)
    requires AllCandles(points) && m <= |points|
    ensures AllCandles(points[..m]) && EmaChain(points[..m], seed, n) == EmaChain(points, seed, n)[..m]
  {
    assert AllCandles(points[..m]) by {
      forall i | 0 <= i < m ensures points[..m][i].Candle? { assert points[..m][i] == points[i]; }
    }
    if m < |points| {
      var init := points[..|points| - 1];
      assert AllCandles(init) by {
        forall i | 0 <= i < |init| ensures init[i].Candle? { assert init[i] == points[i]; }
      }
      EmaChainPrefix(init, seed, n, m);
      assert init[..m] == points[..m];
    } else {
      assert points[..m] == points;
    }
  }

  /** Point `j` of the chain is built from `points[j]` and the EMA before it:
      the seed for `j = 0`, point `j - 1`'s EMA otherwise. */
  lemma {:induction false} EmaChainRecurrence(points: seq<OhlcvData>, seed: real, n: nat, j: nat)
    requires AllCandles(points) && j < |points|
    ensures var chain := EmaChain(points, seed, n);
      var previous := if j == 0 then seed else chain[j - 1].ema;
      && chain[j] == ExponentialMAOf(points[j], previous, n)
      && chain[j].ema == Smooth(previous, points[j].closePrice, Smoothing(n))
  {
    var chain := EmaChain(points, seed, n);
    var previous := if j == 0 then seed else chain[j - 1].ema;
    EmaChainPrefix(points, seed, n, j + 1);
    EmaChainPrefix(points, seed, n, j);
    var upto := points[..j + 1];
    var prefix := EmaChain(points[..j], seed, n);
    assert upto[..j] == points[..j];
    assert upto[j] == points[j];
    assert prefix == chain[..j];
    assert LastEma(prefix, seed) == previous;
    assert EmaChain(upto, seed, n) == prefix + [ExponentialMAOf(points[j], previous, n)];
    assert chain[j] == EmaChain(upto, seed, n)[j];
  }

  /** If the seed and every close lie in [lo, hi], so does every EMA of the
      chain (for `n >= 1`, where `k` is in [0, 1]). */
  lemma {:induction false} EmaChainWithin(points: seq<OhlcvData>, seed: real, n: nat, lo: real, hi: real)
    requires AllCandles(points) && n >= 1
    requires lo <= seed <= hi
    requires forall i :: 0 <= i < |points| ==> lo <= points[i].closePrice <= hi
    ensures forall j :: 0 <= j < |points| ==> lo <= EmaChain(points, seed, n)[j].ema <= hi
  {
    if points != [] {
      var init := points[..|points| - 1];
      assert AllCandles(init) by {
        forall i | 0 <= i < |init| ensures init[i].Candle? { assert init[i] == points[i]; }
      }
      EmaChainWithin(init, seed, n, lo, hi);
      var prefix := EmaChain(init, seed, n);
      assert lo <= LastEma(prefix, seed) <= hi;
      var chain := EmaChain(points, seed, n);
      forall j | 0 <= j < |points| ensures lo <= chain[j].ema <= hi {
        if j < |init| {
          assert chain[j] == prefix[j];
        }
      }
    }
  }

  /** Python's `data[0:n-1]`: the first `n - 1` records, or for `n = 0` all
      but the last one (a negative slice bound counts from the end). */
  function SeedWindow(data: seq<OhlcvData>, n: nat): seq<OhlcvData>
  {
    if n == 0 then (if |data| == 0 then [] else data[..|data| - 1])
    else if n - 1 <= |data| then data[..n - 1]
    else data
  }

  /** Python's `data[n:]`. */
  function Tail(data: seq<OhlcvData>, n: nat): seq<OhlcvData>
  {
    if n <= |data| then data[n..] else []
  }

  /** What `calculateEMAForData` needs to run without an exception: a
      non-empty seed window, and fields on every record it reads. */
  predicate EmaInputOk(data: seq<OhlcvData>, n: nat)
  {
    |SeedWindow(data, n)| > 0 && AllCandles(SeedWindow(data, n)) && AllCandles(Tail(data, n))
  }

  /** The seed: the close average of the seed window. */
  function Seed(data: seq<OhlcvData>, n: nat): (s: real)
    requires EmaInputOk(data, n)
    ensures s == Mean(Column(SeedWindow(data, n), Close))
    ensures Min(Column(SeedWindow(data, n), Close)) <= s <= Max(Column(SeedWindow(data, n), Close))
  {
    SimpleMAWithinRange(SeedWindow(data, n), Close);
    assert AverageOf(SimpleMAOf(SeedWindow(data, n)), Close) == Mean(Column(SeedWindow(data, n), Close));
    SimpleMAOf(SeedWindow(data, n)).closeMA
  }

  /** The EMA series `calculateEMAForData(data, n)` returns. */
  function EmaSeries(data: seq<OhlcvData>, n: nat): seq<ExponentialMA>
    requires EmaInputOk(data, n)
  {
    EmaChain(Tail(data, n), Seed(data, n), n)
  }

  /** The record at index `n - 1` is never read: replacing it by anything,
      even a malformed record, leaves the input acceptable and the EMA
      series unchanged. */
  lemma EmaIgnoresRecordBeforeTail(data: seq<OhlcvData>, n: nat, x: OhlcvData)
    requires 1 <= n <= |data| && EmaInputOk(data, n)
    ensures EmaInputOk(data[n - 1 := x], n)
    ensures EmaSeries(data[n - 1 := x], n) == EmaSeries(data, n)
  {
  }

  /** The series has one point per record after index `n - 1`, and point `j`
      takes its timestamp and price from `data[n + j]`. */
  lemma {:induction false} EmaSeriesShape(data: seq<OhlcvData>, n: nat)
    requires EmaInputOk(data, n)
    ensures |EmaSeries(data, n)| == SmaCount(|data|, n)
    ensures forall j :: 0 <= j < |EmaSeries(data, n)| ==>
      n + j < |data| && EmaSeries(data, n)[j].timestamp == data[n + j].timestamp
      && EmaSeries(data, n)[j].price == data[n + j].closePrice
  {
    var tail := Tail(data, n);
    var series := EmaSeries(data, n);
    forall j | 0 <= j < |series|
      ensures n + j < |data| && series[j].timestamp == data[n + j].timestamp
      && series[j].price == data[n + j].closePrice
    {
      EmaChainRecurrence(tail, Seed(data, n), n, j);
      assert tail[j] == data[n + j];
    }
  }

  /** `calculateEMAForData`: the loop carries the previous EMA forward. */
  method CalculateEMAForData(data: seq<OhlcvData>, n: nat) returns (ema: seq<ExponentialMA>)
    requires EmaInputOk(data, n)
    ensures ema == EmaSeries(data, n)
    ensures |ema| == SmaCount(|data|, n)
  {
    var seed := SimpleMAOf(SeedWindow(data, n)).closeMA;
    var tail := Tail(data, n);
    var previous := seed;
    ema := [];
    for i := 0 to |tail|
      invariant AllCandles(tail[..i]) && ema == EmaChain(tail[..i], seed, n)
      invariant previous == LastEma(ema, seed)
    {
      var upto := tail[..i + 1];
      assert upto[..i] == tail[..i];
      assert AllCandles(upto) by {
        forall j | 0 <= j < i + 1 ensures upto[j].Candle? { assert upto[j] == tail[j]; }
      }
      var current := ExponentialMAOf(tail[i], previous, n);
      ema := ema + [current];
      previous := current.ema;
    }
    assert tail[..|tail|] == tail;
    EmaSeriesShape(data, n);
  }
}
