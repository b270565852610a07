# ccxtbot candle pipeline in Dafny

A model of the candle-to-indicator pipeline of `ccxtbot.py`, a small bot
that reads daily BTC/USD candles from an exchange and computes moving
averages. It has five parts:

- **Normalizer** (`ohlcv.dfy`, module `Ohlcv`). A raw block
  `[ms, open, high, low, close, volume]` becomes an `OhlcvData` record that
  also carries its typical price `(high + low + close) / 3` and its OHLC
  average `(open + high + low + close) / 4`. A block of any other length
  becomes the field-less record `Malformed`. `_transformRawOhlcvData` keeps
  that record in the series instead of dropping it.
- **Simple moving averages** (`sma.dfy`, module `SimpleMovingAverage`).
  A `SimpleMA` point holds the arithmetic mean of six fields over a chunk.
  `calculateSMAForData` slides a window of `n` records over the series with
  the loop bound `range(0, len(data) - n)`. It therefore yields
  `max(0, len(data) - n)` points, and no window reaches the last record.
- **Exponential moving averages** (`ema.dfy`, module
  `ExponentialMovingAverage`). The smoothing constant is
  `k = round(2 / (n + 1), 4)`. The chain is seeded with the close average
  of `data[0:n-1]`, which is `n - 1` records. It then runs left to right
  over `data[n:]` with `ema = (price - previous) * k + previous`. The record
  at index `n - 1` is never read.
- **Signal assembler** (`signals.dfy`, module `Signals`). Both averages
  are computed with a period of 10.
- **Fetcher** (`clock.dfy` and `fetch.dfy`, modules `Clock` and `Fetcher`).
  The 01:00 UTC boundary is computed from an explicit `now` in Unix
  milliseconds. The page checks of `fetchCandleData` run against an
  exchange given as a function from a start timestamp to a page of raw
  blocks.

`stats.dfy` (module `Stats`) holds the sums, means, minima and maxima the
averages are stated with.

Prices are `real` and timestamps are integer UTC milliseconds. Loops that
build lists in the source are methods with loop invariants, proved against
recursive or closed-form specification functions. The constructors of the
three record classes become functions returning datatypes, because their
fields are assigned once and never change.

Where the code and its design description disagree, the model follows the
code:
- Malformed blocks are kept as `Malformed` records, not skipped.
- The SMA drops the last window.
- The EMA seed covers `n - 1` records.
- A fetch that needs a continuation page never returns a stitched series.
  The nested call returns either `None` or a list of already-built records.
  `rawData + None` raises a `TypeError`, and normalizing a list that holds
  records raises one too, because a record has no `len()`. The model ends
  every such fetch in `TypeError`, or in `RecursionLimit` when the nesting
  depth runs out.

A Python exception raised on the caller's input is modelled as a
precondition. This covers an empty chunk averaged (`IndexError` or
`ZeroDivisionError`) and a field read from a `Malformed` record
(`AttributeError`).

## Model

| member | source | states |
|---|---|---|
| `Stats.MeanWithin` | ccxtbot.py:40-45 | the mean of a non-empty sequence lies between its minimum and its maximum |
| `Stats.MeanOfConstant` | ccxtbot.py:40-45 | the mean of a sequence whose every element is `c` is `c` |
| `Ohlcv.TypicalPrice` | ccxtbot.py:115-116 | the typical price is the mean of high, low and close, so it lies between the smallest and largest of them |
| `Ohlcv.OhlcAverage` | ccxtbot.py:119-120 | the OHLC average is the mean of open, high, low and close, so it lies between the smallest and largest of them |
| `Ohlcv.FromRawBlock` | ccxtbot.py:13-25 | a record has fields exactly when the block has six fields; then open, high, low, close and volume come from positions 1-5, the timestamp from position 0, and the derived prices are the typical price and OHLC average of those prices |
| `Ohlcv.RawBlockRoundTrip` | ccxtbot.py:18-25 | a six-field block is recovered unchanged from its record, and a record whose derived prices match its prices is what its own block normalizes to |
| `Ohlcv.DerivedPricesWithinRange` | ccxtbot.py:19-24 | when low and high bound open and close, both derived prices lie within [low, high] |
| `Ohlcv.TransformRawOhlcvData` | ccxtbot.py:85-90 | one record per block, in order; record `i` is the normalization of block `i` and is `Malformed` exactly when block `i` does not have six fields |
| `SimpleMovingAverage.SimpleMAOf` | ccxtbot.py:37-45 | `nDays` is the chunk length, the timestamp is the chunk's last record's, and each of the six averages is the arithmetic mean of its field over the chunk |
| `SimpleMovingAverage.SimpleMAWithinRange` | ccxtbot.py:40-45 | each average lies between the minimum and the maximum of its field over the chunk |
| `SimpleMovingAverage.ConstantCloseAverage` | ccxtbot.py:45 | over a chunk whose every close is `c`, `closeMA` is `c` |
| `SimpleMovingAverage.CalculateSMAForData` | ccxtbot.py:122-127 | returns `max(0, len(data) - n)` points; point `i` is the `SimpleMA` of exactly `data[i .. i + n]`, with `nDays = n` and the timestamp of `data[i + n - 1]`; every window ends before the last record |
| `ExponentialMovingAverage.SmoothingUnits` | ccxtbot.py:60 | `k` in ten-thousandths is the multiple of 0.0001 nearest to `2 / (n + 1)`, a tie going to the even neighbour |
| `ExponentialMovingAverage.SmoothingUnitsUnique` | ccxtbot.py:60 | any number of ten-thousandths that rounds `2 / (n + 1)` that way equals `SmoothingUnits(n)` |
| `ExponentialMovingAverage.Smoothing` | ccxtbot.py:60 | for every period `n >= 1`, `0 <= k <= 1` |
| `ExponentialMovingAverage.SmoothingForTen` | ccxtbot.py:60 | `n = 10` gives `k = 0.1818` |
| `ExponentialMovingAverage.ExponentialMAOf` | ccxtbot.py:58-66 | a point takes the record's timestamp and close, `nDays = n` and the rounded `k`; for `n >= 1` its EMA lies between the previous EMA and the close, inclusive |
| `ExponentialMovingAverage.EmaChain` | ccxtbot.py:134-137 | the chain has one point per record it runs over |
| `ExponentialMovingAverage.EmaChainPrefix` | ccxtbot.py:134-137 | the chain over a prefix of the records is the same prefix of the chain, so later records never change earlier points |
| `ExponentialMovingAverage.EmaChainRecurrence` | ccxtbot.py:133-137 | point `j` is built from record `j` and the EMA before it, which is the seed for `j = 0` and point `j - 1`'s EMA otherwise: `ema_j = (close_j - prev) * k + prev` |
| `ExponentialMovingAverage.EmaChainWithin` | ccxtbot.py:134-137 | if the seed and every close lie in [lo, hi], every EMA of the chain does too |
| `ExponentialMovingAverage.Seed` | ccxtbot.py:132-133 | the seed is the mean close of `data[0:n-1]`, which is the first `min(n - 1, len(data))` records, and lies between their lowest and highest close |
| `ExponentialMovingAverage.EmaIgnoresRecordBeforeTail` | ccxtbot.py:132-134 | replacing `data[n - 1]` by any record, even a malformed one, leaves the input acceptable and the EMA series unchanged |
| `ExponentialMovingAverage.EmaSeriesShape` | ccxtbot.py:134-138 | the EMA series has `max(0, len(data) - n)` points, and point `j` takes its timestamp and price from `data[n + j]` |
| `ExponentialMovingAverage.CalculateEMAForData` | ccxtbot.py:130-138 | the loop that carries `previousEMA` forward returns exactly the EMA chain over `data[n:]` seeded with the seed, of length `max(0, len(data) - n)` |
| `Signals.FindTradingSignals` | ccxtbot.py:140-143 | returns the SMA and EMA series with period 10; both have the same length; SMA point `i` is stamped with `data[i + 9]` and EMA point `i` with `data[i + 10]` |
| `Signals.FlatSeries` | ccxtbot.py:122-143 | over a series whose every close is `c`, every SMA `closeMA` and every EMA value is `c` |
| `Clock.OneOClockStamp` | ccxtbot.py:78-83 | the result is 01:00 of some UTC day; for `goBackDays != 0` it is today's 01:00 minus that many days; for `goBackDays = 0` it is at most one day before `now` and not after it |
| `Clock.LatestOneOClock` | ccxtbot.py:78-83 | the 01:00 for `goBackDays = 0` is the only 01:00 in the day up to `now` |
| `Clock.GoBackFromToday` | ccxtbot.py:79-82 | before 01:00, going back `g != 0` days counts from today's 01:00, which has not happened yet, so the result is one day later than `g` days before the latest past 01:00 |
| `Fetcher.ContinuationRepeatsLastBlock` | ccxtbot.py:99-107 | an accepted continuation page starts at the previous page's last timestamp, so that block is requested twice |
| `Fetcher.FetchCandleData` | ccxtbot.py:92-112 | an empty page or a page whose first block is not at the requested start gives `None` after one request. A page ending at today's 01:00 gives, after exactly one request, that page normalized block by block. Otherwise the next request starts at the page's last timestamp and the call ends in `TypeError`, or in `RecursionLimit` once the depth is used up. Every later request starts where the page before it left off |

## Left out

- The exchange client `ccxt.bitfinex()` and `x.fetchOhlcv` (ccxtbot.py:93, 164) are network I/O. The exchange is a function parameter from a start timestamp to a page. The pair `'BTC/USD'` and the interval `'1d'` are fixed arguments and are not modelled.
- `main` (ccxtbot.py:162-170) is a driver that prints the EMA series. It is not modelled.
- `createPlot` and the commented-out matplotlib version (ccxtbot.py:145-160) render charts through an external library. They are not modelled.
- The `__str__` methods and every `print` diagnostic are text output. They are not modelled. A malformed block still yields its `Malformed` record.
- Floating-point arithmetic is not modelled. Sums, means and the EMA are exact over `real`.
- `ExponentialMovingAverage.SmoothingUnits`: the tie in `round` is decided on the exact rational `2 / (n + 1)`. Python rounds the nearest double, so an exact tie of the rational may round differently there.
- Timezones are not modelled. `utcnow().timestamp()` reads a naive datetime as local time (ccxtbot.py:76, 79). The model assumes the host runs in UTC. The record's timestamp stays as integer milliseconds instead of a `datetime` (ccxtbot.py:18).
- `Clock.OneOClockStamp`: `now` is one clock reading. The source reads the clock twice (ccxtbot.py:79, 81) and could cross midnight between the two reads.
- `Fetcher.FetchCandleData`: one `now` serves every nested call. The source reads the clock again at each level (ccxtbot.py:103).
- `Fetcher.FetchCandleData`: the `depth` parameter stands for Python's recursion limit. A source that never reaches the boundary would otherwise recurse forever. There is no page cap in the source and none is added.
- A raw block is a timestamp followed by the other fields. A zero-length block cannot be represented. In the source, such a block as the first or last of a page makes `rawData[0][0]` raise `IndexError`.
- A period `n` is a natural number. In Python a negative period would be read as a negative slice bound, and `n = -1` divides by zero in `k`. `n = 0` is modelled with Python's slicing: the seed covers all records but the last.
- Python exceptions raised on the caller's input are preconditions, not modelled outcomes. This covers an empty SMA chunk, an empty EMA seed window, and a `Malformed` record inside a window the averages read.
