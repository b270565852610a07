/**
 The candle fetcher's control logic, with the exchange abstracted as a
 function from a start timestamp to the page of raw blocks it returns.
 A page is accepted only if it is non-empty and starts at the requested
 timestamp; it completes the fetch if its last block is stamped with
 today's 01:00, and otherwise a continuation is requested from its last
 block's timestamp.
 */
module Fetcher {
  import opened Ohlcv
  import opened Clock

  /** How one page is judged against the requested start and the boundary. */
  datatype PageCheck =
    | EmptyPage               // nothing returned: `None`
    | WrongStart(first: int)  // first block not at the requested start: `None`
    | ReachedBoundary         // last block at today's 01:00: the page is the series
    | Partial(next: int)      // continue from the last block's timestamp

  function CheckPage(page: seq<Row>, start: int, boundary: int): PageCheck
  {
    if page == [] then EmptyPage
    else if page[0].stamp != start then WrongStart(page[0].stamp)
    else if page[|page| - 1].stamp == boundary then ReachedBoundary
    else Partial(page[|page| - 1].stamp)
  }

  /** What a call of `fetchCandleData` ends in. */
  datatype FetchResult =
    | Series(records: seq<OhlcvData>)  // a list of records is returned
    | NoSeries                         // `None` is returned
    | TypeError                        // a continuation's result cannot be stitched
    | RecursionLimit                   // the interpreter's recursion depth is exhausted

  /** An accepted continuation page starts at the previous page's last
      timestamp, so that block is delivered twice. */
  lemma ContinuationRepeatsLastBlock(first: seq<Row>, second: seq<Row>, start: int, next: int, boundary: int)
    requires CheckPage(first, start, boundary) == Partial(next)
    requires CheckPage(second, next, boundary) == ReachedBoundary || CheckPage(second, next, boundary).Partial?
    ensures second[0].stamp == first[|first| - 1].stamp
  {
  }

  /** `fetchCandleData(x, start)` with the exchange `source`, the clock
      reading `now` and `depth` further nested calls allowed. `requests`
      lists the start timestamps requested from the exchange, in order. */
  method FetchCandleData(source: int -> seq<Row>, start: int, now: int, depth: nat)
    returns (r: FetchResult, requests: seq<int>)
    decreases depth
    ensures 1 <= |requests| <= depth + 1 && requests[0] == start
    ensures forall i :: 0 < i < |requests| ==>
      CheckPage(source(requests[i - 1]), requests[i - 1], OneOClockStamp(now, 0)) == Partial(requests[i])
    ensures var page := source(start);
      match CheckPage(page, start, OneOClockStamp(now, 0))
      case EmptyPage => r == NoSeries && requests == [start]
      case WrongStart(_) => r == NoSeries && requests == [start]
      case ReachedBoundary =>
        && requests == [start] && r.Series? && |r.records| == |page|
        && forall i :: 0 <= i < |page| ==> r.records[i] == FromRawBlock(page[i])
      case Partial(next) =>
        && (r == TypeError || r == RecursionLimit)
        && (depth > 0 ==> |requests| >= 2 && requests[1] == next)
    ensures r == RecursionLimit ==>
      (|requests| == depth + 1
       && CheckPage(source(requests[depth]), requests[depth], OneOClockStamp(now, 0)).Partial?)
    ensures r == TypeError ==>
      (|requests| >= 2
       && !CheckPage(source(requests[|requests| - 1]), requests[|requests| - 1], OneOClockStamp(now, 0)).Partial?)
  {
    var page := source(start);
    requests := [start];
    if page == [] {
      return NoSeries, requests;
    }
    if page[0].stamp != start {
      return NoSeries, requests;
    }
    var todayOneOClock := OneOClockStamp(now, 0);
    if page[|page| - 1].stamp != todayOneOClock {
      if depth == 0 {
        return RecursionLimit, requests;
      }
      var rest, more := FetchCandleData(source, page[|page| - 1].stamp, now, depth - 1);
      requests := requests + more;
      // `rawData + None` raises, and so does normalizing a list that holds
      // already-built records; an exception from the nested call propagates.
      r := if rest.Series? || rest.NoSeries? then TypeError else rest;
      return;
    }
    var records := TransformRawOhlcvData(page);
    r := Series(records);
  }
}
