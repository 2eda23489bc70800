/** The per-symbol update stream shared by the stock and crypto sockets:
    every tick the store is asked for the symbol's 30 most recent rows,
    which are turned oldest first into a timed history; the frame carries
    the newest price and its time, or an explicit empty answer when the
    store has nothing. An exception (a query that raises, a price that does
    not convert) ends the loop; sends go through a manager that swallows
    their failures, so they never end it. The store at each tick is an
    input. */
module SymbolStream {
  import opened Common
  import opened MarketFrames

  /** A history entry: the row's `created_at` (rendered as `%H:%M:%S` in
      `time` and as epoch milliseconds in `timestamp`) and its price. */
  datatype TickPoint = TickPoint(at: int, price: real)

  /** A `stock_update` / `crypto_update` frame; `noData` marks the empty
      answer that carries the "no data in the DB" message. */
  datatype SymbolFrame = SymbolFrame(kind: string, symbol: string, history: seq<TickPoint>,
                                     currentPrice: real, lastUpdate: Option<int>,
                                     dataSource: string, noData: bool)

  /** `str.upper()` on ASCII letters. */
  function UpperChar(c: char): (u: char)
    ensures 'a' <= c <= 'z' ==> u as int == c as int - 32
    ensures !('a' <= c <= 'z') ==> u == c
  {
    if 'a' <= c <= 'z' then (c as int - 32) as char else c
  }

  function Upper(s: string): (r: string)
    ensures |r| == |s|
    ensures forall k :: 0 <= k < |s| ==> r[k] == UpperChar(s[k])
    decreases |s|
  {
    if |s| == 0 then [] else Upper(s[..|s| - 1]) + [UpperChar(s[|s| - 1])]
  }

  /** Upper-casing twice changes nothing more: a symbol already in capitals
      is queried and reported as given. */
  lemma UpperIdempotent(s: string)
    ensures Upper(Upper(s)) == Upper(s)
  {
    assert forall k :: 0 <= k < |s| ==> UpperChar(UpperChar(s[k])) == UpperChar(s[k]);
  }

  /** The history of oldest-first rows: one entry per row, in order. */
  function TickHistory(oldestFirst: seq<Row>): (r: seq<TickPoint>)
    requires PricesPresent(oldestFirst)
    ensures |r| == |oldestFirst|
    ensures forall k :: 0 <= k < |r| ==> r[k] == TickPoint(oldestFirst[k].createdMs, oldestFirst[k].price.value)
    decreases |oldestFirst|
  {
    if |oldestFirst| == 0 then []
    else
      var n := |oldestFirst|;
      TickHistory(oldestFirst[..n - 1]) + [TickPoint(oldestFirst[n - 1].createdMs, oldestFirst[n - 1].price.value)]
  }

  /** The frame of one tick, or None when the tick raises (see
      `FrameShape`). */
  function FrameOf(kind: string, symbol: string, q: Query): (r: Option<SymbolFrame>)
    ensures r.Some? ==> r.value.kind == kind && r.value.symbol == symbol
  {
    if q.QueryFailed? then None
    else
      var recent := Limit(q.newestFirst);
      if |recent| == 0 then Some(SymbolFrame(kind, symbol, [], 0.0, None, "database", true))
      else if !PricesPresent(recent) then None
      else
        var oldest := Reversed(recent);
        assert PricesPresent(oldest) by {
          forall k | 0 <= k < |oldest| ensures oldest[k].price.Some? {
            assert oldest[k] == recent[|recent| - 1 - k];
          }
        }
        Some(SymbolFrame(kind, symbol, TickHistory(oldest), recent[0].price.value,
                         Some(recent[0].createdMs), "database", false))
  }

  /** A tick raises exactly when its query raises or one of the 30 most
      recent prices does not convert. An empty store gives the empty answer:
      no history, price 0, no last update, the no-data message. Otherwise
      the history holds those rows oldest first, so its last entry is the
      newest row, whose price and time are the frame's current price and
      last update. */
  lemma FrameShape(kind: string, symbol: string, q: Query)
    ensures FrameOf(kind, symbol, q).Some? <==> q.Rows? && PricesPresent(Limit(q.newestFirst))
    ensures FrameOf(kind, symbol, q).Some? ==>
              var f := FrameOf(kind, symbol, q).value;
              f.kind == kind && f.symbol == symbol && f.dataSource == "database"
    ensures FrameOf(kind, symbol, q).Some? && |q.newestFirst| == 0 ==>
              var f := FrameOf(kind, symbol, q).value;
              f.history == [] && f.currentPrice == 0.0 && f.lastUpdate.None? && f.noData
    ensures FrameOf(kind, symbol, q).Some? && |q.newestFirst| > 0 ==>
              var f, recent := FrameOf(kind, symbol, q).value, Limit(q.newestFirst);
              var h := f.history;
              && |h| == |recent| <= HistoryLimit
              && (forall k :: 0 <= k < |h| ==>
                    h[k] == TickPoint(recent[|recent| - 1 - k].createdMs, recent[|recent| - 1 - k].price.value))
              && f.currentPrice == h[|h| - 1].price == q.newestFirst[0].price.value
              && f.lastUpdate == Some(h[|h| - 1].at) && !f.noData
  {
    if q.Rows? && |q.newestFirst| > 0 && PricesPresent(Limit(q.newestFirst)) {
      var recent := Limit(q.newestFirst);
      var h := FrameOf(kind, symbol, q).value.history;
      assert h == TickHistory(Reversed(recent));
      assert h[|h| - 1] == TickPoint(recent[0].createdMs, recent[0].price.value);
    }
  }

  /** Rows stored newest first give a history in chronological order. */
  lemma HistoryChronological(kind: string, symbol: string, rows: seq<Row>)
    requires forall i, j :: 0 <= i < j < |rows| ==> rows[i].createdMs >= rows[j].createdMs
    requires FrameOf(kind, symbol, Rows(rows)).Some?
    ensures var h := FrameOf(kind, symbol, Rows(rows)).value.history;
            forall i, j :: 0 <= i < j < |h| ==> h[i].at <= h[j].at
  {
    FrameShape(kind, symbol, Rows(rows));
    var recent := Limit(rows);
    var h := FrameOf(kind, symbol, Rows(rows)).value.history;
    if |rows| > 0 {
      forall i, j | 0 <= i < j < |h| ensures h[i].at <= h[j].at {
        assert h[i].at == recent[|recent| - 1 - i].createdMs == rows[|recent| - 1 - i].createdMs;
        assert h[j].at == recent[|recent| - 1 - j].createdMs == rows[|recent| - 1 - j].createdMs;
      }
    }
  }

  /** The history loop: each oldest-first row is appended in turn; a price
      that does not convert raises (None). */
  method BuildTickHistory(oldest: seq<Row>) returns (history: Option<seq<TickPoint>>)
    ensures history.Some? <==> PricesPresent(oldest)
    ensures history.Some? ==> history.value == TickHistory(oldest)
  {
    var points: seq<TickPoint> := [];
    var i := 0;
    while i < |oldest|
      invariant 0 <= i <= |oldest|
      invariant forall k :: 0 <= k < i ==> oldest[k].price.Some?
      invariant |points| == i
      invariant forall k :: 0 <= k < i ==> points[k] == TickPoint(oldest[k].createdMs, oldest[k].price.value)
    {
      var price := oldest[i].price;
      if price.None? {
        return None;
      }
      points := points + [TickPoint(oldest[i].createdMs, price.value)];
      i := i + 1;
    }
    return Some(points);
  }

  /** One tick: the query, the in-place `reverse()` of a non-empty result,
      the history loop and the frame. */
  method ShapeFrame(kind: string, symbol: string, q: Query) returns (frame: Option<SymbolFrame>)
    ensures frame == FrameOf(kind, symbol, q)
  {
    if q.QueryFailed? {
      return None;
    }
    var recent := Limit(q.newestFirst);
    if |recent| == 0 {
      return Some(SymbolFrame(kind, symbol, [], 0.0, None, "database", true));
    }
    var oldest := Reversed(recent);
    assert PricesPresent(oldest) ==> PricesPresent(recent) by {
      if PricesPresent(oldest) {
        forall k | 0 <= k < |recent| ensures recent[k].price.Some? {
          assert recent[k] == oldest[|recent| - 1 - k];
        }
      }
    }
    assert PricesPresent(recent) ==> PricesPresent(oldest) by {
      if PricesPresent(recent) {
        forall k | 0 <= k < |oldest| ensures oldest[k].price.Some? {
          assert oldest[k] == recent[|recent| - 1 - k];
        }
      }
    }
    var history := BuildTickHistory(oldest);
    if history.None? {
      return None;
    }
    var newest := oldest[|oldest| - 1];
    assert newest == recent[0];
    frame := Some(SymbolFrame(kind, symbol, history.value, newest.price.value,
                              Some(newest.createdMs), "database", false));
  }

  /** The `while True` loop over the store as it is at each tick: the
      frames of the ticks in order, up to the first tick that raises, which
      ends the loop. `querySymbol` is the symbol the query filters on and
      `frameSymbol` the one the frames report. */
  method Stream(kind: string, querySymbol: string, frameSymbol: string, stores: seq<map<string, Query>>)
    returns (frames: seq<SymbolFrame>)
    ensures |frames| <= |stores|
    ensures forall k :: 0 <= k < |frames| ==>
              FrameOf(kind, frameSymbol, QueryOf(stores[k], querySymbol)) == Some(frames[k])
    ensures |frames| < |stores| ==> FrameOf(kind, frameSymbol, QueryOf(stores[|frames|], querySymbol)).None?
  {
    frames := [];
    var i := 0;
    while i < |stores|
      invariant 0 <= i <= |stores| && |frames| == i
      invariant forall k :: 0 <= k < i ==>
                  FrameOf(kind, frameSymbol, QueryOf(stores[k], querySymbol)) == Some(frames[k])
    {
      var frame := ShapeFrame(kind, frameSymbol, QueryOf(stores[i], querySymbol));
      if frame.None? {
        return;
      }
      frames := frames + [frame.value];
      i := i + 1;
    }
  }
}
