/** The `market_update` frame the main market socket sends, built from the
    stored quotes. For every symbol of a fixed list the store is asked for
    its rows newest first, at most 30 of them; the rows are turned oldest
    first and become a price history indexed 1..n, and the newest row gives
    the item's price, change and timestamp. A symbol without rows, or whose
    query or conversion raises, is left out of the frame and nothing else
    is affected. The store is an input: each symbol's query outcome. */
module MarketFrames {
  import opened Common
  import opened WatchList

  /** The `.limit(30)` of every history query. */
  const HistoryLimit: nat := 30

  /** A stored quote row as the shaping reads it: `price` is `float()` of
      the price column (`c` of a stock, `p` of a crypto), None when that
      conversion raises; `d` and `dp` are a stock's change columns (None
      when null, and None for a crypto row, which has neither); `createdMs`
      is `created_at` as epoch milliseconds. */
  datatype Row = Row(price: Option<real>, d: Option<real>, dp: Option<real>, createdMs: int)

  /** One symbol's query: all its rows newest first (before the limit), or
      an exception raised by the query itself. */
  datatype Query = Rows(newestFirst: seq<Row>) | QueryFailed

  /** A chart point: its 1-based position and the price. */
  datatype Point = Point(time: int, price: real)

  /** One element of `stocks` or `cryptos`. */
  datatype Item = Item(symbol: string, price: real, change: real, changePercent: real,
                       history: seq<Point>, timestamp: int, dataSource: string)

  /** A `market_update` frame: its two lists and its `data_source`. */
  datatype MarketFrame = MarketFrame(stocks: seq<Item>, cryptos: seq<Item>, dataSource: string)

  /** The store seen through one symbol's query; a symbol the store knows
      nothing about yields no rows. */
  function QueryOf(db: map<string, Query>, symbol: string): Query
  {
    GetOr(db, symbol, Rows([]))
  }

  /** The rows the limited query returns: the most recent ones, at most
      30, still newest first. */
  function Limit(newestFirst: seq<Row>): (r: seq<Row>)
    ensures |r| == if |newestFirst| <= HistoryLimit then |newestFirst| else HistoryLimit
    ensures r == newestFirst[..|r|]
  {
    if |newestFirst| <= HistoryLimit then newestFirst else newestFirst[..HistoryLimit]
  }

  /** `float(x) if x else 0`: a null or zero column reads as 0. */
  function OrZero(x: Option<real>): (r: real)
    ensures x.Some? && x.value != 0.0 ==> r == x.value
    ensures x.None? || x.value == 0.0 ==> r == 0.0
  {
    if x.Some? then x.value else 0.0
  }

  /** Every row's price converts. */
  predicate PricesPresent(rows: seq<Row>)
  {
    forall k :: 0 <= k < |rows| ==> rows[k].price.Some?
  }

  /** The chart of oldest-first rows: the k-th row becomes point k + 1. */
  function Timeline(oldestFirst: seq<Row>): (r: seq<Point>)
    requires PricesPresent(oldestFirst)
    ensures |r| == |oldestFirst|
    ensures forall k :: 0 <= k < |r| ==> r[k] == Point(k + 1, oldestFirst[k].price.value)
    decreases |oldestFirst|
  {
    if |oldestFirst| == 0 then []
    else
      var n := |oldestFirst|;
      Timeline(oldestFirst[..n - 1]) + [Point(n, oldestFirst[n - 1].price.value)]
  }

  /** The item of one symbol, or None when it is left out (see
      `ItemShape`). */
  function ItemOf(symbol: string, q: Query, isCrypto: bool): (r: Option<Item>)
    ensures r.Some? ==> r.value.symbol == symbol
  {
    if q.QueryFailed? then None
    else
      var recent := Limit(q.newestFirst);
      if |recent| == 0 || !PricesPresent(recent) then None
      else
        var oldest := Reversed(recent);
        assert PricesPresent(oldest) by {
          forall k | 0 <= k < |oldest| ensures oldest[k].price.Some? {
            assert oldest[k] == recent[|recent| - 1 - k];
          }
        }
        var newest := recent[0];
        Some(Item(symbol, newest.price.value,
                  if isCrypto then 0.0 else OrZero(newest.d),
                  if isCrypto then 0.0 else OrZero(newest.dp),
                  Timeline(oldest), newest.createdMs, "database"))
  }

  /** A symbol is left out exactly when its query raised, it has no rows,
      or a price among its 30 most recent rows does not convert. Otherwise
      its history runs oldest first, point k + 1 being the (k+1)-th oldest
      of those rows, so the last point is the newest row; the item's price,
      timestamp and (for a stock) change come from that newest row, a null
      or zero change reading as 0; a crypto item always carries change 0. */
  lemma ItemShape(symbol: string, q: Query, isCrypto: bool)
    ensures ItemOf(symbol, q, isCrypto).Some? <==>
              q.Rows? && |q.newestFirst| > 0 && PricesPresent(Limit(q.newestFirst))
    ensures ItemOf(symbol, q, isCrypto).Some? ==>
              var it, recent := ItemOf(symbol, q, isCrypto).value, Limit(q.newestFirst);
              var h := it.history;
              && it.symbol == symbol && it.dataSource == "database"
              && |h| == |recent| <= HistoryLimit
              && (forall k :: 0 <= k < |h| ==> h[k] == Point(k + 1, recent[|recent| - 1 - k].price.value))
              && it.price == h[|h| - 1].price == q.newestFirst[0].price.value
              && it.timestamp == q.newestFirst[0].createdMs
              && it.change == (if isCrypto then 0.0 else OrZero(q.newestFirst[0].d))
              && it.changePercent == (if isCrypto then 0.0 else OrZero(q.newestFirst[0].dp))
  {
    if q.Rows? && |q.newestFirst| > 0 && PricesPresent(Limit(q.newestFirst)) {
      var recent := Limit(q.newestFirst);
      var h := ItemOf(symbol, q, isCrypto).value.history;
      assert h == Timeline(Reversed(recent));
      assert h[|h| - 1].price == recent[0].price.value;
    }
  }

  /** The items of a symbol list: one per symbol that has one, in the
      list's order. */
  function Items(symbols: seq<string>, db: map<string, Query>, isCrypto: bool): (r: seq<Item>)
    ensures |r| <= |symbols|
    decreases |symbols|
  {
    if |symbols| == 0 then []
    else
      var before, s := symbols[..|symbols| - 1], symbols[|symbols| - 1];
      var item := ItemOf(s, QueryOf(db, s), isCrypto);
      Items(before, db, isCrypto) + (if item.Some? then [item.value] else [])
  }

  /** Every item belongs to a listed symbol and is that symbol's item, and
      every listed symbol that has an item has it in the list. */
  lemma {:induction false} ItemsMembers(symbols: seq<string>, db: map<string, Query>, isCrypto: bool)
    ensures var r := Items(symbols, db, isCrypto);
            && (forall i :: 0 <= i < |r| ==>
                  r[i].symbol in symbols && ItemOf(r[i].symbol, QueryOf(db, r[i].symbol), isCrypto) == Some(r[i]))
            && (forall s :: s in symbols && ItemOf(s, QueryOf(db, s), isCrypto).Some? ==>
                  ItemOf(s, QueryOf(db, s), isCrypto).value in r)
    decreases |symbols|
  {
    if |symbols| > 0 {
      var before, x := symbols[..|symbols| - 1], symbols[|symbols| - 1];
      ItemsMembers(before, db, isCrypto);
      assert symbols == before + [x];
      ItemsSnoc(before, x, db, isCrypto);
      var r0, r := Items(before, db, isCrypto), Items(symbols, db, isCrypto);
      forall i | 0 <= i < |r|
        ensures r[i].symbol in symbols && ItemOf(r[i].symbol, QueryOf(db, r[i].symbol), isCrypto) == Some(r[i])
      {
        if i < |r0| {
          assert r[i] == r0[i];
        }
      }
      forall t | t in symbols && ItemOf(t, QueryOf(db, t), isCrypto).Some?
        ensures ItemOf(t, QueryOf(db, t), isCrypto).value in r
      {
        if t != x {
          assert t in before;
        }
      }
    }
  }

  /** The items of two lists one after the other are the items of the
      first list followed by those of the second: the frame follows the
      symbol list's order. */
  lemma {:induction false} ItemsAppend(a: seq<string>, b: seq<string>, db: map<string, Query>, isCrypto: bool)
    ensures Items(a + b, db, isCrypto) == Items(a, db, isCrypto) + Items(b, db, isCrypto)
    decreases |b|
  {
    if |b| == 0 {
      assert a + b == a;
    } else {
      var front, x := b[..|b| - 1], b[|b| - 1];
      var item := ItemOf(x, QueryOf(db, x), isCrypto);
      var slot := if item.Some? then [item.value] else [];
      var ia, ifr := Items(a, db, isCrypto), Items(front, db, isCrypto);
      calc {
        Items(a + b, db, isCrypto);
        { assert a + b == (a + front) + [x]; ItemsSnoc(a + front, x, db, isCrypto); }
        Items(a + front, db, isCrypto) + slot;
        { ItemsAppend(a, front, db, isCrypto); }
        (ia + ifr) + slot;
        ia + (ifr + slot);
        { assert b == front + [x]; ItemsSnoc(front, x, db, isCrypto); }
        ia + Items(b, db, isCrypto);
      }
    }
  }

  /** One more symbol at the end adds its item, if it has one, at the end. */
  lemma ItemsSnoc(symbols: seq<string>, x: string, db: map<string, Query>, isCrypto: bool)
    ensures var item := ItemOf(x, QueryOf(db, x), isCrypto);
            Items(symbols + [x], db, isCrypto) == Items(symbols, db, isCrypto) + (if item.Some? then [item.value] else [])
  {
    assert (symbols + [x])[..|symbols + [x]| - 1] == symbols;
  }

  /** A symbol that yields no item (its query raised, it has no rows, or a
      price does not convert) only drops that symbol: the frame is the one
      built as if it were not in the list at all. */
  lemma {:induction false} UnshapedSymbolDropsOut(symbols: seq<string>, db: map<string, Query>, s: string,
                                                  q: Query, isCrypto: bool)
    requires ItemOf(s, q, isCrypto).None?
    ensures Items(symbols, db[s := q], isCrypto) == Items(Surviving(symbols, {s}), db, isCrypto)
    decreases |symbols|
  {
    if |symbols| == 0 {
      assert Surviving(symbols, {s}) == [];
    } else {
      var before, t := symbols[..|symbols| - 1], symbols[|symbols| - 1];
      assert symbols == before + [t];
      UnshapedSymbolDropsOut(before, db, s, q, isCrypto);
      SurvivingSnoc(before, t, {s});
      if t != s {
        assert Surviving(symbols, {s}) == Surviving(before, {s}) + [t];
        OtherSymbolKept(before, t, db, s, q, isCrypto);
      } else {
        assert Surviving(symbols, {s}) == Surviving(before, {s});
        UnshapedSymbolSkipped(before, db, s, q, isCrypto);
        assert symbols == before + [s];
        assert Items(symbols, db[s := q], isCrypto) == Items(before, db[s := q], isCrypto);
      }
    }
  }

  /** A symbol other than the failing one contributes the same item under
      both stores. */
  lemma OtherSymbolKept(before: seq<string>, t: string, db: map<string, Query>, s: string,
                        q: Query, isCrypto: bool)
    requires t != s
    requires Items(before, db[s := q], isCrypto) == Items(Surviving(before, {s}), db, isCrypto)
    ensures Items(before + [t], db[s := q], isCrypto) == Items(Surviving(before, {s}) + [t], db, isCrypto)
  {
    assert QueryOf(db[s := q], t) == QueryOf(db, t);
    ItemsSnoc(before, t, db[s := q], isCrypto);
    ItemsSnoc(Surviving(before, {s}), t, db, isCrypto);
  }

  /** The failing symbol contributes nothing. */
  lemma UnshapedSymbolSkipped(before: seq<string>, db: map<string, Query>, s: string,
                              q: Query, isCrypto: bool)
    requires ItemOf(s, q, isCrypto).None?
    ensures Items(before + [s], db[s := q], isCrypto) == Items(before, db[s := q], isCrypto)
  {
    assert QueryOf(db[s := q], s) == q;
    ItemsSnoc(before, s, db[s := q], isCrypto);
  }

  /** The history loop over oldest-first rows: each row contributes point
      `i + 1`; a price that does not convert raises, abandoning the whole
      history (None). */
  method BuildHistory(oldest: seq<Row>) returns (history: Option<seq<Point>>)
    ensures history.Some? <==> PricesPresent(oldest)
    ensures history.Some? ==> history.value == Timeline(oldest)
  {
    var points: seq<Point> := [];
    var i := 0;
    while i < |oldest|
      invariant 0 <= i <= |oldest|
      invariant forall k :: 0 <= k < i ==> oldest[k].price.Some?
      invariant |points| == i
      invariant forall k :: 0 <= k < i ==> points[k] == Point(k + 1, oldest[k].price.value)
    {
      var price := oldest[i].price;
      if price.None? {
        return None;
      }
      points := points + [Point(i + 1, price.value)];
      i := i + 1;
    }
    return Some(points);
  }

  /** One symbol's query and shaping: nothing for a query that raised or
      returned no rows; otherwise the limited rows are turned oldest first
      (the in-place `reverse()`) and charted, and the newest row supplies
      the price, the changes and the timestamp. */
  method ShapeItem(symbol: string, q: Query, isCrypto: bool) returns (item: Option<Item>)
    ensures item == ItemOf(symbol, q, isCrypto)
  {
    if q.QueryFailed? {
      return None;
    }
    var recent := Limit(q.newestFirst);
    if |recent| == 0 {
      return None;
    }
    var oldest := Reversed(recent);
    assert PricesPresent(oldest) ==> PricesPresent(recent) by {
      if PricesPresent(oldest) {
        forall k | 0 <= k < |recent| ensures recent[k].price.Some? {
          assert recent[k] == oldest[|recent| - 1 - k];
        }
      }
    }
    assert PricesPresent(recent) ==> PricesPresent(oldest) by {
      if PricesPresent(recent) {
        forall k | 0 <= k < |oldest| ensures oldest[k].price.Some? {
          assert oldest[k] == recent[|recent| - 1 - k];
        }
      }
    }
    var history := BuildHistory(oldest);
    if history.None? {
      return None;
    }
    var newest := oldest[|oldest| - 1];
    assert newest == recent[0];
    item := Some(Item(symbol, newest.price.value,
                      if isCrypto then 0.0 else OrZero(newest.d),
                      if isCrypto then 0.0 else OrZero(newest.dp),
                      history.value, newest.createdMs, "database"));
  }

  /** The per-symbol loop: each symbol is shaped in list order and its item
      appended when there is one. */
  method CollectItems(symbols: seq<string>, db: map<string, Query>, isCrypto: bool) returns (items: seq<Item>)
    ensures items == Items(symbols, db, isCrypto)
  {
    items := [];
    var i := 0;
    while i < |symbols|
      invariant 0 <= i <= |symbols|
      invariant items == Items(symbols[..i], db, isCrypto)
    {
      var item := ShapeItem(symbols[i], QueryOf(db, symbols[i]), isCrypto);
      assert symbols[..i + 1][..i] == symbols[..i];
      if item.Some? {
        items := items + [item.value];
      }
      i := i + 1;
    }
    assert symbols[..i] == symbols;
  }

  /** The frame read from the store: the 50 watched stocks, then the ten
      crypto pairs, each in list order, marked `database`; no crypto item
      carries a change. */
  method CollectMarketFrame(stockDb: map<string, Query>, cryptoDb: map<string, Query>)
    returns (frame: MarketFrame)
    ensures frame.stocks == Items(MostActiveStocks, stockDb, false)
    ensures frame.cryptos == Items(Top10Cryptos, cryptoDb, true)
    ensures frame.dataSource == "database"
    ensures |frame.stocks| <= 50 && |frame.cryptos| <= 10
    ensures forall it :: it in frame.cryptos ==> it.change == 0.0 && it.changePercent == 0.0
  {
    var stocks := CollectItems(MostActiveStocks, stockDb, false);
    var cryptos := CollectItems(Top10Cryptos, cryptoDb, true);
    ItemsMembers(Top10Cryptos, cryptoDb, true);
    forall it | it in cryptos
      ensures it.change == 0.0 && it.changePercent == 0.0
    {
      ItemShape(it.symbol, QueryOf(cryptoDb, it.symbol), true);
    }
    frame := MarketFrame(stocks, cryptos, "database");
  }
}
