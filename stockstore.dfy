/** The browser-side stock store (`src/stores/stockStore.js`): per-ticker chart
    data (daily and one-minute candles), the latest realtime bar, the live price
    record and the load error of each ticker, and the handler that folds the
    hub's messages into them.

    The store's signals are the fields of a class; a `setX(prev => ...)` call is
    an assignment to field X. Host-clock questions the browser answers with
    `Date` in local time are parameters: `today` is the local midnight of the
    current day, `midnight(t)` the local midnight of instant t, and
    `hourMinute(t)` the local hours and minutes of t. */
module StockStore {
  import opened Common
  import opened Market

  /** One trading day of one-minute bars. */
  const IntradayCap: nat := 390

  const MinuteMillis: nat := 60000

  datatype ChartData = ChartData(daily: seq<Bar>, intraday: seq<Bar>)

  /** What a ticker without loaded data falls back to: `{ daily: [], intraday: [] }`. */
  const NoChart := ChartData([], [])

  /** The live price record of a ticker; an absent property is None. */
  datatype LivePrice = LivePrice(price: Option<real>, timestamp: Option<Millis>, size: Option<nat>,
                                 source: Option<string>, bid: Option<real>, ask: Option<real>,
                                 bidSize: Option<nat>, askSize: Option<nat>)

  const NoLivePrice := LivePrice(None, None, None, None, None, None, None, None)

  /** What `dataService.fetchTickerData` produced for one ticker. */
  datatype FetchResult = Loaded(chart: ChartData) | Failed(message: string)

  /** The object `getStockData` returns. */
  datatype StockView = StockView(ticker: Symbol, price: real, open: real, change: real, changePercent: real,
                                 hasData: bool, isLive: bool, liveSource: Option<string>,
                                 lastUpdate: Option<Millis>, chartData: ChartData,
                                 bid: Option<real>, ask: Option<real>, error: Option<string>)

  /** JavaScript's `s || fallback` for a string. */
  function OrElse(s: string, fallback: string): (r: string)
    ensures s != "" ==> r == s
    ensures s == "" ==> r == fallback
  {
    if s != "" then s else fallback
  }

  function Max(a: real, b: real): real { if a >= b then a else b }

  function Min(a: real, b: real): real { if a <= b then a else b }

  // ---------------------------------------------------------------------------
  // Candles.

  /** Low and high bracket both the open and the close. */
  predicate WellFormed(b: Bar) {
    b.l <= b.o <= b.h && b.l <= b.c <= b.h
  }

  predicate AllWellFormed(s: seq<Bar>) {
    forall i :: 0 <= i < |s| ==> WellFormed(s[i])
  }

  /** Candle start times strictly increase along the series. */
  predicate Increasing(s: seq<Bar>) {
    forall i, j :: 0 <= i < j < |s| ==> s[i].x < s[j].x
  }

  /** A trade folded into an existing candle (in `updateDailyCandle` and `updateIntradayCandle`). */
  function MergeTrade(candle: Bar, price: real, size: nat): (r: Bar)
    ensures r.x == candle.x && r.o == candle.o && r.c == price && r.volume == candle.volume + size
    ensures r.l <= r.c <= r.h
    ensures r.h >= candle.h && (r.h == candle.h || r.h == price)
    ensures r.l <= candle.l && (r.l == candle.l || r.l == price)
    ensures WellFormed(candle) ==> WellFormed(r)
  {
    candle.(h := Max(candle.h, price), l := Min(candle.l, price), c := price, volume := candle.volume + size)
  }

  /** A candle opened by a single trade. */
  function NewCandle(x: Millis, price: real, size: nat): Bar {
    Bar(x, price, price, price, price, size)
  }

  /** `updateDailyCandle` on the daily series. */
  function DailyAfterTrade(daily: seq<Bar>, price: real, size: nat, timestamp: Millis,
                           today: Millis, midnight: Millis -> Millis): seq<Bar>
  {
    if daily == [] then daily
    else
      var last := daily[|daily| - 1];
      if midnight(last.x) == today then daily[|daily| - 1 := MergeTrade(last, price, size)]
      else if timestamp >= today then daily + [NewCandle(today, price, size)]
      else daily
  }

  /** Today's candle absorbs the trade; otherwise a trade from today opens
      exactly one new candle; anything else leaves the series alone. No case
      breaks a well-formed series. */
  lemma DailyAfterTradeSpec(daily: seq<Bar>, price: real, size: nat, timestamp: Millis,
                            today: Millis, midnight: Millis -> Millis)
    ensures var r := DailyAfterTrade(daily, price, size, timestamp, today, midnight);
            && (daily == [] ==> r == [])
            && (daily != [] && midnight(daily[|daily| - 1].x) == today ==>
                  |r| == |daily| && r[..|daily| - 1] == daily[..|daily| - 1]
                  && r[|daily| - 1] == MergeTrade(daily[|daily| - 1], price, size))
            && (daily != [] && midnight(daily[|daily| - 1].x) != today && timestamp >= today ==>
                  |r| == |daily| + 1 && r[..|daily|] == daily
                  && var n := r[|daily|];
                     n.x == today && n.o == price && n.h == price && n.l == price && n.c == price && n.volume == size)
            && (daily != [] && midnight(daily[|daily| - 1].x) != today && timestamp < today ==> r == daily)
            && (AllWellFormed(daily) ==> AllWellFormed(r))
  {
    var r := DailyAfterTrade(daily, price, size, timestamp, today, midnight);
    if daily != [] && midnight(daily[|daily| - 1].x) == today {
      assert r[..|daily| - 1] == daily[..|daily| - 1];
    }
    if daily != [] && midnight(daily[|daily| - 1].x) != today && timestamp >= today {
      assert r[..|daily|] == daily;
    }
  }

  /** The start of the minute holding ts (`currentBar` in `updateIntradayCandle`). */
  function MinuteBucket(ts: Millis): (r: Millis)
    ensures r <= ts < r + MinuteMillis
    ensures r % MinuteMillis == 0
  {
    ts / MinuteMillis * MinuteMillis
  }

  /** After a `push`, `if (length > 390) shift()`: drop the oldest bar. */
  function CapAfterPush(s: seq<Bar>): seq<Bar> {
    if |s| > IntradayCap then s[1..] else s
  }

  /** A trade folded into the one-minute series (`updateIntradayCandle`). */
  function IntradayAfterTrade(intraday: seq<Bar>, price: real, size: nat, timestamp: Millis): seq<Bar> {
    var bucket := MinuteBucket(timestamp);
    if intraday == [] then [NewCandle(bucket, price, size)]
    else
      var last := intraday[|intraday| - 1];
      if last.x == bucket then intraday[|intraday| - 1 := MergeTrade(last, price, size)]
      else if bucket > last.x then CapAfterPush(intraday + [NewCandle(bucket, price, size)])
      else intraday
  }

  /** The same minute merges into the last candle, a later minute appends a
      candle starting on the minute boundary (dropping the oldest when the
      series outgrows 390), an earlier minute is ignored. */
  lemma IntradayAfterTradeSpec(intraday: seq<Bar>, price: real, size: nat, timestamp: Millis)
    ensures var r := IntradayAfterTrade(intraday, price, size, timestamp);
            var bucket := MinuteBucket(timestamp);
            && (intraday == [] ==> r == [NewCandle(bucket, price, size)])
            && (intraday != [] && intraday[|intraday| - 1].x == bucket ==>
                  |r| == |intraday| && r[..|intraday| - 1] == intraday[..|intraday| - 1]
                  && r[|intraday| - 1] == MergeTrade(intraday[|intraday| - 1], price, size))
            && (intraday != [] && bucket > intraday[|intraday| - 1].x ==>
                  r != [] && r[|r| - 1] == NewCandle(bucket, price, size)
                  && (|intraday| < IntradayCap ==> r == intraday + [NewCandle(bucket, price, size)])
                  && (|intraday| >= IntradayCap ==> r == intraday[1..] + [NewCandle(bucket, price, size)]))
            && (intraday != [] && bucket < intraday[|intraday| - 1].x ==> r == intraday)
  {
    var r := IntradayAfterTrade(intraday, price, size, timestamp);
    var bucket := MinuteBucket(timestamp);
    if intraday != [] && intraday[|intraday| - 1].x == bucket {
      assert r[..|intraday| - 1] == intraday[..|intraday| - 1];
    }
    if intraday != [] && bucket > intraday[|intraday| - 1].x && |intraday| >= IntradayCap {
      assert (intraday + [NewCandle(bucket, price, size)])[1..] == intraday[1..] + [NewCandle(bucket, price, size)];
    }
  }

  /** A trade never lets a series of at most 390 bars outgrow 390, keeps candle
      start times increasing and keeps every candle well-formed. */
  lemma IntradayAfterTradeKeeps(intraday: seq<Bar>, price: real, size: nat, timestamp: Millis)
    ensures var r := IntradayAfterTrade(intraday, price, size, timestamp);
            && (|intraday| <= IntradayCap ==> |r| <= IntradayCap)
            && |r| <= |intraday| + 1
            && (Increasing(intraday) ==> Increasing(r))
            && (AllWellFormed(intraday) ==> AllWellFormed(r))
  {
    var r := IntradayAfterTrade(intraday, price, size, timestamp);
    var bucket := MinuteBucket(timestamp);
    IntradayAfterTradeSpec(intraday, price, size, timestamp);
    if intraday != [] && bucket > intraday[|intraday| - 1].x {
      var pushed := intraday + [NewCandle(bucket, price, size)];
      if Increasing(intraday) {
        assert Increasing(pushed) by {
          forall i, j | 0 <= i < j < |pushed|
            ensures pushed[i].x < pushed[j].x
          {
            if j == |intraday| {
              assert pushed[i] == intraday[i];
              if i < |intraday| - 1 {
                assert intraday[i].x < intraday[|intraday| - 1].x;
              }
            }
          }
        }
        assert Increasing(r) by {
          if |pushed| > IntradayCap {
            forall i, j | 0 <= i < j < |r|
              ensures r[i].x < r[j].x
            {
              assert r[i] == pushed[i + 1] && r[j] == pushed[j + 1];
            }
          }
        }
      }
      if AllWellFormed(intraday) {
        assert AllWellFormed(pushed);
        if |pushed| > IntradayCap {
          assert forall i :: 0 <= i < |r| ==> r[i] == pushed[i + 1];
        }
      }
    }
  }

  /** The `bar` branch of `connectWebSocket` on the one-minute series: the
      same local hour and minute replaces the last bar, anything else appends;
      a series without a last bar is left alone. */
  function IntradayAfterBar(intraday: seq<Bar>, bar: Bar, hourMinute: Millis -> (int, int)): seq<Bar> {
    if intraday == [] then intraday
    else if hourMinute(intraday[|intraday| - 1].x) == hourMinute(bar.x) then intraday[|intraday| - 1 := bar]
    else CapAfterPush(intraday + [bar])
  }

  /** A non-empty series ends with the new bar, keeps the bars before its
      last one (all of them, or all but the oldest once past 390) and never
      outgrows 390 when it started within it. */
  lemma IntradayAfterBarSpec(intraday: seq<Bar>, bar: Bar, hourMinute: Millis -> (int, int))
    ensures var r := IntradayAfterBar(intraday, bar, hourMinute);
            && (intraday == [] ==> r == [])
            && (intraday != [] ==> r != [] && r[|r| - 1] == bar)
            && (intraday != [] && hourMinute(intraday[|intraday| - 1].x) == hourMinute(bar.x) ==>
                  r == intraday[..|intraday| - 1] + [bar])
            && (intraday != [] && hourMinute(intraday[|intraday| - 1].x) != hourMinute(bar.x) ==>
                  (|intraday| < IntradayCap ==> r == intraday + [bar])
                  && (|intraday| >= IntradayCap ==> r == intraday[1..] + [bar]))
            && (|intraday| <= IntradayCap ==> |r| <= IntradayCap)
            && (WellFormed(bar) && AllWellFormed(intraday) ==> AllWellFormed(r))
  {
    var r := IntradayAfterBar(intraday, bar, hourMinute);
    if intraday != [] {
      if hourMinute(intraday[|intraday| - 1].x) == hourMinute(bar.x) {
        assert r == intraday[..|intraday| - 1] + [bar];
      } else if |intraday| >= IntradayCap {
        assert (intraday + [bar])[1..] == intraday[1..] + [bar];
      }
    }
  }

  // ---------------------------------------------------------------------------
  // Live prices.

  /** The record a `trade` message installs, replacing any earlier one. */
  function TradePrice(price: real, size: nat, timestamp: Millis): LivePrice {
    LivePrice(Some(price), Some(timestamp), Some(size), Some("trade"), None, None, None, None)
  }

  /** The record after a `quote`: the earlier record with bid and ask set;
      its source survives unless missing or empty (the `quote` branch of `connectWebSocket`). */
  function AfterQuote(prev: Option<LivePrice>, bidPrice: real, bidSize: nat, askPrice: real, askSize: nat): (r: LivePrice)
    ensures prev.Some? ==> r.price == prev.value.price && r.timestamp == prev.value.timestamp && r.size == prev.value.size
    ensures prev.None? ==> r.price.None? && r.timestamp.None? && r.size.None?
    ensures r.bid == Some(bidPrice) && r.ask == Some(askPrice) && r.bidSize == Some(bidSize) && r.askSize == Some(askSize)
    ensures prev.Some? && prev.value.source.Some? && prev.value.source.value != "" ==> r.source == prev.value.source
    ensures !(prev.Some? && prev.value.source.Some? && prev.value.source.value != "") ==> r.source == Some("quote")
  {
    var base := if prev.Some? then prev.value else NoLivePrice;
    var src := if base.source.Some? then OrElse(base.source.value, "quote") else "quote";
    base.(bid := Some(bidPrice), ask := Some(askPrice), bidSize := Some(bidSize), askSize := Some(askSize), source := Some(src))
  }

  /** The record after a `price_update`: price, time and source replaced,
      bid and ask kept (the `price_update` branch). */
  function AfterPriceUpdate(prev: Option<LivePrice>, price: real, timestamp: Millis, source: string): (r: LivePrice)
    ensures r.price == Some(price) && r.timestamp == Some(timestamp)
    ensures r.source == Some(if source != "" then source else "rest")
    ensures prev.Some? ==> r.bid == prev.value.bid && r.ask == prev.value.ask && r.size == prev.value.size
                           && r.bidSize == prev.value.bidSize && r.askSize == prev.value.askSize
    ensures prev.None? ==> r.bid.None? && r.ask.None? && r.size.None?
  {
    var base := if prev.Some? then prev.value else NoLivePrice;
    base.(price := Some(price), timestamp := Some(timestamp), source := Some(OrElse(source, "rest")))
  }

  /** The record a snapshot's `price_update` item installs (the `snapshot` branch). */
  function SnapshotPrice(price: real, timestamp: Millis, source: string): LivePrice {
    LivePrice(Some(price), Some(timestamp), None, Some(OrElse(source, "cached")), None, None, None, None)
  }

  function Lookup<V>(m: map<Symbol, V>, s: Symbol): Option<V> {
    if s in m then Some(m[s]) else None
  }

  /** The snapshot's `forEach`: bar items set the realtime bar, price items the
      live price, any other item is skipped. */
  function ApplySnapshot(items: seq<ClientEvent>, realtime: map<Symbol, Bar>, prices: map<Symbol, LivePrice>)
    : (map<Symbol, Bar>, map<Symbol, LivePrice>)
    decreases |items|
  {
    if items == [] then (realtime, prices)
    else
      var before := ApplySnapshot(items[..|items| - 1], realtime, prices);
      var item := items[|items| - 1];
      match item
      case BarEvent(s, bar) => (before.0[s := bar], before.1)
      case PriceUpdate(s, p, t, src) => (before.0, before.1[s := SnapshotPrice(p, t, src)])
      case _ => before
  }

  /** Applying two runs of items is applying the first, then the second. */
  lemma {:induction false} ApplySnapshotConcat(a: seq<ClientEvent>, b: seq<ClientEvent>,
                                               realtime: map<Symbol, Bar>, prices: map<Symbol, LivePrice>)
    ensures var mid := ApplySnapshot(a, realtime, prices);
            ApplySnapshot(a + b, realtime, prices) == ApplySnapshot(b, mid.0, mid.1)
    decreases |b|
  {
    if b == [] {
      assert a + b == a;
    } else {
      ApplySnapshotConcat(a, b[..|b| - 1], realtime, prices);
      assert (a + b)[..|a + b| - 1] == a + b[..|b| - 1];
    }
  }

  // ---------------------------------------------------------------------------
  // The store.

  class Store {
    var data: map<Symbol, ChartData>
    var loading: bool
    var realtimeUpdates: map<Symbol, Bar>
    var currentPrices: map<Symbol, LivePrice>
    /** None is the `null` a successful load stores. */
    var errors: map<Symbol, Option<string>>

    constructor ()
      ensures data == map[] && !loading && realtimeUpdates == map[] && currentPrices == map[] && errors == map[]
    {
      data := map[];
      loading := false;
      realtimeUpdates := map[];
      currentPrices := map[];
      errors := map[];
    }

    /** `loadTickers`: fetch every ticker in turn, then replace the chart
        data and the errors wholesale; a failed fetch leaves empty series and
        its message (or a generic one). */
    method LoadTickers(tickers: seq<Symbol>, fetch: Symbol -> FetchResult)
      modifies this`data, this`errors, this`loading
      ensures data.Keys == Elems(tickers) && errors.Keys == Elems(tickers)
      ensures forall t :: t in tickers ==> data[t] == ChartOf(fetch(t)) && errors[t] == ErrorOf(fetch(t))
      ensures !loading
    {
      loading := true;
      var newData: map<Symbol, ChartData> := map[];
      var newErrors: map<Symbol, Option<string>> := map[];
      var i := 0;
      while i < |tickers|
        invariant 0 <= i <= |tickers|
        invariant newData.Keys == Elems(tickers[..i]) && newErrors.Keys == Elems(tickers[..i])
        invariant forall t :: t in newData ==> newData[t] == ChartOf(fetch(t)) && newErrors[t] == ErrorOf(fetch(t))
        modifies {}
      {
        ElemsPrefix(tickers, i);
        var ticker := tickers[i];
        match fetch(ticker) {
          case Loaded(chart) =>
            newData := newData[ticker := chart];
            newErrors := newErrors[ticker := None];
          case Failed(message) =>
            newData := newData[ticker := NoChart];
            newErrors := newErrors[ticker := Some(OrElse(message, "Failed to load data"))];
        }
        i := i + 1;
      }
      assert tickers[..i] == tickers;
      data := newData;
      errors := newErrors;
      loading := false;
    }

    /** `updateDailyCandle`: a ticker without data is left alone. */
    method UpdateDailyCandle(symbol: Symbol, price: real, size: nat, timestamp: Millis,
                             today: Millis, midnight: Millis -> Millis)
      modifies this`data
      ensures data == TradeOnDaily(old(data), symbol, price, size, timestamp, today, midnight)
    {
      if symbol !in data {
        return;
      }
      var daily := data[symbol].daily;
      if |daily| == 0 {
        return;
      }
      var lastCandle := daily[|daily| - 1];
      if midnight(lastCandle.x) == today {
        daily := daily[|daily| - 1 := MergeTrade(lastCandle, price, size)];
      } else if timestamp >= today {
        daily := daily + [NewCandle(today, price, size)];
      }
      data := data[symbol := data[symbol].(daily := daily)];
    }

    /** The body of `updateIntradayCandle`, without its throttle. */
    method UpdateIntradayCandle(symbol: Symbol, price: real, size: nat, timestamp: Millis)
      modifies this`data
      ensures data == TradeOnIntraday(old(data), symbol, price, size, timestamp)
    {
      var currentBar := timestamp / MinuteMillis * MinuteMillis;
      if symbol !in data {
        return;
      }
      var intraday := data[symbol].intraday;
      if |intraday| == 0 {
        intraday := [NewCandle(currentBar, price, size)];
      } else {
        var lastCandle := intraday[|intraday| - 1];
        if lastCandle.x == currentBar {
          intraday := intraday[|intraday| - 1 := MergeTrade(lastCandle, price, size)];
        } else if currentBar > lastCandle.x {
          intraday := intraday + [NewCandle(currentBar, price, size)];
          if |intraday| > IntradayCap {
            intraday := intraday[1..];
          }
        }
      }
      data := data[symbol := data[symbol].(intraday := intraday)];
    }

    /** The realtime `bar` branch's chart update. */
    method ApplyBar(symbol: Symbol, bar: Bar, hourMinute: Millis -> (int, int))
      modifies this`data
      ensures data == BarOnIntraday(old(data), symbol, bar, hourMinute)
    {
      if symbol in data {
        var intraday := data[symbol].intraday;
        if |intraday| > 0 {
          var lastBar := intraday[|intraday| - 1];
          if hourMinute(lastBar.x) == hourMinute(bar.x) {
            intraday := intraday[|intraday| - 1 := bar];
          } else {
            intraday := intraday + [bar];
            if |intraday| > IntradayCap {
              intraday := intraday[1..];
            }
          }
          data := data[symbol := data[symbol].(intraday := intraday)];
        }
      }
    }

    /** The `connectWebSocket` message callback, one message at a time. */
    method HandleUpdate(ev: ClientEvent, today: Millis, midnight: Millis -> Millis, hourMinute: Millis -> (int, int))
      modifies this`data, this`realtimeUpdates, this`currentPrices
      ensures ev.BarEvent? ==>
                realtimeUpdates == old(realtimeUpdates)[ev.symbol := ev.bar] && currentPrices == old(currentPrices)
                && data == BarOnIntraday(old(data), ev.symbol, ev.bar, hourMinute)
      ensures ev.TradeEvent? ==>
                currentPrices == old(currentPrices)[ev.symbol := TradePrice(ev.price, ev.size, ev.timestamp)]
                && realtimeUpdates == old(realtimeUpdates)
                && data == TradeOnIntraday(TradeOnDaily(old(data), ev.symbol, ev.price, ev.size, ev.timestamp, today, midnight),
                                           ev.symbol, ev.price, ev.size, ev.timestamp)
      ensures ev.QuoteEvent? ==>
                currentPrices == old(currentPrices)[ev.symbol :=
                  AfterQuote(Lookup(old(currentPrices), ev.symbol), ev.bidPrice, ev.bidSize, ev.askPrice, ev.askSize)]
                && realtimeUpdates == old(realtimeUpdates) && data == old(data)
      ensures ev.PriceUpdate? ==>
                currentPrices == old(currentPrices)[ev.symbol :=
                  AfterPriceUpdate(Lookup(old(currentPrices), ev.symbol), ev.price, ev.timestamp, ev.source)]
                && realtimeUpdates == old(realtimeUpdates)
                && data == TradeOnIntraday(TradeOnDaily(old(data), ev.symbol, ev.price, 0, ev.timestamp, today, midnight),
                                           ev.symbol, ev.price, 0, ev.timestamp)
      ensures ev.Snapshot? ==>
                (realtimeUpdates, currentPrices) == ApplySnapshot(ev.items, old(realtimeUpdates), old(currentPrices))
                && data == old(data)
      ensures ev.Subscribed? ==>
                realtimeUpdates == old(realtimeUpdates) && currentPrices == old(currentPrices) && data == old(data)
    {
      match ev
      case BarEvent(symbol, bar) =>
        realtimeUpdates := realtimeUpdates[symbol := bar];
        ApplyBar(symbol, bar, hourMinute);
      case TradeEvent(symbol, price, size, timestamp, _) =>
        currentPrices := currentPrices[symbol := TradePrice(price, size, timestamp)];
        UpdateDailyCandle(symbol, price, size, timestamp, today, midnight);
        UpdateIntradayCandle(symbol, price, size, timestamp);
      case QuoteEvent(symbol, bidPrice, bidSize, askPrice, askSize, _) =>
        currentPrices := currentPrices[symbol := AfterQuote(Lookup(currentPrices, symbol), bidPrice, bidSize, askPrice, askSize)];
      case PriceUpdate(symbol, price, timestamp, source) =>
        currentPrices := currentPrices[symbol := AfterPriceUpdate(Lookup(currentPrices, symbol), price, timestamp, source)];
        UpdateDailyCandle(symbol, price, 0, timestamp, today, midnight);
        UpdateIntradayCandle(symbol, price, 0, timestamp);
      case Snapshot(items) =>
        var i := 0;
        while i < |items|
          invariant 0 <= i <= |items|
          invariant (realtimeUpdates, currentPrices) == ApplySnapshot(items[..i], old(realtimeUpdates), old(currentPrices))
          invariant data == old(data)
        {
          assert items[..i + 1][..i] == items[..i];
          match items[i] {
            case BarEvent(s, bar) =>
              realtimeUpdates := realtimeUpdates[s := bar];
            case PriceUpdate(s, p, t, src) =>
              currentPrices := currentPrices[s := SnapshotPrice(p, t, src)];
            case _ =>
          }
          i := i + 1;
        }
        assert items[..i] == items;
      case Subscribed(_) =>
    }

    /** `getStockData(ticker)`: the card's figures. */
    function GetStockData(ticker: Symbol): (r: StockView)
      reads this`data, this`realtimeUpdates, this`currentPrices, this`errors
      ensures r.ticker == ticker && r.chartData == (if ticker in data then data[ticker] else NoChart)
      ensures r.hasData <==> Latest(ticker).Some? || ticker in currentPrices
      ensures !r.hasData ==> r.price == 0.0 && r.open == 0.0 && r.change == 0.0 && r.changePercent == 0.0 && !r.isLive
      ensures r.change == r.price - r.open
      ensures r.changePercent == PercentChange(r.change, r.open)
      ensures r.hasData && |r.chartData.intraday| > 0 ==> r.open == r.chartData.intraday[0].o
      ensures r.hasData && r.chartData.intraday == [] ==> r.open == (if Latest(ticker).Some? then Latest(ticker).value.o else 0.0)
      ensures r.hasData ==> r.isLive == (ticker in currentPrices)
      ensures ticker in currentPrices && currentPrices[ticker].price.Some? && currentPrices[ticker].price.value != 0.0 ==>
                r.price == currentPrices[ticker].price.value
      ensures r.hasData && !(ticker in currentPrices && currentPrices[ticker].price.Some? && currentPrices[ticker].price.value != 0.0) ==>
                r.price == (if Latest(ticker).Some? then Latest(ticker).value.c else 0.0)
      ensures r.error == (if ticker in errors then errors[ticker] else None)
    {
      var stockData := if ticker in data then data[ticker] else NoChart;
      var currentPrice := Lookup(currentPrices, ticker);
      var error := if ticker in errors then errors[ticker] else None;
      var latest := Latest(ticker);
      if latest.None? && currentPrice.None? then
        StockView(ticker, 0.0, 0.0, 0.0, 0.0, false, false, None, None, stockData, None, None, error)
      else
        var todayOpen :=
          if |stockData.intraday| > 0 then stockData.intraday[0].o
          else if latest.Some? && latest.value.o != 0.0 then latest.value.o
          else 0.0;
        var price :=
          if currentPrice.Some? && currentPrice.value.price.Some? && currentPrice.value.price.value != 0.0
          then currentPrice.value.price.value
          else if latest.Some? && latest.value.c != 0.0 then latest.value.c
          else 0.0;
        var change := price - todayOpen;
        var changePercent := if todayOpen != 0.0 then change / todayOpen * 100.0 else 0.0;
        var lastUpdate :=
          if currentPrice.Some? && currentPrice.value.timestamp.Some? then currentPrice.value.timestamp
          else if latest.Some? then Some(latest.value.x) else None;
        StockView(ticker, price, todayOpen, change, changePercent, true, currentPrice.Some?,
                  if currentPrice.Some? then currentPrice.value.source else None,
                  lastUpdate, stockData,
                  if currentPrice.Some? then currentPrice.value.bid else None,
                  if currentPrice.Some? then currentPrice.value.ask else None,
                  error)
    }

    /** `realtime || latestIntraday || latestDaily`. */
    function Latest(ticker: Symbol): (r: Option<Bar>)
      reads this`data, this`realtimeUpdates
      ensures ticker in realtimeUpdates ==> r == Some(realtimeUpdates[ticker])
      ensures ticker !in realtimeUpdates && ticker in data && data[ticker].intraday != [] ==>
                r == Some(data[ticker].intraday[|data[ticker].intraday| - 1])
      ensures ticker !in realtimeUpdates && ticker in data && data[ticker].intraday == [] && data[ticker].daily != [] ==>
                r == Some(data[ticker].daily[|data[ticker].daily| - 1])
      ensures r.None? <==> ticker !in realtimeUpdates && (ticker !in data || (data[ticker].intraday == [] && data[ticker].daily == []))
    {
      if ticker in realtimeUpdates then Some(realtimeUpdates[ticker])
      else if ticker in data && data[ticker].intraday != [] then Some(data[ticker].intraday[|data[ticker].intraday| - 1])
      else if ticker in data && data[ticker].daily != [] then Some(data[ticker].daily[|data[ticker].daily| - 1])
      else None
    }
  }

  /** The chart of a fetch result. */
  function ChartOf(f: FetchResult): ChartData {
    match f
    case Loaded(chart) => chart
    case Failed(_) => NoChart
  }

  /** The error entry of a fetch result: null, the message, or a generic text. */
  function ErrorOf(f: FetchResult): (r: Option<string>)
    ensures f.Loaded? <==> r.None?
    ensures f.Failed? ==> r.value != "" && (f.message != "" ==> r.value == f.message)
  {
    match f
    case Loaded(_) => None
    case Failed(message) => Some(OrElse(message, "Failed to load data"))
  }

  /** `updateDailyCandle` on the whole chart map. */
  function TradeOnDaily(data: map<Symbol, ChartData>, symbol: Symbol, price: real, size: nat, timestamp: Millis,
                        today: Millis, midnight: Millis -> Millis): (r: map<Symbol, ChartData>)
    ensures r.Keys == data.Keys
    ensures forall s :: s in data && s != symbol ==> r[s] == data[s]
    ensures symbol in data ==> r[symbol].intraday == data[symbol].intraday
                               && r[symbol].daily == DailyAfterTrade(data[symbol].daily, price, size, timestamp, today, midnight)
  {
    if symbol !in data || data[symbol].daily == [] then data
    else data[symbol := data[symbol].(daily := DailyAfterTrade(data[symbol].daily, price, size, timestamp, today, midnight))]
  }

  /** `updateIntradayCandle` on the whole chart map. */
  function TradeOnIntraday(data: map<Symbol, ChartData>, symbol: Symbol, price: real, size: nat, timestamp: Millis)
    : (r: map<Symbol, ChartData>)
    ensures r.Keys == data.Keys
    ensures forall s :: s in data && s != symbol ==> r[s] == data[s]
    ensures symbol in data ==> r[symbol].daily == data[symbol].daily
                               && r[symbol].intraday == IntradayAfterTrade(data[symbol].intraday, price, size, timestamp)
  {
    if symbol !in data then data
    else data[symbol := data[symbol].(intraday := IntradayAfterTrade(data[symbol].intraday, price, size, timestamp))]
  }

  /** The realtime bar handler on the whole chart map. */
  function BarOnIntraday(data: map<Symbol, ChartData>, symbol: Symbol, bar: Bar, hourMinute: Millis -> (int, int))
    : (r: map<Symbol, ChartData>)
    ensures r.Keys == data.Keys
    ensures forall s :: s in data && s != symbol ==> r[s] == data[s]
    ensures symbol in data ==> r[symbol].daily == data[symbol].daily
                               && r[symbol].intraday == IntradayAfterBar(data[symbol].intraday, bar, hourMinute)
  {
    if symbol !in data || data[symbol].intraday == [] then data
    else data[symbol := data[symbol].(intraday := IntradayAfterBar(data[symbol].intraday, bar, hourMinute))]
  }

  /** `isMarketOpen`: closed on the host's Sunday and Saturday, otherwise open
      from 09:30 to 16:00 exchange time inclusive. */
  function IsMarketOpen(localDay: int, etMinutes: int): (r: bool)
    ensures localDay == 0 || localDay == 6 ==> !r
    ensures localDay != 0 && localDay != 6 ==> (r <==> 570 <= etMinutes <= 960)
    ensures r ==> InRegularHours(etMinutes)
    // On a weekday the client's test agrees with the window in which the hub
    // forwards trades.
    ensures localDay != 0 && localDay != 6 ==> (r <==> InRegularHours(etMinutes))
  {
    if localDay == 0 || localDay == 6 then false
    else etMinutes >= MarketOpenMinute && etMinutes <= MarketCloseMinute
  }
}
