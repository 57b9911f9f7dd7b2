/** Vocabulary shared by the server-side hub and the browser-side stores: symbols,
    minute bars, the messages the hub sends to its clients, the regular-hours
    window and the percent-change formula. */
module Market {

  /** A ticker such as "AAPL". */
  type Symbol = string

  /** Milliseconds since the epoch. */
  type Millis = nat

  /** An OHLCV candle `{x, o, h, l, c, volume}`; `x` is the start of its bucket. */
  datatype Bar = Bar(x: Millis, o: real, h: real, l: real, c: real, volume: nat)

  /** The messages the hub sends to a downstream client (the `type` field). */
  datatype ClientEvent =
    | BarEvent(symbol: Symbol, bar: Bar)
    | TradeEvent(symbol: Symbol, price: real, size: nat, timestamp: Millis, conditions: seq<string>)
    | QuoteEvent(symbol: Symbol, bidPrice: real, bidSize: nat, askPrice: real, askSize: nat, timestamp: Millis)
    | PriceUpdate(symbol: Symbol, price: real, timestamp: Millis, source: string)
    | Snapshot(items: seq<ClientEvent>)
    | Subscribed(symbols: seq<Symbol>)

  /** Regular trading hours, in minutes after midnight exchange time: 09:30 to 16:00. */
  const MarketOpenMinute: int := 570
  const MarketCloseMinute: int := 960

  /** The regular-hours test, both ends included. */
  predicate InRegularHours(minutes: int) {
    MarketOpenMinute <= minutes <= MarketCloseMinute
  }

  /** `open !== 0 ? (change / open) * 100 : 0`. */
  function PercentChange(change: real, open: real): (r: real)
    ensures open == 0.0 ==> r == 0.0
    ensures open != 0.0 ==> r * open == change * 100.0
    ensures open > 0.0 ==> (r > 0.0 <==> change > 0.0)
  {
    if open != 0.0 then change / open * 100.0 else 0.0
  }
}
