/** The market-data hub of server.js: one upstream streaming connection, many
    downstream clients, the subscribed-symbol set, the latest-bar and
    latest-price caches, the bounded reconnect counter and the REST poll that
    covers for a silent stream.

    Every socket send is an append to `outbound`, so what the hub says to the
    provider and to each client is part of its state. The wall clock, the
    REST fetch and the exchange-time conversion are inputs of the operations
    that use them. */
module Hub {
  import opened Common
  import opened Market

  /** The `readyState` of a WebSocket. */
  datatype ReadyState = Connecting | Open | Closing | Closed

  /** Identity of a downstream connection (the `ws` object). */
  type ClientId = nat

  /** Commands to the provider; a subscribe or unsubscribe names the same
      symbols for its `trades`, `quotes` and `bars` channels. */
  datatype UpstreamCommand = Auth | SubscribeCmd(symbols: seq<Symbol>) | UnsubscribeCmd(symbols: seq<Symbol>)

  /** One observable output of the hub. */
  datatype Outbound =
    | ToUpstream(cmd: UpstreamCommand)
    | ToClient(client: ClientId, event: ClientEvent)
    | FetchLatestTrade(symbol: Symbol)

  /** One element of an inbound provider frame. Control messages carry a `msg`
      field; data messages are discriminated by `T` (b, t, q); a trade carries
      its own exchange-time minute of day, the result of the time-zone
      conversion that is not modelled. */
  datatype AlpacaMessage =
    | Control(msg: string)
    | BarMsg(S: Symbol, t: Millis, o: real, h: real, l: real, c: real, v: nat)
    | TradeMsg(S: Symbol, t: Millis, p: real, s: nat, conditions: seq<string>, etMinutes: int)
    | QuoteMsg(S: Symbol, t: Millis, bp: real, bs: nat, ap: real, askSize: nat)
    | OtherMsg

  /** A parsed client message: a subscribe request, any other well-formed
      message, or text that failed to parse (or a `symbols` that is not a list). */
  datatype ClientRequest = SubscribeRequest(symbols: seq<Symbol>) | OtherRequest | Unparsable

  /** The `trade` of a successful latest-trade REST response. */
  datatype LatestTrade = LatestTrade(p: real, t: Millis)

  const MaxReconnectAttempts: nat := 5
  /** A symbol is polled when its last streamed trade is older than this. */
  const StaleAfter: int := 10000

  // ---------------------------------------------------------------------------
  // Pure parts: fan-out, reconciliation delta, snapshot, poll step.

  /** The sends of one `broadcast(ev)`: one per client whose state is OPEN, in
      the client set's order. */
  function Fanout(clients: seq<ClientId>, state: map<ClientId, ReadyState>, ev: ClientEvent): seq<Outbound>
    decreases |clients|
  {
    if clients == [] then []
    else
      var c := clients[|clients| - 1];
      Fanout(clients[..|clients| - 1], state, ev)
        + (if c in state && state[c] == Open then [ToClient(c, ev)] else [])
  }

  /** `broadcast` reaches exactly the clients that are OPEN, each once, and
      carries the same event to all of them. */
  lemma {:induction false} FanoutSpec(clients: seq<ClientId>, state: map<ClientId, ReadyState>, ev: ClientEvent)
    requires Distinct(clients)
    ensures forall o :: o in Fanout(clients, state, ev) ==>
              o.ToClient? && o.event == ev && o.client in clients && o.client in state && state[o.client] == Open
    ensures forall c :: c in clients && c in state && state[c] == Open <==> ToClient(c, ev) in Fanout(clients, state, ev)
    ensures Distinct(Fanout(clients, state, ev))
    decreases |clients|
  {
    if clients != [] {
      var init := clients[..|clients| - 1];
      FanoutSpec(init, state, ev);
      assert forall c :: c in clients <==> c in init || c == clients[|clients| - 1];
    }
  }

  /** The `toSubscribe` and `toUnsubscribe` filters of `updateSubscriptions`:
      the symbols to subscribe (requested, not yet current) and to unsubscribe
      (current, no longer requested). */
  function Reconcile(requested: seq<Symbol>, current: seq<Symbol>): (seq<Symbol>, seq<Symbol>)
  {
    (Without(requested, Elems(current)), Without(current, Elems(requested)))
  }

  /** The two deltas are the two set differences, they are disjoint, and
      applying them turns the current set into the requested one. They are
      both empty exactly when the two sets already agree. */
  lemma ReconcileSpec(requested: seq<Symbol>, current: seq<Symbol>)
    ensures var d := Reconcile(requested, current);
            && Elems(d.0) == Elems(requested) - Elems(current)
            && Elems(d.1) == Elems(current) - Elems(requested)
            && Elems(d.0) !! Elems(d.1)
            && (Distinct(requested) ==> Distinct(d.0))
            && (Distinct(current) ==> Distinct(d.1))
            && Elems(Without(AddAll(current, d.0), Elems(d.1))) == Elems(requested)
            && (d == ([], []) <==> Elems(requested) == Elems(current))
  {
    var d := Reconcile(requested, current);
    WithoutSpec(requested, Elems(current));
    WithoutSpec(current, Elems(requested));
    AddAllSpec(current, d.0);
    WithoutSpec(AddAll(current, d.0), Elems(d.1));
    if d.0 != [] {
      assert d.0[0] in Elems(d.0);
    }
    if d.1 != [] {
      assert d.1[0] in Elems(d.1);
    }
  }

  /** The upstream commands `updateSubscriptions` issues for a delta: a
      subscribe for a non-empty first part, then an unsubscribe for a
      non-empty second part. */
  function DeltaCommands(d: (seq<Symbol>, seq<Symbol>)): (r: seq<Outbound>)
    ensures |r| <= 2
    ensures r == [] <==> d.0 == [] && d.1 == []
    ensures forall o :: o in r ==> o == ToUpstream(SubscribeCmd(d.0)) || o == ToUpstream(UnsubscribeCmd(d.1))
    ensures ToUpstream(SubscribeCmd(d.0)) in r <==> d.0 != []
    ensures ToUpstream(UnsubscribeCmd(d.1)) in r <==> d.1 != []
    ensures |r| == 2 ==> r[0] == ToUpstream(SubscribeCmd(d.0)) && r[1] == ToUpstream(UnsubscribeCmd(d.1))
  {
    (if |d.0| > 0 then [ToUpstream(SubscribeCmd(d.0))] else [])
      + (if |d.1| > 0 then [ToUpstream(UnsubscribeCmd(d.1))] else [])
  }

  /** The part of the hub's state that subscribing and unsubscribing touch:
      the subscribed set, the price cache, the trade-time map and the log of
      sends. */
  datatype Subscriptions = Subscriptions(symbols: seq<Symbol>, prices: OMap<Symbol, real>,
                                         times: map<Symbol, Millis>, sent: seq<Outbound>)
  {
    predicate Valid() {
      Distinct(symbols) && prices.Valid()
    }
  }

  /** `subscribeToSymbols` on an open upstream socket. */
  function AfterSubscribe(st: Subscriptions, symbols: seq<Symbol>): Subscriptions {
    st.(symbols := AddAll(st.symbols, symbols), sent := st.sent + [ToUpstream(SubscribeCmd(symbols))])
  }

  /** `unsubscribeFromSymbols` on an open upstream socket. */
  function AfterUnsubscribe(st: Subscriptions, symbols: seq<Symbol>): Subscriptions {
    var gone := Elems(symbols);
    Subscriptions(Without(st.symbols, gone), st.prices.DeleteKeys(gone), st.times - gone,
                  st.sent + [ToUpstream(UnsubscribeCmd(symbols))])
  }

  /** Subscribing adds the symbols to the set, once each, and leaves the
      caches alone. */
  lemma AfterSubscribeSpec(st: Subscriptions, symbols: seq<Symbol>)
    requires st.Valid()
    ensures var r := AfterSubscribe(st, symbols);
            && r.Valid()
            && Elems(r.symbols) == Elems(st.symbols) + Elems(symbols)
            && r.prices == st.prices && r.times == st.times
  {
    AddAllSpec(st.symbols, symbols);
  }

  /** Unsubscribing takes the symbols out of the set, the price cache and the
      trade-time map, and out of nothing else. */
  lemma AfterUnsubscribeSpec(st: Subscriptions, symbols: seq<Symbol>)
    requires st.Valid()
    ensures var r := AfterUnsubscribe(st, symbols);
            && r.Valid()
            && Elems(r.symbols) == Elems(st.symbols) - Elems(symbols)
            && (forall s :: s in r.prices.vals <==> s in st.prices.vals && s !in symbols)
            && (forall s :: s in r.prices.vals ==> r.prices.vals[s] == st.prices.vals[s])
            && (forall s :: s in r.times <==> s in st.times && s !in symbols)
  {
    WithoutSpec(st.symbols, Elems(symbols));
  }

  /** The unsubscribe loop on values: each symbol in turn leaves the
      subscribed set, the price cache and the trade-time map. */
  function DropSymbols(subs: seq<Symbol>, prices: OMap<Symbol, real>, times: map<Symbol, Millis>, symbols: seq<Symbol>)
    : (seq<Symbol>, OMap<Symbol, real>, map<Symbol, Millis>)
    decreases |symbols|
  {
    if symbols == [] then (subs, prices, times)
    else
      var r := DropSymbols(subs, prices, times, symbols[..|symbols| - 1]);
      var s := symbols[|symbols| - 1];
      (Without(r.0, {s}), r.1.DeleteKeys({s}), r.2 - {s})
  }

  /** Dropping the symbols one by one drops them all at once. */
  lemma {:induction false} DropSymbolsSpec(subs: seq<Symbol>, prices: OMap<Symbol, real>, times: map<Symbol, Millis>,
                                           symbols: seq<Symbol>)
    ensures DropSymbols(subs, prices, times, symbols)
            == (Without(subs, Elems(symbols)), prices.DeleteKeys(Elems(symbols)), times - Elems(symbols))
    decreases |symbols|
  {
    if symbols == [] {
      assert Elems(symbols) == {};
      WithoutNone(subs);
      WithoutNone(prices.keys);
      assert prices.vals - {} == prices.vals;
      assert times - {} == times;
    } else {
      var init, s := symbols[..|symbols| - 1], symbols[|symbols| - 1];
      DropSymbolsSpec(subs, prices, times, init);
      assert Elems(symbols) == Elems(init) + {s} by {
        ElemsConcat(init, [s]);
        assert init + [s] == symbols;
      }
      WithoutWithout(subs, Elems(init), {s});
      DeleteKeysTwice(prices, Elems(init), {s});
      MapMinusTwice(times, Elems(init), {s});
    }
  }

  /** `updateSubscriptions(clientSymbols)` on an open upstream socket: the
      deduplicated request is reconciled against the current set; the first
      delta is subscribed, then the second unsubscribed. */
  function AfterReconcile(st: Subscriptions, clientSymbols: seq<Symbol>): Subscriptions {
    var d := Reconcile(AddAll([], clientSymbols), st.symbols);
    var afterSubscribe := if |d.0| > 0 then AfterSubscribe(st, d.0) else st;
    if |d.1| > 0 then AfterUnsubscribe(afterSubscribe, d.1) else afterSubscribe
  }

  /** Reconciling makes the subscribed set the requested set; the caches lose
      exactly the symbols no longer requested; the provider is sent the delta
      commands and nothing else; and a request for the current set changes
      nothing at all. */
  lemma AfterReconcileSpec(st: Subscriptions, clientSymbols: seq<Symbol>)
    requires st.Valid()
    ensures var r := AfterReconcile(st, clientSymbols);
            var removed := Elems(st.symbols) - Elems(clientSymbols);
            && r.Valid()
            && Elems(r.symbols) == Elems(clientSymbols)
            && r.prices == st.prices.DeleteKeys(removed)
            && r.times == st.times - removed
            && r.sent == st.sent + DeltaCommands(Reconcile(AddAll([], clientSymbols), st.symbols))
            && (Elems(st.symbols) == Elems(clientSymbols) ==> r == st)
  {
    var requested := AddAll([], clientSymbols);
    var d := Reconcile(requested, st.symbols);
    var removed := Elems(st.symbols) - Elems(clientSymbols);
    assert Elems(requested) == Elems(clientSymbols) by { AddAllSpec([], clientSymbols); }
    ReconcileSpec(requested, st.symbols);
    assert Elems(d.1) == removed;
    var afterSubscribe := if |d.0| > 0 then AfterSubscribe(st, d.0) else st;
    assert afterSubscribe.Valid() && afterSubscribe.prices == st.prices && afterSubscribe.times == st.times
           && afterSubscribe.symbols == AddAll(st.symbols, d.0) by {
      if |d.0| > 0 {
        AfterSubscribeSpec(st, d.0);
      }
    }
    if |d.1| > 0 {
      AfterUnsubscribeSpec(afterSubscribe, d.1);
      ReconcileStepSent(st.sent, d);
    } else {
      ReconcileNoRemoval(st, afterSubscribe, d);
      assert Elems(d.1) == {};
      WithoutNone(afterSubscribe.symbols);
    }
  }

  /** The log after both sends is the log plus the delta commands. */
  lemma ReconcileStepSent(sent: seq<Outbound>, d: (seq<Symbol>, seq<Symbol>))
    requires |d.1| > 0
    ensures (if |d.0| > 0 then sent + [ToUpstream(SubscribeCmd(d.0))] else sent) + [ToUpstream(UnsubscribeCmd(d.1))]
            == sent + DeltaCommands(d)
  {
    if |d.0| > 0 {
      assert sent + [ToUpstream(SubscribeCmd(d.0))] + [ToUpstream(UnsubscribeCmd(d.1))]
             == sent + ([ToUpstream(SubscribeCmd(d.0))] + [ToUpstream(UnsubscribeCmd(d.1))]);
    }
  }

  /** With nothing to unsubscribe, the caches are untouched. */
  lemma ReconcileNoRemoval(st: Subscriptions, afterSubscribe: Subscriptions, d: (seq<Symbol>, seq<Symbol>))
    requires |d.1| == 0 && afterSubscribe.prices == st.prices && afterSubscribe.times == st.times
    ensures afterSubscribe.prices == st.prices.DeleteKeys(Elems(d.1))
    ensures afterSubscribe.times == st.times - Elems(d.1)
  {
    assert Elems(d.1) == {};
    WithoutNone(st.prices.keys);
    assert st.prices.vals - {} == st.prices.vals;
    assert st.times - {} == st.times;
  }

  /** Asking twice for the same symbols sends the provider nothing the second
      time and leaves the state as the first request left it. */
  lemma ReconcileTwice(st: Subscriptions, clientSymbols: seq<Symbol>)
    requires st.Valid()
    ensures AfterReconcile(AfterReconcile(st, clientSymbols), clientSymbols) == AfterReconcile(st, clientSymbols)
  {
    AfterReconcileSpec(st, clientSymbols);
    AfterReconcileSpec(AfterReconcile(st, clientSymbols), clientSymbols);
  }

  /** The cached bars, in the bar map's order. */
  function BarItems(entries: seq<(Symbol, Bar)>): seq<ClientEvent>
    decreases |entries|
  {
    if entries == [] then []
    else
      var e := entries[|entries| - 1];
      BarItems(entries[..|entries| - 1]) + [BarEvent(e.0, e.1)]
  }

  /** One bar event per entry, position by position. */
  lemma {:induction false} BarItemsSpec(entries: seq<(Symbol, Bar)>)
    ensures |BarItems(entries)| == |entries|
    ensures forall i :: 0 <= i < |entries| ==> BarItems(entries)[i] == BarEvent(entries[i].0, entries[i].1)
    decreases |entries|
  {
    if entries != [] {
      BarItemsSpec(entries[..|entries| - 1]);
    }
  }

  /** A `cached` price update for every priced symbol that has no bar. */
  function CachedPriceItems(entries: seq<(Symbol, real)>, barred: set<Symbol>, now: Millis): seq<ClientEvent>
    decreases |entries|
  {
    if entries == [] then []
    else
      var e := entries[|entries| - 1];
      CachedPriceItems(entries[..|entries| - 1], barred, now)
        + (if e.0 in barred then [] else [PriceUpdate(e.0, e.1, now, "cached")])
  }

  /** The cached updates are exactly the entries whose symbol has no bar. */
  lemma {:induction false} CachedPriceItemsSpec(entries: seq<(Symbol, real)>, barred: set<Symbol>, now: Millis)
    ensures forall e :: e in CachedPriceItems(entries, barred, now) ==>
              e.PriceUpdate? && (e.symbol, e.price) in entries && e.symbol !in barred
              && e.timestamp == now && e.source == "cached"
    ensures forall p :: p in entries && p.0 !in barred ==> PriceUpdate(p.0, p.1, now, "cached") in CachedPriceItems(entries, barred, now)
    decreases |entries|
  {
    if entries != [] {
      var init := entries[..|entries| - 1];
      CachedPriceItemsSpec(init, barred, now);
      assert forall p :: p in entries <==> p in init || p == entries[|entries| - 1];
    }
  }

  /** The `snapshot` a new client receives from `addClient`: every cached bar,
      then a `cached` price update per priced symbol without a bar. */
  function SnapshotOf(bars: OMap<Symbol, Bar>, prices: OMap<Symbol, real>, now: Millis): seq<ClientEvent>
    requires bars.Valid() && prices.Valid()
  {
    BarItems(bars.Entries()) + CachedPriceItems(prices.Entries(), bars.vals.Keys, now)
  }

  /** The snapshot holds every cached bar and a price update for exactly the
      priced symbols that have no bar, nothing else, and is empty exactly when
      both caches are. */
  lemma SnapshotSpec(bars: OMap<Symbol, Bar>, prices: OMap<Symbol, real>, now: Millis)
    requires bars.Valid() && prices.Valid()
    ensures var r := SnapshotOf(bars, prices, now);
            && (forall s :: s in bars.vals ==> BarEvent(s, bars.vals[s]) in r)
            && (forall s :: s in prices.vals && s !in bars.vals ==> PriceUpdate(s, prices.vals[s], now, "cached") in r)
            && (forall e :: e in r ==>
                 (e.BarEvent? && e.symbol in bars.vals && e.bar == bars.vals[e.symbol])
                 || (e.PriceUpdate? && e.symbol in prices.vals && e.symbol !in bars.vals
                     && e.price == prices.vals[e.symbol] && e.timestamp == now && e.source == "cached"))
            && (r == [] <==> bars.vals == map[] && prices.vals == map[])
  {
    var barEntries, priceEntries := bars.Entries(), prices.Entries();
    var barPart := BarItems(barEntries);
    var pricePart := CachedPriceItems(priceEntries, bars.vals.Keys, now);
    BarItemsSpec(barEntries);
    CachedPriceItemsSpec(priceEntries, bars.vals.Keys, now);
    forall s | s in bars.vals
      ensures BarEvent(s, bars.vals[s]) in barPart
    {
      var i := IndexOf(bars.keys, s);
      assert barPart[i] == BarEvent(s, bars.vals[s]);
    }
    forall e | e in barPart
      ensures e.BarEvent? && e.symbol in bars.vals && e.bar == bars.vals[e.symbol]
    {
      var i :| 0 <= i < |barPart| && barPart[i] == e;
      assert barEntries[i] == (bars.keys[i], bars.vals[bars.keys[i]]);
    }
    forall s | s in prices.vals && s !in bars.vals
      ensures PriceUpdate(s, prices.vals[s], now, "cached") in pricePart
    {
      var i := IndexOf(prices.keys, s);
      assert priceEntries[i] == (s, prices.vals[s]);
    }
    forall e | e in pricePart
      ensures e.symbol in prices.vals && e.price == prices.vals[e.symbol]
    {
      var i :| 0 <= i < |priceEntries| && priceEntries[i] == (e.symbol, e.price);
      assert priceEntries[i] == (prices.keys[i], prices.vals[prices.keys[i]]);
    }
    if prices.vals != map[] && bars.vals == map[] {
      var s :| s in prices.vals;
      assert PriceUpdate(s, prices.vals[s], now, "cached") in pricePart;
    }
    if bars.vals != map[] {
      var s :| s in bars.vals;
      assert BarEvent(s, bars.vals[s]) in barPart;
    }
  }

  /** Unsubscribing X keeps X's bar: a later snapshot still carries it, and
      nothing else about X (`unsubscribeFromSymbols` leaves `latestBars` alone). */
  lemma SnapshotKeepsUnsubscribedBar(bars: OMap<Symbol, Bar>, prices: OMap<Symbol, real>, x: Symbol, now: Millis)
    requires bars.Valid() && prices.Valid() && x in bars.vals
    ensures BarEvent(x, bars.vals[x]) in SnapshotOf(bars, prices.DeleteKeys({x}), now)
    ensures forall e :: e in SnapshotOf(bars, prices.DeleteKeys({x}), now) ==> !(e.PriceUpdate? && e.symbol == x)
  {
    SnapshotSpec(bars, prices.DeleteKeys({x}), now);
  }

  /** No trade seen for more than ten seconds (an absent entry counts as 0). */
  predicate IsStale(lastTradeTime: map<Symbol, Millis>, s: Symbol, now: Millis) {
    now - (if s in lastTradeTime then lastTradeTime[s] else 0) > StaleAfter
  }

  /** Whether a fetched trade would change the cached price of s. */
  predicate PriceChanged(prices: OMap<Symbol, real>, s: Symbol, trade: LatestTrade) {
    !(s in prices.vals && prices.vals[s] == trade.p)
  }

  /** The poll body for one symbol: fetch when stale; on a returned trade whose
      price differs from the cache, store it and broadcast a `rest` update. */
  function PollStep(s: Symbol, prices: OMap<Symbol, real>, lastTradeTime: map<Symbol, Millis>, now: Millis,
                    fetch: Symbol -> Option<LatestTrade>, clients: seq<ClientId>, state: map<ClientId, ReadyState>)
    : (OMap<Symbol, real>, seq<Outbound>)
  {
    if !IsStale(lastTradeTime, s, now) then (prices, [])
    else
      match fetch(s)
      case None => (prices, [FetchLatestTrade(s)])
      case Some(trade) =>
        if !PriceChanged(prices, s, trade) then (prices, [FetchLatestTrade(s)])
        else (prices.Put(s, trade.p),
              [FetchLatestTrade(s)] + Fanout(clients, state, PriceUpdate(s, trade.p, trade.t, "rest")))
  }

  /** One poll step fetches s exactly when s is stale, touches no cached price
      but s's, and broadcasts only when a fetched price differs from the cached
      one (an identical price is neither stored nor sent). */
  lemma PollStepSpec(s: Symbol, prices: OMap<Symbol, real>, lastTradeTime: map<Symbol, Millis>, now: Millis,
                     fetch: Symbol -> Option<LatestTrade>, clients: seq<ClientId>, state: map<ClientId, ReadyState>)
    requires Distinct(clients)
    ensures var r := PollStep(s, prices, lastTradeTime, now, fetch, clients, state);
            && (prices.Valid() ==> r.0.Valid())
            && (forall x :: FetchLatestTrade(x) in r.1 <==> x == s && IsStale(lastTradeTime, s, now))
            && (forall x :: x != s ==> (x in r.0.vals <==> x in prices.vals) && (x in prices.vals ==> r.0.vals[x] == prices.vals[x]))
            && (forall o :: o in r.1 ==>
                 o == FetchLatestTrade(s)
                 || (o.ToClient? && fetch(s).Some? && o.event == PriceUpdate(s, fetch(s).value.p, fetch(s).value.t, "rest")))
            && (!IsStale(lastTradeTime, s, now) ==> r == (prices, []))
            && (IsStale(lastTradeTime, s, now) && fetch(s).Some? && PriceChanged(prices, s, fetch(s).value) ==>
                  s in r.0.vals && r.0.vals[s] == fetch(s).value.p
                  && forall c :: c in clients && c in state && state[c] == Open <==>
                       ToClient(c, PriceUpdate(s, fetch(s).value.p, fetch(s).value.t, "rest")) in r.1)
            && ((fetch(s).None? || !PriceChanged(prices, s, fetch(s).value)) ==>
                  r.0 == prices && forall o :: o in r.1 ==> o == FetchLatestTrade(s))
  {
    if IsStale(lastTradeTime, s, now) && fetch(s).Some? {
      var t := fetch(s).value;
      FanoutSpec(clients, state, PriceUpdate(s, t.p, t.t, "rest"));
    }
  }

  /** One poll tick over the subscribed symbols, in order. */
  function PollFold(syms: seq<Symbol>, prices: OMap<Symbol, real>, lastTradeTime: map<Symbol, Millis>, now: Millis,
                    fetch: Symbol -> Option<LatestTrade>, clients: seq<ClientId>, state: map<ClientId, ReadyState>)
    : (OMap<Symbol, real>, seq<Outbound>)
    decreases |syms|
  {
    if syms == [] then (prices, [])
    else
      var before := PollFold(syms[..|syms| - 1], prices, lastTradeTime, now, fetch, clients, state);
      var step := PollStep(syms[|syms| - 1], before.0, lastTradeTime, now, fetch, clients, state);
      (step.0, before.1 + step.1)
  }

  /** A tick over one more symbol is the shorter tick followed by one step. */
  lemma PollFoldExtend(syms: seq<Symbol>, i: nat, prices: OMap<Symbol, real>, lastTradeTime: map<Symbol, Millis>, now: Millis,
                       fetch: Symbol -> Option<LatestTrade>, clients: seq<ClientId>, state: map<ClientId, ReadyState>)
    requires i < |syms|
    ensures var before := PollFold(syms[..i], prices, lastTradeTime, now, fetch, clients, state);
            var step := PollStep(syms[i], before.0, lastTradeTime, now, fetch, clients, state);
            PollFold(syms[..i + 1], prices, lastTradeTime, now, fetch, clients, state) == (step.0, before.1 + step.1)
  {
    assert syms[..i + 1][..i] == syms[..i];
  }

  /** Over a whole tick: a fetch is issued for exactly the stale subscribed
      symbols; the cached price of any other symbol is untouched; and the only
      client traffic is `rest` price updates. */
  lemma {:induction false} PollFoldSpec(syms: seq<Symbol>, prices: OMap<Symbol, real>, lastTradeTime: map<Symbol, Millis>, now: Millis,
                                        fetch: Symbol -> Option<LatestTrade>, clients: seq<ClientId>, state: map<ClientId, ReadyState>)
    requires Distinct(clients)
    ensures var r := PollFold(syms, prices, lastTradeTime, now, fetch, clients, state);
            && (prices.Valid() ==> r.0.Valid())
            && (forall s :: FetchLatestTrade(s) in r.1 <==> s in syms && IsStale(lastTradeTime, s, now))
            && (forall s :: s !in syms || !IsStale(lastTradeTime, s, now) ==>
                 (s in r.0.vals <==> s in prices.vals) && (s in prices.vals ==> r.0.vals[s] == prices.vals[s]))
            && (forall o :: o in r.1 ==>
                 o.FetchLatestTrade? || (o.ToClient? && o.event.PriceUpdate? && o.event.source == "rest" && o.event.symbol in syms))
    decreases |syms|
  {
    if syms != [] {
      var init, last := syms[..|syms| - 1], syms[|syms| - 1];
      PollFoldSpec(init, prices, lastTradeTime, now, fetch, clients, state);
      var before := PollFold(init, prices, lastTradeTime, now, fetch, clients, state);
      PollStepSpec(last, before.0, lastTradeTime, now, fetch, clients, state);
      assert forall s :: s in syms <==> s in init || s == last;
    }
  }

  /** What one stale symbol s ends a tick with, measured against the cache
      before the tick: a fetched price that differs is cached and sent as a
      `rest` update to exactly the OPEN clients; a failed fetch or an identical
      price leaves the cached price alone and sends clients nothing about s. */
  ghost predicate PollOutcome(s: Symbol, prices: OMap<Symbol, real>, fetch: Symbol -> Option<LatestTrade>,
                        clients: seq<ClientId>, state: map<ClientId, ReadyState>,
                        r: (OMap<Symbol, real>, seq<Outbound>))
  {
    if fetch(s).Some? && PriceChanged(prices, s, fetch(s).value) then
      var ev := PriceUpdate(s, fetch(s).value.p, fetch(s).value.t, "rest");
      && s in r.0.vals && r.0.vals[s] == fetch(s).value.p
      && (forall c :: ToClient(c, ev) in r.1 <==> c in clients && c in state && state[c] == Open)
      && (forall o :: o in r.1 && o.ToClient? && o.event.PriceUpdate? && o.event.symbol == s ==> o.event == ev)
    else
      && (s in r.0.vals <==> s in prices.vals)
      && (s in prices.vals ==> r.0.vals[s] == prices.vals[s])
      && (forall o :: o in r.1 && o.ToClient? ==> !(o.event.PriceUpdate? && o.event.symbol == s))
  }

  /** A stale subscribed symbol's outcome over a whole tick is its own poll
      step's outcome: the steps of the other symbols neither touch its cached
      price nor send anything about it. */
  lemma {:induction false} PollFoldOutcome(syms: seq<Symbol>, s: Symbol, prices: OMap<Symbol, real>,
                                           lastTradeTime: map<Symbol, Millis>, now: Millis,
                                           fetch: Symbol -> Option<LatestTrade>, clients: seq<ClientId>,
                                           state: map<ClientId, ReadyState>)
    requires Distinct(clients) && Distinct(syms) && s in syms && IsStale(lastTradeTime, s, now)
    ensures PollOutcome(s, prices, fetch, clients, state, PollFold(syms, prices, lastTradeTime, now, fetch, clients, state))
    decreases |syms|
  {
    var init, last := syms[..|syms| - 1], syms[|syms| - 1];
    assert Distinct(init);
    var before := PollFold(init, prices, lastTradeTime, now, fetch, clients, state);
    PollFoldSpec(init, prices, lastTradeTime, now, fetch, clients, state);
    PollStepSpec(last, before.0, lastTradeTime, now, fetch, clients, state);
    if last == s {
      assert s !in init;
    } else {
      assert s in init;
      PollFoldOutcome(init, s, prices, lastTradeTime, now, fetch, clients, state);
    }
  }

  /** Over a whole tick, every stale subscribed symbol ends with its poll
      outcome against the cache as it stood before the tick. */
  lemma PollFoldStale(syms: seq<Symbol>, prices: OMap<Symbol, real>, lastTradeTime: map<Symbol, Millis>, now: Millis,
                      fetch: Symbol -> Option<LatestTrade>, clients: seq<ClientId>, state: map<ClientId, ReadyState>)
    requires Distinct(clients) && Distinct(syms)
    ensures forall s :: s in syms && IsStale(lastTradeTime, s, now) ==>
              PollOutcome(s, prices, fetch, clients, state, PollFold(syms, prices, lastTradeTime, now, fetch, clients, state))
  {
    forall s | s in syms && IsStale(lastTradeTime, s, now)
      ensures PollOutcome(s, prices, fetch, clients, state, PollFold(syms, prices, lastTradeTime, now, fetch, clients, state))
    {
      PollFoldOutcome(syms, s, prices, lastTradeTime, now, fetch, clients, state);
    }
  }

  // ---------------------------------------------------------------------------
  // The hub object.

  class MarketDataHub {
    var upstream: ReadyState
    var clients: seq<ClientId>
    var clientState: map<ClientId, ReadyState>
    var subscribedSymbols: seq<Symbol>
    var latestBars: OMap<Symbol, Bar>
    var latestPrices: OMap<Symbol, real>
    var lastTradeTime: map<Symbol, Millis>
    var reconnectAttempts: nat
    /** Reconnect timers scheduled and not yet fired. */
    var pendingReconnects: nat
    /** Whether the REST poll interval is installed (`restUpdateInterval`). */
    var pollActive: bool
    var outbound: seq<Outbound>

    ghost predicate Valid()
      reads this
    {
      ClientsValid() && SymbolsValid() && latestBars.Valid() && reconnectAttempts <= MaxReconnectAttempts
    }

    /** Every registered client has a socket state, and no client twice. */
    ghost predicate ClientsValid()
      reads this`clients, this`clientState
    {
      Distinct(clients) && clientState.Keys == Elems(clients)
    }

    /** No symbol is subscribed twice and the price cache's key order is valid. */
    ghost predicate SymbolsValid()
      reads this`subscribedSymbols, this`latestPrices
    {
      Distinct(subscribedSymbols) && latestPrices.Valid()
    }

    /** The constructor opens the upstream socket and starts polling, even
        though no client is connected yet. */
    constructor ()
      ensures Valid()
      ensures upstream == Connecting && clients == [] && clientState == map[]
      ensures subscribedSymbols == [] && latestBars.vals == map[] && latestPrices.vals == map[]
      ensures lastTradeTime == map[] && reconnectAttempts == 0 && pendingReconnects == 0
      ensures pollActive && outbound == []
    {
      upstream := Connecting;
      clients := [];
      clientState := map[];
      subscribedSymbols := [];
      latestBars := EmptyMap();
      latestPrices := EmptyMap();
      lastTradeTime := map[];
      reconnectAttempts := 0;
      pendingReconnects := 0;
      pollActive := true;
      outbound := [];
    }

    /** The upstream `open` event: reset the counter, send the credentials. */
    method OnUpstreamOpen()
      requires Valid()
      modifies this`upstream, this`reconnectAttempts, this`outbound
      ensures Valid()
      ensures upstream == Open && reconnectAttempts == 0
      ensures outbound == old(outbound) + [ToUpstream(Auth)]
    {
      upstream := Open;
      reconnectAttempts := 0;
      outbound := outbound + [ToUpstream(Auth)];
    }

    /** The upstream `close` event. */
    method OnUpstreamClose()
      requires Valid()
      modifies this`upstream, this`reconnectAttempts, this`pendingReconnects
      ensures Valid() && upstream == Closed
      ensures old(reconnectAttempts) < MaxReconnectAttempts ==>
                reconnectAttempts == old(reconnectAttempts) + 1 && pendingReconnects == old(pendingReconnects) + 1
      ensures old(reconnectAttempts) >= MaxReconnectAttempts ==>
                reconnectAttempts == old(reconnectAttempts) && pendingReconnects == old(pendingReconnects)
    {
      upstream := Closed;
      HandleReconnect();
    }

    /** Schedule one more connection attempt unless five have been made. */
    method HandleReconnect()
      requires Valid()
      modifies this`reconnectAttempts, this`pendingReconnects
      ensures Valid()
      ensures old(reconnectAttempts) < MaxReconnectAttempts ==>
                reconnectAttempts == old(reconnectAttempts) + 1 && pendingReconnects == old(pendingReconnects) + 1
      ensures old(reconnectAttempts) >= MaxReconnectAttempts ==>
                reconnectAttempts == old(reconnectAttempts) && pendingReconnects == old(pendingReconnects)
    {
      if reconnectAttempts < MaxReconnectAttempts {
        reconnectAttempts := reconnectAttempts + 1;
        pendingReconnects := pendingReconnects + 1;
      }
    }

    /** A scheduled reconnect timer fires: a new upstream socket is created. */
    method OnReconnectTimer()
      requires Valid() && pendingReconnects > 0
      modifies this`upstream, this`pendingReconnects
      ensures Valid()
      ensures upstream == Connecting && pendingReconnects == old(pendingReconnects) - 1
    {
      pendingReconnects := pendingReconnects - 1;
      upstream := Connecting;
    }

    /** `broadcast(data)`: send to every client whose socket is OPEN. */
    method Broadcast(ev: ClientEvent)
      modifies this`outbound
      ensures outbound == old(outbound) + Fanout(clients, clientState, ev)
    {
      var i := 0;
      while i < |clients|
        invariant 0 <= i <= |clients|
        invariant outbound == old(outbound) + Fanout(clients[..i], clientState, ev)
      {
        var c := clients[i];
        if c in clientState && clientState[c] == Open {
          outbound := outbound + [ToClient(c, ev)];
        }
        assert clients[..i + 1][..i] == clients[..i];
        i := i + 1;
      }
      assert clients[..i] == clients;
    }

    /** The fields that subscribing and unsubscribing touch, as one value. */
    function SubState(): Subscriptions
      reads this`subscribedSymbols, this`latestPrices, this`lastTradeTime, this`outbound
    {
      Subscriptions(subscribedSymbols, latestPrices, lastTradeTime, outbound)
    }

    /** `subscribeToSymbols`: nothing at all unless upstream is OPEN. */
    method SubscribeToSymbols(symbols: seq<Symbol>)
      requires Valid()
      modifies this`subscribedSymbols, this`outbound
      ensures Valid()
      ensures SubState() == if upstream == Open then AfterSubscribe(old(SubState()), symbols) else old(SubState())
    {
      if upstream != Open {
        return;
      }
      var i := 0;
      while i < |symbols|
        invariant 0 <= i <= |symbols|
        invariant subscribedSymbols == AddAll(old(subscribedSymbols), symbols[..i])
        invariant Distinct(subscribedSymbols) && outbound == old(outbound)
      {
        assert symbols[..i + 1][..i] == symbols[..i];
        AddSpec(subscribedSymbols, symbols[i]);
        subscribedSymbols := Add(subscribedSymbols, symbols[i]);
        i := i + 1;
      }
      assert symbols[..i] == symbols;
      outbound := outbound + [ToUpstream(SubscribeCmd(symbols))];
    }

    /** `unsubscribeFromSymbols`: drops each symbol from the set, the price
        cache and the trade-time map, but not from the bar cache. */
    method UnsubscribeFromSymbols(symbols: seq<Symbol>)
      requires Valid()
      modifies this`subscribedSymbols, this`latestPrices, this`lastTradeTime, this`outbound
      ensures Valid()
      ensures SubState() == if upstream == Open then AfterUnsubscribe(old(SubState()), symbols) else old(SubState())
    {
      if upstream != Open {
        return;
      }
      var i := 0;
      while i < |symbols|
        invariant 0 <= i <= |symbols|
        invariant (subscribedSymbols, latestPrices, lastTradeTime)
                  == DropSymbols(old(subscribedSymbols), old(latestPrices), old(lastTradeTime), symbols[..i])
        invariant outbound == old(outbound)
      {
        assert symbols[..i + 1][..i] == symbols[..i];
        var s := symbols[i];
        subscribedSymbols := Without(subscribedSymbols, {s});
        latestPrices := latestPrices.DeleteKeys({s});
        lastTradeTime := lastTradeTime - {s};
        i := i + 1;
      }
      assert symbols[..i] == symbols;
      DropSymbolsSpec(old(subscribedSymbols), old(latestPrices), old(lastTradeTime), symbols);
      WithoutSpec(old(subscribedSymbols), Elems(symbols));
      outbound := outbound + [ToUpstream(UnsubscribeCmd(symbols))];
    }

    /** `updateSubscriptions(clientSymbols)`: make the subscribed set the
        requested set, and restart polling if a client is connected. */
    method UpdateSubscriptions(clientSymbols: seq<Symbol>)
      requires Valid()
      modifies this`subscribedSymbols, this`latestPrices, this`lastTradeTime, this`outbound, this`pollActive
      ensures Valid()
      ensures SubState() == if upstream == Open then AfterReconcile(old(SubState()), clientSymbols) else old(SubState())
      ensures pollActive == (old(pollActive) || |clients| > 0)
    {
      var allSymbols: seq<Symbol> := [];
      var i := 0;
      while i < |clientSymbols|
        invariant 0 <= i <= |clientSymbols|
        invariant allSymbols == AddAll([], clientSymbols[..i])
        modifies {}
      {
        assert clientSymbols[..i + 1][..i] == clientSymbols[..i];
        allSymbols := Add(allSymbols, clientSymbols[i]);
        i := i + 1;
      }
      assert clientSymbols[..i] == clientSymbols;
      var delta := Reconcile(allSymbols, subscribedSymbols);
      var toSubscribe, toUnsubscribe := delta.0, delta.1;
      if |toSubscribe| > 0 {
        SubscribeToSymbols(toSubscribe);
      }
      if |toUnsubscribe| > 0 {
        UnsubscribeFromSymbols(toUnsubscribe);
      }
      if |clients| > 0 && !pollActive {
        pollActive := true;
      }
    }

    /** `addClient(ws)`: register the client and send it the snapshot, if any. */
    method AddClient(c: ClientId, now: Millis)
      requires Valid()
      modifies this`clients, this`clientState, this`outbound
      ensures Valid()
      ensures clients == Add(old(clients), c) && clientState == old(clientState)[c := Open]
      ensures var snap := SnapshotOf(latestBars, latestPrices, now);
              outbound == old(outbound) + (if snap == [] then [] else [ToClient(c, Snapshot(snap))])
    {
      AddSpec(clients, c);
      clients := Add(clients, c);
      clientState := clientState[c := Open];
      var snapshot := CollectSnapshot(now);
      if |snapshot| > 0 {
        outbound := outbound + [ToClient(c, Snapshot(snapshot))];
      }
    }

    /** The two loops of `addClient` that build the snapshot: the cached bars,
        then a `cached` price update per priced symbol without a bar. */
    method CollectSnapshot(now: Millis) returns (snapshot: seq<ClientEvent>)
      requires latestBars.Valid() && latestPrices.Valid()
      ensures snapshot == SnapshotOf(latestBars, latestPrices, now)
    {
      var bars := latestBars.Entries();
      snapshot := [];
      var i := 0;
      while i < |bars|
        invariant 0 <= i <= |bars|
        invariant snapshot == BarItems(bars[..i])
      {
        assert bars[..i + 1][..i] == bars[..i];
        snapshot := snapshot + [BarEvent(bars[i].0, bars[i].1)];
        i := i + 1;
      }
      assert bars[..i] == bars;
      ghost var barPart := snapshot;
      var prices := latestPrices.Entries();
      var j := 0;
      while j < |prices|
        invariant 0 <= j <= |prices|
        invariant snapshot == barPart + CachedPriceItems(prices[..j], latestBars.vals.Keys, now)
      {
        assert prices[..j + 1][..j] == prices[..j];
        if prices[j].0 !in latestBars.vals {
          snapshot := snapshot + [PriceUpdate(prices[j].0, prices[j].1, now, "cached")];
        }
        j := j + 1;
      }
      assert prices[..j] == prices;
    }

    /** `removeClient(ws)`: the last client leaving stops the poll. */
    method RemoveClient(c: ClientId)
      requires Valid()
      modifies this`clients, this`clientState, this`pollActive
      ensures Valid()
      ensures clients == Without(old(clients), {c}) && clientState == old(clientState) - {c}
      ensures pollActive == (old(pollActive) && |clients| > 0)
    {
      WithoutSpec(clients, {c});
      clients := Without(clients, {c});
      clientState := clientState - {c};
      if |clients| == 0 && pollActive {
        pollActive := false;
      }
    }

    /** A client's socket changes state before its `close` event arrives. */
    method OnClientStateChange(c: ClientId, st: ReadyState)
      requires Valid()
      modifies this`clientState
      ensures Valid()
      ensures clientState == if c in old(clientState) then old(clientState)[c := st] else old(clientState)
    {
      if c in clientState {
        clientState := clientState[c := st];
      }
    }

    /** The per-client `message` handler of the client socket server: a subscribe request
        reconciles and is acknowledged to that client alone. */
    method OnClientMessage(c: ClientId, req: ClientRequest)
      requires Valid()
      modifies this`subscribedSymbols, this`latestPrices, this`lastTradeTime, this`outbound, this`pollActive
      ensures Valid()
      ensures !req.SubscribeRequest? ==> unchanged(this)
      ensures req.SubscribeRequest? ==>
                var st := if upstream == Open then AfterReconcile(old(SubState()), req.symbols) else old(SubState());
                && SubState() == st.(sent := st.sent + [ToClient(c, Subscribed(req.symbols))])
                && pollActive == (old(pollActive) || |clients| > 0)
    {
      match req
      case SubscribeRequest(symbols) =>
        UpdateSubscriptions(symbols);
        outbound := outbound + [ToClient(c, Subscribed(symbols))];
      case OtherRequest =>
      case Unparsable =>
    }

    /** `handleAlpacaMessage`: dispatch on `msg`, then on `T`. The time `now`
        is what `Date.now()` returns. */
    method HandleAlpacaMessage(m: AlpacaMessage, now: Millis)
      requires Valid()
      modifies this`subscribedSymbols, this`latestBars, this`latestPrices, this`lastTradeTime, this`outbound
      ensures Valid() && subscribedSymbols == old(subscribedSymbols)
      ensures m.Control? ==>
                latestBars == old(latestBars) && latestPrices == old(latestPrices) && lastTradeTime == old(lastTradeTime)
                && outbound == old(outbound)
                     + (if m.msg == "authenticated" && |subscribedSymbols| > 0 && upstream == Open
                        then [ToUpstream(SubscribeCmd(subscribedSymbols))] else [])
      ensures m.BarMsg? ==>
                var bar := Bar(m.t, m.o, m.h, m.l, m.c, m.v);
                latestBars == old(latestBars).Put(m.S, bar) && latestPrices == old(latestPrices).Put(m.S, m.c)
                && lastTradeTime == old(lastTradeTime)
                && outbound == old(outbound) + Fanout(clients, clientState, BarEvent(m.S, bar))
      ensures m.TradeMsg? ==>
                latestBars == old(latestBars) && latestPrices == old(latestPrices).Put(m.S, m.p)
                && lastTradeTime == old(lastTradeTime)[m.S := now]
                && outbound == old(outbound)
                     + (if InRegularHours(m.etMinutes)
                        then Fanout(clients, clientState, TradeEvent(m.S, m.p, m.s, m.t, m.conditions)) else [])
      ensures m.QuoteMsg? ==>
                latestBars == old(latestBars) && latestPrices == old(latestPrices).Put(m.S, (m.bp + m.ap) / 2.0)
                && lastTradeTime == old(lastTradeTime)
                && outbound == old(outbound) + Fanout(clients, clientState, QuoteEvent(m.S, m.bp, m.bs, m.ap, m.askSize, m.t))
      ensures m.OtherMsg? ==>
                latestBars == old(latestBars) && latestPrices == old(latestPrices)
                && lastTradeTime == old(lastTradeTime) && outbound == old(outbound)
    {
      match m
      case Control(msg) =>
        if msg == "authenticated" && |subscribedSymbols| > 0 {
          AddAllPresent(subscribedSymbols, subscribedSymbols);
          SubscribeToSymbols(subscribedSymbols);
        }
      case BarMsg(S, t, o, h, l, c, v) =>
        var bar := Bar(t, o, h, l, c, v);
        latestBars := latestBars.Put(S, bar);
        latestPrices := latestPrices.Put(S, c);
        Broadcast(BarEvent(S, bar));
      case TradeMsg(S, t, p, s, conditions, etMinutes) =>
        lastTradeTime := lastTradeTime[S := now];
        latestPrices := latestPrices.Put(S, p);
        if InRegularHours(etMinutes) {
          Broadcast(TradeEvent(S, p, s, t, conditions));
        }
      case QuoteMsg(S, t, bp, bs, ap, askSize) =>
        var midPrice := (bp + ap) / 2.0;
        latestPrices := latestPrices.Put(S, midPrice);
        Broadcast(QuoteEvent(S, bp, bs, ap, askSize, t));
      case OtherMsg =>
    }

    /** One tick of the REST poll interval; does nothing once the interval has
        been cleared. `fetch` is the latest-trade response per symbol (None for a
        thrown error, a non-ok status or a body without `trade`). */
    method PollTick(now: Millis, fetch: Symbol -> Option<LatestTrade>)
      requires Valid()
      modifies this`latestPrices, this`outbound
      ensures Valid()
      ensures !pollActive ==> latestPrices == old(latestPrices) && outbound == old(outbound)
      ensures pollActive ==>
                var r := PollFold(subscribedSymbols, old(latestPrices), lastTradeTime, now, fetch, clients, clientState);
                latestPrices == r.0 && outbound == old(outbound) + r.1
      ensures pollActive ==>
                forall s :: s in subscribedSymbols && IsStale(lastTradeTime, s, now) ==>
                  PollOutcome(s, old(latestPrices), fetch, clients, clientState, (latestPrices, outbound[|old(outbound)|..]))
    {
      if !pollActive {
        return;
      }
      var i := 0;
      while i < |subscribedSymbols|
        invariant 0 <= i <= |subscribedSymbols|
        invariant latestPrices.Valid()
        invariant var r := PollFold(subscribedSymbols[..i], old(latestPrices), lastTradeTime, now, fetch, clients, clientState);
                  latestPrices == r.0 && outbound == old(outbound) + r.1
      {
        var symbol := subscribedSymbols[i];
        PollFoldExtend(subscribedSymbols, i, old(latestPrices), lastTradeTime, now, fetch, clients, clientState);
        ghost var step := PollStep(symbol, latestPrices, lastTradeTime, now, fetch, clients, clientState);
        ghost var sentBefore := outbound;
        var lastTrade := if symbol in lastTradeTime then lastTradeTime[symbol] else 0;
        if now - lastTrade > StaleAfter {
          outbound := outbound + [FetchLatestTrade(symbol)];
          var response := fetch(symbol);
          if response.Some? {
            var price := response.value.p;
            if !(symbol in latestPrices.vals && latestPrices.vals[symbol] == price) {
              latestPrices := latestPrices.Put(symbol, price);
              Broadcast(PriceUpdate(symbol, price, response.value.t, "rest"));
              AppendAssoc(sentBefore, [FetchLatestTrade(symbol)], Fanout(clients, clientState, PriceUpdate(symbol, price, response.value.t, "rest")));
            }
          }
        }
        assert latestPrices == step.0 && outbound == sentBefore + step.1;
        AppendAssoc(old(outbound), PollFold(subscribedSymbols[..i], old(latestPrices), lastTradeTime, now, fetch, clients, clientState).1, step.1);
        i := i + 1;
      }
      assert subscribedSymbols[..i] == subscribedSymbols;
      assert outbound[|old(outbound)|..] == PollFold(subscribedSymbols, old(latestPrices), lastTradeTime, now, fetch, clients, clientState).1;
      PollFoldStale(subscribedSymbols, old(latestPrices), lastTradeTime, now, fetch, clients, clientState);
    }
  }
}
