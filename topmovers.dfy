/** The top-movers store (`src/stores/topMoversStore.js`): a map from ticker to
    its latest price and intraday open, and the ranking derived from it — the
    ten biggest gainers by percent change. The store's reactive effect recomputes
    the ranking whenever the map is replaced; here every method that replaces
    the map recomputes it, and the class invariant says the ranking always
    matches the map. Fetch results are parameters. */
module TopMovers {
  import opened Common
  import opened Market

  const TopMoversCount: nat := 10
  const InitBatchSize: nat := 50
  const RescanBatchSize: nat := 100

  datatype StockEntry = StockEntry(ticker: Symbol, price: real, open: real, change: real,
                                   changePercent: real, volume: nat, timestamp: Millis)

  /** The row of the ranking pipeline (the `map` of the ranking effect). */
  datatype Mover = Mover(ticker: Symbol, price: real, open: real, change: real, changePercent: real, volume: nat)

  /** The hub's `/latest` response: last trade price, size and time. */
  datatype LatestPrice = LatestPrice(price: real, size: nat, timestamp: Millis)

  function Min(a: int, b: int): int { if a <= b then a else b }

  // ---------------------------------------------------------------------------
  // Ranking (the `createEffect` over the stock map).

  function MoverOf(ticker: Symbol, e: StockEntry): Mover {
    Mover(ticker, e.price, e.open, e.change, e.changePercent, e.volume)
  }

  function ToMovers(entries: seq<(Symbol, StockEntry)>): seq<Mover> {
    seq(|entries|, i requires 0 <= i < |entries| => MoverOf(entries[i].0, entries[i].1))
  }

  /** Kept by both filters: a positive price and a positive change. */
  predicate IsGainer(m: Mover) {
    m.price > 0.0 && m.changePercent > 0.0
  }

  function Gainers(ms: seq<Mover>): seq<Mover> {
    if ms == [] then []
    else if IsGainer(ms[0]) then [ms[0]] + Gainers(ms[1..])
    else Gainers(ms[1..])
  }

  /** The filter keeps exactly the gainers, each as often as it occurs. */
  lemma {:induction false} GainersSpec(ms: seq<Mover>)
    ensures forall m :: m in Gainers(ms) ==> IsGainer(m) && m in ms
    ensures forall m :: m in ms && IsGainer(m) ==> m in Gainers(ms)
    ensures multiset(Gainers(ms)) <= multiset(ms)
  {
    if ms != [] {
      GainersSpec(ms[1..]);
      assert ms == [ms[0]] + ms[1..];
    }
  }

  predicate SortedDesc(s: seq<Mover>) {
    forall i, j :: 0 <= i < j < |s| ==> s[i].changePercent >= s[j].changePercent
  }

  /** Place x after every element whose change is at least x's. */
  function InsertDesc(x: Mover, s: seq<Mover>): seq<Mover> {
    if s == [] then [x]
    else if x.changePercent > s[0].changePercent then [x] + s
    else [s[0]] + InsertDesc(x, s[1..])
  }

  lemma {:induction false} InsertDescSpec(x: Mover, s: seq<Mover>)
    requires SortedDesc(s)
    ensures SortedDesc(InsertDesc(x, s))
    ensures multiset(InsertDesc(x, s)) == multiset(s) + multiset{x}
    ensures InsertDesc(x, s)[0] == x || (s != [] && InsertDesc(x, s)[0] == s[0])
  {
    if s != [] {
      assert s == [s[0]] + s[1..];
      if x.changePercent <= s[0].changePercent {
        var r := InsertDesc(x, s[1..]);
        InsertDescSpec(x, s[1..]);
        assert r[0].changePercent <= s[0].changePercent by {
          if r[0] != x {
            assert r[0] == s[1];
          }
        }
        ConsSorted(s[0], r);
      } else {
        ConsSorted(x, s);
      }
    }
  }

  /** A head no smaller than the first element of a sorted list keeps it sorted. */
  lemma ConsSorted(h: Mover, r: seq<Mover>)
    requires SortedDesc(r) && (r == [] || r[0].changePercent <= h.changePercent)
    ensures SortedDesc([h] + r)
  {
    var t := [h] + r;
    forall i, j | 0 <= i < j < |t|
      ensures t[i].changePercent >= t[j].changePercent
    {
      assert t[j] == r[j - 1];
      if i > 0 {
        assert t[i] == r[i - 1];
      } else if j > 1 {
        assert r[0].changePercent >= r[j - 1].changePercent;
      }
    }
  }

  /** `gainers.sort((a, b) => b.changePercent - a.changePercent)`: a stable
      sort, largest change first. */
  function SortDesc(s: seq<Mover>): seq<Mover>
    decreases |s|
  {
    if s == [] then [] else InsertDesc(s[|s| - 1], SortDesc(s[..|s| - 1]))
  }

  lemma {:induction false} SortDescSpec(s: seq<Mover>)
    ensures SortedDesc(SortDesc(s))
    ensures multiset(SortDesc(s)) == multiset(s)
    decreases |s|
  {
    if s != [] {
      SortDescSpec(s[..|s| - 1]);
      InsertDescSpec(s[|s| - 1], SortDesc(s[..|s| - 1]));
      assert s == s[..|s| - 1] + [s[|s| - 1]];
    }
  }

  /** `slice(0, n)`. */
  function Take(s: seq<Mover>, n: nat): seq<Mover> {
    if |s| <= n then s else s[..n]
  }

  /** The ranking effect: the gainers, sorted, the first ten. */
  function Rank(stocks: OMap<Symbol, StockEntry>): seq<Mover>
    requires stocks.Valid()
  {
    Take(SortDesc(Gainers(ToMovers(stocks.Entries()))), TopMoversCount)
  }

  /** In a list sorted by change, whatever lies past position k is beaten or
      equalled by everything before it. */
  lemma SortedPrefixDominates(sorted: seq<Mover>, k: nat)
    requires SortedDesc(sorted) && k <= |sorted|
    ensures forall y: Mover, x: Mover :: y in multiset(sorted) - multiset(sorted[..k]) && x in sorted[..k] ==>
              y.changePercent <= x.changePercent
  {
    var rest := sorted[k..];
    assert sorted == sorted[..k] + rest;
    assert multiset(sorted) == multiset(sorted[..k]) + multiset(rest);
    forall y: Mover, x: Mover | y in multiset(sorted) - multiset(sorted[..k]) && x in sorted[..k]
      ensures y.changePercent <= x.changePercent
    {
      assert y in multiset(rest);
      var j :| 0 <= j < |rest| && rest[j] == y;
      var i :| 0 <= i < k && sorted[..k][i] == x;
      assert sorted[i] == x && sorted[k + j] == y;
    }
  }

  /** The rows of the pipeline are the map's entries, one per ticker. */
  lemma MoversOfEntries(stocks: OMap<Symbol, StockEntry>)
    requires stocks.Valid()
    ensures forall m :: m in ToMovers(stocks.Entries()) ==> m.ticker in stocks.vals && m == MoverOf(m.ticker, stocks.vals[m.ticker])
    ensures forall t :: t in stocks.vals ==> MoverOf(t, stocks.vals[t]) in ToMovers(stocks.Entries())
  {
    var entries := stocks.Entries();
    var ms := ToMovers(entries);
    forall m | m in ms
      ensures m.ticker in stocks.vals && m == MoverOf(m.ticker, stocks.vals[m.ticker])
    {
      var i :| 0 <= i < |ms| && ms[i] == m;
      assert entries[i] == (stocks.keys[i], stocks.vals[stocks.keys[i]]);
    }
    forall t | t in stocks.vals
      ensures MoverOf(t, stocks.vals[t]) in ms
    {
      var i := IndexOf(stocks.keys, t);
      assert ms[i] == MoverOf(t, stocks.vals[t]);
    }
  }

  /** The ranking is the first ten of the sorted gainers (fewer when there
      are fewer gainers), so it is sorted by change. */
  lemma RankShape(stocks: OMap<Symbol, StockEntry>)
    requires stocks.Valid()
    ensures var r := Rank(stocks);
            var g := Gainers(ToMovers(stocks.Entries()));
            && |r| == Min(TopMoversCount, |g|)
            && r == SortDesc(g)[..|r|]
            && SortedDesc(r)
            && multiset(r) <= multiset(g)
  {
    var g := Gainers(ToMovers(stocks.Entries()));
    var sorted := SortDesc(g);
    var r := Rank(stocks);
    SortDescSpec(g);
    assert |sorted| == |g| by {
      assert |multiset(sorted)| == |multiset(g)|;
    }
    assert r == sorted[..|r|];
    assert sorted == r + sorted[|r|..];
    assert multiset(sorted) == multiset(r) + multiset(sorted[|r|..]);
  }

  /** Every row is a gainer, read off the map entry of its own ticker. */
  lemma RankRows(stocks: OMap<Symbol, StockEntry>)
    requires stocks.Valid()
    ensures forall m :: m in Rank(stocks) ==>
              IsGainer(m) && m.ticker in stocks.vals && m == MoverOf(m.ticker, stocks.vals[m.ticker])
  {
    var ms := ToMovers(stocks.Entries());
    var r := Rank(stocks);
    RankShape(stocks);
    GainersSpec(ms);
    MoversOfEntries(stocks);
    forall m | m in r
      ensures m in Gainers(ms)
    {
      assert m in multiset(r);
    }
  }

  /** No gainer left out of the ranking beats a row of it, and a gainer is
      only left out of a full ranking. */
  lemma RankDominates(stocks: OMap<Symbol, StockEntry>)
    requires stocks.Valid()
    ensures var r := Rank(stocks);
            var g := Gainers(ToMovers(stocks.Entries()));
            && (forall y: Mover, x: Mover :: y in multiset(g) - multiset(r) && x in r ==> y.changePercent <= x.changePercent)
            && (forall t :: t in stocks.vals && IsGainer(MoverOf(t, stocks.vals[t])) && MoverOf(t, stocks.vals[t]) !in r ==>
                  |r| == TopMoversCount
                  && forall x :: x in r ==> MoverOf(t, stocks.vals[t]).changePercent <= x.changePercent)
  {
    var ms := ToMovers(stocks.Entries());
    var g := Gainers(ms);
    var sorted := SortDesc(g);
    var r := Rank(stocks);
    RankShape(stocks);
    SortDescSpec(g);
    SortedPrefixDominates(sorted, |r|);
    GainersSpec(ms);
    MoversOfEntries(stocks);
    assert |r| < TopMoversCount ==> multiset(r) == multiset(g) by {
      if |r| < TopMoversCount {
        assert r == sorted;
      }
    }
    forall t | t in stocks.vals && IsGainer(MoverOf(t, stocks.vals[t])) && MoverOf(t, stocks.vals[t]) !in r
      ensures |r| == TopMoversCount
      ensures MoverOf(t, stocks.vals[t]) in multiset(g) - multiset(r)
    {
      assert MoverOf(t, stocks.vals[t]) in multiset(g);
    }
  }

  function Tickers(ms: seq<Mover>): seq<Symbol> {
    seq(|ms|, i requires 0 <= i < |ms| => ms[i].ticker)
  }

  // ---------------------------------------------------------------------------
  // Single-ticker update (`updateStockData`).

  /** `updateStockData(ticker, newPrice)` on the map: a known ticker gets the
      new price and its change against the stored open. */
  function Reprice(stocks: OMap<Symbol, StockEntry>, ticker: Symbol, newPrice: real, now: Millis): OMap<Symbol, StockEntry> {
    if ticker !in stocks.vals then stocks
    else
      var existing := stocks.vals[ticker];
      var change := newPrice - existing.open;
      stocks.Put(ticker, existing.(price := newPrice, change := change,
                                   changePercent := PercentChange(change, existing.open), timestamp := now))
  }

  /** An unknown ticker changes nothing; a known one keeps its place, its
      open and its volume, every other ticker is untouched, and the percent
      change is zero whenever the open is. */
  lemma RepriceSpec(stocks: OMap<Symbol, StockEntry>, ticker: Symbol, newPrice: real, now: Millis)
    requires stocks.Valid()
    ensures var r := Reprice(stocks, ticker, newPrice, now);
            && r.Valid() && r.keys == stocks.keys
            && (ticker !in stocks.vals ==> r == stocks)
            && (forall t :: t in stocks.vals && t != ticker ==> r.vals[t] == stocks.vals[t])
            && (ticker in stocks.vals ==>
                  var e, n := stocks.vals[ticker], r.vals[ticker];
                  && n.price == newPrice && n.open == e.open && n.change == newPrice - e.open
                  && n.changePercent == PercentChange(n.change, e.open)
                  && (e.open == 0.0 ==> n.changePercent == 0.0)
                  && n.ticker == e.ticker && n.volume == e.volume && n.timestamp == now)
  {
    if ticker in stocks.vals {
      PutSpec(stocks, ticker, stocks.vals[ticker]);
    }
  }

  // ---------------------------------------------------------------------------
  // Batching (the `for` loops of `initializeAllTickers` and `rescanAllStocks`).

  /** The slices `tickers.slice(i, i + size)` for i = start, start + size, … */
  function Batches(s: seq<Symbol>, start: nat, size: nat): seq<seq<Symbol>>
    requires size > 0
    decreases |s| - start
  {
    if start >= |s| then []
    else [s[start..Min(start + size, |s|)]] + Batches(s, start + size, size)
  }

  function Flatten(bs: seq<seq<Symbol>>): seq<Symbol> {
    if bs == [] then [] else bs[0] + Flatten(bs[1..])
  }

  /** The batches, laid end to end, are the tickers from `start` on; none is
      empty and none is longer than the batch size. */
  lemma {:induction false} BatchesSpec(s: seq<Symbol>, start: nat, size: nat)
    requires size > 0 && start <= |s|
    ensures Flatten(Batches(s, start, size)) == s[start..]
    ensures forall b :: b in Batches(s, start, size) ==> 0 < |b| <= size
    decreases |s| - start
  {
    if start < |s| {
      var end := Min(start + size, |s|);
      BatchesSpec(s, end, size);
      assert Batches(s, end, size) == Batches(s, start + size, size);
      assert s[start..] == s[start..end] + s[end..];
    }
  }

  /** All batches but the last are full. */
  lemma {:induction false} BatchesFull(s: seq<Symbol>, start: nat, size: nat)
    requires size > 0
    ensures forall k :: 0 <= k < |Batches(s, start, size)| - 1 ==> |Batches(s, start, size)[k]| == size
    decreases |s| - start
  {
    if start < |s| {
      BatchesFull(s, start + size, size);
      var bs := Batches(s, start, size);
      assert bs[1..] == Batches(s, start + size, size);
      forall k | 0 <= k < |bs| - 1
        ensures |bs[k]| == size
      {
        if k > 0 {
          assert bs[k] == bs[1..][k - 1];
        }
      }
    }
  }

  // ---------------------------------------------------------------------------
  // Initial scan (`initializeAllTickers`).

  /** One ticker's scan: null unless both fetches succeed and the intraday
      series is non-empty; the open is the first intraday bar's. */
  function ScanEntry(ticker: Symbol, latest: Option<LatestPrice>, intraday: Option<seq<Bar>>): (r: Option<StockEntry>)
    ensures r.Some? <==> latest.Some? && intraday.Some? && intraday.value != []
    ensures r.Some? ==>
              r.value.ticker == ticker && r.value.price == latest.value.price && r.value.open == intraday.value[0].o
              && r.value.change == r.value.price - r.value.open
              && r.value.changePercent == PercentChange(r.value.change, r.value.open)
              && r.value.volume == latest.value.size && r.value.timestamp == latest.value.timestamp
  {
    if latest.None? || intraday.None? || intraday.value == [] then None
    else
      var marketOpen := intraday.value[0].o;
      var currentPrice := latest.value.price;
      var change := currentPrice - marketOpen;
      Some(StockEntry(ticker, currentPrice, marketOpen, change, PercentChange(change, marketOpen),
                      latest.value.size, latest.value.timestamp))
  }

  /** Every ticker scanned in turn, its result (if any) set in the map. */
  function ScanAll(m: OMap<Symbol, StockEntry>, tickers: seq<Symbol>,
                   latest: Symbol -> Option<LatestPrice>, intraday: Symbol -> Option<seq<Bar>>): OMap<Symbol, StockEntry>
    decreases |tickers|
  {
    if tickers == [] then m
    else
      var before := ScanAll(m, tickers[..|tickers| - 1], latest, intraday);
      var t := tickers[|tickers| - 1];
      var r := ScanEntry(t, latest(t), intraday(t));
      if r.Some? then before.Put(t, r.value) else before
  }

  lemma {:induction false} ScanAllConcat(m: OMap<Symbol, StockEntry>, a: seq<Symbol>, b: seq<Symbol>,
                                         latest: Symbol -> Option<LatestPrice>, intraday: Symbol -> Option<seq<Bar>>)
    ensures ScanAll(m, a + b, latest, intraday) == ScanAll(ScanAll(m, a, latest, intraday), b, latest, intraday)
    decreases |b|
  {
    if b == [] {
      assert a + b == a;
    } else {
      ScanAllConcat(m, a, b[..|b| - 1], latest, intraday);
      assert (a + b)[..|a + b| - 1] == a + b[..|b| - 1];
    }
  }

  /** Scanning from an empty map keeps exactly the tickers whose scan
      succeeded, each with its scan result. */
  lemma {:induction false} ScanAllSpec(m: OMap<Symbol, StockEntry>, tickers: seq<Symbol>,
                                       latest: Symbol -> Option<LatestPrice>, intraday: Symbol -> Option<seq<Bar>>)
    requires m.Valid()
    ensures var r := ScanAll(m, tickers, latest, intraday);
            && r.Valid()
            && (forall t :: t in r.vals <==> t in m.vals || (t in tickers && ScanEntry(t, latest(t), intraday(t)).Some?))
            && (forall t :: t in tickers && ScanEntry(t, latest(t), intraday(t)).Some? ==>
                  r.vals[t] == ScanEntry(t, latest(t), intraday(t)).value)
            && (forall t :: t in m.vals && !(t in tickers && ScanEntry(t, latest(t), intraday(t)).Some?) ==> r.vals[t] == m.vals[t])
    decreases |tickers|
  {
    if tickers != [] {
      var init := tickers[..|tickers| - 1];
      ScanAllSpec(m, init, latest, intraday);
      assert forall t :: t in tickers <==> t in init || t == tickers[|tickers| - 1];
    }
  }

  /** The scan batch by batch, each batch's successes set in the map in order. */
  function ScanBatches(m: OMap<Symbol, StockEntry>, batches: seq<seq<Symbol>>,
                       latest: Symbol -> Option<LatestPrice>, intraday: Symbol -> Option<seq<Bar>>): OMap<Symbol, StockEntry>
    decreases |batches|
  {
    if batches == [] then m else ScanBatches(ScanAll(m, batches[0], latest, intraday), batches[1..], latest, intraday)
  }

  /** Batching is invisible to the result: scanning the batches is scanning
      the concatenated list, ticker by ticker. */
  lemma {:induction false} ScanBatchesFlat(m: OMap<Symbol, StockEntry>, batches: seq<seq<Symbol>>,
                                           latest: Symbol -> Option<LatestPrice>, intraday: Symbol -> Option<seq<Bar>>)
    ensures ScanBatches(m, batches, latest, intraday) == ScanAll(m, Flatten(batches), latest, intraday)
    decreases |batches|
  {
    if batches != [] {
      ScanBatchesFlat(ScanAll(m, batches[0], latest, intraday), batches[1..], latest, intraday);
      ScanAllConcat(m, batches[0], Flatten(batches[1..]), latest, intraday);
    }
  }

  /** The initial scan visits every ticker once, in order. */
  lemma InitialScanSpec(tickers: seq<Symbol>, latest: Symbol -> Option<LatestPrice>, intraday: Symbol -> Option<seq<Bar>>)
    ensures ScanBatches(EmptyMap(), Batches(tickers, 0, InitBatchSize), latest, intraday)
              == ScanAll(EmptyMap(), tickers, latest, intraday)
  {
    BatchesSpec(tickers, 0, InitBatchSize);
    assert tickers[0..] == tickers;
    ScanBatchesFlat(EmptyMap(), Batches(tickers, 0, InitBatchSize), latest, intraday);
  }

  // ---------------------------------------------------------------------------
  // Rescan (`rescanAllStocks`).

  /** One ticker's rescan result, computed against the map as it stood before
      the batch: only a ticker with an entry and a non-zero open is refreshed. */
  function RescanEntry(stocks: OMap<Symbol, StockEntry>, ticker: Symbol, latest: Option<LatestPrice>): (r: Option<StockEntry>)
    ensures r.Some? <==> latest.Some? && ticker in stocks.vals && stocks.vals[ticker].open != 0.0
    ensures r.Some? ==>
              var e := stocks.vals[ticker];
              r.value.ticker == ticker && r.value.price == latest.value.price && r.value.open == e.open
              && r.value.change == latest.value.price - e.open
              && r.value.changePercent == PercentChange(r.value.change, e.open)
              && r.value.volume == (if latest.value.size != 0 then latest.value.size else e.volume)
              && r.value.timestamp == latest.value.timestamp
  {
    if latest.None? || ticker !in stocks.vals || stocks.vals[ticker].open == 0.0 then None
    else
      var existing := stocks.vals[ticker];
      var change := latest.value.price - existing.open;
      Some(StockEntry(ticker, latest.value.price, existing.open, change, PercentChange(change, existing.open),
                      if latest.value.size != 0 then latest.value.size else existing.volume,
                      latest.value.timestamp))
  }

  /** The batch's results, each set in order into the map. */
  function ApplyResults(m: OMap<Symbol, StockEntry>, results: seq<Option<StockEntry>>): OMap<Symbol, StockEntry>
    decreases |results|
  {
    if results == [] then m
    else
      var before := ApplyResults(m, results[..|results| - 1]);
      var r := results[|results| - 1];
      if r.Some? then before.Put(r.value.ticker, r.value) else before
  }

  function RescanResults(stocks: OMap<Symbol, StockEntry>, batch: seq<Symbol>, latest: Symbol -> Option<LatestPrice>)
    : seq<Option<StockEntry>>
  {
    seq(|batch|, i requires 0 <= i < |batch| => RescanEntry(stocks, batch[i], latest(batch[i])))
  }

  function RescanBatch(stocks: OMap<Symbol, StockEntry>, batch: seq<Symbol>, latest: Symbol -> Option<LatestPrice>)
    : OMap<Symbol, StockEntry>
  {
    ApplyResults(stocks, RescanResults(stocks, batch, latest))
  }

  function Rescan(stocks: OMap<Symbol, StockEntry>, batches: seq<seq<Symbol>>, latest: Symbol -> Option<LatestPrice>)
    : OMap<Symbol, StockEntry>
    decreases |batches|
  {
    if batches == [] then stocks else Rescan(RescanBatch(stocks, batches[0], latest), batches[1..], latest)
  }

  /** Whether some result in the list is for ticker t. */
  predicate HasResultFor(results: seq<Option<StockEntry>>, t: Symbol) {
    exists i :: 0 <= i < |results| && results[i].Some? && results[i].value.ticker == t
  }

  /** Setting the results of existing tickers keeps the key order; a ticker
      with a result ends with one of its results, any other keeps its entry. */
  lemma {:induction false} ApplyResultsSpec(stocks: OMap<Symbol, StockEntry>, results: seq<Option<StockEntry>>)
    requires stocks.Valid()
    requires forall i :: 0 <= i < |results| && results[i].Some? ==> results[i].value.ticker in stocks.vals
    ensures var m := ApplyResults(stocks, results);
            && m.Valid() && m.keys == stocks.keys
            && (forall t :: t in stocks.vals && !HasResultFor(results, t) ==> m.vals[t] == stocks.vals[t])
            && (forall t :: t in stocks.vals && HasResultFor(results, t) ==>
                  m.vals[t].ticker == t && Some(m.vals[t]) in results)
    decreases |results|
  {
    if results != [] {
      var init := results[..|results| - 1];
      ApplyResultsSpec(stocks, init);
      var before := ApplyResults(stocks, init);
      var r := results[|results| - 1];
      if r.Some? {
        PutSpec(before, r.value.ticker, r.value);
      }
      forall t | t in stocks.vals
        ensures HasResultFor(results, t) <==> HasResultFor(init, t) || (r.Some? && r.value.ticker == t)
      {
        if HasResultFor(results, t) {
          var i :| 0 <= i < |results| && results[i].Some? && results[i].value.ticker == t;
          if i < |init| {
            assert init[i] == results[i];
          }
        }
        if HasResultFor(init, t) {
          var i :| 0 <= i < |init| && init[i].Some? && init[i].value.ticker == t;
          assert results[i] == init[i];
        }
      }
      assert forall x :: x in init ==> x in results;
    }
  }

  /** A rescan batch never adds or removes a ticker, never changes an open,
      and leaves tickers outside the batch alone. */
  lemma RescanBatchSpec(stocks: OMap<Symbol, StockEntry>, batch: seq<Symbol>, latest: Symbol -> Option<LatestPrice>)
    requires stocks.Valid()
    ensures var m := RescanBatch(stocks, batch, latest);
            && m.Valid() && m.keys == stocks.keys
            && (forall t :: t in stocks.vals ==> m.vals[t].open == stocks.vals[t].open)
            && (forall t :: t in stocks.vals && t !in batch ==> m.vals[t] == stocks.vals[t])
            && (forall t :: t in stocks.vals && t in batch && RescanEntry(stocks, t, latest(t)).Some? ==>
                  m.vals[t] == RescanEntry(stocks, t, latest(t)).value)
            && (forall t :: t in stocks.vals && RescanEntry(stocks, t, latest(t)).None? ==> m.vals[t] == stocks.vals[t])
  {
    var results := RescanResults(stocks, batch, latest);
    assert forall i :: 0 <= i < |results| ==> results[i] == RescanEntry(stocks, batch[i], latest(batch[i]));
    ApplyResultsSpec(stocks, results);
    var m := RescanBatch(stocks, batch, latest);
    forall t | t in stocks.vals
      ensures HasResultFor(results, t) <==> t in batch && RescanEntry(stocks, t, latest(t)).Some?
    {
      if t in batch && RescanEntry(stocks, t, latest(t)).Some? {
        var i :| 0 <= i < |batch| && batch[i] == t;
        assert results[i].Some? && results[i].value.ticker == t;
      }
    }
    forall t | t in stocks.vals && HasResultFor(results, t)
      ensures m.vals[t] == RescanEntry(stocks, t, latest(t)).value
    {
      var i :| 0 <= i < |results| && results[i] == Some(m.vals[t]);
      assert batch[i] == t;
    }
  }

  /** The whole rescan: the same tickers in the same order, the same opens,
      and tickers that were not rescanned untouched. */
  lemma {:induction false} RescanSpec(stocks: OMap<Symbol, StockEntry>, batches: seq<seq<Symbol>>, latest: Symbol -> Option<LatestPrice>)
    requires stocks.Valid()
    ensures var m := Rescan(stocks, batches, latest);
            && m.Valid() && m.keys == stocks.keys
            && (forall t :: t in stocks.vals ==> m.vals[t].open == stocks.vals[t].open)
            && (forall t :: t in stocks.vals && t !in Flatten(batches) ==> m.vals[t] == stocks.vals[t])
    decreases |batches|
  {
    if batches != [] {
      RescanBatchSpec(stocks, batches[0], latest);
      RescanSpec(RescanBatch(stocks, batches[0], latest), batches[1..], latest);
      assert forall t :: t in Flatten(batches) <==> t in batches[0] || t in Flatten(batches[1..]);
    }
  }

  // ---------------------------------------------------------------------------
  // The store.

  class TopMoversStore {
    var stocks: OMap<Symbol, StockEntry>
    var topMoversData: seq<Mover>
    var isInitializing: bool
    var lastUpdate: Millis

    /** The ranking always reflects the map (the ranking effect). */
    ghost predicate Valid()
      reads this`stocks, this`topMoversData
    {
      stocks.Valid() && topMoversData == Rank(stocks)
    }

    constructor (now: Millis)
      ensures Valid() && stocks.keys == [] && topMoversData == [] && !isInitializing && lastUpdate == now
    {
      stocks := EmptyMap();
      topMoversData := [];
      isInitializing := false;
      lastUpdate := now;
    }

    /** `getTopMovers`: the ranked tickers, in rank order. */
    function GetTopMovers(): (r: seq<Symbol>)
      reads this`topMoversData
      ensures |r| == |topMoversData|
      ensures forall i :: 0 <= i < |r| ==> r[i] == topMoversData[i].ticker
    {
      Tickers(topMoversData)
    }

    /** `isInTopMovers(ticker)`. */
    function IsInTopMovers(ticker: Symbol): (r: bool)
      reads this`topMoversData
      ensures r <==> exists i :: 0 <= i < |topMoversData| && topMoversData[i].ticker == ticker
    {
      ticker in GetTopMovers()
    }

    /** `updateStockData(ticker, newPrice)`; `now` is `new Date()`. */
    method UpdateStockData(ticker: Symbol, newPrice: real, now: Millis)
      requires Valid()
      modifies this`stocks, this`topMoversData
      ensures Valid() && stocks == Reprice(old(stocks), ticker, newPrice, now)
    {
      var newMap := stocks;
      if ticker in newMap.vals {
        var existing := newMap.vals[ticker];
        var change := newPrice - existing.open;
        var changePercent := if existing.open != 0.0 then change / existing.open * 100.0 else 0.0;
        newMap := newMap.Put(ticker, existing.(price := newPrice, change := change, changePercent := changePercent, timestamp := now));
      }
      stocks := newMap;
      topMoversData := Rank(stocks);
    }

    /** `rescanAllStocks(tickers)`: batches of 100, each computed against the
        map as it stood before the batch and then merged into it. */
    method RescanAllStocks(tickers: seq<Symbol>, latest: Symbol -> Option<LatestPrice>, now: Millis)
      requires Valid()
      modifies this`stocks, this`topMoversData, this`lastUpdate
      ensures Valid() && stocks == Rescan(old(stocks), Batches(tickers, 0, RescanBatchSize), latest)
      ensures lastUpdate == now
    {
      var i := 0;
      while i < |tickers|
        invariant 0 <= i
        invariant Valid()
        invariant Rescan(stocks, Batches(tickers, i, RescanBatchSize), latest)
                    == Rescan(old(stocks), Batches(tickers, 0, RescanBatchSize), latest)
        decreases |tickers| - i
      {
        var batch := tickers[i..Min(i + RescanBatchSize, |tickers|)];
        RescanStep(stocks, tickers, i, latest);
        var results := FetchResults(stocks, batch, latest);
        var newMap := MergeResults(stocks, results);
        stocks := newMap;
        topMoversData := Rank(stocks);
        i := i + RescanBatchSize;
      }
      lastUpdate := now;
    }

    /** `initializeAllTickers(tickers)`: scan in batches of 50 into a fresh map,
        replacing the store's map after every batch; with no tickers the old map
        stays. Returns `getTopMovers()`. */
    method InitializeAllTickers(tickers: seq<Symbol>, latest: Symbol -> Option<LatestPrice>,
                                intraday: Symbol -> Option<seq<Bar>>, now: Millis)
      returns (top: seq<Symbol>)
      requires Valid()
      modifies this`stocks, this`topMoversData, this`isInitializing, this`lastUpdate
      ensures Valid() && !isInitializing && lastUpdate == now
      ensures tickers == [] ==> stocks == old(stocks)
      ensures tickers != [] ==> stocks == ScanAll(EmptyMap(), tickers, latest, intraday)
      ensures top == GetTopMovers()
    {
      isInitializing := true;
      var newData := EmptyMap();
      InitialScanSpec(tickers, latest, intraday);
      var i := 0;
      while i < |tickers|
        invariant 0 <= i
        invariant Valid() && newData.Valid()
        invariant i == 0 ==> stocks == old(stocks)
        invariant tickers == [] ==> i == 0
        invariant i > 0 ==> stocks == newData
        invariant ScanBatches(newData, Batches(tickers, i, InitBatchSize), latest, intraday)
                    == ScanAll(EmptyMap(), tickers, latest, intraday)
        decreases |tickers| - i
      {
        var batch := tickers[i..Min(i + InitBatchSize, |tickers|)];
        ScanStep(newData, tickers, i, latest, intraday);
        newData := ScanBatch(newData, batch, latest, intraday);
        stocks := newData;
        topMoversData := Rank(stocks);
        i := i + InitBatchSize;
      }
      isInitializing := false;
      lastUpdate := now;
      top := GetTopMovers();
    }
  }

  /** One batch of the initial scan: each ticker fetched in turn and, when
      its scan succeeds, set in the map. */
  method ScanBatch(m: OMap<Symbol, StockEntry>, batch: seq<Symbol>,
                   latest: Symbol -> Option<LatestPrice>, intraday: Symbol -> Option<seq<Bar>>)
    returns (r: OMap<Symbol, StockEntry>)
    requires m.Valid()
    ensures r.Valid() && r == ScanAll(m, batch, latest, intraday)
  {
    ScanAllSpec(m, batch, latest, intraday);
    r := m;
    var j := 0;
    while j < |batch|
      invariant 0 <= j <= |batch|
      invariant r == ScanAll(m, batch[..j], latest, intraday)
    {
      assert batch[..j + 1][..j] == batch[..j];
      var result := ScanEntry(batch[j], latest(batch[j]), intraday(batch[j]));
      if result.Some? {
        r := r.Put(result.value.ticker, result.value);
      }
      j := j + 1;
    }
    assert batch[..j] == batch;
  }

  /** The fetches of one rescan batch (the `Promise.all` of `rescanAllStocks`). */
  method FetchResults(stocks: OMap<Symbol, StockEntry>, batch: seq<Symbol>, latest: Symbol -> Option<LatestPrice>)
    returns (results: seq<Option<StockEntry>>)
    ensures results == RescanResults(stocks, batch, latest)
  {
    results := [];
    var j := 0;
    while j < |batch|
      invariant 0 <= j <= |batch|
      invariant results == RescanResults(stocks, batch[..j], latest)
    {
      results := results + [RescanEntry(stocks, batch[j], latest(batch[j]))];
      j := j + 1;
    }
    assert batch[..j] == batch;
  }

  /** The merge of one batch's results into a copy of the map. */
  method MergeResults(stocks: OMap<Symbol, StockEntry>, results: seq<Option<StockEntry>>)
    returns (r: OMap<Symbol, StockEntry>)
    ensures r == ApplyResults(stocks, results)
    ensures stocks.Valid() ==> r.Valid()
  {
    r := stocks;
    var k := 0;
    while k < |results|
      invariant 0 <= k <= |results|
      invariant r == ApplyResults(stocks, results[..k])
      invariant stocks.Valid() ==> r.Valid()
    {
      assert results[..k + 1][..k] == results[..k];
      if results[k].Some? {
        r := r.Put(results[k].value.ticker, results[k].value);
      }
      k := k + 1;
    }
    assert results[..k] == results;
  }

  /** Scanning the batches from `i` on is scanning the batch at `i`, then the rest. */
  lemma ScanStep(m: OMap<Symbol, StockEntry>, tickers: seq<Symbol>, i: nat,
                 latest: Symbol -> Option<LatestPrice>, intraday: Symbol -> Option<seq<Bar>>)
    requires i < |tickers|
    ensures ScanBatches(m, Batches(tickers, i, InitBatchSize), latest, intraday)
              == ScanBatches(ScanAll(m, tickers[i..Min(i + InitBatchSize, |tickers|)], latest, intraday),
                             Batches(tickers, i + InitBatchSize, InitBatchSize), latest, intraday)
  {
  }

  /** Rescanning the batches from `i` on is rescanning the batch at `i`, then the rest. */
  lemma RescanStep(stocks: OMap<Symbol, StockEntry>, tickers: seq<Symbol>, i: nat, latest: Symbol -> Option<LatestPrice>)
    requires i < |tickers|
    ensures Rescan(stocks, Batches(tickers, i, RescanBatchSize), latest)
              == Rescan(RescanBatch(stocks, tickers[i..Min(i + RescanBatchSize, |tickers|)], latest),
                        Batches(tickers, i + RescanBatchSize, RescanBatchSize), latest)
  {
  }
}
