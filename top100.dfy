/** The top-100 loader (top100_supabase.py): which coins are tracked, the
    day's rankings, the merge with recently tracked coins, the per-day
    series built from the market-chart replies and the rows sent to the
    price tables. Every CoinGecko and Supabase reply is an input; the
    UTC calendar (`datetime.fromtimestamp(...).strftime('%Y-%m-%d')`) is the
    parameter `day`, and today's date is the parameter `today`. */
module Top100 {
  import opened Common
  import opened Strings
  import opened Chunking

  /** The CoinGecko ids that are never selected. */
  const ExcludeIds: seq<string> := [
    "tether", "usd-coin", "staked-ether", "wrapped-bitcoin", "wrapped-steth", "usds",
    "weth", "ethena-usde", "wrapped-eeth", "dai", "susds", "ethereum-classic",
    "coinbase-wrapped-btc", "first-digital-usd", "binance-peg-weth", "kelp-dao-restaked-eth",
    "solv-btc", "rocket-pool-eth", "binance-staked-sol", "mantle-staked-ether", "usual-usd",
    "solv-protocol-solvbtc-bbn", "renzo-restaked-eth", "msol", "wbnb",
    "arbitrum-bridged-wbtc-arbitrum-one", "jupiter-staked-sol", "mantle-restaked-eth",
    "binance-peg-dogecoin", "l2-standard-bridged-weth-base", "usdx-money-usdx"
  ]

  const TopCount := 100
  const BatchSize := 100

  /** An entry of the markets reply, in market-cap order. */
  datatype MarketCoin = MarketCoin(id: string, symbol: string)

  /** The `{"ID": ..., "Symbol": ...}` dictionaries the loader passes around. */
  datatype CoinRef = CoinRef(id: string, symbol: string)

  function NotIn(exclude: seq<string>): MarketCoin -> bool {
    (c: MarketCoin) => c.id !in exclude
  }

  function ToRef(c: MarketCoin): CoinRef {
    CoinRef(c.id, Upper(c.symbol))
  }

  /** `filtered_coins[:100]` turned into references with upper-cased
      symbols, for a given exclusion list. */
  function SelectFrom(market: seq<MarketCoin>, exclude: seq<string>): (r: seq<CoinRef>)
    ensures |r| <= TopCount
    ensures forall c :: c in r ==> c.id !in exclude && exists m :: m in market && c == ToRef(m)
  {
    var kept := Filter(market, NotIn(exclude));
    var top := if |kept| <= TopCount then kept else kept[..TopCount];
    var r := seq(|top|, k requires 0 <= k < |top| => ToRef(top[k]));
    assert forall c :: c in r ==> exists k :: 0 <= k < |top| && c == ToRef(top[k]);
    assert forall k :: 0 <= k < |top| ==> top[k] in kept;
    r
  }

  /** The selection the loader makes, with its exclusion list. */
  function SelectCoins(market: seq<MarketCoin>): (r: seq<CoinRef>)
    ensures |r| <= TopCount
  {
    SelectFrom(market, ExcludeIds)
  }

  /** Filtering around an element the predicate keeps. */
  lemma FilterAt<T>(s: seq<T>, j: nat, p: T -> bool)
    requires j < |s| && p(s[j])
    ensures Filter(s, p) == Filter(s[..j], p) + [s[j]] + Filter(s[j + 1..], p)
  {
    var before, x, after := s[..j], s[j], s[j + 1..];
    assert s == before + [x] + after by {
      assert s == s[..j] + s[j..];
      assert s[j..] == [x] + after;
    }
    assert Filter(before + [x] + after, p) == Filter(before, p) + [x] + Filter(after, p) by {
      FilterOfConcat(before + [x], after, p);
      FilterOfConcat(before, [x], p);
      FilterSingleton(x, p);
    }
  }

  /** The non-excluded coins around position j. */
  lemma KeptAround(market: seq<MarketCoin>, exclude: seq<string>, j: nat)
    requires j < |market| && market[j].id !in exclude
    ensures Filter(market, NotIn(exclude))
      == Filter(market[..j], NotIn(exclude)) + [market[j]] + Filter(market[j + 1..], NotIn(exclude))
  {
    FilterAt(market, j, NotIn(exclude));
  }

  /** A coin that is not excluded is selected, at the position given by the
      number of non-excluded coins before it, exactly when fewer than 100
      such coins come before it. */
  lemma SelectedByPosition(market: seq<MarketCoin>, exclude: seq<string>, j: nat)
    requires j < |market| && market[j].id !in exclude
    ensures var p := |Filter(market[..j], NotIn(exclude))|;
      (p < TopCount ==> p < |SelectFrom(market, exclude)| && SelectFrom(market, exclude)[p] == ToRef(market[j]))
      && (p >= TopCount ==> |SelectFrom(market, exclude)| <= p)
  {
    var p := |Filter(market[..j], NotIn(exclude))|;
    var kept := Filter(market, NotIn(exclude));
    KeptAround(market, exclude, j);
    assert p < |kept| && kept[p] == market[j];
    var top := if |kept| <= TopCount then kept else kept[..TopCount];
    assert SelectFrom(market, exclude) == seq(|top|, k requires 0 <= k < |top| => ToRef(top[k]));
  }

  /** The rankings dict: each symbol mapped to its 1-based position, a
      later position overwriting an earlier one. */
  function Rankings(coins: seq<CoinRef>): map<string, int> {
    if coins == [] then map[]
    else Rankings(coins[..|coins| - 1])[coins[|coins| - 1].symbol := |coins|]
  }

  /** update_rankings' enumerate loop. */
  method UpdateRankings(coins: seq<CoinRef>) returns (rankings: map<string, int>)
    ensures rankings == Rankings(coins)
  {
    rankings := map[];
    var position := 1;
    while position <= |coins|
      invariant 1 <= position <= |coins| + 1
      invariant rankings == Rankings(coins[..position - 1])
    {
      var coin := coins[position - 1];
      assert coins[..position][..position - 1] == coins[..position - 1];
      rankings := rankings[coin.symbol := position];
      position := position + 1;
    }
    assert coins[..|coins|] == coins;
  }

  /** Every symbol of the list is ranked and nothing else is. */
  lemma {:induction false} RankedSymbols(coins: seq<CoinRef>)
    ensures forall s :: s in Rankings(coins) <==> exists k :: 0 <= k < |coins| && coins[k].symbol == s
  {
    if coins != [] {
      var init := coins[..|coins| - 1];
      RankedSymbols(init);
      forall s ensures s in Rankings(coins) <==> exists k :: 0 <= k < |coins| && coins[k].symbol == s {
        if exists k :: 0 <= k < |init| && init[k].symbol == s {
          var k :| 0 <= k < |init| && init[k].symbol == s;
          assert coins[k].symbol == s;
        }
      }
    }
  }

  /** A symbol's rank is its last 1-based position in the list. */
  lemma {:induction false} RankIsLastPosition(coins: seq<CoinRef>, k: nat)
    requires k < |coins|
    requires forall j :: k < j < |coins| ==> coins[j].symbol != coins[k].symbol
    ensures coins[k].symbol in Rankings(coins) && Rankings(coins)[coins[k].symbol] == k + 1
  {
    if k < |coins| - 1 {
      var init := coins[..|coins| - 1];
      RankIsLastPosition(init, k);
    }
  }

  /** Ranks run from 1 to the list's length, and distinct symbols get
      distinct ranks. */
  lemma {:induction false} RanksAreDistinctPositions(coins: seq<CoinRef>)
    ensures forall s :: s in Rankings(coins) ==> 1 <= Rankings(coins)[s] <= |coins|
    ensures forall s, t :: s in Rankings(coins) && t in Rankings(coins) && s != t ==> Rankings(coins)[s] != Rankings(coins)[t]
  {
    if coins != [] {
      RanksAreDistinctPositions(coins[..|coins| - 1]);
    }
  }

  /** A row queued for insertion into tracked_coins. */
  datatype TrackedRecord = TrackedRecord(symbol: string, id: string, firstTracked: string, lastInTop100: string, active: bool)

  function Symbols(coins: seq<CoinRef>): (r: seq<string>)
    ensures |r| == |coins| && forall k :: 0 <= k < |coins| ==> r[k] == coins[k].symbol
  {
    seq(|coins|, k requires 0 <= k < |coins| => coins[k].symbol)
  }

  /** `coins_to_add`: the coins whose symbol is not tracked yet, in order. */
  function ToAdd(coins: seq<CoinRef>, existing: seq<string>, today: string): seq<TrackedRecord> {
    if coins == [] then []
    else
      var coin := coins[|coins| - 1];
      ToAdd(coins[..|coins| - 1], existing, today)
        + if coin.symbol in existing then [] else [TrackedRecord(coin.symbol, coin.id, today, today, true)]
  }

  /** Exactly the untracked coins are queued, each first tracked and last
      seen today, and active. */
  lemma {:induction false} ToAddExactlyNew(coins: seq<CoinRef>, existing: seq<string>, today: string)
    ensures |ToAdd(coins, existing, today)| <= |coins|
    ensures forall t :: t in ToAdd(coins, existing, today) ==>
      t.symbol !in existing && CoinRef(t.id, t.symbol) in coins && t.firstTracked == today && t.lastInTop100 == today && t.active
    ensures forall c :: c in coins && c.symbol !in existing ==> TrackedRecord(c.symbol, c.id, today, today, true) in ToAdd(coins, existing, today)
  {
    if coins != [] {
      var init := coins[..|coins| - 1];
      ToAddExactlyNew(init, existing, today);
      assert forall c :: c in coins <==> c in init || c == coins[|coins| - 1];
    }
  }

  /** When the read of tracked_coins fails, every coin of the list is
      queued. */
  lemma {:induction false} FailedReadQueuesAll(coins: seq<CoinRef>, today: string)
    ensures |ToAdd(coins, [], today)| == |coins|
  {
    if coins != [] {
      FailedReadQueuesAll(coins[..|coins| - 1], today);
    }
  }

  /** Membership of a symbol in a list, the `symbol in current_top100_symbols`
      test. */
  function InSymbols(symbols: seq<string>): string -> bool {
    (s: string) => s in symbols
  }

  /** update_tracked_coins. `existing` is the symbol column read from
      tracked_coins (None: the read raised). It returns the rows queued for
      insertion, the tracked symbols whose last_in_top100 is set to today,
      whether an insert is sent, and the list's symbols in order. */
  method UpdateTrackedCoins(coins: seq<CoinRef>, existing: Option<seq<string>>, today: string)
    returns (toAdd: seq<TrackedRecord>, refreshed: seq<string>, inserts: bool, symbols: seq<string>)
    ensures var known := if existing.Some? then existing.value else [];
      toAdd == ToAdd(coins, known, today) && refreshed == Filter(known, InSymbols(symbols))
    ensures inserts <==> toAdd != []
    ensures symbols == Symbols(coins)
  {
    var known := if existing.Some? then existing.value else [];
    symbols := Symbols(coins);
    toAdd := QueueNewCoins(coins, known, today);
    refreshed := RefreshTracked(known, symbols);
    inserts := toAdd != [];
  }

  /** The loop building `coins_to_add`. */
  method QueueNewCoins(coins: seq<CoinRef>, known: seq<string>, today: string) returns (toAdd: seq<TrackedRecord>)
    ensures toAdd == ToAdd(coins, known, today)
  {
    toAdd := [];
    var i := 0;
    while i < |coins|
      invariant 0 <= i <= |coins|
      invariant toAdd == ToAdd(coins[..i], known, today)
    {
      var coin := coins[i];
      assert coins[..i + 1][..i] == coins[..i];
      if coin.symbol !in known {
        toAdd := toAdd + [TrackedRecord(coin.symbol, coin.id, today, today, true)];
      }
      i := i + 1;
    }
    assert coins[..i] == coins;
  }

  /** The loop setting last_in_top100 for the tracked symbols still in the
      list: the symbols it updates, in order. */
  method RefreshTracked(known: seq<string>, symbols: seq<string>) returns (refreshed: seq<string>)
    ensures refreshed == Filter(known, InSymbols(symbols))
  {
    refreshed := [];
    var j := 0;
    while j < |known|
      invariant 0 <= j <= |known|
      invariant refreshed == Filter(known[..j], InSymbols(symbols))
    {
      FilterPrefixStep(known, j, InSymbols(symbols));
      assert InSymbols(symbols)(known[j]) == (known[j] in symbols);
      if known[j] in symbols {
        refreshed := refreshed + [known[j]];
      }
      j := j + 1;
    }
    assert known[..j] == known;
  }

  lemma FilterPrefixStep<T>(s: seq<T>, j: nat, p: T -> bool)
    requires j < |s|
    ensures Filter(s[..j + 1], p) == Filter(s[..j], p) + if p(s[j]) then [s[j]] else []
  {
    assert s[..j + 1] == s[..j] + [s[j]];
    FilterSnoc(s[..j], s[j], p);
  }

  lemma FilterSnoc<T>(s: seq<T>, x: T, p: T -> bool)
    ensures Filter(s + [x], p) == Filter(s, p) + if p(x) then [x] else []
  {
    FilterOfConcat(s, [x], p);
    FilterSingleton(x, p);
  }

  /** A row of the recent tracked coins (`select('symbol, id')` with the
      cutoff filter applied by the query). */
  datatype TrackedRow = TrackedRow(symbol: string, id: string)

  /** `additional_coins`: the tracked rows whose symbol is not in the
      current list. */
  function Additional(currentSymbols: seq<string>, rows: seq<TrackedRow>): seq<CoinRef> {
    if rows == [] then []
    else
      var row := rows[|rows| - 1];
      Additional(currentSymbols, rows[..|rows| - 1])
        + if row.symbol in currentSymbols then [] else [CoinRef(row.id, row.symbol)]
  }

  /** The additional coins are exactly the tracked rows missing from the
      current list. */
  lemma {:induction false} AdditionalExactlyMissing(currentSymbols: seq<string>, rows: seq<TrackedRow>)
    ensures forall c :: c in Additional(currentSymbols, rows) <==>
      c.symbol !in currentSymbols && TrackedRow(c.symbol, c.id) in rows
  {
    if rows != [] {
      var init := rows[..|rows| - 1];
      AdditionalExactlyMissing(currentSymbols, init);
      assert forall r :: r in rows <==> r in init || r == rows[|rows| - 1];
    }
  }

  /** get_all_active_coins. `tracked` is the query's rows (None: it
      raised). */
  method GetAllActiveCoins(current: seq<CoinRef>, tracked: Option<seq<TrackedRow>>) returns (all: seq<CoinRef>)
    ensures tracked.None? ==> all == current
    ensures tracked.Some? ==> all == current + Additional(Symbols(current), tracked.value)
  {
    if tracked.None? {
      return current;
    }
    var rows := tracked.value;
    var currentSymbols := Symbols(current);
    var additional := [];
    var i := 0;
    while i < |rows|
      invariant 0 <= i <= |rows|
      invariant additional == Additional(currentSymbols, rows[..i])
    {
      var item := rows[i];
      assert rows[..i + 1][..i] == rows[..i];
      if item.symbol !in currentSymbols {
        additional := additional + [CoinRef(item.id, item.symbol)];
      }
      i := i + 1;
    }
    assert rows[..i] == rows;
    all := current + additional;
  }

  /** The merged list starts with the current list, and every coin after it
      is a tracked coin whose symbol the current list does not have. */
  lemma ActiveCoinsExtendCurrent(current: seq<CoinRef>, rows: seq<TrackedRow>)
    ensures var all := current + Additional(Symbols(current), rows);
      all[..|current|] == current
      && forall k :: |current| <= k < |all| ==>
        TrackedRow(all[k].symbol, all[k].id) in rows && forall c :: c in current ==> c.symbol != all[k].symbol
  {
    var all := current + Additional(Symbols(current), rows);
    AdditionalExactlyMissing(Symbols(current), rows);
    forall k | |current| <= k < |all|
      ensures TrackedRow(all[k].symbol, all[k].id) in rows && forall c :: c in current ==> c.symbol != all[k].symbol
    {
      assert all[k] in Additional(Symbols(current), rows);
      forall c | c in current ensures c.symbol != all[k].symbol {
        var m :| 0 <= m < |current| && current[m] == c;
        assert Symbols(current)[m] == c.symbol;
      }
    }
  }

  /** One `[timestamp_ms, value]` point of a market chart. */
  datatype Point = Point(ms: int, value: real)

  /** The three series of a market-chart reply; a missing key reads as []. */
  datatype Chart = Chart(prices: seq<Point>, marketCaps: seq<Point>, volumes: seq<Point>)

  /** The reply to one request: status 429, any RequestException (no
      connection, another error status, a body that is not JSON), or the
      chart. */
  datatype Reply = RateLimited | RequestFailed | Ok(chart: Chart)

  /** The dict comprehension keyed by the UTC date of `ms // 1000` seconds
      (Python's floor division; on the positive divisor 1000 it agrees with
      Dafny's). A later point of the same day overwrites an earlier one. */
  function Daily(points: seq<Point>, day: int -> string): map<string, real> {
    if points == [] then map[]
    else
      var p := points[|points| - 1];
      Daily(points[..|points| - 1], day)[day(p.ms / 1000) := p.value]
  }

  /** The days of the dict are the days of the points, and each day holds
      the value of its last point. */
  lemma {:induction false} DailyLastWins(points: seq<Point>, day: int -> string)
    ensures forall d :: d in Daily(points, day) <==> exists k :: 0 <= k < |points| && day(points[k].ms / 1000) == d
    ensures forall k :: 0 <= k < |points| && (forall j :: k < j < |points| ==> day(points[j].ms / 1000) != day(points[k].ms / 1000)) ==>
      Daily(points, day)[day(points[k].ms / 1000)] == points[k].value
  {
    if points != [] {
      var init := points[..|points| - 1];
      DailyLastWins(init, day);
      forall d ensures d in Daily(points, day) <==> exists k :: 0 <= k < |points| && day(points[k].ms / 1000) == d {
        if exists k :: 0 <= k < |init| && day(init[k].ms / 1000) == d {
          var k :| 0 <= k < |init| && day(init[k].ms / 1000) == d;
          assert points[k] == init[k];
        }
      }
      var last := |points| - 1;
      forall k | 0 <= k < |points| && (forall j :: k < j < |points| ==> day(points[j].ms / 1000) != day(points[k].ms / 1000))
        ensures Daily(points, day)[day(points[k].ms / 1000)] == points[k].value
      {
        if k < last {
          assert points[k] == init[k];
          assert day(points[last].ms / 1000) != day(points[k].ms / 1000);
          forall j | k < j < |init|
            ensures day(init[j].ms / 1000) != day(init[k].ms / 1000)
          {
            assert init[j] == points[j];
          }
        }
      }
    }
  }

  /** The three per-day dicts of one coin: prices, market caps, volumes. */
  datatype CoinSeries = CoinSeries(prices: map<string, real>, marketCaps: map<string, real>, volumes: map<string, real>)

  /** fetch_coin_data. `first` is the reply to the first request and
      `retry` the reply to the one repeated after a 429 (unused otherwise).
      A 429 on the retry fails raise_for_status like any other error
      status. */
  function FetchCoinData(first: Reply, retry: Reply, day: int -> string): (r: CoinSeries)
    ensures (first.RateLimited? && !retry.Ok?) || first.RequestFailed? ==> r == CoinSeries(map[], map[], map[])
    ensures first.Ok? ==> r == CoinSeries(Daily(first.chart.prices, day), Daily(first.chart.marketCaps, day), Daily(first.chart.volumes, day))
    ensures first.RateLimited? && retry.Ok? ==>
      r == CoinSeries(Daily(retry.chart.prices, day), Daily(retry.chart.marketCaps, day), Daily(retry.chart.volumes, day))
  {
    var reply := if first.RateLimited? then retry else first;
    if reply.Ok? then
      CoinSeries(Daily(reply.chart.prices, day), Daily(reply.chart.marketCaps, day), Daily(reply.chart.volumes, day))
    else CoinSeries(map[], map[], map[])
  }

  /** Only one retry: two 429 replies in a row leave the coin without
      data. */
  lemma RetriedOnce(day: int -> string)
    ensures FetchCoinData(RateLimited, RateLimited, day).prices == map[]
  {
  }

  /** The three module-level dicts keyed by symbol. */
  datatype Store = Store(prices: map<string, map<string, real>>, marketCaps: map<string, map<string, real>>, volumes: map<string, map<string, real>>)

  /** The per-coin loop: a coin's series are stored only when its prices
      are non-empty; a later coin with the same symbol overwrites. */
  function Stored(coins: seq<CoinRef>, fetch: CoinRef -> CoinSeries): Store {
    if coins == [] then Store(map[], map[], map[])
    else
      var before := Stored(coins[..|coins| - 1], fetch);
      var coin := coins[|coins| - 1];
      var s := fetch(coin);
      if s.prices != map[] then
        Store(before.prices[coin.symbol := s.prices], before.marketCaps[coin.symbol := s.marketCaps],
              before.volumes[coin.symbol := s.volumes])
      else before
  }

  /** The loop over all coins to track; `fetch` stands for
      fetch_coin_data applied to the coin's id. */
  method StoreAll(coins: seq<CoinRef>, fetch: CoinRef -> CoinSeries) returns (priceData: map<string, map<string, real>>,
    marketCapData: map<string, map<string, real>>, volumeData: map<string, map<string, real>>)
    ensures Store(priceData, marketCapData, volumeData) == Stored(coins, fetch)
  {
    priceData, marketCapData, volumeData := map[], map[], map[];
    var i := 0;
    while i < |coins|
      invariant 0 <= i <= |coins|
      invariant Store(priceData, marketCapData, volumeData) == Stored(coins[..i], fetch)
    {
      var coin := coins[i];
      assert coins[..i + 1][..i] == coins[..i];
      var s := fetch(coin);
      if s.prices != map[] {
        priceData := priceData[coin.symbol := s.prices];
        marketCapData := marketCapData[coin.symbol := s.marketCaps];
        volumeData := volumeData[coin.symbol := s.volumes];
      }
      i := i + 1;
    }
    assert coins[..i] == coins;
  }

  /** The three dicts always have the same symbols, and no empty price
      dict is stored. */
  lemma {:induction false} StoredAlike(coins: seq<CoinRef>, fetch: CoinRef -> CoinSeries)
    ensures var st := Stored(coins, fetch);
      st.prices.Keys == st.marketCaps.Keys == st.volumes.Keys
      && forall s :: s in st.prices ==> st.prices[s] != map[]
  {
    if coins != [] {
      StoredAlike(coins[..|coins| - 1], fetch);
    }
  }

  /** A symbol is stored exactly when some coin with that symbol came back
      with prices. */
  lemma {:induction false} StoredOnlyWithPrices(coins: seq<CoinRef>, fetch: CoinRef -> CoinSeries)
    ensures forall s :: s in Stored(coins, fetch).prices <==> exists c :: c in coins && c.symbol == s && fetch(c).prices != map[]
  {
    if coins != [] {
      var init := coins[..|coins| - 1];
      var last := coins[|coins| - 1];
      StoredOnlyWithPrices(init, fetch);
      forall s ensures s in Stored(coins, fetch).prices <==> exists c :: c in coins && c.symbol == s && fetch(c).prices != map[] {
        PricedSnoc(coins, fetch, s);
      }
    }
  }

  /** Some coin of coins with symbol s has prices exactly when one of the
      earlier coins does or the last one does. */
  lemma PricedSnoc(coins: seq<CoinRef>, fetch: CoinRef -> CoinSeries, s: string)
    requires coins != []
    ensures var init, last := coins[..|coins| - 1], coins[|coins| - 1];
      (exists c :: c in coins && c.symbol == s && fetch(c).prices != map[])
      <==> (exists c :: c in init && c.symbol == s && fetch(c).prices != map[])
           || (last.symbol == s && fetch(last).prices != map[])
  {
    var init, last := coins[..|coins| - 1], coins[|coins| - 1];
    assert coins == init + [last];
    if exists c :: c in coins && c.symbol == s && fetch(c).prices != map[] {
      var c :| c in coins && c.symbol == s && fetch(c).prices != map[];
      assert c in init || c == last;
    }
  }

  /** A row of a DataFrame built from a store: the date and a cell for
      each coin column (FNaN where the coin has no value that day). */
  datatype FrameRow = FrameRow(date: string, cells: map<string, Float>)

  /** One upserted row: the date and the row's numeric cells. */
  datatype PriceRecord = PriceRecord(date: string, prices: map<string, real>)

  /** `coin_data`: the cells other than 'Date' that are not NaN. */
  function CoinData(row: FrameRow): (r: map<string, real>)
    ensures "Date" !in r
    ensures forall k :: k in r <==> k in row.cells && k != "Date" && row.cells[k].Fin?
    ensures forall k :: k in r ==> row.cells[k] == Fin(r[k])
  {
    map k | k in row.cells && k != "Date" && row.cells[k].Fin? :: row.cells[k].r
  }

  /** `supabase_data`: one record per row with some value, in row order. */
  function Records(rows: seq<FrameRow>): seq<PriceRecord> {
    if rows == [] then []
    else
      var row := rows[|rows| - 1];
      Records(rows[..|rows| - 1]) + if CoinData(row) == map[] then [] else [PriceRecord(row.date, CoinData(row))]
  }

  /** No record is empty or holds 'Date'; every row with a value is sent
      under its date. */
  lemma {:induction false} RecordsKeepRowsWithValues(rows: seq<FrameRow>)
    ensures |Records(rows)| <= |rows|
    ensures forall rec :: rec in Records(rows) ==> rec.prices != map[] && "Date" !in rec.prices
    ensures forall row :: row in rows && CoinData(row) != map[] ==> PriceRecord(row.date, CoinData(row)) in Records(rows)
  {
    if rows != [] {
      var init := rows[..|rows| - 1];
      RecordsKeepRowsWithValues(init);
      assert forall r :: r in rows <==> r in init || r == rows[|rows| - 1];
    }
  }

  /** batch_insert: the row conversion loop, then the batches of 100, each
      attempted whatever happened to the one before. `sentOk(k)` is whether
      the k-th upsert (from 0) succeeded; `failed` holds the numbers logged
      as errors. An empty frame, or one with no values, sends nothing. */
  method BatchInsert(rows: seq<FrameRow>, sentOk: nat -> bool) returns (sent: seq<seq<PriceRecord>>, failed: seq<nat>)
    ensures sent == Chunks(Records(rows), BatchSize)
    ensures failed == Failed(|sent|, sentOk)
  {
    if rows == [] {
      return [], [];
    }
    var data := [];
    var i := 0;
    while i < |rows|
      invariant 0 <= i <= |rows|
      invariant data == Records(rows[..i])
    {
      var row := rows[i];
      assert rows[..i + 1][..i] == rows[..i];
      var coinData := CoinData(row);
      if coinData != map[] {
        data := data + [PriceRecord(row.date, coinData)];
      }
      i := i + 1;
    }
    assert rows[..i] == rows;
    if data == [] {
      return [], [];
    }
    sent, failed := SendBatches(data, BatchSize, sentOk);
  }
}
