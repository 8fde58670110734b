/** The custom-metric pipeline of lib/metricEvaluator.ts: joining the price,
    market-cap and volume series into rows, evaluating every custom metric
    for every row and coin, and reshaping one metric into chart columns.

    A row is a JavaScript object, modelled as a map from field names to
    values; a missing field is `undefined`. */
module MetricEvaluator {
  import opened Common
  import opened Strings
  import opened Formula

  type Row = map<string, Value>

  /* ---------------------------------------------------------------------
     prepareDataForMetrics
     --------------------------------------------------------------------- */

  /** `series[index][coin]` of a secondary series: undefined when the series
      is shorter than `index + 1`, when its entry is falsy, or when the entry
      has no such field. */
  function SeriesField(series: seq<Value>, index: nat, coin: string): (r: Option<Value>)
    ensures r.Some? ==> index < |series| && series[index].Obj? && coin in series[index].fields
    ensures r.Some? ==> r.value == series[index].fields[coin]
    ensures index < |series| && series[index].Obj? && coin in series[index].fields ==> r.Some?
  {
    if index < |series| && series[index].Obj? then Get(series[index].fields, coin) else None
  }

  /** The row of one price point before any coin is added: just its date. */
  function DateOnly(pricePoint: Row): Row {
    if "date" in pricePoint then map["date" := pricePoint["date"]] else map[]
  }

  /** One iteration of the coin loop of prepareDataForMetrics: price under
      the coin's own name, then `<coin>_marketCap`, then `<coin>_volume`, each
      only when the source value is not undefined. */
  function PrepareCoin(row: Row, pricePoint: Row, marketCaps: seq<Value>, volumes: seq<Value>,
                       index: nat, coin: string): (r: Row)
    ensures forall k ::
              Get(r, k) == (
                if k == coin + "_volume" && SeriesField(volumes, index, coin).Some? then SeriesField(volumes, index, coin)
                else if k == coin + "_marketCap" && SeriesField(marketCaps, index, coin).Some? then SeriesField(marketCaps, index, coin)
                else if k == coin && coin in pricePoint then Some(pricePoint[coin])
                else Get(row, k))
  {
    var withPrice := if coin in pricePoint then row[coin := pricePoint[coin]] else row;
    var withCap := match SeriesField(marketCaps, index, coin)
      case Some(v) => withPrice[coin + "_marketCap" := v]
      case None => withPrice;
    match SeriesField(volumes, index, coin)
    case Some(v) => withCap[coin + "_volume" := v]
    case None => withCap
  }

  /** The row built for price point `index` after the first |coins| coins. */
  function PrepareRow(pricePoint: Row, marketCaps: seq<Value>, volumes: seq<Value>,
                      index: nat, coins: seq<string>): Row
    decreases |coins|
  {
    if coins == [] then DateOnly(pricePoint)
    else
      PrepareCoin(PrepareRow(pricePoint, marketCaps, volumes, index, coins[..|coins| - 1]),
                  pricePoint, marketCaps, volumes, index, coins[|coins| - 1])
  }

  /** prepareDataForMetrics: one row per price point, in order; the
      secondary series are joined by position, not by date. */
  function PrepareDataForMetrics(priceData: seq<Row>, marketCaps: seq<Value>, volumes: seq<Value>,
                                 coins: seq<string>): (out: seq<Row>)
    ensures |out| == |priceData|
    ensures priceData == [] ==> out == []
  {
    seq(|priceData|, i requires 0 <= i < |priceData| =>
      PrepareRow(priceData[i], marketCaps, volumes, i, coins))
  }

  /** A key of the form `<coin>_marketCap` or `<coin>_volume` is never
      "date". */
  lemma SuffixedKeyIsNotDate(coin: string)
    ensures coin + "_marketCap" != "date" && coin + "_volume" != "date"
  {
    assert |coin + "_marketCap"| >= 10;
    assert |coin + "_volume"| >= 7;
  }

  /** Only "date" and the listed coins' three fields can appear in a
      prepared row. */
  predicate PreparedKey(coins: seq<string>, k: string) {
    k == "date" || exists c :: c in coins && (k == c || k == c + "_marketCap" || k == c + "_volume")
  }

  lemma {:induction false} PrepareRowKeys(pricePoint: Row, marketCaps: seq<Value>, volumes: seq<Value>,
                                          index: nat, coins: seq<string>)
    ensures forall k :: k in PrepareRow(pricePoint, marketCaps, volumes, index, coins) ==> PreparedKey(coins, k)
    ensures Get(PrepareRow(pricePoint, marketCaps, volumes, index, coins), "date") == Get(pricePoint, "date")
    decreases |coins|
  {
    if coins != [] {
      var init := coins[..|coins| - 1];
      var c := coins[|coins| - 1];
      PrepareRowKeys(pricePoint, marketCaps, volumes, index, init);
      SuffixedKeyIsNotDate(c);
      var r := PrepareRow(pricePoint, marketCaps, volumes, index, coins);
      forall k | k in r ensures PreparedKey(coins, k) {
        if k != c && k != c + "_marketCap" && k != c + "_volume" {
          assert PreparedKey(init, k);
          if k != "date" {
            var c' :| c' in init && (k == c' || k == c' + "_marketCap" || k == c' + "_volume");
            assert c' in coins;
          }
        } else {
          assert c in coins;
        }
      }
    }
  }

  /** No coin name is another coin's market-cap or volume field name. */
  predicate NoKeyCollisions(coins: seq<string>) {
    forall c1, c2 :: c1 in coins && c2 in coins ==> c1 != c2 + "_marketCap" && c1 != c2 + "_volume"
  }

  lemma {:induction false} PrepareRowFields(pricePoint: Row, marketCaps: seq<Value>, volumes: seq<Value>,
                                            index: nat, coins: seq<string>, c: string)
    requires NoKeyCollisions(coins)
    requires c in coins
    ensures Get(PrepareRow(pricePoint, marketCaps, volumes, index, coins), c) == Get(pricePoint, c)
    ensures Get(PrepareRow(pricePoint, marketCaps, volumes, index, coins), c + "_marketCap")
         == SeriesField(marketCaps, index, c)
    ensures Get(PrepareRow(pricePoint, marketCaps, volumes, index, coins), c + "_volume")
         == SeriesField(volumes, index, c)
    decreases |coins|
  {
    var init := coins[..|coins| - 1];
    var last := coins[|coins| - 1];
    var prev := PrepareRow(pricePoint, marketCaps, volumes, index, init);
    assert forall x :: x in init ==> x in coins;
    assert NoKeyCollisions(init);
    PrepareRowKeys(pricePoint, marketCaps, volumes, index, init);
    SuffixedKeyIsNotDate(c);
    assert PrepareRow(pricePoint, marketCaps, volumes, index, coins)
        == PrepareCoin(prev, pricePoint, marketCaps, volumes, index, last);
    assert last in coins;
    assert last != c + "_marketCap" && last != c + "_volume";
    assert c != last + "_marketCap" && c != last + "_volume";
    if c in init {
      PrepareRowFields(pricePoint, marketCaps, volumes, index, init, c);
      SuffixedKeys(c, last);
      SuffixedKeys(last, c);
    } else {
      assert c == last;
      // Before the last coin, none of its three fields had been written.
      forall k | k in {c, c + "_marketCap", c + "_volume"} && k != "date"
        ensures k !in prev
      {
        if k in prev {
          assert PreparedKey(init, k);
          var c' :| c' in init && (k == c' || k == c' + "_marketCap" || k == c' + "_volume");
          assert c' in coins;
          SuffixedKeys(c, c');
          SuffixedKeys(c', c);
        }
      }
    }
  }

  /** `<c>_marketCap` and `<c>_volume` determine c, and the two suffixes
      never produce the same key. */
  lemma SuffixedKeys(c: string, c': string)
    ensures c + "_marketCap" != c' + "_volume"
    ensures c + "_marketCap" == c' + "_marketCap" ==> c == c'
    ensures c + "_volume" == c' + "_volume" ==> c == c'
  {
    var cm, cv := c + "_marketCap", c' + "_volume";
    assert cm[|cm| - 1] == 'p';
    assert cv[|cv| - 1] == 'e';
    if c + "_marketCap" == c' + "_marketCap" {
      assert c == cm[..|cm| - 10] == c';
    }
    if c + "_volume" == c' + "_volume" {
      var k := c + "_volume";
      assert c == k[..|k| - 7] == c';
    }
  }

  /* ---------------------------------------------------------------------
     calculateCustomMetrics
     --------------------------------------------------------------------- */

  /** Keys of the first row that are taken as coins when no coin list is
      given. */
  predicate IsCoinKey(key: string) {
    key != "date" && !StartsWith(key, "custom_") && key != "price" && key != "volume" && key != "marketCap"
  }

  /** The coins to process: the given list when it is non-empty, otherwise
      the coin keys of the first row, in key order. */
  function CoinList(coins: Option<seq<string>>, firstRowKeys: seq<string>): (r: seq<string>)
    ensures coins.Some? && coins.value != [] ==> r == coins.value
    ensures coins.None? || coins.value == [] ==>
      forall k :: k in r <==> k in firstRowKeys && IsCoinKey(k)
  {
    if coins.Some? && coins.value != [] then coins.value else Filter(firstRowKeys, IsCoinKey)
  }

  /** The flattened result key `<coin>_<name with each whitespace run
      replaced by _>`. */
  function FlatKey(coin: string, name: string): string {
    coin + "_" + UnderscoreSpaces(name)
  }

  lemma FlatKeyIsNotDate(coin: string, name: string)
    ensures FlatKey(coin, name) != "date"
  {
    var k := FlatKey(coin, name);
    assert k[|coin|] == '_';
    assert forall j :: 0 <= j < 4 ==> "date"[j] != '_';
  }

  /** The flattened key of a metric never coincides with the metric's own
      name: it has strictly more non-whitespace characters. So writing one
      never clobbers the nested object under the other. */
  lemma FlatKeyIsNotName(coin: string, name: string)
    ensures FlatKey(coin, name) != name
  {
    NonSpacesConcat(coin + "_", UnderscoreSpaces(name));
    NonSpacesConcat(coin, "_");
    assert NonSpaces("_") == 1;
    UnderscoreSpacesKeepsNonSpaces(name);
  }

  /** The variables of the scope built for one row and coin. */
  function CoinVars(row: Row, index: nat, coin: string, cal: Calendar): (r: map<string, Value>)
    ensures "index" in r && r["index"] == Num(index as real)
    ensures "price" in r && "volume" in r && "marketCap" in r
    ensures coin in row && Truthy(row[coin]) ==> r["price"] == row[coin]
    ensures !(coin in row && Truthy(row[coin])) ==> r["price"] == Num(0.0)
    ensures coin + "_volume" in row && Truthy(row[coin + "_volume"]) ==> r["volume"] == row[coin + "_volume"]
    ensures !(coin + "_volume" in row && Truthy(row[coin + "_volume"])) ==> r["volume"] == Num(0.0)
    ensures coin + "_marketCap" in row && Truthy(row[coin + "_marketCap"]) ==> r["marketCap"] == row[coin + "_marketCap"]
    ensures !(coin + "_marketCap" in row && Truthy(row[coin + "_marketCap"])) ==> r["marketCap"] == Num(0.0)
  {
    var d := cal(Get(row, "date"));
    map["index" := Num(index as real), "date" := d.time,
        "price" := OrZero(row, coin),
        "volume" := OrZero(row, coin + "_volume"),
        "marketCap" := OrZero(row, coin + "_marketCap"),
        "dayOfWeek" := d.dayOfWeek, "dayOfMonth" := d.dayOfMonth,
        "month" := d.month, "year" := d.year]
  }

  /** What `prev` reads: the coin's field in every row of the array. */
  function Column(rows: seq<Row>, coin: string): (r: seq<Option<Value>>)
    ensures |r| == |rows|
    ensures forall k :: 0 <= k < |rows| ==> r[k] == Get(rows[k], coin)
  {
    seq(|rows|, k requires 0 <= k < |rows| => Get(rows[k], coin))
  }

  /** The body of the try/catch for one metric, row and coin, given what
      evaluating the formula produced (None: it threw). On success the
      flattened key is set, then the nested object under the metric's name
      is created when that field is falsy, and the coin's entry in it is
      set. Setting a property of a truthy primitive throws a TypeError in
      strict mode, and the catch sets the flattened key to null. */
  function MetricStep(row: Row, coin: string, m: CustomMetric, outcome: Option<Value>): (r: Row)
    ensures forall k :: k != FlatKey(coin, m.name) && k != m.name ==> Get(r, k) == Get(row, k)
    ensures FlatKey(coin, m.name) in r
    ensures outcome.None? ==> r == row[FlatKey(coin, m.name) := Null]
    ensures r[FlatKey(coin, m.name)] == Null || (outcome.Some? && r[FlatKey(coin, m.name)] == outcome.value)
    ensures outcome.Some? && Get(row, m.name).None? ==>
      r == row[FlatKey(coin, m.name) := outcome.value][m.name := Obj(map[coin := outcome.value])]
    ensures outcome.Some? && m.name in row && row[m.name].Obj? ==>
      r == row[FlatKey(coin, m.name) := outcome.value][m.name := Obj(row[m.name].fields[coin := outcome.value])]
  {
    FlatKeyIsNotName(coin, m.name);
    var key := FlatKey(coin, m.name);
    match outcome
    case None => row[key := Null]
    case Some(v) =>
      var written := row[key := v];
      if m.name in written && Truthy(written[m.name]) then
        match written[m.name]
        case Obj(fields) => written[m.name := Obj(fields[coin := v])]
        case Arr(_) => written
        case _ => written[key := Null]
      else written[m.name := Obj(map[coin := v])]
  }

  /** One metric for row i and one coin, evaluated against the array as it
      is at that moment (prev reads it live). */
  function ApplyMetric(state: seq<Row>, i: nat, coin: string, vars: map<string, Value>,
                       m: CustomMetric, eval: Evaluator): (r: seq<Row>)
    requires i < |state|
    ensures |r| == |state|
    ensures forall k :: 0 <= k < |state| && k != i ==> r[k] == state[k]
  {
    var outcome := eval(m.formula, Scope(vars, Some(Lookback(i, Column(state, coin)))));
    state[i := MetricStep(state[i], coin, m, outcome)]
  }

  /** The metric loop for row i and one coin, over the first |ms| metrics. */
  function ApplyMetrics(state: seq<Row>, i: nat, coin: string, vars: map<string, Value>,
                        ms: seq<CustomMetric>, eval: Evaluator): (r: seq<Row>)
    requires i < |state|
    ensures |r| == |state|
    ensures forall k :: 0 <= k < |state| && k != i ==> r[k] == state[k]
    decreases |ms|
  {
    if ms == [] then state
    else
      ApplyMetric(ApplyMetrics(state, i, coin, vars, ms[..|ms| - 1], eval),
                  i, coin, vars, ms[|ms| - 1], eval)
  }

  /** The coin loop for row i over the first |coins| coins; each coin's scope
      is built from the row as the earlier coins left it. */
  function ApplyCoins(state: seq<Row>, i: nat, coins: seq<string>, ms: seq<CustomMetric>,
                      eval: Evaluator, cal: Calendar): (r: seq<Row>)
    requires i < |state|
    ensures |r| == |state|
    ensures forall k :: 0 <= k < |state| && k != i ==> r[k] == state[k]
    decreases |coins|
  {
    if coins == [] then state
    else
      var before := ApplyCoins(state, i, coins[..|coins| - 1], ms, eval, cal);
      var coin := coins[|coins| - 1];
      ApplyMetrics(before, i, coin, CoinVars(before[i], i, coin, cal), ms, eval)
  }

  /** The row loop over the first n rows. */
  function ApplyRows(state: seq<Row>, n: nat, coins: seq<string>, ms: seq<CustomMetric>,
                     eval: Evaluator, cal: Calendar): (r: seq<Row>)
    requires n <= |state|
    ensures |r| == |state|
    ensures forall k :: n <= k < |state| ==> r[k] == state[k]
    decreases n
  {
    if n == 0 then state
    else ApplyCoins(ApplyRows(state, n - 1, coins, ms, eval, cal), n - 1, coins, ms, eval, cal)
  }

  /** What calculateCustomMetrics returns. `firstRowKeys` lists the keys of
      the first row in their enumeration order. */
  function CalculatedData(data: seq<Row>, metrics: seq<CustomMetric>, coins: Option<seq<string>>,
                          firstRowKeys: seq<string>, eval: Evaluator, cal: Calendar): (r: seq<Row>)
    ensures |r| == |data|
    ensures metrics == [] ==> r == data
  {
    if |data| == 0 then []
    else if |metrics| == 0 then data
    else ApplyRows(data, |data|, CoinList(coins, firstRowKeys), metrics, eval, cal)
  }

  /** calculateCustomMetrics: the input is copied into a fresh array, which
      the three nested loops then update row by row. */
  method CalculateCustomMetrics(data: seq<Row>, metrics: seq<CustomMetric>, coins: Option<seq<string>>,
                                firstRowKeys: seq<string>, eval: Evaluator, cal: Calendar)
    returns (out: seq<Row>)
    requires |data| > 0 ==> (forall k :: k in firstRowKeys <==> k in data[0]) && NoDuplicates(firstRowKeys)
    ensures out == CalculatedData(data, metrics, coins, firstRowKeys, eval, cal)
  {
    if |data| == 0 {
      return [];
    }
    if |metrics| == 0 {
      return data;
    }
    var processed := new Row[|data|](k requires 0 <= k < |data| => data[k]);
    assert processed[..] == data;
    ProcessRows(processed, CoinList(coins, firstRowKeys), metrics, eval, cal);
    out := processed[..];
  }

  /** The row loop of calculateCustomMetrics. */
  method ProcessRows(processed: array<Row>, coins: seq<string>, metrics: seq<CustomMetric>,
                     eval: Evaluator, cal: Calendar)
    modifies processed
    ensures processed[..] == ApplyRows(old(processed[..]), processed.Length, coins, metrics, eval, cal)
  {
    ghost var start := processed[..];
    var i := 0;
    while i < processed.Length
      invariant 0 <= i <= processed.Length
      invariant processed[..] == ApplyRows(start, i, coins, metrics, eval, cal)
    {
      ProcessRow(processed, i, coins, metrics, eval, cal);
      assert ApplyRows(start, i + 1, coins, metrics, eval, cal)
        == ApplyCoins(ApplyRows(start, i, coins, metrics, eval, cal), i, coins, metrics, eval, cal);
      i := i + 1;
    }
  }

  /** The coin loop of calculateCustomMetrics for row i. */
  method ProcessRow(processed: array<Row>, i: nat, coins: seq<string>, metrics: seq<CustomMetric>,
                    eval: Evaluator, cal: Calendar)
    requires i < processed.Length
    modifies processed
    ensures processed[..] == ApplyCoins(old(processed[..]), i, coins, metrics, eval, cal)
  {
    var j := 0;
    while j < |coins|
      invariant 0 <= j <= |coins|
      invariant processed[..] == ApplyCoins(old(processed[..]), i, coins[..j], metrics, eval, cal)
    {
      ProcessCoin(processed, i, coins[j], CoinVars(processed[i], i, coins[j], cal), metrics, eval);
      assert coins[..j + 1][..j] == coins[..j];
      j := j + 1;
    }
    assert coins[..j] == coins;
  }

  /** The metric loop of calculateCustomMetrics for row i and one coin,
      with the try/catch around each evaluation. */
  method ProcessCoin(processed: array<Row>, i: nat, coin: string, vars: map<string, Value>,
                     metrics: seq<CustomMetric>, eval: Evaluator)
    requires i < processed.Length
    modifies processed
    ensures processed[..] == ApplyMetrics(old(processed[..]), i, coin, vars, metrics, eval)
  {
    ghost var start := processed[..];
    var k := 0;
    while k < |metrics|
      invariant 0 <= k <= |metrics|
      invariant processed[..] == ApplyMetrics(start, i, coin, vars, metrics[..k], eval)
    {
      var m := metrics[k];
      ghost var before := processed[..];
      var outcome := eval(m.formula, Scope(vars, Some(Lookback(i, Column(processed[..], coin)))));
      var row := TryStep(processed[i], coin, m, outcome);
      processed[i] := row;
      assert processed[..] == ApplyMetric(before, i, coin, vars, m, eval);
      assert metrics[..k + 1][..k] == metrics[..k] && metrics[..k + 1][k] == m;
      assert ApplyMetrics(start, i, coin, vars, metrics[..k + 1], eval)
          == ApplyMetric(before, i, coin, vars, m, eval);
      k := k + 1;
    }
    assert metrics[..k] == metrics;
  }

  /** The body of the try/catch for one metric and one coin: write the
      flattened key, then merge the value into the nested object under the
      metric's name; a throw at either point leaves null in the flattened
      key. */
  method TryStep(row: Row, coin: string, m: CustomMetric, outcome: Option<Value>) returns (r: Row)
    ensures r == MetricStep(row, coin, m, outcome)
  {
    var key := FlatKey(coin, m.name);
    r := row;
    match outcome {
      case None =>
        r := r[key := Null];
      case Some(v) =>
        r := r[key := v];
        if m.name in r && Truthy(r[m.name]) {
          match r[m.name] {
            case Obj(fields) =>
              r := r[m.name := Obj(fields[coin := v])];
            case Arr(_) =>
            case _ =>
              r := r[key := Null];
          }
        } else {
          r := r[m.name := Obj(map[coin := v])];
        }
    }
  }

  /** No (coin, metric) pair writes key k: it is neither a flattened key
      nor a metric name. */
  predicate Unwritten(k: string, coins: seq<string>, ms: seq<CustomMetric>) {
    forall c, m :: c in coins && m in ms ==> k != FlatKey(c, m.name) && k != m.name
  }

  lemma {:induction false} MetricsKeepKey(state: seq<Row>, i: nat, coin: string, vars: map<string, Value>,
                                          ms: seq<CustomMetric>, eval: Evaluator, k: string)
    requires i < |state|
    requires forall m :: m in ms ==> k != FlatKey(coin, m.name) && k != m.name
    ensures Get(ApplyMetrics(state, i, coin, vars, ms, eval)[i], k) == Get(state[i], k)
    decreases |ms|
  {
    if ms != [] {
      var init := ms[..|ms| - 1];
      assert forall m :: m in init ==> m in ms;
      MetricsKeepKey(state, i, coin, vars, init, eval, k);
      assert ms[|ms| - 1] in ms;
    }
  }

  lemma {:induction false} CoinsKeepKey(state: seq<Row>, i: nat, coins: seq<string>, ms: seq<CustomMetric>,
                                        eval: Evaluator, cal: Calendar, k: string)
    requires i < |state| && Unwritten(k, coins, ms)
    ensures Get(ApplyCoins(state, i, coins, ms, eval, cal)[i], k) == Get(state[i], k)
    decreases |coins|
  {
    if coins != [] {
      var init := coins[..|coins| - 1];
      var c := coins[|coins| - 1];
      assert forall x :: x in init ==> x in coins;
      CoinsKeepKey(state, i, init, ms, eval, cal, k);
      var before := ApplyCoins(state, i, init, ms, eval, cal);
      assert c in coins;
      MetricsKeepKey(before, i, c, CoinVars(before[i], i, c, cal), ms, eval, k);
    }
  }

  lemma {:induction false} RowsKeepKey(state: seq<Row>, n: nat, coins: seq<string>, ms: seq<CustomMetric>,
                                       eval: Evaluator, cal: Calendar, k: string)
    requires n <= |state| && Unwritten(k, coins, ms)
    ensures forall j :: 0 <= j < |state| ==> Get(ApplyRows(state, n, coins, ms, eval, cal)[j], k) == Get(state[j], k)
    decreases n
  {
    if n > 0 {
      RowsKeepKey(state, n - 1, coins, ms, eval, cal, k);
      CoinsKeepKey(ApplyRows(state, n - 1, coins, ms, eval, cal), n - 1, coins, ms, eval, cal, k);
    }
  }

  /** calculateCustomMetrics changes no field that no metric writes, for
      every evaluator and however formulas fail. */
  lemma UnwrittenKeysKept(data: seq<Row>, metrics: seq<CustomMetric>, coins: Option<seq<string>>,
                          firstRowKeys: seq<string>, eval: Evaluator, cal: Calendar, k: string)
    requires Unwritten(k, CoinList(coins, firstRowKeys), metrics)
    ensures forall i :: 0 <= i < |data| ==>
      Get(CalculatedData(data, metrics, coins, firstRowKeys, eval, cal)[i], k) == Get(data[i], k)
  {
    if |data| > 0 && |metrics| > 0 {
      RowsKeepKey(data, |data|, CoinList(coins, firstRowKeys), metrics, eval, cal, k);
    }
  }

  /** The output rows keep the input dates unless a metric is itself named
      "date" (a flattened key never is). */
  lemma DatesKept(data: seq<Row>, metrics: seq<CustomMetric>, coins: Option<seq<string>>,
                  firstRowKeys: seq<string>, eval: Evaluator, cal: Calendar)
    requires forall m :: m in metrics ==> m.name != "date"
    ensures forall i :: 0 <= i < |data| ==>
      Get(CalculatedData(data, metrics, coins, firstRowKeys, eval, cal)[i], "date") == Get(data[i], "date")
  {
    forall c, m | c in CoinList(coins, firstRowKeys) && m in metrics
      ensures "date" != FlatKey(c, m.name) && "date" != m.name
    {
      FlatKeyIsNotDate(c, m.name);
    }
    UnwrittenKeysKept(data, metrics, coins, firstRowKeys, eval, cal, "date");
  }

  /* formatMetricDataForChart */

  /** A chart point: each key is assigned, possibly to `undefined` (None). */
  type ChartRow = map<string, Option<Value>>

  /** The value shown for one coin: `point[name][coin]` when `point[name]`
      is a truthy object and that entry is neither null nor undefined,
      otherwise the flattened key `<coin>_<name>`. An array under the name
      has no entry for a coin. */
  function ChartValue(point: Row, metricName: string, coin: string): (r: Option<Value>)
    ensures (metricName in point && point[metricName].Obj? && coin in point[metricName].fields
             && point[metricName].fields[coin] != Null) ==> r == Some(point[metricName].fields[coin])
    ensures (metricName !in point || !point[metricName].Obj? || coin !in point[metricName].fields
             || point[metricName].fields[coin] == Null) ==> r == Get(point, FlatKey(coin, metricName))
  {
    var nested :=
      if metricName in point && Truthy(point[metricName]) && point[metricName].Obj?
      then Get(point[metricName].fields, coin)
      else None;
    if nested.None? || nested == Some(Null) then Get(point, FlatKey(coin, metricName)) else nested
  }

  /** The chart point of one row: its date, then one entry per coin in
      order (a coin named "date" would overwrite the date). */
  function ChartPoint(point: Row, metricName: string, coins: seq<string>): (r: ChartRow)
    ensures r.Keys == {"date"} + set c | c in coins
    ensures forall c :: c in coins ==> r[c] == ChartValue(point, metricName, c)
    ensures "date" !in coins ==> r["date"] == Get(point, "date")
  {
    if coins == [] then map["date" := Get(point, "date")]
    else
      var c := coins[|coins| - 1];
      ChartPoint(point, metricName, coins[..|coins| - 1])[c := ChartValue(point, metricName, c)]
  }

  /** formatMetricDataForChart: one chart point per input row, in order. */
  function FormatMetricDataForChart(data: seq<Row>, metricName: string, coins: seq<string>): (out: seq<ChartRow>)
    ensures |out| == |data|
    ensures forall i, c :: 0 <= i < |data| && c in coins ==>
      c in out[i] && out[i][c] == ChartValue(data[i], metricName, c)
    ensures forall i :: 0 <= i < |data| ==> out[i].Keys == {"date"} + set c | c in coins
    ensures forall i :: 0 <= i < |data| && "date" !in coins ==> out[i]["date"] == Get(data[i], "date")
  {
    seq(|data|, i requires 0 <= i < |data| => ChartPoint(data[i], metricName, coins))
  }
}

