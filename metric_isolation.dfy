/** Failure isolation in calculateCustomMetrics: when the keys the metrics
    write are disjoint from the keys the scopes read, every cell of the
    result is exactly what its own formula gives in a scope built from the
    ORIGINAL data, whatever the other formulas did or whether they threw.
    The nested object under each metric's name collects exactly the coins
    whose formula succeeded, and every other field is left as it was. */
module MetricIsolation {
  import opened Common
  import opened Formula
  import opened MetricEvaluator

  type Pair = (string, CustomMetric)

  /** The scope a (row, coin) cell is evaluated in, built from the input
      data: the row's own fields and the coin's column for `prev`. */
  function CellScope(data: seq<Row>, i: nat, c: string, cal: Calendar): Scope
    requires i < |data|
  {
    Scope(CoinVars(data[i], i, c, cal), Some(Lookback(i, Column(data, c))))
  }

  /** `prev(k)` in a cell's scope reads the coin's field of the input row
      i - k, or 0 when there is no such row or the field there is falsy. */
  lemma CellPrev(data: seq<Row>, i: nat, c: string, cal: Calendar, k: int)
    requires i < |data|
    ensures CellScope(data, i, c, cal).lookback.Some?
    ensures 0 <= i - k < |data| ==>
      Prev(CellScope(data, i, c, cal).lookback.value, Some(k as real)) == Some(OrZero(data[i - k], c))
    ensures !(0 <= i - k < |data|) ==>
      Prev(CellScope(data, i, c, cal).lookback.value, Some(k as real)) == Some(Num(0.0))
  {
    var lb := Lookback(i, Column(data, c));
    PrevWhole(lb, k);
  }

  /** What the formula of m gives for row i and coin c. */
  function Outcome(data: seq<Row>, i: nat, c: string, m: CustomMetric, eval: Evaluator, cal: Calendar): Option<Value>
    requires i < |data|
  {
    eval(m.formula, CellScope(data, i, c, cal))
  }

  /** The flattened cell: the result, or null when evaluation threw. */
  function CellValue(o: Option<Value>): Value {
    if o.Some? then o.value else Null
  }

  /** The fields a coin's scope reads. */
  predicate ReadKey(c: string, k: string) {
    k == c || k == c + "_volume" || k == c + "_marketCap" || k == "date"
  }

  /** The keys written by the metrics never collide with each other or with
      the keys the scopes read, and the metric names are not fields of the
      input rows. */
  predicate Separated(data: seq<Row>, coins: seq<string>, ms: seq<CustomMetric>) {
    (forall c1, c2, m {:trigger ReadKey(c2, FlatKey(c1, m.name))} ::
       c1 in coins && c2 in coins && m in ms ==> !ReadKey(c2, FlatKey(c1, m.name)))
    && (forall c, m {:trigger ReadKey(c, m.name)} :: c in coins && m in ms ==> !ReadKey(c, m.name))
    && (forall k, m :: 0 <= k < |data| && m in ms ==> m.name !in data[k])
    && (forall c1, c2, m1, m2 {:trigger FlatKey(c1, m1.name), FlatKey(c2, m2.name)} ::
          c1 in coins && c2 in coins && m1 in ms && m2 in ms && FlatKey(c1, m1.name) == FlatKey(c2, m2.name)
          ==> c1 == c2 && m1.name == m2.name)
    && (forall c, m1, m2 {:trigger FlatKey(c, m1.name), m2.name} ::
          c in coins && m1 in ms && m2 in ms ==> FlatKey(c, m1.name) != m2.name)
    && (forall m1, m2 {:trigger m1.name, m2.name} :: m1 in ms && m2 in ms && m1.name == m2.name ==> m1 == m2)
  }

  function Pairs(coins: seq<string>, ms: seq<CustomMetric>): set<Pair> {
    set c, m | c in coins && m in ms :: (c, m)
  }

  predicate Within(P: set<Pair>, coins: seq<string>, ms: seq<CustomMetric>) {
    forall p :: p in P ==> p.0 in coins && p.1 in ms
  }

  /** The coins of the processed pairs whose formula for m succeeded, with
      their results: the expected contents of the nested object. */
  function NestedFields(data: seq<Row>, i: nat, coins: seq<string>, P: set<Pair>, m: CustomMetric,
                        eval: Evaluator, cal: Calendar): map<string, Value>
    requires i < |data|
  {
    map c | c in coins && (c, m) in P && Outcome(data, i, c, m, eval, cal).Some? ::
      Outcome(data, i, c, m, eval, cal).value
  }

  /** The expected field under m's name: absent until some coin succeeded. */
  function Nested(data: seq<Row>, i: nat, coins: seq<string>, P: set<Pair>, m: CustomMetric,
                  eval: Evaluator, cal: Calendar): Option<Value>
    requires i < |data|
  {
    var f := NestedFields(data, i, coins, P, m, eval, cal);
    if f == map[] then None else Some(Obj(f))
  }

  /** Every processed pair's flattened cell holds its own outcome. */
  ghost predicate CellsDone(out: Row, data: seq<Row>, i: nat, P: set<Pair>, eval: Evaluator, cal: Calendar)
    requires i < |data|
  {
    forall c, m :: (c, m) in P ==>
      FlatKey(c, m.name) in out && out[FlatKey(c, m.name)] == CellValue(Outcome(data, i, c, m, eval, cal))
  }

  /** Every metric's nested object holds exactly its processed successes. */
  ghost predicate NestedDone(out: Row, data: seq<Row>, i: nat, coins: seq<string>, ms: seq<CustomMetric>,
                             P: set<Pair>, eval: Evaluator, cal: Calendar)
    requires i < |data|
  {
    forall m :: m in ms ==> Get(out, m.name) == Nested(data, i, coins, P, m, eval, cal)
  }

  /** Keys that no processed pair writes keep their input value. */
  ghost predicate OthersKept(out: Row, data: seq<Row>, i: nat, P: set<Pair>)
    requires i < |data|
  {
    forall k :: (forall p :: p in P ==> k != FlatKey(p.0, p.1.name) && k != p.1.name) ==>
      Get(out, k) == Get(data[i], k)
  }

  /** Row `out` is row i of the input after exactly the pairs P have been
      processed. */
  ghost predicate RowDone(out: Row, data: seq<Row>, i: nat, coins: seq<string>, ms: seq<CustomMetric>,
                          P: set<Pair>, eval: Evaluator, cal: Calendar)
    requires i < |data|
  {
    CellsDone(out, data, i, P, eval, cal) && NestedDone(out, data, i, coins, ms, P, eval, cal)
    && OthersKept(out, data, i, P)
  }

  /** The flattened key of a new pair differs from every other pair's
      flattened key and from every metric name. */
  lemma NewKeyIsFresh(coins: seq<string>, ms: seq<CustomMetric>, P: set<Pair>, c: string, m: CustomMetric,
                      data: seq<Row>)
    requires Separated(data, coins, ms) && Within(P, coins, ms)
    requires c in coins && m in ms
    ensures forall p :: p in P && p != (c, m) ==> FlatKey(p.0, p.1.name) != FlatKey(c, m.name)
    ensures forall m' :: m' in ms ==> m'.name != FlatKey(c, m.name)
    ensures forall p :: p in P ==> p.1.name != FlatKey(c, m.name) && m.name != FlatKey(p.0, p.1.name)
    ensures forall m' :: m' in ms && m'.name == m.name ==> m' == m
  {
  }

  /** A step that writes only the new pair's two keys keeps every earlier
      cell. */
  lemma CellsAfterStep(out: Row, r: Row, data: seq<Row>, i: nat, P: set<Pair>, c: string, m: CustomMetric,
                       eval: Evaluator, cal: Calendar)
    requires i < |data|
    requires CellsDone(out, data, i, P, eval, cal)
    requires forall k :: k != FlatKey(c, m.name) && k != m.name ==> Get(r, k) == Get(out, k)
    requires FlatKey(c, m.name) in r && r[FlatKey(c, m.name)] == CellValue(Outcome(data, i, c, m, eval, cal))
    requires forall p :: p in P && p != (c, m) ==> FlatKey(p.0, p.1.name) != FlatKey(c, m.name)
    requires forall p :: p in P ==> m.name != FlatKey(p.0, p.1.name)
    ensures CellsDone(r, data, i, P + {(c, m)}, eval, cal)
  {
    forall c': string, m': CustomMetric | (c', m') in P + {(c, m)}
      ensures FlatKey(c', m'.name) in r && r[FlatKey(c', m'.name)] == CellValue(Outcome(data, i, c', m', eval, cal))
    {
      if (c', m') != (c, m) {
        assert (c', m') in P;
        assert Get(r, FlatKey(c', m'.name)) == Get(out, FlatKey(c', m'.name));
      }
    }
  }

  /** A step whose nested field for m is the expected one keeps every other
      metric's nested object. */
  lemma NestedAfterStep(out: Row, r: Row, data: seq<Row>, i: nat, coins: seq<string>, ms: seq<CustomMetric>,
                        P: set<Pair>, c: string, m: CustomMetric, eval: Evaluator, cal: Calendar)
    requires i < |data|
    requires NestedDone(out, data, i, coins, ms, P, eval, cal)
    requires forall k :: k != FlatKey(c, m.name) && k != m.name ==> Get(r, k) == Get(out, k)
    requires Get(r, m.name) == Nested(data, i, coins, P + {(c, m)}, m, eval, cal)
    requires forall m' :: m' in ms ==> m'.name != FlatKey(c, m.name)
    requires forall m' :: m' in ms && m'.name == m.name ==> m' == m
    ensures NestedDone(r, data, i, coins, ms, P + {(c, m)}, eval, cal)
  {
    forall m' | m' in ms
      ensures Get(r, m'.name) == Nested(data, i, coins, P + {(c, m)}, m', eval, cal)
    {
      if m' != m {
        NestedOfOtherMetric(data, i, coins, P, c, m, m', eval, cal);
        assert Get(r, m'.name) == Get(out, m'.name);
      }
    }
  }

  /** Processing a pair of metric m does not change another metric's
      expected nested object. */
  lemma NestedOfOtherMetric(data: seq<Row>, i: nat, coins: seq<string>, P: set<Pair>, c: string,
                            m: CustomMetric, m': CustomMetric, eval: Evaluator, cal: Calendar)
    requires i < |data| && m' != m
    ensures Nested(data, i, coins, P + {(c, m)}, m', eval, cal) == Nested(data, i, coins, P, m', eval, cal)
  {
    assert NestedFields(data, i, coins, P + {(c, m)}, m', eval, cal)
        == NestedFields(data, i, coins, P, m', eval, cal);
  }

  /** A step that writes only the new pair's two keys keeps every key no
      pair writes. */
  lemma OthersAfterStep(out: Row, r: Row, data: seq<Row>, i: nat, P: set<Pair>, c: string, m: CustomMetric)
    requires i < |data|
    requires OthersKept(out, data, i, P)
    requires forall k :: k != FlatKey(c, m.name) && k != m.name ==> Get(r, k) == Get(out, k)
    ensures OthersKept(r, data, i, P + {(c, m)})
  {
    forall k | (forall p :: p in P + {(c, m)} ==> k != FlatKey(p.0, p.1.name) && k != p.1.name)
      ensures Get(r, k) == Get(data[i], k)
    {
      assert (c, m) in P + {(c, m)};
    }
  }

  /** After one step the nested field of m holds the processed successes,
      the new one included. */
  lemma NestedOfStep(out: Row, data: seq<Row>, i: nat, coins: seq<string>,
                     P: set<Pair>, c: string, m: CustomMetric, eval: Evaluator, cal: Calendar)
    requires i < |data| && c in coins
    requires Get(out, m.name) == Nested(data, i, coins, P, m, eval, cal)
    ensures Get(MetricStep(out, c, m, Outcome(data, i, c, m, eval, cal)), m.name)
         == Nested(data, i, coins, P + {(c, m)}, m, eval, cal)
  {
    var o := Outcome(data, i, c, m, eval, cal);
    FlatKeyIsNotName(c, m.name);
    var before := NestedFields(data, i, coins, P, m, eval, cal);
    NestedFieldsOfStep(data, i, coins, P, c, m, eval, cal);
    if o.Some? {
      var after := NestedFields(data, i, coins, P + {(c, m)}, m, eval, cal);
      assert after == before[c := o.value];
      assert c in after;
      if before == map[] {
        assert Get(out, m.name).None?;
        assert after == map[c := o.value];
      } else {
        assert out[m.name] == Obj(before);
      }
    }
  }

  /** The expected nested fields grow by the new coin exactly when its
      formula succeeded. */
  lemma NestedFieldsOfStep(data: seq<Row>, i: nat, coins: seq<string>, P: set<Pair>, c: string,
                           m: CustomMetric, eval: Evaluator, cal: Calendar)
    requires i < |data| && c in coins
    ensures var o := Outcome(data, i, c, m, eval, cal);
      var before := NestedFields(data, i, coins, P, m, eval, cal);
      NestedFields(data, i, coins, P + {(c, m)}, m, eval, cal)
        == if o.Some? then before[c := o.value] else before
  {
    var o := Outcome(data, i, c, m, eval, cal);
    var before := NestedFields(data, i, coins, P, m, eval, cal);
    var after := NestedFields(data, i, coins, P + {(c, m)}, m, eval, cal);
    NestedFieldsAre(data, i, coins, P, m, eval, cal);
    NestedFieldsAre(data, i, coins, P + {(c, m)}, m, eval, cal);
    UpdatedAt(before, after, c, o);
  }

  /** Two maps that agree away from c, where after holds o's value at c
      exactly when o has one. */
  lemma UpdatedAt(before: map<string, Value>, after: map<string, Value>, c: string, o: Option<Value>)
    requires forall k :: k != c ==> (k in after <==> k in before)
    requires forall k :: k != c && k in after ==> after[k] == before[k]
    requires c in after <==> o.Some?
    requires c in after ==> after[c] == o.value
    requires c in before ==> o.Some? && before[c] == o.value
    ensures after == if o.Some? then before[c := o.value] else before
  {
    if o.Some? {
      assert after.Keys == before.Keys + {c};
    } else {
      assert after.Keys == before.Keys;
    }
  }

  /** The nested fields hold, for each coin of a processed pair of m, the
      outcome of its formula when that succeeded. */
  lemma NestedFieldsAre(data: seq<Row>, i: nat, coins: seq<string>, P: set<Pair>, m: CustomMetric,
                        eval: Evaluator, cal: Calendar)
    requires i < |data|
    ensures var f := NestedFields(data, i, coins, P, m, eval, cal);
      (forall k :: k in f <==> k in coins && (k, m) in P && Outcome(data, i, k, m, eval, cal).Some?)
      && forall k :: k in f ==> f[k] == Outcome(data, i, k, m, eval, cal).value
  {
  }

  /** One try/catch step keeps the row invariant, whether the formula
      succeeded or threw. */
  lemma Step(out: Row, data: seq<Row>, i: nat, coins: seq<string>, ms: seq<CustomMetric>,
             P: set<Pair>, c: string, m: CustomMetric, eval: Evaluator, cal: Calendar)
    requires i < |data| && Separated(data, coins, ms) && Within(P, coins, ms)
    requires c in coins && m in ms
    requires RowDone(out, data, i, coins, ms, P, eval, cal)
    ensures RowDone(MetricStep(out, c, m, Outcome(data, i, c, m, eval, cal)), data, i, coins, ms,
                    P + {(c, m)}, eval, cal)
  {
    var r := MetricStep(out, c, m, Outcome(data, i, c, m, eval, cal));
    NewKeyIsFresh(coins, ms, P, c, m, data);
    FlatKeyIsNotName(c, m.name);
    NestedOfStep(out, data, i, coins, P, c, m, eval, cal);
    CellsAfterStep(out, r, data, i, P, c, m, eval, cal);
    NestedAfterStep(out, r, data, i, coins, ms, P, c, m, eval, cal);
    OthersAfterStep(out, r, data, i, P, c, m);
  }

  /* Lifting the step to the three loops. */

  /** Rows before n are complete, row n has processed exactly the pairs P,
      and the rows after it are untouched. */
  ghost predicate StateDone(state: seq<Row>, data: seq<Row>, n: nat, P: set<Pair>, coins: seq<string>,
                            ms: seq<CustomMetric>, eval: Evaluator, cal: Calendar)
  {
    |state| == |data| && n <= |data|
    && (forall k :: 0 <= k < n ==> RowDone(state[k], data, k, coins, ms, Pairs(coins, ms), eval, cal))
    && (n < |data| ==> RowDone(state[n], data, n, coins, ms, P, eval, cal))
    && (forall k :: n < k < |data| ==> state[k] == data[k])
  }

  lemma PairsWithin(coins: seq<string>, ms: seq<CustomMetric>, cs: seq<string>, ms': seq<CustomMetric>)
    requires forall c :: c in cs ==> c in coins
    requires forall m :: m in ms' ==> m in ms
    ensures Within(Pairs(cs, ms'), coins, ms)
  {
  }

  /** A row of the input, before any pair: nothing written yet, and no
      nested object since metric names are not input fields. */
  lemma InitialRowDone(data: seq<Row>, i: nat, coins: seq<string>, ms: seq<CustomMetric>,
                       eval: Evaluator, cal: Calendar)
    requires i < |data| && Separated(data, coins, ms)
    ensures RowDone(data[i], data, i, coins, ms, {}, eval, cal)
  {
    forall m | m in ms ensures Get(data[i], m.name) == Nested(data, i, coins, {}, m, eval, cal) {
      assert NestedFields(data, i, coins, {}, m, eval, cal) == map[];
    }
  }

  /** The fields a coin's scope reads are never written. */
  lemma ReadKeysKept(row: Row, data: seq<Row>, i: nat, coins: seq<string>, ms: seq<CustomMetric>,
                     P: set<Pair>, c: string)
    requires i < |data| && Separated(data, coins, ms) && Within(P, coins, ms) && c in coins
    requires OthersKept(row, data, i, P)
    ensures forall k :: ReadKey(c, k) ==> Get(row, k) == Get(data[i], k)
  {
    forall k | ReadKey(c, k) ensures Get(row, k) == Get(data[i], k) {
      forall p | p in P ensures k != FlatKey(p.0, p.1.name) && k != p.1.name {
        assert !ReadKey(c, FlatKey(p.0, p.1.name)) && !ReadKey(c, p.1.name);
      }
    }
  }

  /** A scope depends on the row only through the fields it reads. */
  lemma CoinVarsOfReadKeys(row: Row, row0: Row, i: nat, c: string, cal: Calendar)
    requires forall k :: ReadKey(c, k) ==> Get(row, k) == Get(row0, k)
    ensures CoinVars(row, i, c, cal) == CoinVars(row0, i, c, cal)
  {
    assert ReadKey(c, c) && ReadKey(c, c + "_volume") && ReadKey(c, c + "_marketCap") && ReadKey(c, "date");
    assert OrZero(row, c) == OrZero(row0, c);
    assert OrZero(row, c + "_volume") == OrZero(row0, c + "_volume");
    assert OrZero(row, c + "_marketCap") == OrZero(row0, c + "_marketCap");
  }

  /** What `prev` sees for a coin is the input's column. */
  lemma ColumnKept(state: seq<Row>, data: seq<Row>, n: nat, P: set<Pair>, coins: seq<string>,
                   ms: seq<CustomMetric>, eval: Evaluator, cal: Calendar, c: string)
    requires Separated(data, coins, ms) && Within(P, coins, ms) && c in coins
    requires StateDone(state, data, n, P, coins, ms, eval, cal)
    ensures Column(state, c) == Column(data, c)
  {
    PairsWithin(coins, ms, coins, ms);
    forall k | 0 <= k < |data| ensures Get(state[k], c) == Get(data[k], c) {
      if k < n {
        ReadKeysKept(state[k], data, k, coins, ms, Pairs(coins, ms), c);
        assert ReadKey(c, c);
      } else if k == n {
        ReadKeysKept(state[k], data, k, coins, ms, P, c);
        assert ReadKey(c, c);
      }
    }
  }

  /** Replacing the current row by one with more pairs processed. */
  lemma ReplaceRow(state: seq<Row>, data: seq<Row>, i: nat, P: set<Pair>, P': set<Pair>, row: Row,
                   coins: seq<string>, ms: seq<CustomMetric>, eval: Evaluator, cal: Calendar)
    requires i < |data|
    requires StateDone(state, data, i, P, coins, ms, eval, cal)
    requires RowDone(row, data, i, coins, ms, P', eval, cal)
    ensures StateDone(state[i := row], data, i, P', coins, ms, eval, cal)
  {
  }

  lemma PairsSnoc(cs: seq<string>, ms: seq<CustomMetric>)
    requires ms != []
    ensures Pairs(cs, ms) == Pairs(cs, ms[..|ms| - 1]) + set c | c in cs :: (c, ms[|ms| - 1])
  {
    assert ms == ms[..|ms| - 1] + [ms[|ms| - 1]];
  }

  lemma {:induction false} MetricsDone(state: seq<Row>, data: seq<Row>, i: nat, c: string, ms': seq<CustomMetric>,
                                       P: set<Pair>, coins: seq<string>, ms: seq<CustomMetric>,
                                       eval: Evaluator, cal: Calendar)
    requires i < |data| && Separated(data, coins, ms) && Within(P, coins, ms) && c in coins
    requires forall m :: m in ms' ==> m in ms
    requires StateDone(state, data, i, P, coins, ms, eval, cal)
    ensures StateDone(ApplyMetrics(state, i, c, CoinVars(data[i], i, c, cal), ms', eval), data, i,
                      P + Pairs([c], ms'), coins, ms, eval, cal)
    decreases |ms'|
  {
    var vars := CoinVars(data[i], i, c, cal);
    if ms' == [] {
      assert P + Pairs([c], ms') == P;
    } else {
      var init := ms'[..|ms'| - 1];
      var last := ms'[|ms'| - 1];
      assert forall m :: m in init ==> m in ms';
      MetricsDone(state, data, i, c, init, P, coins, ms, eval, cal);
      var s1 := ApplyMetrics(state, i, c, vars, init, eval);
      PairsWithin(coins, ms, [c], init);
      MetricDone(s1, data, i, c, last, P + Pairs([c], init), coins, ms, eval, cal);
      PairsSnocUnion(P, c, ms');
    }
  }

  /** One iteration of the metric loop keeps the state invariant. */
  lemma MetricDone(s1: seq<Row>, data: seq<Row>, i: nat, c: string, m: CustomMetric, P1: set<Pair>,
                   coins: seq<string>, ms: seq<CustomMetric>, eval: Evaluator, cal: Calendar)
    requires i < |data| && Separated(data, coins, ms) && c in coins && m in ms
    requires Within(P1, coins, ms)
    requires StateDone(s1, data, i, P1, coins, ms, eval, cal)
    ensures StateDone(ApplyMetric(s1, i, c, CoinVars(data[i], i, c, cal), m, eval), data, i,
                      P1 + {(c, m)}, coins, ms, eval, cal)
  {
    ColumnKept(s1, data, i, P1, coins, ms, eval, cal, c);
    assert Scope(CoinVars(data[i], i, c, cal), Some(Lookback(i, Column(s1, c)))) == CellScope(data, i, c, cal);
    var row := MetricStep(s1[i], c, m, Outcome(data, i, c, m, eval, cal));
    Step(s1[i], data, i, coins, ms, P1, c, m, eval, cal);
    ReplaceRow(s1, data, i, P1, P1 + {(c, m)}, row, coins, ms, eval, cal);
  }

  lemma PairsSnocUnion(P: set<Pair>, c: string, ms: seq<CustomMetric>)
    requires ms != []
    ensures P + Pairs([c], ms) == P + Pairs([c], ms[..|ms| - 1]) + {(c, ms[|ms| - 1])}
  {
    PairsSnoc([c], ms);
  }

  lemma PairsAppendCoin(cs: seq<string>, ms: seq<CustomMetric>)
    requires cs != []
    ensures Pairs(cs[..|cs| - 1], ms) + Pairs([cs[|cs| - 1]], ms) == Pairs(cs, ms)
  {
    assert cs == cs[..|cs| - 1] + [cs[|cs| - 1]];
  }

  lemma {:induction false} CoinsDone(state: seq<Row>, data: seq<Row>, i: nat, cs: seq<string>,
                                     coins: seq<string>, ms: seq<CustomMetric>, eval: Evaluator, cal: Calendar)
    requires i < |data| && Separated(data, coins, ms)
    requires forall c :: c in cs ==> c in coins
    requires StateDone(state, data, i, {}, coins, ms, eval, cal)
    ensures StateDone(ApplyCoins(state, i, cs, ms, eval, cal), data, i, Pairs(cs, ms), coins, ms, eval, cal)
    decreases |cs|
  {
    if cs == [] {
      assert Pairs(cs, ms) == {};
    } else {
      var init := cs[..|cs| - 1];
      var c := cs[|cs| - 1];
      assert forall x :: x in init ==> x in cs;
      CoinsDone(state, data, i, init, coins, ms, eval, cal);
      var before := ApplyCoins(state, i, init, ms, eval, cal);
      PairsWithin(coins, ms, init, ms);
      assert RowDone(before[i], data, i, coins, ms, Pairs(init, ms), eval, cal);
      ReadKeysKept(before[i], data, i, coins, ms, Pairs(init, ms), c);
      CoinVarsOfReadKeys(before[i], data[i], i, c, cal);
      MetricsDone(before, data, i, c, ms, Pairs(init, ms), coins, ms, eval, cal);
      PairsAppendCoin(cs, ms);
    }
  }

  /** Moving on to the next row once the current one has processed every
      pair. */
  lemma NextRow(state: seq<Row>, data: seq<Row>, n: nat, coins: seq<string>, ms: seq<CustomMetric>,
                eval: Evaluator, cal: Calendar)
    requires n < |data| && Separated(data, coins, ms)
    requires StateDone(state, data, n, Pairs(coins, ms), coins, ms, eval, cal)
    ensures StateDone(state, data, n + 1, {}, coins, ms, eval, cal)
  {
    if n + 1 < |data| { InitialRowDone(data, n + 1, coins, ms, eval, cal); }
  }

  lemma FirstRow(data: seq<Row>, coins: seq<string>, ms: seq<CustomMetric>, eval: Evaluator, cal: Calendar)
    requires Separated(data, coins, ms)
    ensures StateDone(ApplyRows(data, 0, coins, ms, eval, cal), data, 0, {}, coins, ms, eval, cal)
  {
    if |data| > 0 { InitialRowDone(data, 0, coins, ms, eval, cal); }
    SameStateDone(data, ApplyRows(data, 0, coins, ms, eval, cal), data, 0, 0, coins, ms, eval, cal);
  }

  lemma SameStateDone(s1: seq<Row>, s2: seq<Row>, data: seq<Row>, n1: nat, n2: nat, coins: seq<string>,
                      ms: seq<CustomMetric>, eval: Evaluator, cal: Calendar)
    requires s1 == s2 && n1 == n2 && StateDone(s1, data, n1, {}, coins, ms, eval, cal)
    ensures StateDone(s2, data, n2, {}, coins, ms, eval, cal)
  {
  }

  /** One iteration of the row loop. */
  lemma RowStep(before: seq<Row>, data: seq<Row>, n: nat, coins: seq<string>, ms: seq<CustomMetric>,
                eval: Evaluator, cal: Calendar)
    requires n < |data| && Separated(data, coins, ms)
    requires StateDone(before, data, n, {}, coins, ms, eval, cal)
    ensures StateDone(ApplyCoins(before, n, coins, ms, eval, cal), data, n + 1, {}, coins, ms, eval, cal)
  {
    CoinsDone(before, data, n, coins, coins, ms, eval, cal);
    NextRow(ApplyCoins(before, n, coins, ms, eval, cal), data, n, coins, ms, eval, cal);
  }

  lemma {:induction false} RowsDone(data: seq<Row>, n: nat, coins: seq<string>, ms: seq<CustomMetric>,
                                    eval: Evaluator, cal: Calendar)
    requires n <= |data| && Separated(data, coins, ms)
    ensures StateDone(ApplyRows(data, n, coins, ms, eval, cal), data, n, {}, coins, ms, eval, cal)
  {
    if n == 0 {
      FirstRow(data, coins, ms, eval, cal);
    } else {
      RowsDone(data, n - 1, coins, ms, eval, cal);
      RowsStep(data, n, coins, ms, eval, cal);
    }
  }

  /** The row loop's n-th iteration, stated on ApplyRows. */
  lemma RowsStep(data: seq<Row>, n: nat, coins: seq<string>, ms: seq<CustomMetric>, eval: Evaluator, cal: Calendar)
    requires 0 < n <= |data| && Separated(data, coins, ms)
    requires StateDone(ApplyRows(data, n - 1, coins, ms, eval, cal), data, n - 1, {}, coins, ms, eval, cal)
    ensures StateDone(ApplyRows(data, n, coins, ms, eval, cal), data, n, {}, coins, ms, eval, cal)
  {
    var before := ApplyRows(data, n - 1, coins, ms, eval, cal);
    var after := ApplyCoins(before, n - 1, coins, ms, eval, cal);
    assert ApplyRows(data, n, coins, ms, eval, cal) == after;
    RowStep(before, data, n - 1, coins, ms, eval, cal);
    SameStateDone(after, ApplyRows(data, n, coins, ms, eval, cal), data, n - 1 + 1, n, coins, ms, eval, cal);
  }

  /** Failure isolation: under separation, every cell of the result is its
      own formula's value in a scope built from the input (null when that
      formula threw), each metric's nested object holds exactly the coins
      whose formula succeeded, and every field no metric writes keeps its
      input value. */
  lemma CellsAreIsolated(data: seq<Row>, metrics: seq<CustomMetric>, coins: Option<seq<string>>,
                         firstRowKeys: seq<string>, eval: Evaluator, cal: Calendar)
    requires Separated(data, CoinList(coins, firstRowKeys), metrics)
    ensures var out := CalculatedData(data, metrics, coins, firstRowKeys, eval, cal);
      var cs := CoinList(coins, firstRowKeys);
      |out| == |data|
      && (forall i, c, m :: 0 <= i < |data| && c in cs && m in metrics ==>
            FlatKey(c, m.name) in out[i] && out[i][FlatKey(c, m.name)] == CellValue(Outcome(data, i, c, m, eval, cal)))
      && (forall i, m :: 0 <= i < |data| && m in metrics ==>
            Get(out[i], m.name) == Nested(data, i, cs, Pairs(cs, metrics), m, eval, cal))
      && (forall i, k :: 0 <= i < |data| && (forall c, m :: c in cs && m in metrics ==> k != FlatKey(c, m.name) && k != m.name) ==>
            Get(out[i], k) == Get(data[i], k))
  {
    var out := CalculatedData(data, metrics, coins, firstRowKeys, eval, cal);
    var cs := CoinList(coins, firstRowKeys);
    if |data| > 0 && |metrics| > 0 {
      RowsDone(data, |data|, cs, metrics, eval, cal);
      forall i, k | 0 <= i < |data| && (forall c, m :: c in cs && m in metrics ==> k != FlatKey(c, m.name) && k != m.name)
        ensures Get(out[i], k) == Get(data[i], k)
      {
        forall p | p in Pairs(cs, metrics) ensures k != FlatKey(p.0, p.1.name) && k != p.1.name {
        }
      }
    }
  }

  /** What the chart of a metric shows for a coin on a row is that cell's
      own outcome: the nested entry when the formula succeeded, the null of
      the flattened key when it threw. */
  lemma ChartShowsCells(data: seq<Row>, metrics: seq<CustomMetric>, coins: Option<seq<string>>,
                        firstRowKeys: seq<string>, eval: Evaluator, cal: Calendar,
                        m: CustomMetric, chartCoins: seq<string>)
    requires Separated(data, CoinList(coins, firstRowKeys), metrics)
    requires m in metrics
    requires forall c :: c in chartCoins ==> c in CoinList(coins, firstRowKeys)
    ensures var chart := FormatMetricDataForChart(CalculatedData(data, metrics, coins, firstRowKeys, eval, cal),
                                                  m.name, chartCoins);
      |chart| == |data|
      && forall i, c :: 0 <= i < |data| && c in chartCoins ==>
           c in chart[i] && chart[i][c] == Some(CellValue(Outcome(data, i, c, m, eval, cal)))
  {
    MetricIsolated(data, metrics, coins, firstRowKeys, eval, cal, m);
    ChartOfCells(CalculatedData(data, metrics, coins, firstRowKeys, eval, cal), data,
                 CoinList(coins, firstRowKeys), metrics, eval, cal, m, chartCoins);
  }

  /** The cells and the nested object of metric m in every output row are
      the ones the isolation theorem names. */
  ghost predicate MetricFilled(out: seq<Row>, data: seq<Row>, cs: seq<string>, metrics: seq<CustomMetric>,
                             m: CustomMetric, eval: Evaluator, cal: Calendar)
  {
    |out| == |data|
    && (forall i, c :: 0 <= i < |data| && c in cs ==>
          FlatKey(c, m.name) in out[i] && out[i][FlatKey(c, m.name)] == CellValue(Outcome(data, i, c, m, eval, cal)))
    && (forall i :: 0 <= i < |data| ==> Get(out[i], m.name) == Nested(data, i, cs, Pairs(cs, metrics), m, eval, cal))
  }

  /** The isolation theorem for the cells and the nested object of one metric. */
  lemma MetricIsolated(data: seq<Row>, metrics: seq<CustomMetric>, coins: Option<seq<string>>,
                       firstRowKeys: seq<string>, eval: Evaluator, cal: Calendar, m: CustomMetric)
    requires Separated(data, CoinList(coins, firstRowKeys), metrics) && m in metrics
    ensures MetricFilled(CalculatedData(data, metrics, coins, firstRowKeys, eval, cal), data,
                       CoinList(coins, firstRowKeys), metrics, m, eval, cal)
  {
    if |data| > 0 {
      RowsDone(data, |data|, CoinList(coins, firstRowKeys), metrics, eval, cal);
    }
  }

  /** The chart of rows whose cells and nested entries of m are the ones
      the isolation theorem names. */
  lemma ChartOfCells(out: seq<Row>, data: seq<Row>, cs: seq<string>, metrics: seq<CustomMetric>,
                     eval: Evaluator, cal: Calendar, m: CustomMetric, chartCoins: seq<string>)
    requires m in metrics && (forall c :: c in chartCoins ==> c in cs)
    requires MetricFilled(out, data, cs, metrics, m, eval, cal)
    ensures var chart := FormatMetricDataForChart(out, m.name, chartCoins);
      |chart| == |data|
      && forall i, c :: 0 <= i < |data| && c in chartCoins ==>
           c in chart[i] && chart[i][c] == Some(CellValue(Outcome(data, i, c, m, eval, cal)))
  {
    forall i, c | 0 <= i < |data| && c in chartCoins
      ensures ChartValue(out[i], m.name, c) == Some(CellValue(Outcome(data, i, c, m, eval, cal)))
    {
      CellChartValue(out[i], data, i, cs, metrics, c, m, eval, cal);
    }
  }

  /** One cell of the chart, from the three facts the isolation theorem
      gives about its row. */
  lemma CellChartValue(row: Row, data: seq<Row>, i: nat, cs: seq<string>, metrics: seq<CustomMetric>,
                       c: string, m: CustomMetric, eval: Evaluator, cal: Calendar)
    requires i < |data| && c in cs && m in metrics
    requires FlatKey(c, m.name) in row && row[FlatKey(c, m.name)] == CellValue(Outcome(data, i, c, m, eval, cal))
    requires Get(row, m.name) == Nested(data, i, cs, Pairs(cs, metrics), m, eval, cal)
    ensures ChartValue(row, m.name, c) == Some(CellValue(Outcome(data, i, c, m, eval, cal)))
  {
    var o := Outcome(data, i, c, m, eval, cal);
    var f := NestedFields(data, i, cs, Pairs(cs, metrics), m, eval, cal);
    assert (c, m) in Pairs(cs, metrics);
    if o.Some? {
      assert c in f && f[c] == o.value;
      assert row[m.name] == Obj(f);
    } else {
      assert c !in f;
    }
  }
}

