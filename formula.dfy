/** Custom metrics and the interface to the formula language.

    Formulas are written in the mathjs expression language and evaluated by
    its `evaluate(formula, scope)`. That library is not part of this model:
    an evaluator is any total function from a formula and a scope to an
    optional value, None standing for "evaluate threw". Every theorem about
    the metric pipeline holds for every such evaluator. */
module Formula {
  import opened Common

  /** A saved custom metric (components/metrics/MetricBuilder.tsx). */
  datatype CustomMetric = CustomMetric(
    id: string,
    name: string,
    formula: string,
    description: Option<string>,
    createdAt: Value)

  /** What the `prev(steps)` helper of a scope can observe: the current row
      position and, for every row of the array being processed, the value of
      the coin's field at the moment of the call (None = undefined). */
  datatype Lookback = Lookback(index: nat, column: seq<Option<Value>>)

  /** A mathjs scope: plain variables, and optionally the `prev` helper. */
  datatype Scope = Scope(vars: map<string, Value>, lookback: Option<Lookback>)

  /** mathjs `evaluate`: None when it throws. */
  type Evaluator = (string, Scope) -> Option<Value>

  /** The date helpers of a row: `new Date(row.date)` followed by getTime,
      getDay, getDate, getMonth() + 1 and getFullYear. Date parsing and time
      zones are outside the model, so these come from a calendar function. */
  datatype DateParts = DateParts(
    time: Value, dayOfWeek: Value, dayOfMonth: Value, month: Value, year: Value)

  type Calendar = Option<Value> -> DateParts

  /** `prev(steps = 1)`: the value at row `index - steps`, or 0 when that
      position is outside the array or the value there is falsy. A position
      inside the array that is not a whole number selects no row, and reading
      a field of that missing row throws a TypeError (None). */
  function Prev(lb: Lookback, steps: Option<real>): (r: Option<Value>)
    ensures r.None? ==> 0.0 <= lb.index as real - Steps(steps) < |lb.column| as real
    ensures r.Some? && Truthy(r.value) ==>
      exists k :: 0 <= k < |lb.column| && lb.column[k] == Some(r.value)
  {
    var p := lb.index as real - Steps(steps);
    if 0.0 <= p < |lb.column| as real then
      if p.Floor as real == p then Some(OptOrZero(lb.column[p.Floor])) else None
    else Some(Num(0.0))
  }

  /** The default argument of `prev`. */
  function Steps(steps: Option<real>): real {
    if steps.Some? then steps.value else 1.0
  }

  /** A whole number of steps back reads exactly row `index - k` when that
      row exists and gives 0 otherwise; without an argument it reads the row
      just before. */
  lemma PrevWhole(lb: Lookback, k: int)
    ensures 0 <= lb.index - k < |lb.column| ==>
      Prev(lb, Some(k as real)) == Some(OptOrZero(lb.column[lb.index - k]))
    ensures !(0 <= lb.index - k < |lb.column|) ==> Prev(lb, Some(k as real)) == Some(Num(0.0))
    ensures Prev(lb, None) == Prev(lb, Some(1.0))
  {
    var p := lb.index as real - k as real;
    assert p == (lb.index - k) as real;
    assert p.Floor == lb.index - k;
  }

  /** `prev` at row 0 with the default step is 0: there is no earlier row. */
  lemma PrevAtFirstRow(column: seq<Option<Value>>)
    ensures Prev(Lookback(0, column), None) == Some(Num(0.0))
  {
  }
}
