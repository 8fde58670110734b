/** What the Python indicators (indicators/avs_indicator_ci.py,
    indicators/funding_indicator.py, indicators/funding_indicator_ci.py)
    share around their parameters: validate_params' whitelists, the merge
    of overrides into the default parameters with Python's int() and
    float(), the period filter, and generate_data's `{"error": str(e)}`
    reply. Request parameters are decoded JSON values. */
module IndicatorParams {
  import opened Common

  const ValidPeriods := ["7d", "14d", "30d", "90d", "180d", "1y", "all"]
  const ValidThemes := ["light", "dark"]

  /** `period in valid_periods`: only these strings compare equal. */
  predicate IsValidPeriod(v: Value) {
    v.Str? && v.s in ValidPeriods
  }

  predicate IsValidTheme(v: Value) {
    v.Str? && v.s in ValidThemes
  }

  /** Whether validate_params keeps a key of the request. */
  predicate Kept(params: map<string, Value>, defaults: set<string>, k: string)
    requires k in params
  {
    k in defaults || (k == "period" && IsValidPeriod(params[k])) || (k == "theme" && IsValidTheme(params[k]))
  }

  /** validate_params' result: the request restricted to a whitelisted
      period, a whitelisted theme and the keys of the default parameters,
      values unchanged. An absent request (`params or {}`, `if not
      params`) gives nothing. */
  function Validated(params: Option<map<string, Value>>, defaults: set<string>): (r: map<string, Value>)
    ensures params.None? ==> r == map[]
    ensures params.Some? ==> forall k :: k in r <==> k in params.value && Kept(params.value, defaults, k)
    ensures params.Some? ==> forall k :: k in r ==> r[k] == params.value[k]
  {
    if params.None? then map[]
    else map k | k in params.value && Kept(params.value, defaults, k) :: params.value[k]
  }

  /** The output never holds a key the request lacks, nor one outside
      period, theme and the defaults. */
  lemma ValidatedKeys(params: map<string, Value>, defaults: set<string>)
    ensures Validated(Some(params), defaults).Keys <= params.Keys
    ensures Validated(Some(params), defaults).Keys <= defaults + {"period", "theme"}
  {
  }

  /** Validation is idempotent. */
  lemma ValidatedIdempotent(params: map<string, Value>, defaults: set<string>)
    ensures Validated(Some(Validated(Some(params), defaults)), defaults) == Validated(Some(params), defaults)
  {
  }

  /** validate_params. The early return for an absent or empty request is
      the one in funding_indicator.py; the other two reach the same result
      through `params or {}`. */
  method ValidateParams(params: Option<map<string, Value>>, defaults: set<string>) returns (valid: map<string, Value>)
    ensures valid == Validated(params, defaults)
  {
    if params.None? || params.value == map[] {
      return map[];
    }
    var request := params.value;
    valid := map[];
    if "period" in request && IsValidPeriod(request["period"]) {
      valid := valid["period" := request["period"]];
    }
    if "theme" in request && IsValidTheme(request["theme"]) {
      valid := valid["theme" := request["theme"]];
    }
    var todo := request.Keys;
    while todo != {}
      invariant todo <= request.Keys
      invariant forall k :: k in valid ==> k in request && valid[k] == request[k]
      invariant forall k :: k in valid <==> (k in request &&
        ((k in defaults && k !in todo) || (k == "period" && IsValidPeriod(request[k])) || (k == "theme" && IsValidTheme(request[k]))))
      decreases todo
    {
      var k :| k in todo;
      if k in defaults {
        valid := valid[k := request[k]];
      }
      todo := todo - {k};
    }
  }

  /** A chart parameter as Python holds it. */
  datatype Param = PInt(i: int) | PFloat(f: Float)

  /** int() and float() on text. */
  datatype Conversions = Conversions(parseInt: string -> Option<int>, parseFloat: string -> Option<Float>)

  /** `int(value)` for an int default, `float(value)` for a float one;
      None when it raises. */
  function Coerce(default: Param, v: Value, conv: Conversions): (r: Option<Param>)
    ensures r.Some? ==> r.value.PInt? == default.PInt?
  {
    match default
    case PInt(_) => var i := PyInt(v, conv.parseInt); if i.Some? then Some(PInt(i.value)) else None
    case PFloat(_) => var f := PyFloat(v, conv.parseFloat); if f.Some? then Some(PFloat(f.value)) else None
  }

  /** The default, or its coerced override when one succeeded. */
  function OverrideOr(default: Param, v: Value, conv: Conversions): Param {
    var c := Coerce(default, v, conv);
    if c.Some? then c.value else default
  }

  /** The defaults with the overrides of the keys in `done` applied. */
  function Applied(defaults: map<string, Param>, custom: map<string, Value>, conv: Conversions, done: set<string>): map<string, Param> {
    map k | k in defaults :: if k in custom && k in done then OverrideOr(defaults[k], custom[k], conv) else defaults[k]
  }

  predicate CoercionFails(defaults: map<string, Param>, custom: map<string, Value>, conv: Conversions) {
    exists k :: k in custom && k in defaults && Coerce(defaults[k], custom[k], conv).None?
  }

  /** chart_params after the override loop, or None when an int() or
      float() raised. */
  function Merged(defaults: map<string, Param>, custom: map<string, Value>, conv: Conversions): Option<map<string, Param>> {
    if CoercionFails(defaults, custom, conv) then None else Some(Applied(defaults, custom, conv, custom.Keys))
  }

  /** The override loop of generate_data. */
  method MergeOverrides(defaults: map<string, Param>, custom: map<string, Value>, conv: Conversions)
    returns (chart: Option<map<string, Param>>)
    ensures chart == Merged(defaults, custom, conv)
  {
    var merged := defaults;
    var todo := custom.Keys;
    while todo != {}
      invariant todo <= custom.Keys
      invariant forall k :: k in custom && k !in todo && k in defaults ==> Coerce(defaults[k], custom[k], conv).Some?
      invariant merged == Applied(defaults, custom, conv, custom.Keys - todo)
      decreases todo
    {
      var k :| k in todo;
      if k in merged {
        var c := Coerce(merged[k], custom[k], conv);
        if c.None? {
          return None;
        }
        merged := merged[k := c.value];
      }
      todo := todo - {k};
    }
    assert custom.Keys - todo == custom.Keys;
    chart := Some(merged);
  }

  /** The merge keeps every default key and its int or float kind, and
      touches no key the overrides do not name. */
  lemma MergedShape(defaults: map<string, Param>, custom: map<string, Value>, conv: Conversions)
    requires Merged(defaults, custom, conv).Some?
    ensures Merged(defaults, custom, conv).value.Keys == defaults.Keys
    ensures forall k :: k in defaults ==> Merged(defaults, custom, conv).value[k].PInt? == defaults[k].PInt?
    ensures forall k :: k in defaults && k !in custom ==> Merged(defaults, custom, conv).value[k] == defaults[k]
  {
  }

  /** Keys outside the defaults (period, theme) play no part in the
      merge. */
  lemma UnknownKeysIgnored(defaults: map<string, Param>, custom: map<string, Value>, conv: Conversions)
    ensures Merged(defaults, custom, conv) == Merged(defaults, map k | k in custom && k in defaults :: custom[k], conv)
  {
    var known := map k | k in custom && k in defaults :: custom[k];
    assert Applied(defaults, custom, conv, custom.Keys) == Applied(defaults, known, conv, known.Keys);
    if CoercionFails(defaults, custom, conv) {
      var k :| k in custom && k in defaults && Coerce(defaults[k], custom[k], conv).None?;
      assert k in known;
    }
  }

  /** A numeric override lands as the default's kind: truncated for an int
      default, unchanged for a float one. */
  lemma NumericOverride(defaults: map<string, Param>, k: string, x: real, conv: Conversions)
    requires k in defaults
    ensures defaults[k].PInt? ==> Merged(defaults, map[k := Num(x)], conv) == Some(defaults[k := PInt(Trunc(x))])
    ensures defaults[k].PFloat? ==> Merged(defaults, map[k := Num(x)], conv) == Some(defaults[k := PFloat(Fin(x))])
  {
    var custom := map[k := Num(x)];
    assert !CoercionFails(defaults, custom, conv);
    if defaults[k].PInt? {
      assert Applied(defaults, custom, conv, custom.Keys) == defaults[k := PInt(Trunc(x))];
    } else {
      assert Applied(defaults, custom, conv, custom.Keys) == defaults[k := PFloat(Fin(x))];
    }
  }

  /** A value int() cannot convert (null, a list, an object) makes the
      whole merge fail. */
  lemma UnconvertibleFails(defaults: map<string, Param>, custom: map<string, Value>, k: string, conv: Conversions)
    requires k in defaults && k in custom
    requires custom[k].Null? || custom[k].Arr? || custom[k].Obj?
    ensures Merged(defaults, custom, conv).None?
  {
    assert Coerce(defaults[k], custom[k], conv).None?;
  }

  /** generate_data's reply: its data, or `{"error": str(e)}`. */
  datatype Reply<T> = Data(data: T) | Error(message: string)

  /** generate_data around the indicator-specific work `compute`, which
      sees the validated request and the merged parameters. A failed
      coercion is caught like any other exception. */
  function Generate<T>(params: Option<map<string, Value>>, defaults: map<string, Param>, conv: Conversions,
                       coercionError: string, compute: (map<string, Value>, map<string, Param>) -> Reply<T>): Reply<T>
  {
    var custom := Validated(params, defaults.Keys);
    var chart := Merged(defaults, custom, conv);
    if chart.None? then Error(coercionError) else compute(custom, chart.value)
  }

  /** The reply is an error exactly when a coercion or the work itself
      raised; the work always sees every default key with its kind. */
  lemma GenerateErrors<T>(params: Option<map<string, Value>>, defaults: map<string, Param>, conv: Conversions,
                          coercionError: string, compute: (map<string, Value>, map<string, Param>) -> Reply<T>)
    ensures var chart := Merged(defaults, Validated(params, defaults.Keys), conv);
      Generate(params, defaults, conv, coercionError, compute).Error?
      <==> chart.None? || compute(Validated(params, defaults.Keys), chart.value).Error?
    ensures var chart := Merged(defaults, Validated(params, defaults.Keys), conv);
      chart.Some? ==> chart.value.Keys == defaults.Keys
  {
  }

  /** The days filter_by_period looks back; None for any other period. */
  function PeriodDays(period: string): (r: Option<nat>)
    ensures r.Some? <==> period in ["7d", "14d", "30d", "90d", "180d", "1y"]
    ensures r.Some? ==> 7 <= r.value <= 365
  {
    if period == "7d" then Some(7)
    else if period == "14d" then Some(14)
    else if period == "30d" then Some(30)
    else if period == "90d" then Some(90)
    else if period == "180d" then Some(180)
    else if period == "1y" then Some(365)
    else None
  }

  const SecondsPerDay := 86400
  /** pd.Timestamp('2013-05-01') in seconds since the epoch. */
  const SheetStart := 1367366400

  /** A frame row and its index, in seconds. */
  datatype Stamped<T> = Stamped(time: int, row: T)

  function Since<T>(cutoff: int): Stamped<T> -> bool {
    (r: Stamped<T>) => r.time >= cutoff
  }

  /** filter_by_period of the funding indicators: the rows at or after
      `now` minus the period's days, or all rows for 'all' and any other
      period. */
  function FilterByPeriod<T(!new)>(rows: seq<Stamped<T>>, period: string, now: int): (r: seq<Stamped<T>>)
    ensures PeriodDays(period).None? ==> r == rows
    ensures PeriodDays(period).Some? ==>
      forall x :: x in r <==> x in rows && x.time >= now - PeriodDays(period).value * SecondsPerDay
  {
    var days := PeriodDays(period);
    if days.None? then rows else Filter(rows, Since(now - days.value * SecondsPerDay))
  }

  /** filter_by_period of the AVS indicator: as above, but an unknown
      period keeps the rows from 2013-05-01. */
  function AvsFilterByPeriod<T(!new)>(rows: seq<Stamped<T>>, period: string, now: int): (r: seq<Stamped<T>>)
    ensures PeriodDays(period).Some? ==>
      forall x :: x in r <==> x in rows && x.time >= now - PeriodDays(period).value * SecondsPerDay
    ensures PeriodDays(period).None? ==> forall x :: x in r <==> x in rows && x.time >= SheetStart
  {
    var days := PeriodDays(period);
    Filter(rows, Since(if days.Some? then now - days.value * SecondsPerDay else SheetStart))
  }

  /** funding_indicator.py filters whenever a period was kept. */
  function FundingPeriodFrame<T(!new)>(rows: seq<Stamped<T>>, custom: map<string, Value>, now: int): seq<Stamped<T>> {
    if "period" in custom && Truthy(custom["period"]) && custom["period"].Str? then FilterByPeriod(rows, custom["period"].s, now) else rows
  }

  /** funding_indicator_ci.py and avs_indicator_ci.py skip the filter for
      'all'; AVS uses its own filter. */
  function SkipAllFrame<T(!new)>(rows: seq<Stamped<T>>, custom: map<string, Value>, now: int, avs: bool): seq<Stamped<T>> {
    if "period" in custom && Truthy(custom["period"]) && custom["period"].Str? && custom["period"].s != "all" then
      (if avs then AvsFilterByPeriod(rows, custom["period"].s, now) else FilterByPeriod(rows, custom["period"].s, now))
    else rows
  }

  /** On every validated request the three dispatches give the same rows:
      'all' is never filtered, and the AVS fallback cutoff is never
      reached. */
  lemma PeriodDispatchAgrees<T(!new)>(rows: seq<Stamped<T>>, params: Option<map<string, Value>>, defaults: set<string>, now: int)
    requires "period" !in defaults
    ensures var custom := Validated(params, defaults);
      FundingPeriodFrame(rows, custom, now) == SkipAllFrame(rows, custom, now, false)
      && SkipAllFrame(rows, custom, now, false) == SkipAllFrame(rows, custom, now, true)
  {
    var custom := Validated(params, defaults);
    if "period" in custom {
      assert IsValidPeriod(custom["period"]);
      var p := custom["period"].s;
      if p != "all" {
        assert PeriodDays(p).Some?;
      }
    }
  }

  /** A longer period keeps every row a shorter one keeps. */
  lemma LongerPeriodKeepsMore<T(!new)>(rows: seq<Stamped<T>>, short: string, long: string, now: int)
    requires PeriodDays(short).Some? && PeriodDays(long).Some?
    requires PeriodDays(short).value <= PeriodDays(long).value
    ensures forall x :: x in FilterByPeriod(rows, short, now) ==> x in FilterByPeriod(rows, long, now)
  {
  }
}
