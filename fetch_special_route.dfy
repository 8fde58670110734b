/** POST /api/indicators/fetch-special (app/api/indicators/fetch-special/route.ts):
    the start of the date range chosen by `timeRange`, and the rows of the
    indicators table that carry BTC Crowding data, reshaped. The clock, the
    query (with its date filter and ordering) and the environment are
    inputs. */
module FetchSpecialRoute {
  import opened Common

  /** Where the date range starts, relative to the request's `now`. */
  datatype Start = Now | DaysBefore(days: nat) | MonthsBefore(months: nat) | YearsBefore(years: nat) | On(date: string)

  const AllStart := "2010-01-01"

  /** The ranges the switch knows. */
  predicate KnownRange(t: Option<Value>) {
    t.Some? && t.value.Str? && t.value.s in {"7D", "1M", "3M", "6M", "1Y", "ALL"}
  }

  /** The switch on `timeRange` (strict equality with strings); it has no
      default branch, so any other value leaves the start at now. */
  function StartOf(timeRange: Option<Value>): (r: Start)
    ensures r.Now? <==> !KnownRange(timeRange)
    ensures timeRange == Some(Str("7D")) ==> r == DaysBefore(7)
    ensures timeRange == Some(Str("1M")) ==> r == MonthsBefore(1)
    ensures timeRange == Some(Str("3M")) ==> r == MonthsBefore(3)
    ensures timeRange == Some(Str("6M")) ==> r == MonthsBefore(6)
    ensures timeRange == Some(Str("1Y")) ==> r == YearsBefore(1)
    ensures timeRange == Some(Str("ALL")) ==> r == On(AllStart)
  {
    if timeRange.None? || !timeRange.value.Str? then Now
    else match timeRange.value.s
      case "7D" => DaysBefore(7)
      case "1M" => MonthsBefore(1)
      case "3M" => MonthsBefore(3)
      case "6M" => MonthsBefore(6)
      case "1Y" => YearsBefore(1)
      case "ALL" => On(AllStart)
      case _ => Now
  }

  /** Lower-case spellings and numbers are not ranges: they fetch from
      today on. */
  lemma OnlyExactRangesMove()
    ensures StartOf(Some(Str("7d"))) == Now && StartOf(Some(Str("all"))) == Now && StartOf(Some(Num(7.0))) == Now
    ensures StartOf(None) == Now
  {
  }

  /** A row of the indicators table; a missing `data` column reads as null. */
  datatype IndicatorRow = IndicatorRow(date: Value, data: Value)

  /** `row.data && row.data.BTC && row.data.BTC.Crowding`. */
  predicate HasCrowding(row: IndicatorRow) {
    Truthy(row.data) && TruthyOpt(Prop(row.data, "BTC")) && TruthyOpt(Prop(Prop(row.data, "BTC").value, "Crowding"))
  }

  /** The object each kept row becomes. `value` is None when the Crowding
      entry has no `value` (undefined, dropped from the JSON). */
  datatype CrowdingRow = CrowdingRow(date: Value, indicatorName: string, baseCoin: string, value: Option<Value>, data: map<string, Value>)

  function ToCrowding(row: IndicatorRow): (r: CrowdingRow)
    requires HasCrowding(row)
    ensures r.date == row.date && r.indicatorName == "Crowding" && r.baseCoin == "BTC"
    ensures r.data.Keys == {"BTC"} && Some(r.data["BTC"]) == Prop(row.data, "BTC")
    ensures r.value == Prop(Prop(Prop(row.data, "BTC").value, "Crowding").value, "value")
  {
    var btc := Prop(row.data, "BTC").value;
    CrowdingRow(row.date, "Crowding", "BTC", Prop(Prop(btc, "Crowding").value, "value"), map["BTC" := btc])
  }

  /** The filter/map over the query's rows. */
  function CrowdingRows(rows: seq<IndicatorRow>): (r: seq<CrowdingRow>)
    ensures |r| <= |rows|
  {
    var kept := Filter(rows, HasCrowding);
    seq(|kept|, k requires 0 <= k < |kept| => ToCrowding(kept[k]))
  }

  /** Row by row: a row with BTC Crowding data adds its reshaped row at the
      end, in query order, and any other row adds nothing. */
  lemma CrowdingRowsSnoc(rows: seq<IndicatorRow>, row: IndicatorRow)
    ensures HasCrowding(row) ==> CrowdingRows(rows + [row]) == CrowdingRows(rows) + [ToCrowding(row)]
    ensures !HasCrowding(row) ==> CrowdingRows(rows + [row]) == CrowdingRows(rows)
  {
    FilterOfConcat(rows, [row], HasCrowding);
    FilterSingleton(row, HasCrowding);
  }

  /** When every row carries Crowding data, the output is the input row by
      row. */
  lemma AllRowsKept(rows: seq<IndicatorRow>)
    requires forall row :: row in rows ==> HasCrowding(row)
    ensures |CrowdingRows(rows)| == |rows|
    ensures forall k :: 0 <= k < |rows| ==> CrowdingRows(rows)[k] == ToCrowding(rows[k])
  {
    assert Filter(rows, HasCrowding) == rows;
  }

  /** Every output row is the reshaping of some input row with Crowding
      data, and each such input date is represented. */
  lemma CrowdingRowsComeFromRows(rows: seq<IndicatorRow>)
    ensures forall c :: c in CrowdingRows(rows) ==> exists row :: row in rows && HasCrowding(row) && c == ToCrowding(row)
    ensures forall row :: row in rows && HasCrowding(row) ==> ToCrowding(row) in CrowdingRows(rows)
  {
    var kept := Filter(rows, HasCrowding);
    var r := CrowdingRows(rows);
    forall c | c in r ensures exists row :: row in rows && HasCrowding(row) && c == ToCrowding(row) {
      var k :| 0 <= k < |r| && r[k] == c;
      assert kept[k] in kept;
    }
    forall row | row in rows && HasCrowding(row) ensures ToCrowding(row) in r {
      assert row in kept;
      var k :| 0 <= k < |kept| && kept[k] == row;
      assert r[k] == ToCrowding(row);
    }
  }

  datatype SpecialResponse =
    | Unhandled
    | ConfigError
    | QueryError
    | SpecialData(rows: seq<CrowdingRow>)

  /** The handler. `body` is the parsed request body (None: not JSON); it is
      read before the try block, so a body that is not JSON, or is null, is
      an unhandled error. `query` is None when the query reported an
      error; the start it was given is StartOf(timeRange). */
  function FetchSpecial(body: Option<Value>, url: Option<string>, anonKey: Option<string>, query: Option<seq<IndicatorRow>>): (r: SpecialResponse)
    ensures r.Unhandled? <==> body.None? || body.value == Null
    ensures !r.Unhandled? ==> (r.ConfigError? <==> url.None? || url.value == "" || anonKey.None? || anonKey.value == "")
    ensures r.QueryError? ==> query.None?
    ensures query == Some([]) && !r.Unhandled? && !r.ConfigError? ==> r == SpecialData([])
    ensures r.SpecialData? ==> query.Some? && r.rows == CrowdingRows(query.value)
  {
    if body.None? || body.value == Null then Unhandled
    else if url.None? || url.value == "" || anonKey.None? || anonKey.value == "" then ConfigError
    else if query.None? then QueryError
    else SpecialData(CrowdingRows(query.value))
  }
}
