/** The two BTC indicator loaders, indicators_uploader.py and
    crowding_indicator_supabase.py: reading one coin's daily price out of
    the crypto_prices rows, shaping the computed indicator rows into JSON
    records, and upserting those records in batches of 50. The query
    results, the JSON decoder, Python's float() on text and the outcome of
    each upsert are inputs. */
module IndicatorUpload {
  import opened Common
  import opened Chunking

  /** The price entry indicators_uploader.py reads. */
  const BtcKey := "BTC"
  /** The entry crowding_indicator_supabase.py reads into its BTC column. */
  const GtKey := "GT"
  const ChunkSize := 50
  const RsiPeriod := 14
  const ZWindow := 100
  const RocPeriod := 90

  /** A crypto_prices row: its date and its `prices` cell, which the client
      hands over either decoded or as JSON text. */
  datatype PriceRow = PriceRow(date: string, prices: Value)

  /** How a row is read: the entry looked for, the JSON decoder (None when
      it raises) and float() on text (None when it raises). */
  datatype Reader = Reader(key: string, parse: string -> Option<Value>, parseFloat: string -> Option<Float>)

  datatype Sample = Sample(date: string, price: Float)

  /** What one row contributes: nothing, a price, or an exception that
      abandons the whole read. */
  datatype Outcome = Skip | Keep(price: Float) | Fail

  /** Python's `k in s` on strings: k occurs in s. */
  predicate Contains(s: string, k: string)
    decreases |s|
  {
    |k| <= |s| && (s[..|k|] == k || Contains(s[1..], k))
  }

  /** `key in prices_data` and `float(prices_data[key])` on a decoded
      value: a dict is looked up; a list or a string that holds the key
      cannot be indexed by it; `in` on a number, a boolean or null raises. */
  function Lookup(data: Value, reader: Reader): Outcome {
    match data
    case Obj(m) =>
      if reader.key !in m then Skip
      else
        var f := PyFloat(m[reader.key], reader.parseFloat);
        if f.Some? then Keep(f.value) else Fail
    case Arr(es) => if Str(reader.key) in es then Fail else Skip
    case Str(s) => if Contains(s, reader.key) then Fail else Skip
    case _ => Fail
  }

  /** One row of the extraction loop: a dict cell is used as it is, any
      other cell goes through json.loads, which raises on non-text. */
  function RowOutcome(row: PriceRow, reader: Reader): Outcome {
    match row.prices
    case Obj(_) => Lookup(row.prices, reader)
    case Str(t) =>
      var decoded := reader.parse(t);
      if decoded.None? then Fail else Lookup(decoded.value, reader)
    case _ => Fail
  }

  /** The (date, price) pairs of the rows read so far, or None once a row
      has raised. */
  function Samples(rows: seq<PriceRow>, reader: Reader): Option<seq<Sample>> {
    if rows == [] then Some([])
    else
      var before := Samples(rows[..|rows| - 1], reader);
      var last := rows[|rows| - 1];
      match RowOutcome(last, reader)
      case Fail => None
      case Skip => before
      case Keep(p) => if before.None? then None else Some(before.value + [Sample(last.date, p)])
  }

  /** The read fails exactly when some row raises. */
  lemma {:induction false} SamplesFail(rows: seq<PriceRow>, reader: Reader)
    ensures Samples(rows, reader).None? <==> exists k :: 0 <= k < |rows| && RowOutcome(rows[k], reader).Fail?
  {
    if rows != [] {
      var init := rows[..|rows| - 1];
      SamplesFail(init, reader);
      if exists k :: 0 <= k < |init| && RowOutcome(init[k], reader).Fail? {
        var k :| 0 <= k < |init| && RowOutcome(init[k], reader).Fail?;
        assert rows[k] == init[k];
      }
      if exists k :: 0 <= k < |rows| && RowOutcome(rows[k], reader).Fail? {
        var k :| 0 <= k < |rows| && RowOutcome(rows[k], reader).Fail?;
        if k < |init| {
          assert init[k] == rows[k];
        }
      }
    }
  }

  /** When the read succeeds it keeps exactly the rows holding a price, in
      order, each with its own date. */
  lemma {:induction false} SamplesKept(rows: seq<PriceRow>, reader: Reader)
    requires Samples(rows, reader).Some?
    ensures |Samples(rows, reader).value| <= |rows|
    ensures forall x :: x in Samples(rows, reader).value ==>
      exists k :: 0 <= k < |rows| && rows[k].date == x.date && RowOutcome(rows[k], reader) == Keep(x.price)
    ensures forall k :: 0 <= k < |rows| && RowOutcome(rows[k], reader).Keep? ==>
      Sample(rows[k].date, RowOutcome(rows[k], reader).price) in Samples(rows, reader).value
  {
    if rows != [] {
      var init := rows[..|rows| - 1];
      var last := rows[|rows| - 1];
      assert Samples(init, reader).Some?;
      SamplesKept(init, reader);
      var s, before := Samples(rows, reader).value, Samples(init, reader).value;
      forall x | x in s
        ensures exists k :: 0 <= k < |rows| && rows[k].date == x.date && RowOutcome(rows[k], reader) == Keep(x.price)
      {
        if x in before {
          var k :| 0 <= k < |init| && init[k].date == x.date && RowOutcome(init[k], reader) == Keep(x.price);
          assert rows[k] == init[k];
        } else {
          assert rows[|rows| - 1] == last;
        }
      }
      forall k | 0 <= k < |rows| && RowOutcome(rows[k], reader).Keep?
        ensures Sample(rows[k].date, RowOutcome(rows[k], reader).price) in s
      {
        if k < |init| {
          assert rows[k] == init[k];
        }
      }
    }
  }

  /** get_btc_price_data up to the DataFrame: None when the query raised
      or returned no rows, or when any row raises; otherwise the kept
      (date, price) pairs. */
  method GetPriceData(rows: Option<seq<PriceRow>>, reader: Reader) returns (r: Option<seq<Sample>>)
    ensures rows.None? || rows.value == [] ==> r.None?
    ensures rows.Some? && rows.value != [] ==> r == Samples(rows.value, reader)
  {
    if rows.None? || rows.value == [] {
      return None;
    }
    var data := rows.value;
    var samples: seq<Sample> := [];
    var i := 0;
    while i < |data|
      invariant 0 <= i <= |data|
      invariant Samples(data[..i], reader) == Some(samples)
    {
      assert data[..i + 1][..i] == data[..i];
      var outcome := RowOutcome(data[i], reader);
      if outcome.Fail? {
        SamplesFail(data, reader);
        assert 0 <= i < |data| && RowOutcome(data[i], reader).Fail?;
        return None;
      }
      if outcome.Keep? {
        samples := samples + [Sample(data[i].date, outcome.price)];
      }
      i := i + 1;
    }
    assert data[..i] == data;
    r := Some(samples);
  }

  /** The crowding loader reads "GT": a row priced only under "BTC" gives
      it nothing, while the other loader keeps it. */
  lemma GtNotBtc(date: string, price: real, parse: string -> Option<Value>, parseFloat: string -> Option<Float>)
    ensures RowOutcome(PriceRow(date, Obj(map[BtcKey := Num(price)])), Reader(GtKey, parse, parseFloat)) == Skip
    ensures RowOutcome(PriceRow(date, Obj(map[BtcKey := Num(price)])), Reader(BtcKey, parse, parseFloat)) == Keep(Fin(price))
  {
  }

  /** One row of the indicator frame after dropna: the date as
      strftime('%Y-%m-%d') gives it and the computed columns. */
  datatype IndicatorRow = IndicatorRow(date: string, price: Float, rsi: Float, crowding: Float, roc: Float, zScore: Float)

  const RsiDescription := "Relative Strength Index"
  const RsiInterpretation := "Values above 70 indicate overbought, below 30 indicate oversold"
  const CrowdingDescription := "Bitcoin Crowding Index combining RSI and price rate of change Z-score"
  const CrowdingInterpretation := "Positive values indicate crowded markets, negative values indicate uncrowded markets"

  /** A Python float as JSON. */
  function FloatValue(f: Float): Value {
    if f.FNaN? then NaN else Num(f.r)
  }

  /** The "BTC" entry of a record's data. */
  function BtcEntry(row: IndicatorRow): Value {
    Obj(map[
      "price" := FloatValue(row.price),
      "RSI" := Obj(map[
        "value" := FloatValue(row.rsi),
        "period" := Num(RsiPeriod as real),
        "description" := Str(RsiDescription),
        "interpretation" := Str(RsiInterpretation)]),
      "Crowding" := Obj(map[
        "value" := FloatValue(row.crowding),
        "roc" := FloatValue(row.roc),
        "zScore" := FloatValue(row.zScore),
        "window" := Num(ZWindow as real),
        "roc_period" := Num(RocPeriod as real),
        "rsi_period" := Num(RsiPeriod as real),
        "description" := Str(CrowdingDescription),
        "interpretation" := Str(CrowdingInterpretation)])])
  }

  /** The record written for a date whose data holds a "BTC" entry. */
  function DateRecord(date: string, data: map<string, Value>): Value {
    Obj(map["date" := Str(date), "data" := Obj(data)])
  }

  /** The record indicators_uploader.py writes for one row. */
  function Record(row: IndicatorRow): Value {
    DateRecord(row.date, map["BTC" := BtcEntry(row)])
  }

  /** `d[k]` on a decoded value, when it is a dict holding k. */
  function Field(v: Option<Value>, k: string): Option<Value> {
    if v.Some? && v.value.Obj? && k in v.value.fields then Some(v.value.fields[k]) else None
  }

  function ReadFloat(v: Option<Value>): Option<Float> {
    if v == Some(NaN) then Some(FNaN)
    else if v.Some? && v.value.Num? then Some(Fin(v.value.n))
    else None
  }

  /** How the chart reads a record back: the date, the price and the
      indicator values, or None when a part is missing. */
  function ReadRecord(record: Value): Option<IndicatorRow> {
    var date := Field(Some(record), "date");
    var btc := Field(Field(Some(record), "data"), "BTC");
    var price := ReadFloat(Field(btc, "price"));
    var rsi := ReadFloat(Field(Field(btc, "RSI"), "value"));
    var crowding := Field(btc, "Crowding");
    var value := ReadFloat(Field(crowding, "value"));
    var roc := ReadFloat(Field(crowding, "roc"));
    var z := ReadFloat(Field(crowding, "zScore"));
    if date.Some? && date.value.Str? && price.Some? && rsi.Some? && value.Some? && roc.Some? && z.Some? then
      Some(IndicatorRow(date.value.s, price.value, rsi.value, value.value, roc.value, z.value))
    else None
  }

  /** Round trip: a written record reads back as the row it came from, and
      carries the fixed periods 14, 100 and 90. */
  lemma ReadWrittenRecord(row: IndicatorRow)
    ensures ReadRecord(Record(row)) == Some(row)
    ensures var btc := Field(Field(Some(Record(row)), "data"), "BTC");
      Field(Field(btc, "RSI"), "period") == Some(Num(14.0))
      && Field(Field(btc, "Crowding"), "window") == Some(Num(100.0))
      && Field(Field(btc, "Crowding"), "roc_period") == Some(Num(90.0))
      && Field(Field(btc, "Crowding"), "rsi_period") == Some(Num(14.0))
  {
    var btc := Field(Field(Some(Record(row)), "data"), "BTC");
    assert btc == Some(BtcEntry(row));
    assert Field(Some(Record(row)), "date") == Some(Str(row.date));
    assert Field(btc, "price") == Some(FloatValue(row.price));
    RsiEntryFields(row);
    CrowdingEntryFields(row);
    ReadFloatValue(row.price);
    ReadFloatValue(row.rsi);
    ReadFloatValue(row.crowding);
    ReadFloatValue(row.roc);
    ReadFloatValue(row.zScore);
  }

  lemma ReadFloatValue(f: Float)
    ensures ReadFloat(Some(FloatValue(f))) == Some(f)
  {
  }

  lemma RsiEntryFields(row: IndicatorRow)
    ensures var rsi := Field(Some(BtcEntry(row)), "RSI");
      Field(rsi, "value") == Some(FloatValue(row.rsi)) && Field(rsi, "period") == Some(Num(14.0))
  {
  }

  lemma CrowdingEntryFields(row: IndicatorRow)
    ensures var c := Field(Some(BtcEntry(row)), "Crowding");
      Field(c, "value") == Some(FloatValue(row.crowding))
      && Field(c, "roc") == Some(FloatValue(row.roc))
      && Field(c, "zScore") == Some(FloatValue(row.zScore))
      && Field(c, "window") == Some(Num(100.0))
      && Field(c, "roc_period") == Some(Num(90.0))
      && Field(c, "rsi_period") == Some(Num(14.0))
  {
  }

  /** indicators_uploader.py's prepare_indicators_data: one record per
      row, in the frame's order ([] for an empty frame). */
  method PrepareIndicators(rows: seq<IndicatorRow>) returns (records: seq<Value>)
    ensures |records| == |rows|
    ensures forall k :: 0 <= k < |rows| ==> ReadRecord(records[k]) == Some(rows[k])
    ensures forall k :: 0 <= k < |rows| ==> records[k] == Record(rows[k])
  {
    records := [];
    for i := 0 to |rows|
      invariant |records| == i
      invariant forall k :: 0 <= k < i ==> records[k] == Record(rows[k])
    {
      ReadWrittenRecord(rows[i]);
      records := records + [Record(rows[i])];
    }
    forall k | 0 <= k < |rows|
      ensures ReadRecord(records[k]) == Some(rows[k])
    {
      ReadWrittenRecord(rows[k]);
    }
  }

  /** The crowding loader's `indicators_by_date` after the rows so far:
      the dates in first-seen order and each date's data dict. */
  function Grouped(rows: seq<IndicatorRow>): (r: (seq<string>, map<string, map<string, Value>>))
    ensures forall d :: d in r.1 <==> d in r.0
    ensures forall d :: d in r.1 ==> r.1[d].Keys == {"BTC"}
    ensures NoDuplicates(r.0)
  {
    if rows == [] then ([], map[])
    else
      var (order, byDate) := Grouped(rows[..|rows| - 1]);
      var row := rows[|rows| - 1];
      var data := if row.date in byDate then byDate[row.date] else map[];
      (if row.date in byDate then order else order + [row.date], byDate[row.date := data["BTC" := BtcEntry(row)]])
  }

  /** `list(indicators_by_date.values())`. */
  function DateRecords(rows: seq<IndicatorRow>): seq<Value> {
    var (order, byDate) := Grouped(rows);
    seq(|order|, k requires 0 <= k < |order| => DateRecord(order[k], byDate[order[k]]))
  }

  /** The grouped dates are exactly the rows' dates. */
  lemma {:induction false} GroupedDates(rows: seq<IndicatorRow>)
    ensures forall d :: d in Grouped(rows).0 <==> exists k :: 0 <= k < |rows| && rows[k].date == d
    ensures |Grouped(rows).0| <= |rows|
  {
    if rows != [] {
      var init := rows[..|rows| - 1];
      GroupedDates(init);
      if rows[|rows| - 1].date in Grouped(init).0 {
        GroupedOldDate(rows);
      } else {
        GroupedNewDate(rows);
      }
      DatesStep(rows, init, Grouped(rows).0, Grouped(init).0);
    }
  }

  /** The dates seen grow by the last row's date. */
  lemma DatesStep(rows: seq<IndicatorRow>, init: seq<IndicatorRow>, order: seq<string>, initOrder: seq<string>)
    requires rows != [] && init == rows[..|rows| - 1]
    requires forall d :: d in order <==> d in initOrder || d == rows[|rows| - 1].date
    requires forall d :: d in initOrder <==> exists k :: 0 <= k < |init| && init[k].date == d
    ensures forall d :: d in order <==> exists k :: 0 <= k < |rows| && rows[k].date == d
  {
    forall d | (exists k :: 0 <= k < |rows| && rows[k].date == d)
      ensures d in order
    {
      var k :| 0 <= k < |rows| && rows[k].date == d;
      if k < |init| {
        assert init[k] == rows[k];
      }
    }
    forall d | d in initOrder
      ensures exists k :: 0 <= k < |rows| && rows[k].date == d
    {
      var k :| 0 <= k < |init| && init[k].date == d;
      assert rows[k] == init[k];
    }
  }

  /** A repeated date keeps its place and takes the data of its last row. */
  lemma {:induction false} GroupedLastWins(rows: seq<IndicatorRow>, k: nat)
    requires k < |rows|
    requires forall j :: k < j < |rows| ==> rows[j].date != rows[k].date
    ensures rows[k].date in Grouped(rows).1
    ensures Grouped(rows).1[rows[k].date] == map["BTC" := BtcEntry(rows[k])]
  {
    var init := rows[..|rows| - 1];
    if k < |rows| - 1 {
      assert init[k] == rows[k];
      GroupedLastWins(init, k);
    } else {
      var byDate := Grouped(init).1;
      var data := if rows[k].date in byDate then byDate[rows[k].date] else map[];
      assert data["BTC" := BtcEntry(rows[k])] == map["BTC" := BtcEntry(rows[k])];
    }
  }

  /** With distinct dates every row's date is new when it comes. */
  lemma {:induction false} GroupedDistinct(rows: seq<IndicatorRow>)
    requires forall i, j :: 0 <= i < j < |rows| ==> rows[i].date != rows[j].date
    ensures Grouped(rows).0 == seq(|rows|, k requires 0 <= k < |rows| => rows[k].date)
  {
    if rows != [] {
      var init := rows[..|rows| - 1];
      var last := rows[|rows| - 1];
      GroupedDistinct(init);
      GroupedDates(init);
      assert last.date !in Grouped(init).0 by {
        forall k | 0 <= k < |init|
          ensures init[k].date != last.date
        {
          assert init[k] == rows[k];
        }
      }
      GroupedNewDate(rows);
      DatesSnoc(rows);
    }
  }

  /** A row with a date already seen leaves the order as it was. */
  lemma GroupedOldDate(rows: seq<IndicatorRow>)
    requires rows != [] && rows[|rows| - 1].date in Grouped(rows[..|rows| - 1]).0
    ensures Grouped(rows).0 == Grouped(rows[..|rows| - 1]).0
  {
  }

  /** A row with a new date appends that date to the order. */
  lemma GroupedNewDate(rows: seq<IndicatorRow>)
    requires rows != [] && rows[|rows| - 1].date !in Grouped(rows[..|rows| - 1]).0
    ensures Grouped(rows).0 == Grouped(rows[..|rows| - 1]).0 + [rows[|rows| - 1].date]
  {
  }

  lemma DatesSnoc(rows: seq<IndicatorRow>)
    requires rows != []
    ensures var init := rows[..|rows| - 1];
      seq(|rows|, k requires 0 <= k < |rows| => rows[k].date)
      == seq(|init|, k requires 0 <= k < |init| => init[k].date) + [rows[|rows| - 1].date]
  {
  }

  /** With distinct dates the crowding loader writes the same records as
      indicators_uploader.py, in the same order. */
  lemma DistinctDatesSameRecords(rows: seq<IndicatorRow>)
    requires forall i, j :: 0 <= i < j < |rows| ==> rows[i].date != rows[j].date
    ensures DateRecords(rows) == seq(|rows|, k requires 0 <= k < |rows| => Record(rows[k]))
  {
    GroupedDistinct(rows);
    forall k | 0 <= k < |rows|
      ensures DateRecords(rows)[k] == Record(rows[k])
    {
      GroupedLastWins(rows, k);
    }
  }

  /** The crowding loader's prepare_indicators_data: one record per
      distinct date, in first-seen order, a later row for a date replacing
      its "BTC" entry. */
  method PrepareByDate(rows: seq<IndicatorRow>) returns (records: seq<Value>)
    ensures records == DateRecords(rows)
  {
    var order: seq<string> := [];
    var byDate: map<string, map<string, Value>> := map[];
    for i := 0 to |rows|
      invariant order == Grouped(rows[..i]).0 && byDate == Grouped(rows[..i]).1
    {
      assert rows[..i + 1][..i] == rows[..i];
      var date := rows[i].date;
      if date !in byDate {
        order := order + [date];
        byDate := byDate[date := map[]];
      }
      byDate := byDate[date := byDate[date]["BTC" := BtcEntry(rows[i])]];
    }
    assert rows[..|rows|] == rows;
    records := seq(|order|, k requires 0 <= k < |order| => DateRecord(order[k], byDate[order[k]]));
  }

  /** The crowding records: as many as distinct dates, no date twice, each
      date's record holding the entry of its last row. */
  lemma DateRecordsShape(rows: seq<IndicatorRow>, k: nat)
    requires k < |rows|
    requires forall j :: k < j < |rows| ==> rows[j].date != rows[k].date
    ensures |DateRecords(rows)| <= |rows|
    ensures Record(rows[k]) in DateRecords(rows)
  {
    GroupedDates(rows);
    GroupedLastWins(rows, k);
    var order := Grouped(rows).0;
    var i :| 0 <= i < |order| && order[i] == rows[k].date;
    assert DateRecords(rows)[i] == Record(rows[k]);
  }

  /** What the validation loop of indicators_uploader.py logs for a
      record, in the order it tests. */
  datatype Problem = NotADict | MissingDate | InvalidData | MissingBtc | MissingFields(fields: seq<string>)

  const RequiredFields := ["price", "RSI", "Crowding"]

  function Missing(entry: map<string, Value>): (r: seq<string>)
    ensures forall f :: f in r <==> f in RequiredFields && f !in entry
  {
    Filter(RequiredFields, (f: string) => f !in entry)
  }

  function Check(record: Value): Option<Problem> {
    if !record.Obj? then Some(NotADict)
    else if "date" !in record.fields then Some(MissingDate)
    else if "data" !in record.fields || !record.fields["data"].Obj? then Some(InvalidData)
    else
      var data := record.fields["data"].fields;
      if "BTC" !in data || !data["BTC"].Obj? then Some(MissingBtc)
      else if Missing(data["BTC"].fields) != [] then Some(MissingFields(Missing(data["BTC"].fields)))
      else None
  }

  /** The (index, problem) lines logged for the records so far. */
  function Problems(records: seq<Value>): seq<(nat, Problem)> {
    if records == [] then []
    else
      var n := |records| - 1;
      Problems(records[..n]) + (if Check(records[n]).Some? then [(n, Check(records[n]).value)] else [])
  }

  /** A problem is logged for exactly the records that fail a test, with
      the first test they fail. */
  lemma {:induction false} ProblemsExact(records: seq<Value>)
    ensures forall i: nat, p :: (i, p) in Problems(records) <==> i < |records| && Check(records[i]) == Some(p)
  {
    if records != [] {
      var n := |records| - 1;
      ProblemsExact(records[..n]);
      var last := Check(records[n]);
      var tail := if last.Some? then [(n, last.value)] else [];
      assert Problems(records) == Problems(records[..n]) + tail;
      forall i: nat, p
        ensures (i, p) in Problems(records) <==> i < |records| && Check(records[i]) == Some(p)
      {
        if i < n {
          assert records[..n][i] == records[i];
        }
      }
    }
  }

  /** Every record prepare_indicators_data writes passes validation. */
  lemma {:induction false} PreparedPass(rows: seq<IndicatorRow>, records: seq<Value>)
    requires |records| == |rows| && forall k :: 0 <= k < |rows| ==> records[k] == Record(rows[k])
    ensures Problems(records) == []
  {
    if records != [] {
      var n := |records| - 1;
      PreparedPass(rows[..n], records[..n]);
      RecordPasses(rows[n]);
    }
  }

  lemma RecordPasses(row: IndicatorRow)
    ensures Check(Record(row)) == None
  {
    assert Missing(BtcEntry(row).fields) == [];
  }

  /** The validation loop: only logs. */
  method Validate(indicators: seq<Value>) returns (problems: seq<(nat, Problem)>)
    ensures problems == Problems(indicators)
  {
    problems := [];
    for idx := 0 to |indicators|
      invariant problems == Problems(indicators[..idx])
    {
      assert indicators[..idx + 1][..idx] == indicators[..idx];
      var problem := Check(indicators[idx]);
      if problem.Some? {
        problems := problems + [(idx, problem.value)];
      }
    }
    assert indicators[..|indicators|] == indicators;
  }

  /** indicators_uploader.py's upload_indicators. Nothing happens for an
      empty list or when the table check raises; otherwise the problems are
      logged and every record, valid or not, is still sent in batches of
      50, a failed batch being logged before the next is tried. */
  method UploadIndicators(indicators: seq<Value>, tableExists: bool, sentOk: nat -> bool)
    returns (problems: seq<(nat, Problem)>, sent: seq<seq<Value>>, failed: seq<nat>)
    ensures indicators == [] || !tableExists ==> problems == [] && sent == [] && failed == []
    ensures indicators != [] && tableExists ==>
      problems == Problems(indicators) && sent == Chunks(indicators, ChunkSize) && failed == Failed(|sent|, sentOk)
  {
    if indicators == [] || !tableExists {
      return [], [], [];
    }
    problems := Validate(indicators);
    sent, failed := SendBatches(indicators, ChunkSize, sentOk);
  }

  /** crowding_indicator_supabase.py's upload_indicators: the same without
      the validation loop. */
  method UploadCrowding(indicators: seq<Value>, tableExists: bool, sentOk: nat -> bool)
    returns (sent: seq<seq<Value>>, failed: seq<nat>)
    ensures indicators == [] || !tableExists ==> sent == [] && failed == []
    ensures indicators != [] && tableExists ==> sent == Chunks(indicators, ChunkSize) && failed == Failed(|sent|, sentOk)
  {
    if indicators == [] || !tableExists {
      return [], [];
    }
    sent, failed := SendBatches(indicators, ChunkSize, sentOk);
  }

  /** Invalid records are uploaded all the same: the batches sent cover
      the whole list, in order. */
  lemma InvalidStillSent(indicators: seq<Value>)
    ensures Flatten(Chunks(indicators, ChunkSize)) == indicators
    ensures |indicators| <= |Chunks(indicators, ChunkSize)| * ChunkSize < |indicators| + ChunkSize
  {
    ChunksCover(indicators, ChunkSize);
    ChunkCount(indicators, ChunkSize);
  }
}
