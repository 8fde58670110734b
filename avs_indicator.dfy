/** The AVS indicator's own logic (indicators/avs_indicator_ci.py): the
    signal of the latest average, the colour of each row's zone, the
    rectangles drawn over runs of coloured rows, and the normalisation of
    the sheet the data comes from. */
module AvsIndicator {
  import opened Common
  import opened Strings
  import opened IndicatorParams

  /** The default thresholds. */
  function Defaults(): map<string, Param> {
    map[
      "strong_buy_threshold" := PFloat(Fin(0.04)),
      "buy_threshold" := PFloat(Fin(0.10)),
      "sell_threshold" := PFloat(Fin(0.85)),
      "strong_sell_threshold" := PFloat(Fin(0.95))]
  }

  datatype Thresholds = Thresholds(strongBuy: Float, buy: Float, sell: Float, strongSell: Float)

  /** A chart parameter in a comparison. */
  function Number(p: Param): Float {
    if p.PInt? then Fin(p.i as real) else p.f
  }

  /** The thresholds of merged chart parameters. */
  function ThresholdsOf(chart: map<string, Param>): Thresholds
    requires Defaults().Keys <= chart.Keys
  {
    Thresholds(Number(chart["strong_buy_threshold"]), Number(chart["buy_threshold"]),
               Number(chart["sell_threshold"]), Number(chart["strong_sell_threshold"]))
  }

  datatype Signal = StrongBuy | Buy | StrongSell | Sell | Neutral

  /** The latest signal: the buy tests come first, a NaN average is
      neutral. */
  function SignalOf(average: Float, t: Thresholds): (r: Signal)
    ensures average.FNaN? ==> r == Neutral
    ensures r == StrongBuy <==> FLe(average, t.strongBuy)
    ensures r == Buy <==> !FLe(average, t.strongBuy) && FLe(average, t.buy)
    ensures r == StrongSell <==> !FLe(average, t.strongBuy) && !FLe(average, t.buy) && FGe(average, t.strongSell)
    ensures r == Sell <==>
      !FLe(average, t.strongBuy) && !FLe(average, t.buy) && !FGe(average, t.strongSell) && FGe(average, t.sell)
    ensures r == Neutral <==>
      !FLe(average, t.strongBuy) && !FLe(average, t.buy) && !FGe(average, t.strongSell) && !FGe(average, t.sell)
  {
    if FLe(average, t.strongBuy) then StrongBuy
    else if FLe(average, t.buy) then Buy
    else if FGe(average, t.strongSell) then StrongSell
    else if FGe(average, t.sell) then Sell
    else Neutral
  }

  datatype Colour = DarkRed | Red | DarkGreen | Green

  /** A row's zone colour: the sell tests come first, a NaN average has
      none. */
  function ZoneColour(average: Float, t: Thresholds): (r: Option<Colour>)
    ensures average.FNaN? ==> r.None?
    ensures r == Some(DarkRed) <==> FGe(average, t.strongSell)
    ensures r == Some(Red) <==> !FGe(average, t.strongSell) && FGe(average, t.sell)
    ensures r == Some(DarkGreen) <==> !FGe(average, t.strongSell) && !FGe(average, t.sell) && FLe(average, t.strongBuy)
    ensures r == Some(Green) <==>
      !FGe(average, t.strongSell) && !FGe(average, t.sell) && !FLe(average, t.strongBuy) && FLe(average, t.buy)
    ensures r.None? <==>
      !FGe(average, t.strongSell) && !FGe(average, t.sell) && !FLe(average, t.strongBuy) && !FLe(average, t.buy)
  {
    if FGe(average, t.strongSell) then Some(DarkRed)
    else if FGe(average, t.sell) then Some(Red)
    else if FLe(average, t.strongBuy) then Some(DarkGreen)
    else if FLe(average, t.buy) then Some(Green)
    else None
  }

  function ColourOf(s: Signal): Option<Colour> {
    match s
    case StrongBuy => Some(DarkGreen)
    case Buy => Some(Green)
    case StrongSell => Some(DarkRed)
    case Sell => Some(Red)
    case Neutral => None
  }

  /** Finite thresholds with the buy zone below the sell zone. */
  predicate Ordered(t: Thresholds) {
    t.strongBuy.Fin? && t.buy.Fin? && t.sell.Fin? && t.strongSell.Fin?
    && t.strongBuy.r <= t.buy.r < t.sell.r <= t.strongSell.r
  }

  /** With ordered thresholds the opposite test orders agree: the zone
      colour is the colour of the signal. */
  lemma ColourAgreesWithSignal(average: Float, t: Thresholds)
    requires Ordered(t)
    ensures ZoneColour(average, t) == ColourOf(SignalOf(average, t))
  {
  }

  /** The defaults are ordered. */
  lemma DefaultsOrdered()
    ensures Ordered(ThresholdsOf(Defaults()))
  {
  }

  /** Overridden thresholds that cross disagree: with a buy threshold
      above the strong-sell threshold, an average in both zones is a buy
      signal on a dark red zone. */
  lemma CrossedThresholdsDisagree()
    ensures var t := Thresholds(Fin(0.04), Fin(0.99), Fin(0.85), Fin(0.95));
      SignalOf(Fin(0.97), t) == Buy && ZoneColour(Fin(0.97), t) == Some(DarkRed)
  {
  }

  /** One row of the frame: its date (as seconds), price and average. */
  datatype AvsRow = AvsRow(date: int, price: Float, average: Float)

  /** A zone rectangle: from x0 to x1, from the lowest positive price to
      y1. */
  datatype Rect = Rect(x0: int, x1: int, y0: Float, y1: Float, colour: Colour)

  predicate Coloured(row: AvsRow, t: Thresholds) {
    ZoneColour(row.average, t).Some?
  }

  /** The rectangle between row k - 1 and row k, in row k's colour. */
  function RectAt(rows: seq<AvsRow>, k: nat, t: Thresholds, low: Float): Rect
    requires 0 < k < |rows| && Coloured(rows[k], t)
  {
    Rect(rows[k - 1].date, rows[k].date, low, rows[k].price, ZoneColour(rows[k].average, t).value)
  }

  /** The rectangles of the loop over the rows so far: one for each pair
      of consecutive coloured rows. */
  function RunRects(rows: seq<AvsRow>, t: Thresholds, low: Float): seq<Rect> {
    if |rows| < 2 then []
    else
      var n := |rows| - 1;
      RunRects(rows[..n], t, low) + (if Coloured(rows[n - 1], t) && Coloured(rows[n], t) then [RectAt(rows, n, t, low)] else [])
  }

  /** All the shapes: the runs, then a zero-width rectangle at the last
      date when the last row is coloured. */
  function ZoneShapes(rows: seq<AvsRow>, t: Thresholds, low: Float): seq<Rect> {
    var last := |rows| - 1;
    RunRects(rows, t, low) +
      (if rows != [] && Coloured(rows[last], t)
       then [Rect(rows[last].date, rows[last].date, low, rows[last].price, ZoneColour(rows[last].average, t).value)]
       else [])
  }

  /** At most one rectangle per pair of consecutive rows. */
  lemma {:induction false} RunRectsCount(rows: seq<AvsRow>, t: Thresholds, low: Float)
    ensures |RunRects(rows, t, low)| <= if rows == [] then 0 else |rows| - 1
  {
    if |rows| >= 2 {
      RunRectsCount(rows[..|rows| - 1], t, low);
    }
  }

  /** Every pair of consecutive coloured rows gets its rectangle, in the
      later row's colour. */
  lemma {:induction false} RunRectsComplete(rows: seq<AvsRow>, t: Thresholds, low: Float, k: nat)
    requires 0 < k < |rows| && Coloured(rows[k - 1], t) && Coloured(rows[k], t)
    ensures RectAt(rows, k, t, low) in RunRects(rows, t, low)
  {
    var n := |rows| - 1;
    if k < n {
      var init := rows[..n];
      assert init[k - 1] == rows[k - 1] && init[k] == rows[k];
      RunRectsComplete(init, t, low, k);
      assert RectAt(init, k, t, low) == RectAt(rows, k, t, low);
    }
  }

  /** Every rectangle belongs to a pair of consecutive coloured rows. */
  lemma {:induction false} RunRectsSound(rows: seq<AvsRow>, t: Thresholds, low: Float, r: Rect)
    requires r in RunRects(rows, t, low)
    ensures exists k :: 0 < k < |rows| && Coloured(rows[k - 1], t) && Coloured(rows[k], t) && r == RectAt(rows, k, t, low)
  {
    var n := |rows| - 1;
    var init := rows[..n];
    if r in RunRects(init, t, low) {
      RunRectsSound(init, t, low, r);
      var k :| 0 < k < |init| && Coloured(init[k - 1], t) && Coloured(init[k], t) && r == RectAt(init, k, t, low);
      assert init[k - 1] == rows[k - 1] && init[k] == rows[k];
      assert RectAt(init, k, t, low) == RectAt(rows, k, t, low);
    } else {
      assert Coloured(rows[n - 1], t) && Coloured(rows[n], t) && r == RectAt(rows, n, t, low);
    }
  }

  /** A row with no colour ends its run: no rectangle reaches it or starts
      from it. */
  lemma UncolouredBreaksRun(rows: seq<AvsRow>, t: Thresholds, low: Float, k: nat)
    requires k < |rows| && !Coloured(rows[k], t)
    requires forall i, j :: 0 <= i < j < |rows| ==> rows[i].date < rows[j].date
    ensures forall r :: r in ZoneShapes(rows, t, low) ==> r.x0 != rows[k].date && r.x1 != rows[k].date
  {
    forall r | r in ZoneShapes(rows, t, low)
      ensures r.x0 != rows[k].date && r.x1 != rows[k].date
    {
      if r in RunRects(rows, t, low) {
        RunRectsSound(rows, t, low, r);
        var j :| 0 < j < |rows| && Coloured(rows[j - 1], t) && Coloured(rows[j], t) && r == RectAt(rows, j, t, low);
        DistinctDates(rows, j - 1, k);
        DistinctDates(rows, j, k);
      } else {
        DistinctDates(rows, |rows| - 1, k);
      }
    }
  }

  /** Increasing dates tell rows apart. */
  lemma DistinctDates(rows: seq<AvsRow>, i: nat, k: nat)
    requires i < |rows| && k < |rows| && i != k
    requires forall i, j :: 0 <= i < j < |rows| ==> rows[i].date < rows[j].date
    ensures rows[i].date != rows[k].date
  {
    if i < k {
      assert rows[i].date < rows[k].date;
    } else {
      assert rows[k].date < rows[i].date;
    }
  }

  /** With increasing dates every rectangle runs forward, and the only
      zero-width one is the final shape at the last, coloured, date. */
  lemma ZeroWidthOnlyLast(rows: seq<AvsRow>, t: Thresholds, low: Float)
    requires forall i, j :: 0 <= i < j < |rows| ==> rows[i].date < rows[j].date
    ensures forall r :: r in ZoneShapes(rows, t, low) ==> r.x0 <= r.x1
    ensures forall r :: r in ZoneShapes(rows, t, low) && r.x0 == r.x1 ==>
      r.x0 == rows[|rows| - 1].date && Coloured(rows[|rows| - 1], t)
  {
    forall r | r in ZoneShapes(rows, t, low)
      ensures r.x0 <= r.x1
      ensures r.x0 == r.x1 ==> r.x0 == rows[|rows| - 1].date && Coloured(rows[|rows| - 1], t)
    {
      if r in RunRects(rows, t, low) {
        RunRectsSound(rows, t, low, r);
        var j :| 0 < j < |rows| && Coloured(rows[j - 1], t) && Coloured(rows[j], t) && r == RectAt(rows, j, t, low);
        assert rows[j - 1].date < rows[j].date;
      }
    }
  }

  /** The shape loop of plot_avs_chart. `low` is the lowest positive
      price. */
  method PlotShapes(rows: seq<AvsRow>, t: Thresholds, low: Float) returns (shapes: seq<Rect>)
    ensures shapes == ZoneShapes(rows, t, low)
  {
    var prevIndex: Option<int> := None;
    var prevColour: Colour := Green;
    shapes := [];
    for i := 0 to |rows|
      invariant shapes == RunRects(rows[..i], t, low)
      invariant prevIndex.Some? <==> i > 0 && Coloured(rows[i - 1], t)
      invariant prevIndex.Some? ==> prevIndex.value == rows[i - 1].date && prevColour == ZoneColour(rows[i - 1].average, t).value
    {
      assert rows[..i + 1][..i] == rows[..i];
      var colour := ZoneColour(rows[i].average, t);
      if prevIndex.Some? && colour.Some? {
        shapes := shapes + [Rect(prevIndex.value, rows[i].date, low, rows[i].price, colour.value)];
      }
      if colour.Some? {
        prevIndex, prevColour := Some(rows[i].date), colour.value;
      } else {
        prevIndex := None;
      }
    }
    assert rows[..|rows|] == rows;
    if prevIndex.Some? {
      var last := rows[|rows| - 1];
      shapes := shapes + [Rect(prevIndex.value, last.date, low, last.price, prevColour)];
    }
  }

  /** The latest reply's signal: the last row's average, or the error of
      `iloc[-1]` on an empty frame. */
  function LatestSignal(rows: seq<AvsRow>, t: Thresholds, emptyError: string): (r: Reply<Signal>)
    ensures rows == [] <==> r.Error?
    ensures rows != [] ==> r == Data(SignalOf(rows[|rows| - 1].average, t))
  {
    if rows == [] then Error(emptyError) else Data(SignalOf(rows[|rows| - 1].average, t))
  }

  /** A parsed date cell: a time in seconds, or NaT for an empty one. */
  datatype Stamp = At(seconds: int) | NaT

  /** A sheet row after loading: its date and its numeric cells. */
  datatype SheetRow = SheetRow(date: int, cells: seq<Float>)

  /** How a sheet is read: pd.to_datetime on a date cell (None when it
      raises) and pd.to_numeric with errors='coerce' (NaN on failure). */
  datatype SheetParsers = SheetParsers(parseDate: string -> Option<Stamp>, toNumeric: string -> Float)

  /** The widest row. */
  function MaxWidth(rows: seq<seq<string>>): (r: nat)
    ensures forall k :: 0 <= k < |rows| ==> |rows[k]| <= r
    ensures rows != [] ==> exists k :: 0 <= k < |rows| && |rows[k]| == r
  {
    if rows == [] then 0
    else
      var rest := MaxWidth(rows[1..]);
      if |rows[0]| >= rest then |rows[0]| else rest
  }

  /** The numeric cells of a row: ',' read as the decimal point; a cell
      pandas pads in is missing and becomes NaN. */
  function Cells(row: seq<string>, width: nat, p: SheetParsers): (r: seq<Float>)
    ensures |r| == width
    ensures forall j :: 0 <= j < width && j + 1 < |row| ==> r[j] == p.toNumeric(ReplaceChar(row[j + 1], ',', '.'))
    ensures forall j :: 0 <= j < width && j + 1 >= |row| ==> r[j] == FNaN
  {
    seq(width, j requires 0 <= j < width => if j + 1 < |row| then p.toNumeric(ReplaceChar(row[j + 1], ',', '.')) else FNaN)
  }

  /** The date of a row: a missing cell is NaT. */
  function DateOf(row: seq<string>, p: SheetParsers): Option<Stamp> {
    if row == [] then Some(NaT) else p.parseDate(row[0])
  }

  /** The row as a frame row when its date is on or after 2013-05-01. */
  function Dated(row: seq<string>, width: nat, p: SheetParsers): seq<SheetRow> {
    var d := DateOf(row, p);
    if d.Some? && d.value.At? && d.value.seconds >= SheetStart then [SheetRow(d.value.seconds, Cells(row, width, p))] else []
  }

  function DatedRows(data: seq<seq<string>>, width: nat, p: SheetParsers): (r: seq<SheetRow>)
    ensures |r| <= |data|
    ensures forall x :: x in r ==> x.date >= SheetStart && |x.cells| == width
  {
    if data == [] then [] else Dated(data[0], width, p) + DatedRows(data[1..], width, p)
  }

  /** load_google_sheets_data: an empty frame for one sheet row or fewer;
      None when the widest data row does not match the header (pandas
      raises), the header is empty, or a date does not parse; otherwise
      the rows dated from 2013-05-01 on, in sheet order. */
  function LoadSheet(values: seq<seq<string>>, p: SheetParsers): (r: Option<seq<SheetRow>>)
    ensures |values| <= 1 ==> r == Some([])
    ensures r.Some? && |values| > 1 ==> |r.value| <= |values| - 1
    ensures r.Some? ==> forall x :: x in r.value ==> x.date >= SheetStart && |x.cells| + 1 == |values[0]|
    ensures |values| > 1 ==>
      (r.None? <==> values[0] == [] || MaxWidth(values[1..]) != |values[0]|
                    || exists k :: 1 <= k < |values| && DateOf(values[k], p).None?)
    ensures r.Some? && |values| > 1 ==> r.value == DatedRows(values[1..], |values[0]| - 1, p)
  {
    if |values| <= 1 then Some([])
    else
      var header, data := values[0], values[1..];
      if header == [] || MaxWidth(data) != |header| then None
      else if exists k :: 0 <= k < |data| && DateOf(data[k], p).None? then None
      else Some(DatedRows(data, |header| - 1, p))
  }

  /** A row whose cells parse and whose date is on or after 2013-05-01 is
      kept with every cell converted; one dated earlier is dropped. */
  lemma {:induction false} DatedRowsKeep(data: seq<seq<string>>, width: nat, p: SheetParsers, k: nat)
    requires k < |data|
    ensures var d := DateOf(data[k], p);
      d.Some? && d.value.At? && d.value.seconds >= SheetStart ==> SheetRow(d.value.seconds, Cells(data[k], width, p)) in DatedRows(data, width, p)
    ensures forall x :: x in DatedRows(data, width, p) ==> exists j :: 0 <= j < |data| && Dated(data[j], width, p) == [x]
  {
    if k > 0 {
      DatedRowsKeep(data[1..], width, p, k - 1);
      assert data[1..][k - 1] == data[k];
    } else if |data| > 1 {
      DatedRowsKeep(data[1..], width, p, 0);
    }
    forall x | x in DatedRows(data, width, p)
      ensures exists j :: 0 <= j < |data| && Dated(data[j], width, p) == [x]
    {
      if x in Dated(data[0], width, p) {
        assert Dated(data[0], width, p) == [x];
      } else {
        var j :| 0 <= j < |data[1..]| && Dated(data[1..][j], width, p) == [x];
        assert data[1..][j] == data[j + 1];
      }
    }
  }
}
