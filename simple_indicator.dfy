/** The test indicator of indicators/simple_indicator.py: its parameter
    check, which repairs rather than drops, and its threshold signals. */
module SimpleIndicator {
  import opened Common
  import opened IndicatorParams

  const DefaultDays := 30
  const DefaultTheme := "light"

  /** validate_params' output dict: a period and a theme, each present
      only when the request gave it. */
  datatype SimpleParams = SimpleParams(period: Option<int>, theme: Option<string>)

  /** validate_params: a period int() converts into 1..365 is kept, any
      other period (or one int() raises on) becomes 30; a theme other than
      light or dark becomes light. */
  function ValidateSimple(params: map<string, Value>, parseInt: string -> Option<int>): (r: SimpleParams)
    ensures r.period.Some? <==> "period" in params
    ensures r.theme.Some? <==> "theme" in params
    ensures r.period.Some? ==> 1 <= r.period.value <= 365
    ensures r.theme.Some? ==> r.theme.value in ValidThemes
    ensures r.theme.Some? && IsValidTheme(params["theme"]) ==> r.theme.value == params["theme"].s
    ensures "period" in params ==>
      var p := PyInt(params["period"], parseInt);
      (p.Some? && 1 <= p.value <= 365 ==> r.period == p)
      && (p.None? || !(1 <= p.value <= 365) ==> r.period == Some(DefaultDays))
    ensures "theme" in params && !IsValidTheme(params["theme"]) ==> r.theme == Some(DefaultTheme)
  {
    var period :=
      if "period" !in params then None
      else
        var p := PyInt(params["period"], parseInt);
        Some(if p.Some? && 1 <= p.value <= 365 then p.value else DefaultDays);
    var theme :=
      if "theme" !in params then None
      else Some(if IsValidTheme(params["theme"]) then params["theme"].s else DefaultTheme);
    SimpleParams(period, theme)
  }

  /** A period in range is kept by validate_params; one out of range is
      replaced. */
  lemma PeriodKeptInRange(params: map<string, Value>, parseInt: string -> Option<int>, n: int)
    requires "period" in params && params["period"] == Num(n as real)
    ensures 1 <= n <= 365 ==> ValidateSimple(params, parseInt).period == Some(n)
    ensures !(1 <= n <= 365) ==> ValidateSimple(params, parseInt).period == Some(DefaultDays)
  {
    assert Trunc(n as real) == n;
  }

  /** A period given as text, as the server's query arguments are, is
      kept when int() reads a value in range from it, and becomes 30 when
      int() raises or reads a value out of range. */
  lemma TextPeriod(params: map<string, Value>, parseInt: string -> Option<int>, s: string)
    requires "period" in params && params["period"] == Str(s)
    ensures parseInt(s).Some? && 1 <= parseInt(s).value <= 365 ==> ValidateSimple(params, parseInt).period == parseInt(s)
    ensures parseInt(s).None? ==> ValidateSimple(params, parseInt).period == Some(DefaultDays)
    ensures parseInt(s).Some? && !(1 <= parseInt(s).value <= 365) ==> ValidateSimple(params, parseInt).period == Some(DefaultDays)
  {
  }

  /** generate_data's days and theme: the validated values, defaulting to
      30 and light. */
  function Settings(params: Option<map<string, Value>>, parseInt: string -> Option<int>): (r: (int, string))
    ensures 1 <= r.0 <= 365
    ensures r.1 in ValidThemes
    ensures params.None? ==> r == (DefaultDays, DefaultTheme)
    ensures params.Some? && "period" !in params.value ==> r.0 == DefaultDays
    ensures params.Some? && "theme" !in params.value ==> r.1 == DefaultTheme
    ensures params.Some? && "period" in params.value ==> Some(r.0) == ValidateSimple(params.value, parseInt).period
    ensures params.Some? && "theme" in params.value ==> Some(r.1) == ValidateSimple(params.value, parseInt).theme
  {
    var v := ValidateSimple(if params.Some? then params.value else map[], parseInt);
    (if v.period.Some? then v.period.value else DefaultDays, if v.theme.Some? then v.theme.value else DefaultTheme)
  }

  /** buy_signals and sell_signals of one oscillator value. */
  function SimpleSignals(oscillator: Float): (r: (bool, bool))
    ensures r.0 <==> FLt(oscillator, Fin(30.0))
    ensures r.1 <==> FGt(oscillator, Fin(70.0))
  {
    (FLt(oscillator, Fin(30.0)), FGt(oscillator, Fin(70.0)))
  }

  /** No value is both a buy and a sell, and NaN is neither. */
  lemma SimpleSignalsExclusive(oscillator: Float)
    ensures !(SimpleSignals(oscillator).0 && SimpleSignals(oscillator).1)
    ensures oscillator.FNaN? ==> SimpleSignals(oscillator) == (false, false)
  {
  }
}
