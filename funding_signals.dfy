/** The row-wise signal logic of the funding indicator, identical in
    indicators/funding_indicator.py and indicators/funding_indicator_ci.py.
    The moving averages, RSI and rate of change are computed by pandas and
    ta; here they are a row's inputs, and a value shifted in from before
    the first row is NaN. A comparison involving NaN is false, as in
    pandas. */
module FundingSignals {
  import opened Common
  import opened IndicatorParams

  /** The computed columns of one row and of the row before it. */
  datatype FundingRow = FundingRow(
    close: Float, prevClose: Float,
    longShortEmaBuy: Float, shortEma1Buy: Float, longEma1Buy: Float, shortEma2Buy: Float,
    rsi: Float, fr: Float, roc: Float, lowerBand: Float, upperBand: Float,
    ema1: Float, ema2: Float, prevEma1: Float, prevEma2: Float,
    adaptiveEmaSell: Float, prevAdaptiveEmaSell: Float, fundingRateMA: Float,
    weakLongEma: Float, prevWeakLongEma: Float, fundingRateMAWeak: Float)

  /** The scalar thresholds of the chart parameters. */
  datatype Limits = Limits(rsiBuy: Float, fundingRate: Float, rsiSell: Float, fr: Float, rsiWeakSell: Float, frWeak: Float)

  /** The default parameters, shared by both files. */
  function Defaults(): map<string, Param> {
    map[
      "longShortEmaLength" := PInt(168), "shortEma1Length" := PInt(47), "longEma1Length" := PInt(55),
      "shortEma2Length" := PInt(79), "longEma2Multiplier" := PFloat(Fin(0.99)),
      "bullEma1" := PInt(50), "bullEma2" := PInt(140),
      "rsiLength" := PInt(9), "rsiBuyThreshold" := PInt(32), "fundingRateThreshold" := PFloat(Fin(0.0)),
      "longShortEmaLengthSell" := PInt(131), "shortEma1LengthSell" := PInt(222), "longEma1LengthSell" := PInt(148),
      "shortEma2LengthSell" := PInt(57), "longEma2MultiplierSell" := PFloat(Fin(1.29)),
      "rsiSellThreshold" := PInt(48), "fundingRateMAWindow" := PInt(55), "frThreshold" := PFloat(Fin(0.005)),
      "weakShortEmaLength" := PInt(5), "weakLongEmaLength" := PInt(6),
      "rsiWeakSellThreshold" := PInt(20), "frThresholdWeak" := PFloat(Fin(0.009)), "fundingRateMAWindowWeak" := PInt(30),
      "soprMAWindow" := PInt(20), "soprBuyThreshold" := PInt(1), "soprSellThreshold" := PInt(1),
      "rocLength" := PInt(22), "stdLength" := PInt(7), "upperBand" := PFloat(Fin(0.2)), "lowerBand" := PFloat(Fin(0.1))]
  }

  function Number(p: Param): Float {
    if p.PInt? then Fin(p.i as real) else p.f
  }

  function LimitsOf(chart: map<string, Param>): Limits
    requires Defaults().Keys <= chart.Keys
  {
    Limits(Number(chart["rsiBuyThreshold"]), Number(chart["fundingRateThreshold"]), Number(chart["rsiSellThreshold"]),
           Number(chart["frThreshold"]), Number(chart["rsiWeakSellThreshold"]), Number(chart["frThresholdWeak"]))
  }

  /** The adaptive buy EMA: the long EMA when the close is above the
      long/short EMA, else the short EMA 1 when above it, else the short
      EMA 2. */
  function AdaptiveEmaBuy(row: FundingRow): (r: Float)
    ensures r == row.longEma1Buy || r == row.shortEma1Buy || r == row.shortEma2Buy
    ensures FGt(row.close, row.longShortEmaBuy) ==> r == row.longEma1Buy
    ensures row.close.FNaN? ==> r == row.shortEma2Buy
  {
    if FGt(row.close, row.longShortEmaBuy) then row.longEma1Buy
    else if FGt(row.close, row.shortEma1Buy) then row.shortEma1Buy
    else row.shortEma2Buy
  }

  datatype Signals = Signals(buy: bool, bullBuy: bool, bearBuy: bool, sell: bool, weakSell: bool, crossUp: bool, crossDown: bool)

  /** The signal columns of one row. */
  function SignalsOf(row: FundingRow, l: Limits): Signals {
    var buy := FLt(row.close, AdaptiveEmaBuy(row)) && FLt(row.rsi, l.rsiBuy) && FLt(row.fr, l.fundingRate) && FLt(row.roc, row.lowerBand);
    Signals(
      buy,
      buy && FGt(row.ema1, row.ema2),
      buy && FLt(row.ema1, row.ema2),
      FGe(row.prevClose, row.prevAdaptiveEmaSell) && FLt(row.close, row.adaptiveEmaSell) && FGt(row.rsi, l.rsiSell)
        && FGt(row.fr, row.fundingRateMA) && FGt(row.fr, l.fr) && FGt(row.roc, row.upperBand),
      FGe(row.prevClose, row.prevWeakLongEma) && FLt(row.close, row.weakLongEma) && FGt(row.rsi, l.rsiWeakSell)
        && FGt(row.fr, row.fundingRateMAWeak) && FGt(row.fr, l.frWeak),
      FGt(row.ema1, row.ema2) && FLe(row.prevEma1, row.prevEma2),
      FLt(row.ema1, row.ema2) && FGe(row.prevEma1, row.prevEma2))
  }

  /** bullBuy and bearBuy each imply buySignal and never hold together;
      cross_up and cross_down never hold together. */
  lemma SignalsConsistent(row: FundingRow, l: Limits)
    ensures SignalsOf(row, l).bullBuy ==> SignalsOf(row, l).buy
    ensures SignalsOf(row, l).bearBuy ==> SignalsOf(row, l).buy
    ensures !(SignalsOf(row, l).bullBuy && SignalsOf(row, l).bearBuy)
    ensures !(SignalsOf(row, l).crossUp && SignalsOf(row, l).crossDown)
  {
  }

  /** A buy is bull or bear unless the two EMAs are equal or NaN. */
  lemma BuyIsBullOrBear(row: FundingRow, l: Limits)
    requires SignalsOf(row, l).buy
    requires row.ema1.Fin? && row.ema2.Fin? && row.ema1.r != row.ema2.r
    ensures SignalsOf(row, l).bullBuy != SignalsOf(row, l).bearBuy
  {
  }

  /** While the RSI buy threshold is not above the RSI sell threshold (32
      and 48 by default), no row is both a buy and a sell. */
  lemma BuyExcludesSell(row: FundingRow, l: Limits)
    requires l.rsiBuy.Fin? && l.rsiSell.Fin? && l.rsiBuy.r <= l.rsiSell.r
    ensures !(SignalsOf(row, l).buy && SignalsOf(row, l).sell)
  {
  }

  lemma DefaultLimits()
    ensures LimitsOf(Defaults()) == Limits(Fin(32.0), Fin(0.0), Fin(48.0), Fin(0.005), Fin(20.0), Fin(0.009))
  {
  }

  /** The first row, whose shifted values are NaN, never crosses and never
      sells. */
  lemma FirstRowQuiet(row: FundingRow, l: Limits)
    requires row.prevClose.FNaN? && row.prevEma1.FNaN? && row.prevEma2.FNaN?
    ensures !SignalsOf(row, l).crossUp && !SignalsOf(row, l).crossDown
    ensures !SignalsOf(row, l).sell && !SignalsOf(row, l).weakSell
  {
  }
}
