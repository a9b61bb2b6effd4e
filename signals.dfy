/** The threshold rules of src/modules/signals/generators.py: each generator
    looks at the last row of the indicator frame and returns a direction, a
    confidence and a reason. */
module Signals {
  import Common

  type Option<T> = Common.Option<T>

  /** One row of the indicator frame. A column the frame lacks reads as None;
      the close and the ATR are always computed. */
  datatype Bar = Bar(
    close: real,
    sma50: Option<real>,
    sma200: Option<real>,
    rsi: Option<real>,
    regime: Option<string>,
    atr: real)

  datatype SignalDirection = Buy | Sell | Hold

  /** SignalOutput of src/core/models.py. */
  datatype SignalOutput = SignalOutput(name: string, direction: SignalDirection, confidence: real, reason: string)

  /** The output model's bound on the confidence. */
  predicate ValidConfidence(s: SignalOutput) {
    0.0 <= s.confidence <= 1.0
  }

  /** `TrendSignal.generate`: BUY when the price is above a rising SMA50/SMA200
      stack, SELL for the mirror, otherwise HOLD at no confidence. */
  function Trend(df: seq<Bar>): (s: SignalOutput)
    ensures ValidConfidence(s) && s.name == "Trend"
    ensures df == [] || df[|df| - 1].sma50.None? || df[|df| - 1].sma200.None? ==>
      s == SignalOutput("Trend", Hold, 0.0, "Insufficient Data")
    ensures s.direction == Buy <==> df != [] && var b := df[|df| - 1];
      b.sma50.Some? && b.sma200.Some? && b.sma50.value > b.sma200.value && b.close > b.sma50.value
    ensures s.direction == Sell <==> df != [] && var b := df[|df| - 1];
      b.sma50.Some? && b.sma200.Some? && b.sma50.value < b.sma200.value && b.close < b.sma50.value
    ensures s.direction != Hold <==> s.confidence == 0.8
    ensures s.direction == Hold ==> s.confidence == 0.0
  {
    if df == [] || df[|df| - 1].sma50.None? || df[|df| - 1].sma200.None? then
      SignalOutput("Trend", Hold, 0.0, "Insufficient Data")
    else
      var b := df[|df| - 1];
      if b.sma50.value > b.sma200.value && b.close > b.sma50.value then
        SignalOutput("Trend", Buy, 0.8, "Price > SMA50 > SMA200")
      else if b.sma50.value < b.sma200.value && b.close < b.sma50.value then
        SignalOutput("Trend", Sell, 0.8, "Price < SMA50 < SMA200")
      else
        SignalOutput("Trend", Hold, 0.0, "Neutral Trend")
  }

  /** `MomentumSignal.generate`: oversold below 30 buys, overbought above 70
      sells, and the band between, bounds included, holds at 0.5. */
  function Momentum(df: seq<Bar>): (s: SignalOutput)
    ensures ValidConfidence(s) && s.name == "Momentum"
    ensures df == [] || df[|df| - 1].rsi.None? ==> s == SignalOutput("Momentum", Hold, 0.0, "Insufficient Data")
    ensures s.direction == Buy <==> df != [] && df[|df| - 1].rsi.Some? && df[|df| - 1].rsi.value < 30.0
    ensures s.direction == Sell <==> df != [] && df[|df| - 1].rsi.Some? && df[|df| - 1].rsi.value > 70.0
    ensures s.direction != Hold ==> s.confidence == 0.7
    ensures df != [] && df[|df| - 1].rsi.Some? && 30.0 <= df[|df| - 1].rsi.value <= 70.0 ==>
      s.direction == Hold && s.confidence == 0.5
  {
    if df == [] || df[|df| - 1].rsi.None? then SignalOutput("Momentum", Hold, 0.0, "Insufficient Data")
    else
      var rsi := df[|df| - 1].rsi.value;
      if rsi < 30.0 then SignalOutput("Momentum", Buy, 0.7, "Oversold (RSI < 30)")
      else if rsi > 70.0 then SignalOutput("Momentum", Sell, 0.7, "Overbought (RSI > 70)")
      else SignalOutput("Momentum", Hold, 0.5, "RSI Neutral")
  }

  const HighVolatility := "High Volatility Regime"

  /** `VolatilitySignal.generate`: always HOLD; a VOLATILE regime carries the
      high-volatility reason at no confidence, any other regime full confidence. */
  function Volatility(df: seq<Bar>): (s: SignalOutput)
    ensures ValidConfidence(s) && s.name == "Volatility" && s.direction == Hold
    ensures s.reason == HighVolatility <==> df != [] && df[|df| - 1].regime == Common.Some("VOLATILE")
    ensures s.reason == HighVolatility ==> s.confidence == 0.0
    ensures df != [] && df[|df| - 1].regime.Some? && df[|df| - 1].regime != Common.Some("VOLATILE") ==> s.confidence == 1.0
    ensures df == [] || df[|df| - 1].regime.None? ==> s == SignalOutput("Volatility", Hold, 0.0, "Insufficient Data")
  {
    if df == [] || df[|df| - 1].regime.None? then SignalOutput("Volatility", Hold, 0.0, "Insufficient Data")
    else if df[|df| - 1].regime.value == "VOLATILE" then SignalOutput("Volatility", Hold, 0.0, HighVolatility)
    else SignalOutput("Volatility", Hold, 1.0, "Normal Volatility")
  }

  /** The generators read only the last row: earlier history never changes a
      signal. */
  lemma SignalsReadLastRow(df: seq<Bar>, earlier: seq<Bar>)
    requires df != []
    ensures Trend(earlier + df) == Trend(df)
    ensures Momentum(earlier + df) == Momentum(df)
    ensures Volatility(earlier + df) == Volatility(df)
  {
    assert (earlier + df)[|earlier + df| - 1] == df[|df| - 1];
  }
}
