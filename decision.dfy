/** `DecisionEngine.analyze` of src/modules/decision/engine.py: the event gate,
    the news gate, the three signals (logged once as SIGNALS_GENERATED), the
    volatility filter, and the trend/momentum agreement that yields a proposal
    with its stop two ATRs and its target three ATRs from the close. */
module Decision {
  import opened Common
  import S = Signals
  import Events

  datatype DecisionKind = Trade | NoTrade | StandDown

  /** TradeDecision of src/core/models.py. */
  datatype TradeDecision = TradeDecision(decision: DecisionKind, reasoning: string, approvedTrade: Option<TradeProposal>)

  /** A decision together with the ledger calls made while reaching it. */
  datatype Analysis = Analysis(result: TradeDecision, emitted: seq<Emit>)

  /** The symbol every proposal carries, whatever instrument was analysed. */
  const ProposalSymbol := "EURUSD"

  function SignalDirectionName(d: S.SignalDirection): string {
    match d
    case Buy => "BUY"
    case Sell => "SELL"
    case Hold => "HOLD"
  }

  /** `SignalOutput.model_dump()`. */
  function SignalValue(s: S.SignalOutput): Value {
    VObj(map["name" := VStr(s.name), "direction" := VStr(SignalDirectionName(s.direction)),
             "confidence" := VNum(s.confidence), "reason" := VStr(s.reason)])
  }

  /** The SIGNALS_GENERATED record of one analysis. */
  function SignalsRecord(t: S.SignalOutput, m: S.SignalOutput, v: S.SignalOutput): (e: Emit)
    ensures e.eventType == "SIGNALS_GENERATED"
    ensures Get(e.payload, "trend") == SignalValue(t) && Get(e.payload, "momentum") == SignalValue(m)
    ensures Get(e.payload, "volatility") == SignalValue(v)
  {
    Emit("SIGNALS_GENERATED", map["trend" := SignalValue(t), "momentum" := SignalValue(m), "volatility" := SignalValue(v)])
  }

  /** The event gate's assessment, when an event engine is attached, says STAND_DOWN. */
  predicate GateStandsDown(gate: Option<Events.Assessment>) {
    gate.Some? && gate.value.status == Events.StandDown
  }

  /** Data is present and both gates let the analysis through. */
  predicate PastGates(df: seq<S.Bar>, gate: Option<Events.Assessment>, newsAllows: bool) {
    df != [] && !GateStandsDown(gate) && newsAllows
  }

  /** Trend and momentum agree: a trend direction the momentum does not oppose. */
  predicate Aligned(t: S.SignalDirection, m: S.SignalDirection) {
    (t == S.Buy && m != S.Sell) || (t == S.Sell && m != S.Buy)
  }

  /** `analyze`, with the gate's assessment, the news verdict and the proposal id
      as inputs. */
  function Analyze(df: seq<S.Bar>, gate: Option<Events.Assessment>, newsAllows: bool, id: string): (r: Analysis)
    ensures r.result.decision == Trade <==> r.result.approvedTrade.Some?
    ensures df == [] ==> r == Analysis(TradeDecision(NoTrade, "No Data", None), [])
    ensures df != [] && GateStandsDown(gate) ==> r.result.decision == StandDown && r.emitted == []
    ensures df != [] && !GateStandsDown(gate) && !newsAllows ==>
      r.result == TradeDecision(StandDown, "News Event Risk", None) && r.emitted == []
    ensures PastGates(df, gate, newsAllows) ==>
      r.emitted == [SignalsRecord(S.Trend(df), S.Momentum(df), S.Volatility(df))]
    ensures PastGates(df, gate, newsAllows) && S.Volatility(df).reason == S.HighVolatility ==>
      r.result.decision == NoTrade
    ensures PastGates(df, gate, newsAllows) && S.Volatility(df).reason != S.HighVolatility ==>
      (r.result.decision == Trade <==> Aligned(S.Trend(df).direction, S.Momentum(df).direction))
    ensures r.result.decision == StandDown ==> r.emitted == []
    ensures r.result.approvedTrade.Some? ==> df != []
    ensures r.result.approvedTrade.Some? ==>
      var p, b := r.result.approvedTrade.value, df[|df| - 1];
      && p.id == id && p.symbol == ProposalSymbol && p.entryPrice == b.close
      && p.confidence == S.Trend(df).confidence && p.suggestedRiskPct == DefaultSuggestedRisk
      && (p.direction == Buy <==> S.Trend(df).direction == S.Buy)
      && (p.direction == Buy ==> p.stopLoss == b.close - 2.0 * b.atr && p.takeProfit == Some(b.close + 3.0 * b.atr))
      && (p.direction == Sell ==> p.stopLoss == b.close + 2.0 * b.atr && p.takeProfit == Some(b.close - 3.0 * b.atr))
  {
    if df == [] then Analysis(TradeDecision(NoTrade, "No Data", None), [])
    else if GateStandsDown(gate) then
      Analysis(TradeDecision(StandDown, "EVENT_STAND_DOWN: " + Events.ReasonText(gate.value.reason), None), [])
    else if !newsAllows then Analysis(TradeDecision(StandDown, "News Event Risk", None), [])
    else
      var t, m, v := S.Trend(df), S.Momentum(df), S.Volatility(df);
      var log := [SignalsRecord(t, m, v)];
      if v.reason == S.HighVolatility then
        Analysis(TradeDecision(NoTrade, "Volatility Filter: " + v.reason, None), log)
      else
        var close, atr := df[|df| - 1].close, df[|df| - 1].atr;
        if t.direction == S.Buy && m.direction != S.Sell then
          var p := TradeProposal(id, ProposalSymbol, Buy, close, close - 2.0 * atr, Some(close + 3.0 * atr), t.confidence, DefaultSuggestedRisk);
          Analysis(TradeDecision(Trade, "Signals Aligned BUY", Some(p)), log)
        else if t.direction == S.Sell && m.direction != S.Buy then
          var p := TradeProposal(id, ProposalSymbol, Sell, close, close + 2.0 * atr, Some(close - 3.0 * atr), t.confidence, DefaultSuggestedRisk);
          Analysis(TradeDecision(Trade, "Signals Aligned SELL", Some(p)), log)
        else
          Analysis(TradeDecision(NoTrade, "Signals Mixed", None), log)
  }

  /** With a positive ATR a proposal brackets its entry, stop on the losing
      side and target on the winning side, and the target is one and a half
      times as far from the entry as the stop. */
  lemma ProposalBracketsEntry(df: seq<S.Bar>, gate: Option<Events.Assessment>, newsAllows: bool, id: string)
    requires df != [] && df[|df| - 1].atr > 0.0
    requires Analyze(df, gate, newsAllows, id).result.approvedTrade.Some?
    ensures var p := Analyze(df, gate, newsAllows, id).result.approvedTrade.value;
      && p.takeProfit.Some?
      && (p.direction == Buy ==> p.stopLoss < p.entryPrice < p.takeProfit.value)
      && (p.direction == Sell ==> p.takeProfit.value < p.entryPrice < p.stopLoss)
      && (p.takeProfit.value - p.entryPrice) * 2.0 == (p.entryPrice - p.stopLoss) * 3.0
  {
  }

  /** Every proposal is made at the trend signal's 0.8 confidence, and only
      when the last row has the price beyond SMA50 beyond SMA200 in the
      proposal's direction and the RSI does not oppose it. */
  lemma ProposalFollowsIndicators(df: seq<S.Bar>, gate: Option<Events.Assessment>, newsAllows: bool, id: string)
    requires Analyze(df, gate, newsAllows, id).result.approvedTrade.Some?
    ensures var p, b := Analyze(df, gate, newsAllows, id).result.approvedTrade.value, df[|df| - 1];
      && p.confidence == 0.8
      && b.sma50.Some? && b.sma200.Some?
      && (p.direction == Buy ==> b.close > b.sma50.value > b.sma200.value && !(b.rsi.Some? && b.rsi.value > 70.0))
      && (p.direction == Sell ==> b.close < b.sma50.value < b.sma200.value && !(b.rsi.Some? && b.rsi.value < 30.0))
  {
    var t := S.Trend(df);
    assert t.direction != S.Hold;
  }

  /** A STAND_DOWN from the event gate wins over any data: no signal is
      generated, nothing is logged and no proposal is made. */
  lemma GateStandDownIsSilent(df: seq<S.Bar>, gate: Option<Events.Assessment>, newsAllows: bool, id: string)
    requires df != [] && GateStandsDown(gate)
    ensures var r := Analyze(df, gate, newsAllows, id);
      r.result.decision == StandDown && r.emitted == [] && r.result.approvedTrade.None?
      && r.result.reasoning == "EVENT_STAND_DOWN: " + Events.ReasonText(gate.value.reason)
  {
  }
}
