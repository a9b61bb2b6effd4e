/** The event-driven backtest of src/backtest/run_backtest.py: a bar clock, and a
    runner that, bar by bar after the lookback, first manages the open trade
    (stop update at the close, then a stop-before-target exit inside the bar)
    and then, with no trade open, runs the event gate, the decision engine and
    the risk check, entering at the next bar's open. */
module Backtest {
  import opened Common
  import S = Signals
  import Events
  import Audit
  import D = Decision
  import opened RiskManagement
  import opened PositionManagement

  /** BacktestClock: the candles and the index of the current one. */
  class BacktestClock {
    const candles: seq<Candle>
    var currentIndex: nat

    constructor (candles: seq<Candle>)
      ensures this.candles == candles && currentIndex == 0
    {
      this.candles := candles;
      currentIndex := 0;
    }

    /** `has_next`: another candle follows the current one. */
    function HasNext(): (b: bool)
      reads this
      ensures b <==> currentIndex + 1 < |candles|
    {
      currentIndex < |candles| - 1
    }

    /** `current_candle` (and `now`, its timestamp). */
    function CurrentCandle(): (c: Candle)
      reads this
      requires currentIndex < |candles|
      ensures c == candles[currentIndex]
    {
      candles[currentIndex]
    }

    /** `tick`: one step forward; a clock that had a next candle still has a
        current one. */
    method Tick()
      modifies this
      ensures currentIndex == old(currentIndex) + 1
      ensures old(HasNext()) ==> currentIndex < |candles|
    {
      currentIndex := currentIndex + 1;
    }
  }

  /** The event engine the runner builds when its event filter is on: the gate
      settings, the calendar source and the configured instrument. */
  datatype EventGate = EventGate(cfg: Events.GateConfig, provider: Events.Provider, instrument: string)

  /** The settings of a run. `gate` is the event engine's setup, absent when the
      event filter is off, and `assess` its `assess_risk` on a cache at a time;
      `indicators` is the indicator frame computed from a slice of candles;
      `analyze` is the decision engine's analysis of a frame under the
      assessment its event engine gave, with a proposal id; `idFor` the
      proposal id drawn at a bar. */
  datatype RunConfig = RunConfig(
    spreadPips: real,
    slippageBps: real,
    lookback: nat,
    gate: Option<EventGate>,
    assess: (EventGate, seq<Events.EconomicEvent>, int) -> Events.GateCall,
    indicators: seq<Candle> -> seq<S.Bar>,
    analyze: (seq<S.Bar>, Option<Events.Assessment>, string) -> D.Analysis,
    mgmt: ManagementConfig,
    idFor: int -> string)

  /** The runner's decision engine is `DecisionEngine.analyze`, whose news
      check always allows trading. */
  ghost predicate Wired(cfg: RunConfig) {
    forall df, g, id :: cfg.analyze(df, g, id) == D.Analyze(df, g, true, id)
  }

  /** Holds of every argument list; it only names the places where `assess`
      is to be read as `Events.Assess`, as the trigger of `GateWired`. */
  ghost predicate Consulted(gate: EventGate, cache: seq<Events.EconomicEvent>, ts: int) {
    true
  }

  /** `assess` is the engine's `assess_risk`, with no forced status. */
  ghost predicate GateWired(cfg: RunConfig) {
    forall gate, cache, ts {:trigger Consulted(gate, cache, ts)} ::
      Consulted(gate, cache, ts) ==>
        cfg.assess(gate, cache, ts) == Events.Assess(gate.cfg, gate.provider, None, cache, ts, gate.instrument)
  }

  /** The configuration the runner builds from its settings. */
  function Configure(spreadPips: real, slippageBps: real, lookback: nat, gate: Option<EventGate>,
                     indicators: seq<Candle> -> seq<S.Bar>, mgmt: ManagementConfig, idFor: int -> string): (cfg: RunConfig)
    ensures Wired(cfg) && GateWired(cfg)
    ensures cfg.spreadPips == spreadPips && cfg.slippageBps == slippageBps && cfg.lookback == lookback
    ensures cfg.gate == gate && cfg.indicators == indicators && cfg.mgmt == mgmt && cfg.idFor == idFor
  {
    RunConfig(spreadPips, slippageBps, lookback, gate,
              (g: EventGate, cache, ts) => Events.Assess(g.cfg, g.provider, None, cache, ts, g.instrument),
              indicators, (df, g, id) => D.Analyze(df, g, true, id), mgmt, idFor)
  }

  /** The risk manager's configuration and its snapshot, which the backtest
      never syncs. */
  datatype Admission = Admission(cfg: RiskConfig, dailyPnl: real, positions: seq<OpenPosition>)

  /** The `active_trade` dictionary. */
  datatype ActiveTrade = ActiveTrade(
    id: string,
    symbol: string,
    direction: Direction,
    entryTime: int,
    entryPrice: real,
    sl: real,
    tp: Option<real>,
    size: real)

  datatype ExitReason = StopLoss | TakeProfit

  function ExitReasonName(r: ExitReason): string {
    match r
    case StopLoss => "STOP_LOSS"
    case TakeProfit => "TAKE_PROFIT"
  }

  /** A closed trade: the trade as it was at the exit and how it ended. */
  datatype ClosedTrade = ClosedTrade(trade: ActiveTrade, exitTime: int, exitPrice: real, exitReason: ExitReason, pnl: real)

  datatype EquityPoint = EquityPoint(timestamp: int, equity: real)

  /** The runner's mutable state, with its event engine's cache. */
  datatype RunState = RunState(equity: real, activeTrade: Option<ActiveTrade>, trades: seq<ClosedTrade>,
                               equityHistory: seq<EquityPoint>, eventsCache: seq<Events.EconomicEvent>)

  /** The state after some processing, the records written to the run's own
      ledger and to the global ledger, and whether an exception escaped. */
  datatype Outcome = Outcome(state: RunState, runLog: seq<RunEvent>, globalLog: seq<Emit>, crashed: bool)

  /** The lot size every backtest trade carries. */
  const TradeSize: real := 0.1

  /** `_execute_entry`'s fill at a bar's open: half the spread and the
      slippage against the trader. */
  function EntryFill(dir: Direction, open: real, spreadPips: real, slippageBps: real): (f: real)
  {
    var spread := spreadPips * 0.0001;
    var slippage := open * (slippageBps / 10000.0);
    if dir == Buy then open + spread / 2.0 + slippage else open - spread / 2.0 - slippage
  }

  /** The trade opened at the next bar for a proposal. */
  function OpenTrade(cfg: RunConfig, p: TradeProposal, c: Candle): (t: ActiveTrade)
  {
    ActiveTrade(p.id, p.symbol, p.direction, c.timestamp, EntryFill(p.direction, c.open, cfg.spreadPips, cfg.slippageBps),
                p.stopLoss, p.takeProfit, TradeSize)
  }

  /** How `evaluate_position` reads the trade dictionary: `entry_price` and
      `sl`, there being no `fill_price` or `stop_loss` key. */
  function View(t: ActiveTrade): (v: PositionView)
    ensures EntryOf(v) == Some(t.entryPrice) && StopOf(v) == Some(t.sl)
  {
    PositionView(Some(t.symbol), Some(DirectionName(t.direction)), None, Some(t.entryPrice), None, Some(t.sl))
  }

  /** The trade after stop management at a bar's close. */
  function Managed(mgmt: ManagementConfig, t: ActiveTrade, c: Candle): (t': ActiveTrade)
  {
    var u := EvaluatePosition(mgmt, View(t), c.close);
    if u.Some? then t.(sl := u.value) else t
  }

  /** `tp and ...`: a missing or zero target is never hit. */
  predicate TargetSet(tp: Option<real>) {
    tp.Some? && tp.value != 0.0
  }

  /** The bar reached the stop, on the trade's losing side. */
  predicate StopHit(t: ActiveTrade, c: Candle) {
    if t.direction == Buy then c.low <= t.sl else c.high >= t.sl
  }

  /** The bar reached a set target, on the trade's winning side. */
  predicate TargetHit(t: ActiveTrade, c: Candle) {
    TargetSet(t.tp) && (if t.direction == Buy then c.high >= t.tp.value else c.low <= t.tp.value)
  }

  /** The intra-bar exit: the stop is looked at first, the target only when the
      stop was not reached, and a zero exit price (falsy) means no exit. */
  function ExitOf(t: ActiveTrade, c: Candle): (r: Option<(real, ExitReason)>)
  {
    var hit: Option<(real, ExitReason)> :=
      if t.direction == Buy then
        (if c.low <= t.sl then Some((t.sl, StopLoss))
         else if TargetSet(t.tp) && c.high >= t.tp.value then Some((t.tp.value, TakeProfit))
         else None)
      else
        (if c.high >= t.sl then Some((t.sl, StopLoss))
         else if TargetSet(t.tp) && c.low <= t.tp.value then Some((t.tp.value, TakeProfit))
         else None);
    if hit.Some? && hit.value.0 != 0.0 then hit else None
  }

  /** The profit of a trade closed at a price, one standard lot being 100000
      units: positive when the price moved the trade's way. */
  function Pnl(t: ActiveTrade, price: real): (pnl: real)
  {
    if t.direction == Buy then (price - t.entryPrice) * t.size * 100000.0
    else (t.entryPrice - price) * t.size * 100000.0
  }

  /** A record of the run's own ledger, with its fields before they are
      written out as JSON: the runner's own records and those of the event
      engine, which writes to the same ledger. */
  datatype RunEvent =
    | Entered(candleTime: int, direction: Direction, fill: real, sl: real, tp: Option<real>)
    | StopMoved(candleTime: int, newSl: real)
    | Exited(candleTime: int, reason: ExitReason, pnl: real, newEquity: real)
    | StandDownBlocked(timestamp: int, gateReason: Events.GateReason)
    | LeakPrevented(candleTime: int, proposalId: string)
    | EventsFetched(count: nat, rangeStart: int, rangeEnd: int, currencies: seq<string>)
    | EventRisk(assessment: Events.Assessment)

  function TimeValue(ts: int): Value {
    VNum(ts as real)
  }

  /** The ledger call that writes a run event. */
  function RunRecord(e: RunEvent): Emit {
    match e
    case Entered(t, dir, fill, sl, tp) =>
      Emit("BACKTEST_ENTRY", map["candle_time" := TimeValue(t), "direction" := VStr(DirectionName(dir)),
        "fill" := VNum(fill), "sl" := VNum(sl), "tp" := if tp.Some? then VNum(tp.value) else VNull])
    case StopMoved(t, newSl) =>
      Emit("BACKTEST_SL_UPDATE", map["candle_time" := TimeValue(t), "new_sl" := VNum(newSl)])
    case Exited(t, reason, pnl, newEquity) =>
      Emit("BACKTEST_EXIT", map["candle_time" := TimeValue(t), "reason" := VStr(ExitReasonName(reason)),
        "pnl" := VNum(pnl), "new_equity" := VNum(newEquity)])
    case StandDownBlocked(t, reason) =>
      Emit("EVENT_STAND_DOWN_BLOCK", map["timestamp" := TimeValue(t), "reason" := VStr(Events.ReasonText(reason))])
    case LeakPrevented(t, id) =>
      Emit("EVENT_GATE_LEAK_PREVENTED", map["candle_time" := TimeValue(t), "proposal_id" := VStr(id),
        "reason" := VStr("Hard gating in Backtest Execution")])
    case EventsFetched(n, start, end, cs) =>
      Emit("EVENTS_FETCH", Events.FetchPayload(n, start, end, cs))
    case EventRisk(a) =>
      Emit("EVENT_RISK", Events.AssessmentPayload(a))
  }

  /** The ledger calls that write a sequence of run events, in order. */
  function Records(es: seq<RunEvent>): (r: seq<Emit>)
    ensures |r| == |es|
  {
    seq(|es|, i requires 0 <= i < |es| => RunRecord(es[i]))
  }

  lemma RecordsAppend(a: seq<RunEvent>, b: seq<RunEvent>)
    ensures Records(a + b) == Records(a) + Records(b)
  {
    forall i | |a| <= i < |a + b|
      ensures Records(a + b)[i] == Records(b)[i - |a|]
    {
      assert (a + b)[i] == b[i - |a|];
    }
  }

  /** A ledger that received the records of `a` and then those of `b` holds
      the records of `a + b` after what it held before. */
  lemma LedgerGrows(r0: seq<Emit>, a: seq<RunEvent>, b: seq<RunEvent>)
    ensures (r0 + Records(a)) + Records(b) == r0 + Records(a + b)
  {
    RecordsAppend(a, b);
    AppendAssociates(r0, Records(a), Records(b));
  }

  lemma AppendAssociates<T>(a: seq<T>, b: seq<T>, c: seq<T>)
    ensures (a + b) + c == a + (b + c)
  {
  }

  /** The entry of a proposal at a bar, as the ledger records it. */
  function EntryEvent(c: Candle, p: TradeProposal, fill: real): RunEvent {
    Entered(c.timestamp, p.direction, fill, p.stopLoss, p.takeProfit)
  }

  /** `_manage_exit` on a state with a trade open: the stop update, then the
      exit, which books the profit into the equity and the closed trades. */
  function ExitPhase(mgmt: ManagementConfig, s: RunState, c: Candle): (o: Outcome)
    requires s.activeTrade.Some?
  {
    var u := EvaluatePosition(mgmt, View(s.activeTrade.value), c.close);
    var t := Managed(mgmt, s.activeTrade.value, c);
    var updateLog := if u.Some? then [StopMoved(c.timestamp, u.value)] else [];
    match ExitOf(t, c)
    case None => Outcome(s.(activeTrade := Some(t)), updateLog, [], false)
    case Some(x) =>
      var pnl := Pnl(t, x.0);
      var s' := s.(equity := s.equity + pnl, activeTrade := None,
                   trades := s.trades + [ClosedTrade(t, c.timestamp, x.0, x.1, pnl)]);
      Outcome(s', updateLog + [Exited(c.timestamp, x.1, pnl, s'.equity)], [], false)
  }

  /** The records one `assess_risk` of the run's engine writes to the run's
      ledger: the fetch of an empty cache, then the assessment. */
  function GateEvents(gate: EventGate, g: Events.GateCall): seq<RunEvent> {
    (if g.fetched.Some?
     then [EventsFetched(|g.cache|, g.fetched.value.0, g.fetched.value.1, Events.CurrenciesFor(gate.cfg, gate.instrument))]
     else [])
    + (if g.logged then [EventRisk(g.assessment)] else [])
  }

  /** Those records are exactly the engine's own ledger calls. */
  lemma GateEventsRecorded(gate: EventGate, g: Events.GateCall)
    ensures Records(GateEvents(gate, g)) == Events.GateRecords(g, gate.cfg, gate.instrument)
  {
    var f := if g.fetched.Some?
             then [EventsFetched(|g.cache|, g.fetched.value.0, g.fetched.value.1, Events.CurrenciesFor(gate.cfg, gate.instrument))]
             else [];
    var r := if g.logged then [EventRisk(g.assessment)] else [];
    RecordsAppend(f, r);
  }

  /** One `assess_risk` of the run's engine: its answer, the state holding the
      cache the call left, and the records it wrote. */
  datatype Gated = Gated(assessment: Events.Assessment, state: RunState, runLog: seq<RunEvent>)

  /** The run's engine asked about a timestamp; it never has a forced status. */
  function GateAt(cfg: RunConfig, s: RunState, ts: int): Gated
    requires cfg.gate.Some?
  {
    var g := cfg.assess(cfg.gate.value, s.eventsCache, ts);
    Gated(g.assessment, s.(eventsCache := g.cache), GateEvents(cfg.gate.value, g))
  }

  /** The gate is on and says STAND_DOWN at a timestamp. */
  predicate GateStandsDownAt(cfg: RunConfig, s: RunState, ts: int) {
    cfg.gate.Some? && GateAt(cfg, s, ts).assessment.status == Events.StandDown
  }

  /** The assessment the decision engine sees at a bar: it asks the run's
      engine itself, and only for a non-empty frame. */
  function DecisionGate(cfg: RunConfig, s: RunState, slice: seq<Candle>, c: Candle): Option<Events.Assessment> {
    if cfg.indicators(slice) != [] && cfg.gate.Some? then Some(GateAt(cfg, s, c.timestamp).assessment) else None
  }

  /** The analysis at a bar. */
  function AnalysisAt(cfg: RunConfig, s: RunState, slice: seq<Candle>, c: Candle): D.Analysis {
    cfg.analyze(cfg.indicators(slice), DecisionGate(cfg, s, slice, c), cfg.idFor(c.timestamp))
  }

  /** The proposal of a bar's analysis, when it decided to trade. */
  function ProposalAt(cfg: RunConfig, s: RunState, slice: seq<Candle>, c: Candle): Option<TradeProposal> {
    var a := AnalysisAt(cfg, s, slice, c);
    if a.result.decision == D.Trade && a.result.approvedTrade.Some? then a.result.approvedTrade else None
  }

  /** An outcome preceded by records written before it. */
  function Prepend(log: seq<RunEvent>, o: Outcome): Outcome {
    o.(runLog := log + o.runLog)
  }

  /** What follows the analysis on a bar with no trade open: a trade decision
      goes to the risk check, and an approved one is entered at the next bar
      unless the engine says that bar stands down. With the event filter off,
      the next-bar re-check calls a missing engine and the tick raises. */
  function Admit(cfg: RunConfig, adm: Admission, s: RunState, a: D.Analysis, next: Option<Candle>): (o: Outcome)
    requires s.activeTrade.None?
  {
    if !(a.result.decision == D.Trade && a.result.approvedTrade.Some?) then Outcome(s, [], a.emitted, false)
    else
      var p := a.result.approvedTrade.value;
      var v := Verdict(adm.cfg, adm.dailyPnl, adm.positions, p);
      var log := a.emitted + [DecisionRecord(p, v)];
      if v.Some? || next.None? then Outcome(s, [], log, false)
      else if cfg.gate.None? then Outcome(s, [], log, true)
      else
        var n := GateAt(cfg, s, next.value.timestamp);
        if n.assessment.status == Events.StandDown then
          Outcome(n.state, n.runLog + [LeakPrevented(next.value.timestamp, p.id)], log, false)
        else
          var t := OpenTrade(cfg, p, next.value);
          Outcome(n.state.(activeTrade := Some(t)), n.runLog + [EntryEvent(next.value, p, t.entryPrice)], log, false)
  }

  /** `analyze` at a bar, with its own engine call, and what follows it. */
  function Decide(cfg: RunConfig, adm: Admission, s: RunState, slice: seq<Candle>, c: Candle, next: Option<Candle>): (o: Outcome)
    requires s.activeTrade.None?
  {
    var a := AnalysisAt(cfg, s, slice, c);
    var s1 := if DecisionGate(cfg, s, slice, c).Some? then GateAt(cfg, s, c.timestamp).state else s;
    Prepend(DecisionLog(cfg, s, slice, c), Admit(cfg, adm, s1, a, next))
  }

  /** The records of the decision engine's own call to the run's engine. */
  function DecisionLog(cfg: RunConfig, s: RunState, slice: seq<Candle>, c: Candle): seq<RunEvent> {
    if DecisionGate(cfg, s, slice, c).Some? then GateAt(cfg, s, c.timestamp).runLog else []
  }

  /** The entry half of `_process_tick` on a state with no trade open: the
      current bar's event gate first, then the analysis. */
  function EntryPhase(cfg: RunConfig, adm: Admission, s: RunState, slice: seq<Candle>, c: Candle, next: Option<Candle>): (o: Outcome)
    requires s.activeTrade.None?
  {
    if GateStandsDownAt(cfg, s, c.timestamp) then
      var g := GateAt(cfg, s, c.timestamp);
      Outcome(g.state, g.runLog + [StandDownBlocked(c.timestamp, g.assessment.reason)], [], false)
    else
      var s1 := if cfg.gate.Some? then GateAt(cfg, s, c.timestamp).state else s;
      var pre := if cfg.gate.Some? then GateAt(cfg, s, c.timestamp).runLog else [];
      Prepend(pre, Decide(cfg, adm, s1, slice, c, next))
  }

  /** `_process_tick`: the open trade is managed first; only when no trade is
      open afterwards is an entry considered, so a trade closed on this bar
      can be followed by a new entry decided on the same bar. */
  function Tick(cfg: RunConfig, adm: Admission, s: RunState, slice: seq<Candle>, c: Candle, next: Option<Candle>): Outcome {
    var x := if s.activeTrade.Some? then ExitPhase(cfg.mgmt, s, c) else Outcome(s, [], [], false);
    if x.state.activeTrade.Some? then x
    else
      var e := EntryPhase(cfg, adm, x.state, slice, c, next);
      Outcome(e.state, x.runLog + e.runLog, e.globalLog, e.crashed)
  }

  /** The candles before bar `i` that the agent sees. */
  function SliceAt(candles: seq<Candle>, lookback: nat, i: nat): seq<Candle>
    requires lookback <= i < |candles|
  {
    candles[i - lookback..i]
  }

  function NextAt(candles: seq<Candle>, i: nat): Option<Candle>
    requires i < |candles|
  {
    if i + 1 < |candles| then Some(candles[i + 1]) else None
  }

  /** One bar's processing: the state, the slice, the bar and the next bar
      give the outcome. */
  type Step = (RunState, seq<Candle>, Candle, Option<Candle>) -> Outcome

  /** Holds of every argument list; it only names the places where a step is
      to be read as `Tick`, as the trigger of `IsTick`. */
  ghost predicate Ticked(s: RunState, slice: seq<Candle>, c: Candle, next: Option<Candle>) {
    true
  }

  /** The step is `_process_tick` under a configuration and a risk snapshot. */
  ghost predicate IsTick(step: Step, cfg: RunConfig, adm: Admission) {
    forall s, slice, c, next {:trigger Ticked(s, slice, c, next)} ::
      Ticked(s, slice, c, next) ==> step(s, slice, c, next) == Tick(cfg, adm, s, slice, c, next)
  }

  /** One iteration of `run`'s loop after the outcome so far: nothing once an
      exception has escaped; otherwise the bar is processed and, unless that
      raised, its equity recorded. */
  function Advance(step: Step, candles: seq<Candle>, lookback: nat, o: Outcome, i: nat): Outcome
    requires lookback <= i < |candles|
  {
    if o.crashed then o
    else
      var t := step(o.state, SliceAt(candles, lookback, i), candles[i], NextAt(candles, i));
      var st := if t.crashed then t.state
                else t.state.(equityHistory := t.state.equityHistory + [EquityPoint(candles[i].timestamp, t.state.equity)]);
      Outcome(st, o.runLog + t.runLog, o.globalLog + t.globalLog, t.crashed)
  }

  /** Processing a bar from a fresh outcome: the bar's own logs, and its
      equity recorded unless it raised. */
  lemma AdvanceFresh(step: Step, candles: seq<Candle>, lookback: nat, s: RunState, i: nat)
    requires lookback <= i < |candles|
    ensures var t := step(s, SliceAt(candles, lookback, i), candles[i], NextAt(candles, i));
      var a := Advance(step, candles, lookback, Outcome(s, [], [], false), i);
      && a.runLog == t.runLog && a.globalLog == t.globalLog && a.crashed == t.crashed
      && a.state == if t.crashed then t.state
                    else t.state.(equityHistory := t.state.equityHistory + [EquityPoint(candles[i].timestamp, t.state.equity)])
  {
    var t := step(s, SliceAt(candles, lookback, i), candles[i], NextAt(candles, i));
    assert [] + t.runLog == t.runLog;
    assert [] + t.globalLog == t.globalLog;
  }

  /** Processing a bar after a run that has not raised extends its logs by
      what the bar alone writes. */
  lemma AdvanceAppends(step: Step, candles: seq<Candle>, lookback: nat, o: Outcome, i: nat)
    requires lookback <= i < |candles| && !o.crashed
    ensures var a := Advance(step, candles, lookback, Outcome(o.state, [], [], false), i);
      Advance(step, candles, lookback, o, i) == Outcome(a.state, o.runLog + a.runLog, o.globalLog + a.globalLog, a.crashed)
  {
  }

  /** `run` over the bars `lookback .. n-1`. */
  function RunUpTo(step: Step, candles: seq<Candle>, lookback: nat, s0: RunState, n: nat): (o: Outcome)
    requires lookback <= n && (n == lookback || n <= |candles|)
    decreases n
  {
    if n == lookback then Outcome(s0, [], [], false)
    else Advance(step, candles, lookback, RunUpTo(step, candles, lookback, s0, n - 1), n - 1)
  }

  /** One more bar of a run that has not raised appends that bar's records. */
  lemma RunUpToNext(step: Step, candles: seq<Candle>, lookback: nat, s0: RunState, i: nat)
    requires lookback <= i < |candles| && !RunUpTo(step, candles, lookback, s0, i).crashed
    ensures var o := RunUpTo(step, candles, lookback, s0, i);
      var a := Advance(step, candles, lookback, Outcome(o.state, [], [], false), i);
      RunUpTo(step, candles, lookback, s0, i + 1) == Outcome(a.state, o.runLog + a.runLog, o.globalLog + a.globalLog, a.crashed)
  {
    AdvanceAppends(step, candles, lookback, RunUpTo(step, candles, lookback, s0, i), i);
  }

  /** The last bar index a run processes, plus one. */
  function RunEnd(cfg: RunConfig, candles: seq<Candle>): (n: nat)
    ensures cfg.lookback <= n && (n == cfg.lookback || n <= |candles|)
  {
    if |candles| > cfg.lookback then |candles| else cfg.lookback
  }

  /** `run`'s prefetch before the loop: the run's engine fetches the calendar
      from the first candle's time to the last one's, which with no candles
      raises. */
  function RunStart(cfg: RunConfig, s: RunState, candles: seq<Candle>): Outcome {
    if cfg.gate.None? then Outcome(s, [], [], false)
    else if candles == [] then Outcome(s, [], [], true)
    else if !cfg.gate.value.cfg.enabled then Outcome(s, [], [], false)
    else
      var gate := cfg.gate.value;
      var cs := Events.CurrenciesFor(gate.cfg, gate.instrument);
      var start, end := candles[0].timestamp, candles[|candles| - 1].timestamp;
      var cache := gate.provider(start, end, cs);
      Outcome(s.(eventsCache := cache), [EventsFetched(|cache|, start, end, cs)], [], false)
  }

  /** `run`: the prefetch, then every bar from the lookback on. */
  function RunAll(step: Step, cfg: RunConfig, candles: seq<Candle>, s0: RunState): Outcome {
    var p := RunStart(cfg, s0, candles);
    if p.crashed then p
    else Prepend(p.runLog, RunUpTo(step, candles, cfg.lookback, p.state, RunEnd(cfg, candles)))
  }

  /** The runner. `runAudit` is the run's own ledger, which its event engine
      writes to as well; `globalAudit` the process-wide one, which the decision
      engine and the risk manager write to. */
  class BacktestRunner {
    const cfg: RunConfig
    const initialBalance: real
    var equity: real
    var activeTrade: Option<ActiveTrade>
    var trades: seq<ClosedTrade>
    var equityHistory: seq<EquityPoint>
    const risk: RiskManager
    /** The event engine, present exactly when the event filter is on. */
    const engine: Events.EventRiskEngine?
    const runAudit: AuditTrail
    const globalAudit: AuditTrail
    /** `_process_tick` as a step on states, for stating what `run` does. */
    ghost const step: Step

    /** The risk manager writes to the global ledger and the event engine to
        the run's; the engine is set up as `cfg.gate` says and never forced. */
    ghost predicate Valid()
      reads engine
    {
      && risk.audit == globalAudit && runAudit != globalAudit && GateWired(cfg)
      && (engine == null <==> cfg.gate.None?)
      && (engine != null ==>
            && engine.cfg == cfg.gate.value.cfg && engine.provider == cfg.gate.value.provider
            && engine.audit == runAudit && engine.forceStatus == None)
    }

    /** `step` is `_process_tick` under the risk manager's snapshot. */
    ghost predicate Stepping()
      reads risk
    {
      IsTick(step, cfg, Adm())
    }

    function State(): RunState
      reads this, engine
    {
      RunState(equity, activeTrade, trades, equityHistory, if engine == null then [] else engine.eventsCache)
    }

    /** The risk manager's frozen configuration and snapshot. */
    function Adm(): Admission
      reads risk
    {
      Admission(risk.cfg, risk.dailyPnl, risk.currentPositions)
    }

    /** Opens the run's ledger at `path`, which records its opening, and builds
        the event engine on it when the filter is on. */
    constructor (cfg: RunConfig, initialBalance: real, riskCfg: RiskConfig, globalAudit: AuditTrail, path: string, pid: int)
      requires Wired(cfg) && GateWired(cfg)
      ensures Valid() && Stepping() && fresh(risk) && fresh(runAudit) && Wired(this.cfg)
      ensures engine != null ==> fresh(engine)
      ensures this.cfg == cfg && this.initialBalance == initialBalance && this.globalAudit == globalAudit
      ensures runAudit.records == [Emit("AUDIT_FILE_OPENED", Audit.OpeningPayload(path, pid))]
      ensures State() == RunState(initialBalance, None, [], [], [])
      ensures Adm() == Admission(riskCfg, 0.0, [])
    {
      this.cfg := cfg;
      this.initialBalance := initialBalance;
      equity := initialBalance;
      activeTrade := None;
      trades := [];
      equityHistory := [];
      risk := new RiskManager(riskCfg, globalAudit);
      var ledger := new AuditTrail();
      ledger.Log("AUDIT_FILE_OPENED", Audit.OpeningPayload(path, pid));
      runAudit := ledger;
      if cfg.gate.Some? {
        engine := new Events.EventRiskEngine(cfg.gate.value.cfg, cfg.gate.value.provider, ledger);
      } else {
        engine := null;
      }
      this.globalAudit := globalAudit;
      step := (s, slice, c, next) => Tick(cfg, Admission(riskCfg, 0.0, []), s, slice, c, next);
    }

    /** One record written to the run's ledger. */
    method Write(e: RunEvent)
      modifies runAudit
      ensures runAudit.records == old(runAudit.records) + Records([e])
    {
      runAudit.Log(RunRecord(e).eventType, RunRecord(e).payload);
    }

    /** The engine's `assess_risk` at a timestamp; `clock` is the wall-clock
        reading it stamps a fetch with. */
    method AssessGate(ts: int, clock: int) returns (a: Events.Assessment)
      requires Valid() && engine != null
      modifies engine, runAudit
      ensures Valid()
      ensures var g := GateAt(cfg, old(State()), ts);
        && a == g.assessment && State() == g.state
        && runAudit.records == old(runAudit.records) + Records(g.runLog)
    {
      assert Consulted(cfg.gate.value, engine.eventsCache, ts);
      ghost var g := Events.Assess(cfg.gate.value.cfg, cfg.gate.value.provider, None, engine.eventsCache, ts, cfg.gate.value.instrument);
      a := engine.AssessRisk(ts, cfg.gate.value.instrument, clock);
      GateEventsRecorded(cfg.gate.value, g);
    }

    /** `_execute_entry`. */
    method ExecuteEntry(p: TradeProposal, c: Candle)
      modifies this, runAudit
      ensures State() == old(State()).(activeTrade := Some(OpenTrade(cfg, p, c)))
      ensures runAudit.records == old(runAudit.records) + Records([EntryEvent(c, p, OpenTrade(cfg, p, c).entryPrice)])
    {
      var fill := EntryFill(p.direction, c.open, cfg.spreadPips, cfg.slippageBps);
      activeTrade := Some(ActiveTrade(p.id, p.symbol, p.direction, c.timestamp, fill, p.stopLoss, p.takeProfit, TradeSize));
      Write(EntryEvent(c, p, fill));
    }

    /** `_manage_exit`. */
    method ManageExit(c: Candle)
      requires activeTrade.Some?
      modifies this, runAudit
      ensures State() == ExitPhase(cfg.mgmt, old(State()), c).state
      ensures runAudit.records == old(runAudit.records) + Records(ExitPhase(cfg.mgmt, old(State()), c).runLog)
    {
      ghost var x := ExitPhase(cfg.mgmt, State(), c);
      ghost var updateLog: seq<RunEvent> := [];
      var u := EvaluatePosition(cfg.mgmt, View(activeTrade.value), c.close);
      if u.Some? {
        activeTrade := Some(activeTrade.value.(sl := u.value));
        Write(StopMoved(c.timestamp, u.value));
        updateLog := [StopMoved(c.timestamp, u.value)];
      }
      var t := activeTrade.value;
      var ex := ExitOf(t, c);
      if ex.Some? {
        var pnl := Pnl(t, ex.value.0);
        equity := equity + pnl;
        trades := trades + [ClosedTrade(t, c.timestamp, ex.value.0, ex.value.1, pnl)];
        Write(Exited(c.timestamp, ex.value.1, pnl, equity));
        LedgerGrows(old(runAudit.records), updateLog, [Exited(c.timestamp, ex.value.1, pnl, equity)]);
        activeTrade := None;
      }
    }

    /** The risk check and the entry after an analysis. */
    method AdmitAnalysis(a: D.Analysis, next: Option<Candle>, clock: int) returns (crashed: bool)
      requires Valid() && activeTrade.None?
      modifies this, engine, runAudit, globalAudit
      ensures Valid()
      ensures var o := Admit(cfg, old(Adm()), old(State()), a, next);
        && State() == o.state && crashed == o.crashed
        && runAudit.records == old(runAudit.records) + Records(o.runLog)
        && globalAudit.records == old(globalAudit.records) + o.globalLog
    {
      crashed := false;
      globalAudit.LogAll(a.emitted);
      if a.result.decision == D.Trade && a.result.approvedTrade.Some? {
        var p := a.result.approvedTrade.value;
        var ok := risk.CheckTrade(p);
        if ok && next.Some? {
          if engine == null {
            return true;
          }
          ghost var n := GateAt(cfg, State(), next.value.timestamp);
          var nextAssessment := AssessGate(next.value.timestamp, clock);
          if nextAssessment.status == Events.StandDown {
            Write(LeakPrevented(next.value.timestamp, p.id));
            LedgerGrows(old(runAudit.records), n.runLog, [LeakPrevented(next.value.timestamp, p.id)]);
            return;
          }
          ExecuteEntry(p, next.value);
          LedgerGrows(old(runAudit.records), n.runLog, [EntryEvent(next.value, p, OpenTrade(cfg, p, next.value).entryPrice)]);
        }
      }
    }

    /** `analyze` at a bar, whose decision engine asks the run's engine for a
        non-empty frame, then the risk check and the entry. */
    method DecideEntry(slice: seq<Candle>, c: Candle, next: Option<Candle>, clock: int) returns (crashed: bool)
      requires Valid() && activeTrade.None?
      modifies this, engine, runAudit, globalAudit
      ensures Valid()
      ensures var o := Decide(cfg, old(Adm()), old(State()), slice, c, next);
        && State() == o.state && crashed == o.crashed
        && runAudit.records == old(runAudit.records) + Records(o.runLog)
        && globalAudit.records == old(globalAudit.records) + o.globalLog
    {
      var df := cfg.indicators(slice);
      var seen: Option<Events.Assessment> := None;
      ghost var g: seq<RunEvent> := [];
      if df != [] && engine != null {
        g := GateAt(cfg, State(), c.timestamp).runLog;
        var assessment := AssessGate(c.timestamp, clock);
        seen := Some(assessment);
      }
      ghost var s1 := State();
      var analysis := cfg.analyze(df, seen, cfg.idFor(c.timestamp));
      assert analysis == AnalysisAt(cfg, old(State()), slice, c);
      crashed := AdmitAnalysis(analysis, next, clock);
      LedgerGrows(old(runAudit.records), g, Admit(cfg, old(Adm()), s1, analysis, next).runLog);
    }

    /** The entry half of `_process_tick`, with no trade open. */
    method ConsiderEntry(slice: seq<Candle>, c: Candle, next: Option<Candle>, clock: int) returns (crashed: bool)
      requires Valid() && activeTrade.None?
      modifies this, engine, runAudit, globalAudit
      ensures Valid()
      ensures var o := EntryPhase(cfg, old(Adm()), old(State()), slice, c, next);
        && State() == o.state && crashed == o.crashed
        && runAudit.records == old(runAudit.records) + Records(o.runLog)
        && globalAudit.records == old(globalAudit.records) + o.globalLog
    {
      ghost var o := EntryPhase(cfg, Adm(), State(), slice, c, next);
      if engine != null {
        ghost var g := GateAt(cfg, State(), c.timestamp);
        var assessment := AssessGate(c.timestamp, clock);
        if assessment.status == Events.StandDown {
          assert o == Outcome(g.state, g.runLog + [StandDownBlocked(c.timestamp, g.assessment.reason)], [], false);
          Write(StandDownBlocked(c.timestamp, assessment.reason));
          LedgerGrows(old(runAudit.records), g.runLog, [StandDownBlocked(c.timestamp, assessment.reason)]);
          return false;
        }
        ghost var d := Decide(cfg, Adm(), g.state, slice, c, next);
        assert o == Prepend(g.runLog, d);
        crashed := DecideEntry(slice, c, next, clock);
        LedgerGrows(old(runAudit.records), g.runLog, d.runLog);
      } else {
        crashed := DecideEntry(slice, c, next, clock);
      }
    }

    /** `_process_tick`; `crashed` reports the exception it raises. */
    method ProcessTick(slice: seq<Candle>, c: Candle, next: Option<Candle>, clock: int) returns (crashed: bool)
      requires Valid() && Stepping()
      modifies this, engine, runAudit, globalAudit
      ensures Valid()
      ensures var o := step(old(State()), slice, c, next);
        && State() == o.state && crashed == o.crashed
        && runAudit.records == old(runAudit.records) + Records(o.runLog)
        && globalAudit.records == old(globalAudit.records) + o.globalLog
    {
      assert Ticked(State(), slice, c, next);
      crashed := false;
      ghost var x := if activeTrade.Some? then ExitPhase(cfg.mgmt, State(), c) else Outcome(State(), [], [], false);
      if activeTrade.Some? {
        ManageExit(c);
      }
      assert State() == x.state && runAudit.records == old(runAudit.records) + Records(x.runLog);
      if activeTrade.None? {
        ghost var e := EntryPhase(cfg, Adm(), x.state, slice, c, next);
        crashed := ConsiderEntry(slice, c, next, clock);
        LedgerGrows(old(runAudit.records), x.runLog, e.runLog);
      }
    }

    /** The body of `run`'s loop for bar `i`. */
    method Bar(candles: seq<Candle>, i: nat, clock: int) returns (crashed: bool)
      requires Valid() && Stepping() && cfg.lookback <= i < |candles|
      modifies this, engine, runAudit, globalAudit
      ensures Valid()
      ensures var o := Advance(step, candles, cfg.lookback, Outcome(old(State()), [], [], false), i);
        && State() == o.state && crashed == o.crashed
        && runAudit.records == old(runAudit.records) + Records(o.runLog)
        && globalAudit.records == old(globalAudit.records) + o.globalLog
    {
      AdvanceFresh(step, candles, cfg.lookback, State(), i);
      crashed := ProcessTick(SliceAt(candles, cfg.lookback, i), candles[i], NextAt(candles, i), clock);
      if !crashed {
        equityHistory := equityHistory + [EquityPoint(candles[i].timestamp, equity)];
      }
    }

    /** `run`'s prefetch over the candles' span. */
    method StartRun(candles: seq<Candle>, clock: int) returns (crashed: bool)
      requires Valid()
      modifies engine, runAudit
      ensures Valid()
      ensures var p := RunStart(cfg, old(State()), candles);
        && State() == p.state && crashed == p.crashed
        && runAudit.records == old(runAudit.records) + Records(p.runLog)
    {
      crashed := false;
      if engine != null {
        if |candles| == 0 {
          return true;
        }
        engine.Prefetch(candles[0].timestamp, candles[|candles| - 1].timestamp, cfg.gate.value.instrument, clock);
      }
    }

    /** `run`'s loop: every bar from the lookback on, with its equity recorded
        after it; an exception ends the loop. */
    method Bars(candles: seq<Candle>, clock: int) returns (crashed: bool)
      requires Valid() && Stepping()
      modifies this, engine, runAudit, globalAudit
      ensures Valid()
      ensures var o := RunUpTo(step, candles, cfg.lookback, old(State()), RunEnd(cfg, candles));
        && State() == o.state && crashed == o.crashed
        && runAudit.records == old(runAudit.records) + Records(o.runLog)
        && globalAudit.records == old(globalAudit.records) + o.globalLog
    {
      ghost var s0 := State();
      var i := cfg.lookback;
      crashed := false;
      while i < |candles| && !crashed
        invariant Valid()
        invariant cfg.lookback <= i && (i == cfg.lookback || i <= |candles|)
        invariant var o := RunUpTo(step, candles, cfg.lookback, s0, i);
          && State() == o.state && crashed == o.crashed
          && runAudit.records == old(runAudit.records) + Records(o.runLog)
          && globalAudit.records == old(globalAudit.records) + o.globalLog
        decreases |candles| - i
      {
        ghost var o := RunUpTo(step, candles, cfg.lookback, s0, i);
        crashed := Bar(candles, i, clock);
        RunUpToNext(step, candles, cfg.lookback, s0, i);
        ghost var a := Advance(step, candles, cfg.lookback, Outcome(o.state, [], [], false), i);
        LedgerGrows(old(runAudit.records), o.runLog, a.runLog);
        AppendAssociates(old(globalAudit.records), o.globalLog, a.globalLog);
        i := i + 1;
      }
      if crashed {
        CrashEndsRun(step, candles, cfg.lookback, s0, i, RunEnd(cfg, candles));
      } else {
        assert i == RunEnd(cfg, candles);
      }
    }

    /** `run`: the prefetch, then the loop. */
    method Run(candles: seq<Candle>, clock: int) returns (crashed: bool)
      requires Valid() && Stepping()
      modifies this, engine, runAudit, globalAudit
      ensures Valid()
      ensures var o := RunAll(step, cfg, candles, old(State()));
        && State() == o.state && crashed == o.crashed
        && runAudit.records == old(runAudit.records) + Records(o.runLog)
        && globalAudit.records == old(globalAudit.records) + o.globalLog
    {
      ghost var p := RunStart(cfg, State(), candles);
      crashed := StartRun(candles, clock);
      if crashed {
        return;
      }
      ghost var r1 := runAudit.records;
      crashed := Bars(candles, clock);
      LedgerGrows(old(runAudit.records), p.runLog, RunUpTo(step, candles, cfg.lookback, p.state, RunEnd(cfg, candles)).runLog);
    }
  }

  /** Once a run has raised, later bars change nothing. */
  lemma {:induction false} CrashEndsRun(step: Step, candles: seq<Candle>, lookback: nat, s0: RunState, i: nat, n: nat)
    requires lookback <= i <= n && (n == lookback || n <= |candles|)
    requires RunUpTo(step, candles, lookback, s0, i).crashed
    ensures RunUpTo(step, candles, lookback, s0, n) == RunUpTo(step, candles, lookback, s0, i)
    decreases n
  {
    if n > i {
      CrashEndsRun(step, candles, lookback, s0, i, n - 1);
    }
  }

  /** The fill is against the trader, by the same amount for a long as for a
      short: half the spread plus the slippage. */
  lemma FillIsAdverse(dir: Direction, open: real, spreadPips: real, slippageBps: real)
    requires open >= 0.0 && spreadPips >= 0.0 && slippageBps >= 0.0
    ensures dir == Buy ==> EntryFill(dir, open, spreadPips, slippageBps) >= open
    ensures dir == Sell ==> EntryFill(dir, open, spreadPips, slippageBps) <= open
    ensures EntryFill(Buy, open, spreadPips, slippageBps) - open == open - EntryFill(Sell, open, spreadPips, slippageBps)
  {
    assert open * (slippageBps / 10000.0) >= 0.0;
  }

  /** `evaluate_position` sees the trade's symbol and side, and management only
      ever moves the stop in the trade's favour. */
  lemma ManagedOnlyTightens(mgmt: ManagementConfig, t: ActiveTrade, c: Candle)
    ensures SymbolOf(View(t)) == t.symbol && (IsBuy(View(t)) <==> t.direction == Buy)
    ensures var t' := Managed(mgmt, t, c);
      && t' == t.(sl := t'.sl)
      && (t.direction == Buy ==> t'.sl >= t.sl)
      && (t.direction == Sell ==> t'.sl <= t.sl)
  {
  }

  /** The exit rules: the stop is looked at first, so a bar reaching both the
      stop and the target exits at the stop; the target only when the stop was
      not reached; a zero stop (falsy) never exits, and shadows the target. */
  lemma ExitRules(t: ActiveTrade, c: Candle)
    ensures ExitOf(t, c) == Some((t.sl, StopLoss)) <==> StopHit(t, c) && t.sl != 0.0
    ensures (ExitOf(t, c).Some? && ExitOf(t, c).value.1 == TakeProfit) <==> !StopHit(t, c) && TargetHit(t, c)
    ensures ExitOf(t, c).Some? && ExitOf(t, c).value.1 == TakeProfit ==> ExitOf(t, c).value.0 == t.tp.value
    ensures ExitOf(t, c).None? <==> (StopHit(t, c) && t.sl == 0.0) || (!StopHit(t, c) && !TargetHit(t, c))
  {
  }

  /** A trade gains exactly when the exit price moved its way, and an exit at
      the entry books nothing. */
  lemma PnlSign(t: ActiveTrade, price: real)
    requires t.size > 0.0
    ensures Pnl(t, price) > 0.0 <==> (if t.direction == Buy then price > t.entryPrice else price < t.entryPrice)
    ensures Pnl(t, price) < 0.0 <==> (if t.direction == Buy then price < t.entryPrice else price > t.entryPrice)
    ensures Pnl(t, t.entryPrice) == 0.0
  {
    var d := if t.direction == Buy then price - t.entryPrice else t.entryPrice - price;
    assert Pnl(t, price) == d * (t.size * 100000.0);
    assert t.size * 100000.0 > 0.0;
    if d > 0.0 {
      assert d * (t.size * 100000.0) > 0.0;
    } else if d < 0.0 {
      assert d * (t.size * 100000.0) < 0.0;
    }
  }

  /** The profit booked by the closed trades, in order. */
  function SumPnl(trades: seq<ClosedTrade>): real {
    if trades == [] then 0.0 else SumPnl(trades[..|trades| - 1]) + trades[|trades| - 1].pnl
  }

  /** The equity is the initial balance plus every booked profit. */
  predicate Balanced(initialBalance: real, s: RunState) {
    s.equity == initialBalance + SumPnl(s.trades)
  }

  /** From `s` to `s'` the closed trades were only appended to, one at most,
      the equity moved by exactly their profit, and the equity history was
      left alone. */
  predicate BooksKept(initialBalance: real, s: RunState, s': RunState) {
    && Balanced(initialBalance, s')
    && s'.equityHistory == s.equityHistory
    && |s.trades| <= |s'.trades| <= |s.trades| + 1
    && s'.trades[..|s.trades|] == s.trades
  }

  /** One bar's processing keeps the books; the equity history is left to the
      loop. */
  lemma TickKeepsBooks(cfg: RunConfig, adm: Admission, initialBalance: real, s: RunState,
                       slice: seq<Candle>, c: Candle, next: Option<Candle>)
    requires Balanced(initialBalance, s)
    ensures BooksKept(initialBalance, s, Tick(cfg, adm, s, slice, c, next).state)
  {
    var x := if s.activeTrade.Some? then ExitPhase(cfg.mgmt, s, c) else Outcome(s, [], [], false);
    if s.activeTrade.Some? {
      var t := Managed(cfg.mgmt, s.activeTrade.value, c);
      var ex := ExitOf(t, c);
      if ex.Some? {
        var closed := ClosedTrade(t, c.timestamp, ex.value.0, ex.value.1, Pnl(t, ex.value.0));
        assert x.state.trades == s.trades + [closed];
        assert x.state.trades[..|s.trades|] == s.trades;
        assert SumPnl(x.state.trades) == SumPnl(s.trades) + closed.pnl;
      }
    }
    assert BooksKept(initialBalance, s, x.state);
    if x.state.activeTrade.None? {
      EntryKeepsBooks(cfg, adm, x.state, slice, c, next);
    }
  }

  /** The entry half never touches the books. */
  lemma EntryKeepsBooks(cfg: RunConfig, adm: Admission, s: RunState, slice: seq<Candle>, c: Candle, next: Option<Candle>)
    requires s.activeTrade.None?
    ensures var o := EntryPhase(cfg, adm, s, slice, c, next);
      o.state.equity == s.equity && o.state.trades == s.trades && o.state.equityHistory == s.equityHistory
  {
  }

  /** `TickKeepsBooks` for a step that is `Tick`. */
  lemma StepKeepsBooks(step: Step, cfg: RunConfig, adm: Admission, initialBalance: real, s: RunState,
                       slice: seq<Candle>, c: Candle, next: Option<Candle>)
    requires IsTick(step, cfg, adm) && Balanced(initialBalance, s)
    ensures BooksKept(initialBalance, s, step(s, slice, c, next).state)
  {
    assert Ticked(s, slice, c, next);
    TickKeepsBooks(cfg, adm, initialBalance, s, slice, c, next);
  }

  /** A run keeps the books balanced and only appends closed trades. */
  lemma {:induction false} RunKeepsBooks(step: Step, cfg: RunConfig, adm: Admission, candles: seq<Candle>,
                                         initialBalance: real, s0: RunState, n: nat)
    requires IsTick(step, cfg, adm) && Balanced(initialBalance, s0)
    requires cfg.lookback <= n && (n == cfg.lookback || n <= |candles|)
    decreases n
    ensures var o := RunUpTo(step, candles, cfg.lookback, s0, n);
      && Balanced(initialBalance, o.state)
      && |s0.trades| <= |o.state.trades| && o.state.trades[..|s0.trades|] == s0.trades
  {
    if n > cfg.lookback {
      var lb := cfg.lookback;
      RunKeepsBooks(step, cfg, adm, candles, initialBalance, s0, n - 1);
      var o := RunUpTo(step, candles, lb, s0, n - 1);
      if !o.crashed {
        var slice, c, next := SliceAt(candles, lb, n - 1), candles[n - 1], NextAt(candles, n - 1);
        StepKeepsBooks(step, cfg, adm, initialBalance, o.state, slice, c, next);
        var t := step(o.state, slice, c, next);
        assert t.state.trades[..|s0.trades|] == o.state.trades[..|o.state.trades|][..|s0.trades|];
      }
    }
  }

  /** Until something raises, a run records one equity point per processed
      bar, stamped with that bar's time, the last one holding the current
      equity; the points before the run stay as they were. */
  lemma {:induction false} RunRecordsEquity(step: Step, cfg: RunConfig, adm: Admission, candles: seq<Candle>,
                                            s0: RunState, n: nat)
    requires IsTick(step, cfg, adm)
    requires cfg.lookback <= n && (n == cfg.lookback || n <= |candles|)
    decreases n
    ensures var h0, h := s0.equityHistory, RunUpTo(step, candles, cfg.lookback, s0, n).state.equityHistory;
      && |h0| <= |h| <= |h0| + (n - cfg.lookback)
      && h[..|h0|] == h0
      && (!RunUpTo(step, candles, cfg.lookback, s0, n).crashed ==> |h| == |h0| + (n - cfg.lookback))
      && (forall j :: |h0| <= j < |h| ==> h[j].timestamp == candles[cfg.lookback + (j - |h0|)].timestamp)
  {
    if n > cfg.lookback {
      var lb := cfg.lookback;
      RunRecordsEquity(step, cfg, adm, candles, s0, n - 1);
      var o := RunUpTo(step, candles, lb, s0, n - 1);
      if !o.crashed {
        var slice, c, next := SliceAt(candles, lb, n - 1), candles[n - 1], NextAt(candles, n - 1);
        StepKeepsHistory(step, cfg, adm, o.state, slice, c, next);
        var t := step(o.state, slice, c, next);
        var h0, h := s0.equityHistory, o.state.equityHistory;
        if !t.crashed {
          var h' := h + [EquityPoint(c.timestamp, t.state.equity)];
          assert RunUpTo(step, candles, lb, s0, n).state.equityHistory == h';
          assert h'[..|h0|] == h0;
        }
      }
    }
  }

  /** The last equity point of a run that did not raise holds its equity. */
  lemma LastPointIsEquity(step: Step, candles: seq<Candle>, lookback: nat, s0: RunState, n: nat)
    requires lookback < n <= |candles|
    requires !RunUpTo(step, candles, lookback, s0, n).crashed
    ensures var st := RunUpTo(step, candles, lookback, s0, n).state;
      |st.equityHistory| > 0 && st.equityHistory[|st.equityHistory| - 1] == EquityPoint(candles[n - 1].timestamp, st.equity)
  {
  }

  /** A step that is `Tick` leaves the equity history alone. */
  lemma StepKeepsHistory(step: Step, cfg: RunConfig, adm: Admission, s: RunState,
                         slice: seq<Candle>, c: Candle, next: Option<Candle>)
    requires IsTick(step, cfg, adm)
    ensures step(s, slice, c, next).state.equityHistory == s.equityHistory
  {
    assert Ticked(s, slice, c, next);
    var x := if s.activeTrade.Some? then ExitPhase(cfg.mgmt, s, c) else Outcome(s, [], [], false);
    assert x.state.equityHistory == s.equityHistory;
    if x.state.activeTrade.None? {
      EntryKeepsBooks(cfg, adm, x.state, slice, c, next);
    }
  }

  /** With the filter on, the decision engine's own call at a bar repeats the
      bar's gate call: it sees the same assessment, leaves the engine's cache
      as the gate left it, and writes only a refetch or that same assessment. */
  lemma DecisionRepeatsBarGate(cfg: RunConfig, s: RunState, slice: seq<Candle>, c: Candle)
    requires GateWired(cfg) && cfg.gate.Some? && cfg.indicators(slice) != []
    ensures var g := GateAt(cfg, s, c.timestamp);
      var d := GateAt(cfg, g.state, c.timestamp);
      && DecisionGate(cfg, g.state, slice, c) == Some(g.assessment)
      && d.assessment == g.assessment && d.state == g.state
      && forall e :: e in d.runLog ==> e.EventsFetched? || e == EventRisk(g.assessment)
  {
    var gate := cfg.gate.value;
    var g := GateAt(cfg, s, c.timestamp);
    assert Consulted(gate, s.eventsCache, c.timestamp) && Consulted(gate, g.state.eventsCache, c.timestamp);
    Events.ReassessAgrees(gate.cfg, gate.provider, None, s.eventsCache, c.timestamp, gate.instrument);
  }

  /** Entry is allowed on a bar: the filter is on, a next bar exists, the bar
      does not stand down, the analysis after the bar's gate proposes a trade,
      the risk check passes, and the next bar does not stand down either. */
  predicate EntersAt(cfg: RunConfig, adm: Admission, s: RunState, slice: seq<Candle>, c: Candle, next: Option<Candle>) {
    && cfg.gate.Some? && next.Some?
    && !GateStandsDownAt(cfg, s, c.timestamp)
    && var s1 := GateAt(cfg, s, c.timestamp).state;
      && ProposalAt(cfg, s1, slice, c).Some?
      && Verdict(adm.cfg, adm.dailyPnl, adm.positions, ProposalAt(cfg, s1, slice, c).value).None?
      && !GateStandsDownAt(cfg, s1, next.value.timestamp)
  }

  /** With no trade open, a trade is opened exactly when entry is allowed; and
      the tick raises exactly when the filter is off and an approved proposal
      has a next bar to enter on. */
  lemma EntryRule(cfg: RunConfig, adm: Admission, s: RunState, slice: seq<Candle>, c: Candle, next: Option<Candle>)
    requires GateWired(cfg) && s.activeTrade.None?
    ensures var o := Tick(cfg, adm, s, slice, c, next);
      && (o.state.activeTrade.Some? <==> EntersAt(cfg, adm, s, slice, c, next))
      && (o.crashed <==> cfg.gate.None? && ProposalAt(cfg, s, slice, c).Some? && next.Some?
                         && Verdict(adm.cfg, adm.dailyPnl, adm.positions, ProposalAt(cfg, s, slice, c).value).None?)
  {
    if cfg.gate.Some? && cfg.indicators(slice) != [] {
      DecisionRepeatsBarGate(cfg, s, slice, c);
    }
  }

  /** The trade an allowed entry opens, at the next bar's open with the
      proposal's stop and target; its entry is the last record, and every
      record before it is the event engine's, none of them a STAND_DOWN. */
  lemma EntryOpensProposal(cfg: RunConfig, adm: Admission, s: RunState, slice: seq<Candle>, c: Candle, next: Option<Candle>)
    requires GateWired(cfg) && s.activeTrade.None? && EntersAt(cfg, adm, s, slice, c, next)
    ensures var o := Tick(cfg, adm, s, slice, c, next);
      var p := ProposalAt(cfg, GateAt(cfg, s, c.timestamp).state, slice, c).value;
      && o.state.activeTrade == Some(OpenTrade(cfg, p, next.value))
      && o.state.activeTrade.value.entryTime == next.value.timestamp
      && o.state.activeTrade.value.sl == p.stopLoss && o.state.activeTrade.value.tp == p.takeProfit
      && |o.runLog| > 0
      && o.runLog[|o.runLog| - 1] == Entered(next.value.timestamp, p.direction, o.state.activeTrade.value.entryPrice, p.stopLoss, p.takeProfit)
      && AllQuiet(o.runLog[..|o.runLog| - 1])
  {
    var g := GateAt(cfg, s, c.timestamp);
    var s1 := g.state;
    var o := Admit(cfg, adm, s1, AnalysisAt(cfg, s1, slice, c), next);
    TickEnters(cfg, adm, s, slice, c, next);
    DecideAfterGate(cfg, adm, s, slice, c);
    AdmitEnters(cfg, adm, s1, slice, c, next);
    var t := Tick(cfg, adm, s, slice, c, next);
    var g2 := GateAt(cfg, s1, next.value.timestamp).runLog;
    assert t.runLog == g.runLog + (DecisionLog(cfg, s1, slice, c) + o.runLog);
    assert t.runLog[..|t.runLog| - 1] == g.runLog + (DecisionLog(cfg, s1, slice, c) + g2);
    GateQuiet(cfg, s, c.timestamp);
    GateQuiet(cfg, s1, next.value.timestamp);
    AllQuietAppend(DecisionLog(cfg, s1, slice, c), g2);
    AllQuietAppend(g.runLog, DecisionLog(cfg, s1, slice, c) + g2);
  }

  /** With the filter on and no trade open, a bar that does not stand down
      goes on to the decision, after the gate's records. */
  lemma TickEnters(cfg: RunConfig, adm: Admission, s: RunState, slice: seq<Candle>, c: Candle, next: Option<Candle>)
    requires cfg.gate.Some? && s.activeTrade.None? && !GateStandsDownAt(cfg, s, c.timestamp)
    ensures var g := GateAt(cfg, s, c.timestamp);
      Tick(cfg, adm, s, slice, c, next) == Prepend(g.runLog, Decide(cfg, adm, g.state, slice, c, next))
  {
  }

  /** After a bar's gate that does not stand down, the decision engine's own
      call leaves the state as it was and writes only quiet records. */
  lemma DecideAfterGate(cfg: RunConfig, adm: Admission, s: RunState, slice: seq<Candle>, c: Candle)
    requires GateWired(cfg) && cfg.gate.Some? && s.activeTrade.None? && !GateStandsDownAt(cfg, s, c.timestamp)
    ensures var s1 := GateAt(cfg, s, c.timestamp).state;
      && (forall next :: Decide(cfg, adm, s1, slice, c, next)
            == Prepend(DecisionLog(cfg, s1, slice, c), Admit(cfg, adm, s1, AnalysisAt(cfg, s1, slice, c), next)))
      && AllQuiet(DecisionLog(cfg, s1, slice, c))
  {
    if cfg.indicators(slice) != [] {
      DecisionRepeatsBarGate(cfg, s, slice, c);
    }
  }

  /** A record of the event engine that is not a STAND_DOWN. */
  predicate Quiet(e: RunEvent) {
    e.EventsFetched? || (e.EventRisk? && e.assessment.status != Events.StandDown)
  }

  /** Every record of a log is quiet. */
  predicate AllQuiet(log: seq<RunEvent>) {
    forall e :: e in log ==> Quiet(e)
  }

  lemma AllQuietAppend(a: seq<RunEvent>, b: seq<RunEvent>)
    requires AllQuiet(a) && AllQuiet(b)
    ensures AllQuiet(a + b)
  {
    forall e | e in a + b ensures Quiet(e) {
      if e !in a { assert e in b; }
    }
  }

  /** A gate call that does not stand down writes only quiet records: the
      fetch and the assessment it returned. */
  lemma GateQuiet(cfg: RunConfig, s: RunState, ts: int)
    requires cfg.gate.Some? && !GateStandsDownAt(cfg, s, ts)
    ensures AllQuiet(GateAt(cfg, s, ts).runLog)
  {
  }

  /** An approved proposal whose next bar does not stand down is entered
      there, after the records of the next bar's gate call. */
  lemma AdmitEnters(cfg: RunConfig, adm: Admission, s: RunState, slice: seq<Candle>, c: Candle, next: Option<Candle>)
    requires s.activeTrade.None? && cfg.gate.Some? && next.Some?
    requires ProposalAt(cfg, s, slice, c).Some?
    requires Verdict(adm.cfg, adm.dailyPnl, adm.positions, ProposalAt(cfg, s, slice, c).value).None?
    requires !GateStandsDownAt(cfg, s, next.value.timestamp)
    ensures var o := Admit(cfg, adm, s, AnalysisAt(cfg, s, slice, c), next);
      var p := ProposalAt(cfg, s, slice, c).value;
      var n := GateAt(cfg, s, next.value.timestamp);
      && o.state == n.state.(activeTrade := Some(OpenTrade(cfg, p, next.value)))
      && o.runLog == n.runLog + [EntryEvent(next.value, p, OpenTrade(cfg, p, next.value).entryPrice)]
      && !o.crashed
  {
  }

  /** A STAND_DOWN at the bar, with no trade open, ends the tick before the
      decision engine and the risk manager: after the engine's own records,
      whose last is that assessment, the one record is the block. */
  lemma StandDownBlocksDecision(cfg: RunConfig, adm: Admission, s: RunState, slice: seq<Candle>, c: Candle, next: Option<Candle>)
    requires GateWired(cfg) && s.activeTrade.None? && GateStandsDownAt(cfg, s, c.timestamp)
    ensures var g := GateAt(cfg, s, c.timestamp);
      && Tick(cfg, adm, s, slice, c, next)
         == Outcome(g.state, g.runLog + [StandDownBlocked(c.timestamp, g.assessment.reason)], [], false)
      && |g.runLog| > 0 && g.runLog[|g.runLog| - 1] == EventRisk(g.assessment)
  {
    TickStandsDown(cfg, adm, s, slice, c, next);
    assert Consulted(cfg.gate.value, s.eventsCache, c.timestamp);
  }

  /** The tick's shape at a STAND_DOWN with no trade open. */
  lemma TickStandsDown(cfg: RunConfig, adm: Admission, s: RunState, slice: seq<Candle>, c: Candle, next: Option<Candle>)
    requires s.activeTrade.None? && GateStandsDownAt(cfg, s, c.timestamp)
    ensures var g := GateAt(cfg, s, c.timestamp);
      Tick(cfg, adm, s, slice, c, next)
      == Outcome(g.state, g.runLog + [StandDownBlocked(c.timestamp, g.assessment.reason)], [], false)
  {
  }

  /** While a trade stays open through its bar, nothing is analysed or
      entered: the tick only manages the trade. */
  lemma OpenTradeSkipsDecision(cfg: RunConfig, adm: Admission, s: RunState, slice: seq<Candle>, c: Candle, next: Option<Candle>)
    requires s.activeTrade.Some? && ExitOf(Managed(cfg.mgmt, s.activeTrade.value, c), c).None?
    ensures var o := Tick(cfg, adm, s, slice, c, next);
      && o.globalLog == [] && !o.crashed
      && o.state == s.(activeTrade := Some(Managed(cfg.mgmt, s.activeTrade.value, c)))
  {
  }

  /** A EUR_USD long at 1.1000 whose stop already sits at break-even, managed
      through a 4-hour bar that closes at 1.1040: the stop trails to 1.1020,
      and because the same bar's low reached 1.1020 the trade exits there on
      that bar, for a profit of 20 on the 0.1 lot. */
  lemma TrailedStopHitSameBar(t: ActiveTrade, c: Candle)
    requires t == ActiveTrade("test-uuid", "EUR_USD", Buy, 0, 1.1000, 1.1000, Some(1.2000), TradeSize)
    requires c == Candle(14400 * 201, 1.1025, 1.1045, 1.1020, 1.1040, 100.0)
    ensures Managed(DefaultManagement(true, true), t, c).sl == 1.1020
    ensures ExitOf(Managed(DefaultManagement(true, true), t, c), c) == Some((1.1020, StopLoss))
    ensures Pnl(Managed(DefaultManagement(true, true), t, c), 1.1020) == 20.0
  {
    MissingCharNotContained("EUR_USD", "JPY");
    assert ProfitPips(View(t), 1.1000, 1.1040) == 40.0;
  }

  /** The position-management script's run, on 4-hour bars counted from its
      start time: the long injected at bar 200 (open 1.1000) fills at 1.10028
      under the default 1.2-pip spread and 2-bps slippage, with its stop at
      1.0950. Bar 201 closes 37.2 pips up, which moves the stop to break-even
      and then trails it to 1.1020; that bar's low of 1.1020 reaches the new
      stop, so the trade exits there on bar 201, for a profit of 17.2. */
  lemma ScriptedEntryTrailsToExit(p: TradeProposal, entryBar: Candle, c: Candle)
    requires p == TradeProposal("test-uuid", "EUR_USD", Buy, 1.1000, 1.0950, Some(1.2000), 0.8, DefaultSuggestedRisk)
    requires entryBar == Candle(14400 * 200, 1.1000, 1.1030, 1.1001, 1.1025, 100.0)
    requires c == Candle(14400 * 201, 1.1025, 1.1045, 1.1020, 1.1040, 100.0)
    ensures var cfg := Configure(1.2, 2.0, 200, None, _ => [], DefaultManagement(true, true), _ => "");
      var t := OpenTrade(cfg, p, entryBar);
      && t.entryPrice == 1.10028 && t.sl == 1.0950
      && Managed(cfg.mgmt, t, c).sl == 1.1020
      && ExitOf(Managed(cfg.mgmt, t, c), c) == Some((1.1020, StopLoss))
      && Pnl(Managed(cfg.mgmt, t, c), 1.1020) == 17.2
  {
    var cfg := Configure(1.2, 2.0, 200, None, _ => [], DefaultManagement(true, true), _ => "");
    var t := OpenTrade(cfg, p, entryBar);
    assert t.entryPrice == 1.10028;
    MissingCharNotContained("EUR_USD", "JPY");
    assert ProfitPips(View(t), 1.10028, 1.1040) == 37.2;
  }
}
