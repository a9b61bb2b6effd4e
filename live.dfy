/** The live tick, `job_tick` of src/main.py: fetch the indicator frame, stop
    on an empty frame or a STAND_DOWN, manage every stored position at the
    last close (stop, then target, then the stop-management rules), sync the
    risk manager with what is left, and send an approved proposal to paper
    execution. Market data, the clock and the decision engine are inputs. */
module Live {
  import opened Common
  import S = Signals
  import Events
  import D = Decision
  import opened RiskManagement
  import opened PositionManagement
  import opened Execution

  /** A stored position the management loop can read: the keys it indexes
      are present, the id is a string (as the engine writes it), the stop a
      number and the target, when present and not null, a number. Reading any
      other record raises. */
  predicate Readable(p: PositionRecord) {
    && "id" in p && p["id"].VStr?
    && "symbol" in p && "direction" in p
    && "stop_loss" in p && p["stop_loss"].VNum?
    && ("take_profit" !in p || p["take_profit"].VNull? || p["take_profit"].VNum?)
  }

  function IdOf(p: PositionRecord): string
    requires Readable(p)
  {
    p["id"].s
  }

  function StopLossOf(p: PositionRecord): real
    requires Readable(p)
  {
    p["stop_loss"].n
  }

  /** `pos.get('take_profit')` when it is truthy. */
  function TargetOf(p: PositionRecord): (tp: Option<real>)
    requires Readable(p)
    ensures tp.Some? ==> tp.value != 0.0
  {
    if "take_profit" in p && p["take_profit"].VNum? && p["take_profit"].n != 0.0 then Some(p["take_profit"].n) else None
  }

  predicate IsBuyRecord(p: PositionRecord) {
    Get(p, "direction") == VStr("BUY")
  }

  predicate IsSellRecord(p: PositionRecord) {
    Get(p, "direction") == VStr("SELL")
  }

  function StrField(v: Value): Option<string> {
    if v.VStr? then Some(v.s) else None
  }

  function NumField(v: Value): Option<real> {
    if v.VNum? then Some(v.n) else None
  }

  /** How `evaluate_position` reads a stored record: `fill_price` and
      `stop_loss`, falling back to `entry_price` and `sl`. */
  function ViewOf(p: PositionRecord): (v: PositionView)
    ensures IsBuy(v) <==> IsBuyRecord(p)
    ensures Readable(p) && StopLossOf(p) != 0.0 ==> StopOf(v) == Some(StopLossOf(p))
  {
    PositionView(StrField(Get(p, "symbol")), StrField(Get(p, "direction")), NumField(Get(p, "fill_price")),
                 NumField(Get(p, "entry_price")), NumField(Get(p, "stop_loss")), NumField(Get(p, "sl")))
  }

  /** The stop is reached at the price, on the position's losing side. */
  predicate StopReached(p: PositionRecord, price: real)
    requires Readable(p)
  {
    (IsBuyRecord(p) && price <= StopLossOf(p)) || (IsSellRecord(p) && price >= StopLossOf(p))
  }

  /** A set target is reached at the price, on the position's winning side. */
  predicate TargetReached(p: PositionRecord, price: real)
    requires Readable(p)
  {
    TargetOf(p).Some? && ((IsBuyRecord(p) && price >= TargetOf(p).value) || (IsSellRecord(p) && price <= TargetOf(p).value))
  }

  /** What the loop does with one position. */
  datatype Action = Raise | Close(reason: string) | Update(newSl: real) | Keep

  /** One pass of the management loop: the stop first, then the target, and
      only a position neither closes goes to `evaluate_position`, whose
      profit arithmetic raises without an entry, and whose comparisons raise
      without a stop when they are reached. */
  function ActionFor(mgmt: ManagementConfig, p: PositionRecord, price: real): (a: Action)
    ensures !a.Raise? ==> Readable(p)
    ensures a.Raise? <==>
      || !Readable(p)
      || (&& !StopReached(p, price) && !TargetReached(p, price)
          && (|| EntryOf(ViewOf(p)).None?
              || (StopOf(ViewOf(p)).None? && StopCompared(mgmt, ViewOf(p), EntryOf(ViewOf(p)).value, price))))
  {
    if !Readable(p) then Raise
    else if StopReached(p, price) then Close("STOP_LOSS")
    else if TargetReached(p, price) then Close("TAKE_PROFIT")
    else
      var v := ViewOf(p);
      if EntryOf(v).None? then Raise
      else if StopOf(v).None? then (if StopCompared(mgmt, v, EntryOf(v).value, price) then Raise else Keep)
      else
        var u := EvaluatePosition(mgmt, v, price);
        if u.Some? then Update(u.value) else Keep
  }

  /** The updates `update_position` receives. */
  function StopUpdate(s: real): Payload {
    map["stop_loss" := VNum(s)]
  }

  /** The store and the global ledger after a loop prefix, and whether it
      raised. */
  datatype Pass = Pass(store: Store, log: seq<Emit>, raised: bool)

  /** The engine call an action makes on the store, as `close_position` and
      `update_position` do it. */
  function Apply(a: Action, id: string, price: real, st: Store): Pass {
    match a
    case Raise => Pass(st, [], true)
    case Keep => Pass(st, [], false)
    case Close(reason) =>
      var ps := Positions(st);
      var kept := Without(ps, id);
      if |kept| < |ps| then Pass(Stored(kept), [Emit("TRADE_CLOSED", ClosedPayload(id, price, reason))], false)
      else Pass(st, [], false)
    case Update(s) =>
      var ps := Positions(st);
      var m := FirstMatch(ps, id);
      if m.Some? then Pass(Stored(ps[m.value := ps[m.value] + StopUpdate(s)]), [], false) else Pass(st, [], false)
  }

  /** What one position's pass does to the store and the ledger: a record
      that raises changes nothing and stops the loop. */
  function Handle(mgmt: ManagementConfig, p: PositionRecord, price: real, st: Store): Pass {
    var a := ActionFor(mgmt, p, price);
    if a.Raise? then Pass(st, [], true) else Apply(a, IdOf(p), price, st)
  }

  /** The management loop over the positions read at its start, stopping at
      the first record that raises. */
  function ManageAll(mgmt: ManagementConfig, snapshot: seq<PositionRecord>, price: real, st: Store): Pass {
    if snapshot == [] then Pass(st, [], false)
    else
      var prev := ManageAll(mgmt, snapshot[..|snapshot| - 1], price, st);
      if prev.raised then prev
      else
        var r := Handle(mgmt, snapshot[|snapshot| - 1], price, prev.store);
        Pass(r.store, prev.log + r.log, r.raised)
  }

  /** `sync_positions` reads each stored record for its symbol and its
      `risk_pct`. */
  function OpenPositionOf(p: PositionRecord): OpenPosition {
    OpenPosition(StrOr(p, "symbol", ""), NumField(Get(p, "risk_pct")))
  }

  function Snapshot(ps: seq<PositionRecord>): (r: seq<OpenPosition>)
    ensures |r| == |ps| && forall i :: 0 <= i < |ps| ==> r[i] == OpenPositionOf(ps[i])
  {
    seq(|ps|, i requires 0 <= i < |ps| => OpenPositionOf(ps[i]))
  }

  /** The proposal the decision and the risk check let through. */
  function Approved(cfg: RiskConfig, dailyPnl: real, ps: seq<OpenPosition>, a: D.Analysis): (r: Option<TradeProposal>)
    ensures r.Some? <==> a.result.decision == D.Trade && a.result.approvedTrade.Some?
                         && Verdict(cfg, dailyPnl, ps, a.result.approvedTrade.value).None?
    ensures r.Some? ==> r == a.result.approvedTrade && r.value.stopLoss > 0.0
  {
    if a.result.decision == D.Trade && a.result.approvedTrade.Some? && Verdict(cfg, dailyPnl, ps, a.result.approvedTrade.value).None?
    then a.result.approvedTrade else None
  }

  /** What the decision and the risk check write to the global ledger. */
  function CheckLog(cfg: RiskConfig, dailyPnl: real, ps: seq<OpenPosition>, a: D.Analysis): seq<Emit> {
    if a.result.decision == D.Trade && a.result.approvedTrade.Some? then
      a.emitted + [DecisionRecord(a.result.approvedTrade.value, Verdict(cfg, dailyPnl, ps, a.result.approvedTrade.value))]
    else a.emitted
  }

  function StandDownBlockRecord(a: Events.Assessment): Emit {
    Emit("EVENT_STAND_DOWN_BLOCK", map["reason" := VStr(Events.ReasonText(a.reason)), "impact" := VStr("HIGH")])
  }

  /** The process's collaborators: the paper execution engine, the risk
      manager, the global ledger both write to, the stop-management settings
      and the decision engine's analysis of a frame. */
  class LiveAgent {
    const engine: ExecutionEngine
    const risk: RiskManager
    const audit: AuditTrail
    const mgmt: ManagementConfig
    const analyze: seq<S.Bar> -> D.Analysis

    ghost predicate Valid() {
      engine.audit == audit && risk.audit == audit
    }

    constructor (engine: ExecutionEngine, risk: RiskManager, audit: AuditTrail, mgmt: ManagementConfig,
                 analyze: seq<S.Bar> -> D.Analysis)
      requires engine.audit == audit && risk.audit == audit
      ensures Valid()
      ensures this.engine == engine && this.risk == risk && this.audit == audit
      ensures this.mgmt == mgmt && this.analyze == analyze
    {
      this.engine := engine;
      this.risk := risk;
      this.audit := audit;
      this.mgmt := mgmt;
      this.analyze := analyze;
    }

    /** The management loop over the positions stored when it starts. */
    method ManageOpenPositions(price: real) returns (raised: bool)
      requires Valid()
      modifies engine, audit
      ensures var m := ManageAll(mgmt, old(engine.OpenPositions()), price, old(engine.store));
        engine.store == m.store && audit.records == old(audit.records) + m.log && raised == m.raised
    {
      var snapshot := engine.OpenPositions();
      var i := 0;
      while i < |snapshot|
        invariant 0 <= i <= |snapshot|
        invariant var m := ManageAll(mgmt, snapshot[..i], price, old(engine.store));
          engine.store == m.store && audit.records == old(audit.records) + m.log && !m.raised
      {
        ghost var prev := ManageAll(mgmt, snapshot[..i], price, old(engine.store));
        ghost var r := Handle(mgmt, snapshot[i], price, engine.store);
        raised := ManageOne(snapshot[i], price);
        ManageAllSnoc(mgmt, snapshot, price, old(engine.store), i);
        if raised {
          RaiseStops(mgmt, snapshot, price, old(engine.store), i + 1);
          return;
        }
        i := i + 1;
      }
      assert snapshot[..|snapshot|] == snapshot;
      raised := false;
    }

    /** One pass of the loop: the action for the record, then the engine call
        it makes. */
    method ManageOne(p: PositionRecord, price: real) returns (raised: bool)
      requires Valid()
      modifies engine, audit
      ensures var r := Handle(mgmt, p, price, old(engine.store));
        engine.store == r.store && audit.records == old(audit.records) + r.log && raised == r.raised
    {
      var a := ActionFor(mgmt, p, price);
      if a.Raise? {
        return true;
      }
      raised := false;
      match a {
        case Close(reason) =>
          var _ := engine.ClosePosition(IdOf(p), price, reason);
        case Update(s) =>
          var _ := engine.UpdatePosition(IdOf(p), StopUpdate(s));
        case Keep =>
      }
    }

    /** Steps 3 and 4: the analysis, the risk check of a TRADE proposal, and
      execution of an approved one under the tick's gate status. */
    method Decide(df: seq<S.Bar>, status: Events.RiskStatus, execId: string, timestamp: int)
      requires Valid()
      modifies engine, audit
      ensures var a, ps := analyze(df), risk.currentPositions;
        var p := Approved(risk.cfg, risk.dailyPnl, ps, a);
        && (p.None? ==> engine.store == old(engine.store)
                        && audit.records == old(audit.records) + CheckLog(risk.cfg, risk.dailyPnl, ps, a))
        && (p.Some? && status == Events.StandDown ==>
              && engine.store == old(engine.store)
              && audit.records == old(audit.records) + CheckLog(risk.cfg, risk.dailyPnl, ps, a)
                 + [Emit("EVENT_GATE_LEAK_PREVENTED", LeakPreventedPayload(p.value))])
        && (p.Some? && status != Events.StandDown ==>
              var rec := ExecutionRecord(p.value, execId, timestamp, engine.spreadOf(p.value.symbol));
              && engine.store == Stored(old(Positions(engine.store)) + [rec])
              && audit.records == old(audit.records) + CheckLog(risk.cfg, risk.dailyPnl, ps, a) + [Emit("TRADE_EXECUTED", rec)])
    {
      var p := Check(df);
      if p.Some? {
        var _ := engine.ExecuteTrade(p.value, Events.StatusName(status), execId, timestamp);
      }
    }

    /** Step 3: the analysis, its ledger records, and the risk check of a
        TRADE proposal; the result is the proposal to execute, if any. */
    method Check(df: seq<S.Bar>) returns (p: Option<TradeProposal>)
      requires Valid()
      modifies audit
      ensures var a := analyze(df);
        && p == Approved(risk.cfg, risk.dailyPnl, risk.currentPositions, a)
        && audit.records == old(audit.records) + CheckLog(risk.cfg, risk.dailyPnl, risk.currentPositions, a)
    {
      var a := analyze(df);
      audit.LogAll(a.emitted);
      p := None;
      if a.result.decision == D.Trade && a.result.approvedTrade.Some? {
        var ok := risk.CheckTrade(a.result.approvedTrade.value);
        if ok {
          p := a.result.approvedTrade;
        }
      }
    }

    /** `job_tick`. `raised` reports an exception, which the tick catches and
        logs, abandoning the rest of the tick with what was done kept. */
    method JobTick(df: seq<S.Bar>, assessment: Events.Assessment, execId: string, timestamp: int) returns (raised: bool)
      requires Valid()
      modifies engine, risk, audit
      ensures df == [] ==>
        !raised && engine.store == old(engine.store) && audit.records == old(audit.records)
        && risk.currentPositions == old(risk.currentPositions)
      ensures df != [] && assessment.status == Events.StandDown ==>
        !raised && engine.store == old(engine.store) && risk.currentPositions == old(risk.currentPositions)
        && audit.records == old(audit.records) + [StandDownBlockRecord(assessment)]
      ensures df != [] && assessment.status != Events.StandDown ==>
        var m := ManageAll(mgmt, old(engine.OpenPositions()), df[|df| - 1].close, old(engine.store));
        && (m.raised ==> raised && engine.store == m.store && audit.records == old(audit.records) + m.log
                         && risk.currentPositions == old(risk.currentPositions))
        && (!m.raised ==> !raised && risk.currentPositions == Snapshot(Positions(m.store)))
      ensures df != [] && assessment.status != Events.StandDown && !raised ==>
        var m := ManageAll(mgmt, old(engine.OpenPositions()), df[|df| - 1].close, old(engine.store));
        var a, ps := analyze(df), Snapshot(Positions(m.store));
        var p := Approved(risk.cfg, risk.dailyPnl, ps, a);
        && (p.None? ==> engine.store == m.store
                        && audit.records == old(audit.records) + m.log + CheckLog(risk.cfg, risk.dailyPnl, ps, a))
        && (p.Some? ==>
              var rec := ExecutionRecord(p.value, execId, timestamp, engine.spreadOf(p.value.symbol));
              && engine.store == Stored(Positions(m.store) + [rec])
              && audit.records == old(audit.records) + m.log + CheckLog(risk.cfg, risk.dailyPnl, ps, a) + [Emit("TRADE_EXECUTED", rec)])
    {
      if df == [] {
        return false;
      }
      if assessment.status == Events.StandDown {
        var e := StandDownBlockRecord(assessment);
        audit.Log(e.eventType, e.payload);
        return false;
      }
      var price := df[|df| - 1].close;
      raised := ManageOpenPositions(price);
      if raised {
        return;
      }
      risk.SyncPositions(Snapshot(engine.OpenPositions()));
      Decide(df, assessment.status, execId, timestamp);
    }
  }

  /** A prefix one record longer is the shorter prefix followed by that
      record's pass. */
  lemma ManageAllSnoc(mgmt: ManagementConfig, snapshot: seq<PositionRecord>, price: real, st: Store, i: nat)
    requires i < |snapshot| && !ManageAll(mgmt, snapshot[..i], price, st).raised
    ensures var prev := ManageAll(mgmt, snapshot[..i], price, st);
      var r := Handle(mgmt, snapshot[i], price, prev.store);
      ManageAll(mgmt, snapshot[..i + 1], price, st) == Pass(r.store, prev.log + r.log, r.raised)
  {
    assert snapshot[..i + 1][..i] == snapshot[..i];
  }

  /** Once a loop prefix has raised, the rest of the loop does nothing. */
  lemma {:induction false} RaiseStops(mgmt: ManagementConfig, snapshot: seq<PositionRecord>, price: real, st: Store, i: nat)
    requires i <= |snapshot| && ManageAll(mgmt, snapshot[..i], price, st).raised
    ensures ManageAll(mgmt, snapshot, price, st) == ManageAll(mgmt, snapshot[..i], price, st)
    decreases |snapshot|
  {
    if i < |snapshot| {
      var init := snapshot[..|snapshot| - 1];
      assert init[..i] == snapshot[..i];
      RaiseStops(mgmt, init, price, st, i);
    } else {
      assert snapshot[..i] == snapshot;
    }
  }

  /** The stop is checked before the target: a position at or through its
      stop closes as STOP_LOSS whatever its target, a TAKE_PROFIT close means
      the stop was not reached, and a closed position is never handed to the
      stop-management rules. */
  lemma StopBeforeTarget(mgmt: ManagementConfig, p: PositionRecord, price: real)
    requires Readable(p)
    ensures StopReached(p, price) <==> ActionFor(mgmt, p, price) == Close("STOP_LOSS")
    ensures ActionFor(mgmt, p, price) == Close("TAKE_PROFIT") <==> !StopReached(p, price) && TargetReached(p, price)
    ensures ActionFor(mgmt, p, price).Update? ==> !StopReached(p, price) && !TargetReached(p, price)
  {
  }

  /** An update only moves the stop in the position's favour. */
  lemma UpdateTightens(mgmt: ManagementConfig, p: PositionRecord, price: real)
    requires Readable(p) && StopLossOf(p) != 0.0 && ActionFor(mgmt, p, price).Update?
    ensures IsBuyRecord(p) ==> ActionFor(mgmt, p, price).newSl > StopLossOf(p)
    ensures !IsBuyRecord(p) ==> ActionFor(mgmt, p, price).newSl < StopLossOf(p)
  {
  }

  /** The ids of a list of records. */
  function Ids(ps: seq<PositionRecord>): set<Value> {
    set q | q in ps :: Get(q, "id")
  }

  /** Management never opens a position: the store only loses records or has
      stops moved, every id left was there before, and the ledger only
      receives TRADE_CLOSED records, one per position closed. */
  lemma {:induction false} ManagementNeverOpens(mgmt: ManagementConfig, snapshot: seq<PositionRecord>, price: real, st: Store)
    ensures var m := ManageAll(mgmt, snapshot, price, st);
      && |Positions(m.store)| + |m.log| <= |Positions(st)|
      && Ids(Positions(m.store)) <= Ids(Positions(st))
      && forall i :: 0 <= i < |m.log| ==> m.log[i].eventType == "TRADE_CLOSED"
  {
    if snapshot != [] {
      var init := snapshot[..|snapshot| - 1];
      ManagementNeverOpens(mgmt, init, price, st);
      var prev := ManageAll(mgmt, init, price, st);
      if !prev.raised {
        var p := snapshot[|snapshot| - 1];
        var a := ActionFor(mgmt, p, price);
        if !a.Raise? {
          ApplyNeverOpens(a, IdOf(p), price, prev.store);
        }
      }
    }
  }

  /** One engine call never adds a record, keeps the ids, and logs a close
      only for a record it removed. */
  lemma ApplyNeverOpens(a: Action, id: string, price: real, st: Store)
    ensures var r := Apply(a, id, price, st);
      && |Positions(r.store)| + |r.log| <= |Positions(st)|
      && Ids(Positions(r.store)) <= Ids(Positions(st))
      && forall i :: 0 <= i < |r.log| ==> r.log[i].eventType == "TRADE_CLOSED"
  {
    var ps := Positions(st);
    match a {
      case Update(s) =>
        var m := FirstMatch(ps, id);
        if m.Some? {
          var ps' := ps[m.value := ps[m.value] + StopUpdate(s)];
          assert Get(ps'[m.value], "id") == Get(ps[m.value], "id");
          forall q | q in ps' ensures Get(q, "id") in Ids(ps) {
            var j :| 0 <= j < |ps'| && ps'[j] == q;
            assert j != m.value ==> ps'[j] == ps[j];
          }
        }
      case _ =>
    }
  }

  /** A position closed earlier in the loop is not found by a later update of
      the same id, so nothing can revive or modify it. */
  lemma ClosedStaysClosed(id: string, price: real, reason: string, s: real, st: Store)
    requires Apply(Close(reason), id, price, st).store != st
    ensures var closed := Apply(Close(reason), id, price, st).store;
      Apply(Update(s), id, price, closed).store == closed
  {
    CloseIsFinal(Positions(st), id);
  }

  /** A proposal that reaches execution in a live tick is always filled: the
      tick returned earlier on a STAND_DOWN, and an approval implies a positive
      stop, so neither of the engine's refusals can fire. */
  lemma LiveApprovalFills(cfg: RiskConfig, dailyPnl: real, ps: seq<OpenPosition>, a: D.Analysis, status: Events.RiskStatus)
    requires status != Events.StandDown && Approved(cfg, dailyPnl, ps, a).Some?
    ensures Events.StatusName(status) != "STAND_DOWN"
    ensures Approved(cfg, dailyPnl, ps, a).value.stopLoss > 0.0
  {
  }
}
