/** Paper execution of src/modules/execution/engine.py: the open positions kept
    in a JSON store, appended to on a fill, changed in place by an update and
    filtered on a close, with the engine's own stand-down and stop-loss
    refusals in front of every fill. */
module Execution {
  import opened Common

  /** A position record is the JSON object of a TradeExecution. */
  type PositionRecord = Payload

  /** The positions file: absent, unreadable as JSON, or a list of records. */
  datatype Store = Missing | Unreadable | Stored(records: seq<PositionRecord>)

  /** `get_open_positions`: a missing or unreadable store reads as no positions. */
  function Positions(s: Store): (ps: seq<PositionRecord>)
    ensures s.Missing? || s.Unreadable? ==> ps == []
    ensures s.Stored? ==> ps == s.records
  {
    if s.Stored? then s.records else []
  }

  /** `str(p.get('id')) == str(pos_id)` for the string ids the engine writes. */
  predicate IdMatches(p: PositionRecord, posId: string) {
    Get(p, "id") == VStr(posId)
  }

  /** The index of the first record with the id, if any. */
  function FirstMatch(ps: seq<PositionRecord>, posId: string): (r: Option<nat>)
    ensures r.None? <==> forall i :: 0 <= i < |ps| ==> !IdMatches(ps[i], posId)
    ensures r.Some? ==> r.value < |ps| && IdMatches(ps[r.value], posId)
    ensures r.Some? ==> forall j :: 0 <= j < r.value ==> !IdMatches(ps[j], posId)
  {
    if ps == [] then None
    else if IdMatches(ps[0], posId) then Some(0)
    else
      var r := FirstMatch(ps[1..], posId);
      assert forall i :: 1 <= i < |ps| ==> ps[1..][i - 1] == ps[i];
      if r.None? then None else Some(r.value + 1)
  }

  /** The list comprehension of `close_position`: the records whose id differs,
      in their order. */
  function Without(ps: seq<PositionRecord>, posId: string): (r: seq<PositionRecord>)
    ensures |r| <= |ps|
    ensures forall q :: q in r ==> q in ps && !IdMatches(q, posId)
    ensures forall q :: q in ps && !IdMatches(q, posId) ==> q in r
    ensures |r| < |ps| <==> exists i :: 0 <= i < |ps| && IdMatches(ps[i], posId)
  {
    if ps == [] then []
    else
      var rest := Without(ps[1..], posId);
      assert forall i :: 1 <= i < |ps| ==> ps[1..][i - 1] == ps[i];
      assert forall q :: q in ps ==> q == ps[0] || q in ps[1..];
      if IdMatches(ps[0], posId) then rest else [ps[0]] + rest
  }

  /** The slippage of a fill: two basis points of the entry price. */
  function Slippage(entry: real): real {
    entry * (2.0 / 10000.0)
  }

  /** The simulated fill: half the spread and the slippage against the trader. */
  function FillPrice(p: TradeProposal, spread: real): (f: real)
    ensures p.direction == Buy ==> f == p.entryPrice + spread / 2.0 + Slippage(p.entryPrice)
    ensures p.direction == Sell ==> f == p.entryPrice - spread / 2.0 - Slippage(p.entryPrice)
  {
    if p.direction == Buy then p.entryPrice + spread / 2.0 + Slippage(p.entryPrice)
    else p.entryPrice - spread / 2.0 - Slippage(p.entryPrice)
  }

  /** The fixed paper size of every fill. */
  const PaperSize: real := 0.1

  /** The TradeExecution record of a fill, as JSON. */
  function ExecutionRecord(p: TradeProposal, execId: string, timestamp: int, spread: real): (r: PositionRecord)
    ensures Get(r, "id") == VStr(execId) && Get(r, "proposal_id") == VStr(p.id)
    ensures Get(r, "symbol") == VStr(p.symbol) && Get(r, "direction") == VStr(DirectionName(p.direction))
    ensures Get(r, "fill_price") == VNum(FillPrice(p, spread)) && Get(r, "size") == VNum(PaperSize)
    ensures Get(r, "stop_loss") == VNum(p.stopLoss) && Get(r, "risk_pct") == VNum(p.suggestedRiskPct)
    ensures Get(r, "take_profit") == (if p.takeProfit.Some? then VNum(p.takeProfit.value) else VNull)
  {
    map["id" := VStr(execId), "proposal_id" := VStr(p.id), "timestamp" := VNum(timestamp as real),
        "symbol" := VStr(p.symbol), "direction" := VStr(DirectionName(p.direction)),
        "fill_price" := VNum(FillPrice(p, spread)), "size" := VNum(PaperSize), "commission" := VNum(0.0),
        "slippage_incurred" := VNum(Slippage(p.entryPrice)), "risk_pct" := VNum(p.suggestedRiskPct),
        "stop_loss" := VNum(p.stopLoss),
        "take_profit" := if p.takeProfit.Some? then VNum(p.takeProfit.value) else VNull]
  }

  /** The ExecutionEngine: the positions store, the spread source, and the
      audit trail. */
  class ExecutionEngine {
    var store: Store
    const spreadOf: string -> real
    const audit: AuditTrail

    constructor (store: Store, spreadOf: string -> real, audit: AuditTrail)
      ensures this.store == store && this.spreadOf == spreadOf && this.audit == audit
    {
      this.store := store;
      this.spreadOf := spreadOf;
      this.audit := audit;
    }

    /** `get_open_positions`. */
    function OpenPositions(): (ps: seq<PositionRecord>)
      reads this
      ensures ps == Positions(store)
    {
      Positions(store)
    }

    /** `execute_trade`: a STAND_DOWN status is refused first, then a missing
        or non-positive stop; otherwise one record is appended and the fill is
        logged. */
    method ExecuteTrade(p: TradeProposal, eventRisk: string, execId: string, timestamp: int) returns (ok: bool)
      modifies this, audit
      ensures ok <==> eventRisk != "STAND_DOWN" && p.stopLoss > 0.0
      ensures !ok ==> store == old(store)
      ensures eventRisk == "STAND_DOWN" ==>
        audit.records == old(audit.records) + [Emit("EVENT_GATE_LEAK_PREVENTED", LeakPreventedPayload(p))]
      ensures eventRisk != "STAND_DOWN" && p.stopLoss <= 0.0 ==>
        audit.records == old(audit.records) + [Emit("MISSING_STOP_LOSS_BLOCK_EXECUTION", ProposalPayload(p))]
      ensures ok ==>
        var rec := ExecutionRecord(p, execId, timestamp, spreadOf(p.symbol));
        && store == Stored(old(Positions(store)) + [rec])
        && audit.records == old(audit.records) + [Emit("TRADE_EXECUTED", rec)]
    {
      if eventRisk == "STAND_DOWN" {
        audit.Log("EVENT_GATE_LEAK_PREVENTED", LeakPreventedPayload(p));
        return false;
      }
      if p.stopLoss <= 0.0 {
        audit.Log("MISSING_STOP_LOSS_BLOCK_EXECUTION", ProposalPayload(p));
        return false;
      }
      var spread := spreadOf(p.symbol);
      var rec := ExecutionRecord(p, execId, timestamp, spread);
      store := Stored(Positions(store) + [rec]);
      audit.Log("TRADE_EXECUTED", rec);
      ok := true;
    }

    /** `update_position`: the first record with the id takes the updates over
        its fields; nothing is written when no record has the id. */
    method UpdatePosition(posId: string, updates: Payload) returns (found: bool)
      modifies this
      ensures var m := FirstMatch(old(Positions(store)), posId);
        && (found <==> m.Some?)
        && (found ==> store == Stored(old(Positions(store))[m.value := old(Positions(store))[m.value] + updates]))
        && (!found ==> store == old(store))
    {
      var ps := Positions(store);
      var i := 0;
      found := false;
      while i < |ps|
        invariant 0 <= i <= |ps|
        invariant forall j :: 0 <= j < i ==> !IdMatches(ps[j], posId)
      {
        if IdMatches(ps[i], posId) {
          found := true;
          break;
        }
        i := i + 1;
      }
      if found {
        store := Stored(ps[i := ps[i] + updates]);
      }
    }

    /** `close_position`: every record with the id is removed, the rest kept in
        order; the store is written and TRADE_CLOSED logged only when something
        was removed. */
    method ClosePosition(posId: string, exitPrice: real, reason: string) returns (ok: bool)
      modifies this, audit
      ensures ok <==> exists i :: 0 <= i < |old(Positions(store))| && IdMatches(old(Positions(store))[i], posId)
      ensures ok ==> store == Stored(Without(old(Positions(store)), posId))
      ensures ok ==> audit.records == old(audit.records) + [Emit("TRADE_CLOSED", ClosedPayload(posId, exitPrice, reason))]
      ensures !ok ==> store == old(store) && audit.records == old(audit.records)
    {
      var ps := Positions(store);
      var kept := Without(ps, posId);
      if |kept| < |ps| {
        store := Stored(kept);
        audit.Log("TRADE_CLOSED", ClosedPayload(posId, exitPrice, reason));
        ok := true;
      } else {
        ok := false;
      }
    }
  }

  function ProposalPayload(p: TradeProposal): Payload {
    map["proposal_id" := VStr(p.id), "symbol" := VStr(p.symbol)]
  }

  function LeakPreventedPayload(p: TradeProposal): Payload {
    ProposalPayload(p)["reason" := VStr("Hard gating in ExecutionEngine")]
  }

  function ClosedPayload(posId: string, exitPrice: real, reason: string): Payload {
    map["id" := VStr(posId), "exit_price" := VNum(exitPrice), "reason" := VStr(reason)]
  }

  /** The fill is adverse to the trader: a long pays at least the entry, a
      short receives at most the entry, for a non-negative spread and price. */
  lemma FillIsAdverse(p: TradeProposal, spread: real)
    requires spread >= 0.0 && p.entryPrice >= 0.0
    ensures p.direction == Buy ==> FillPrice(p, spread) >= p.entryPrice
    ensures p.direction == Sell ==> FillPrice(p, spread) <= p.entryPrice
  {
  }

  /** Closing twice removes nothing the second time, and a closed id is no
      longer found by an update. */
  lemma {:induction false} CloseIsFinal(ps: seq<PositionRecord>, posId: string)
    ensures Without(Without(ps, posId), posId) == Without(ps, posId)
    ensures FirstMatch(Without(ps, posId), posId).None?
  {
    if ps != [] {
      CloseIsFinal(ps[1..], posId);
    }
  }

  /** An update leaves every other record as it was, and the updated record
      keeps every field the updates do not name. */
  lemma UpdateTouchesOnlyFirstMatch(ps: seq<PositionRecord>, posId: string, updates: Payload)
    requires FirstMatch(ps, posId).Some?
    ensures var i := FirstMatch(ps, posId).value; var ps' := ps[i := ps[i] + updates];
      && |ps'| == |ps|
      && (forall j :: 0 <= j < |ps| && j != i ==> ps'[j] == ps[j])
      && (forall k :: k in ps[i] && k !in updates ==> ps'[i][k] == ps[i][k])
      && (forall k :: k in updates ==> ps'[i][k] == updates[k])
  {
  }
}
