/** Portfolio admission of src/modules/risk/manager.py: an ordered chain of
    guards over the snapshot of open positions, stopping at the first failure,
    and the position size a proposal's risk budget buys. */
module RiskManagement {
  import opened Common
  import opened Correlation

  /** The `risk` configuration the manager reads once, at construction. */
  datatype RiskConfig = RiskConfig(
    maxRiskPerTrade: real,
    maxPositions: int,
    dailyLossCap: real,
    maxTotalRisk: real,
    maxCorrelatedRisk: real,
    groups: seq<Group>,
    balance: real)

  /** The defaults used when a configuration key is absent. */
  function DefaultRiskConfig(groups: seq<Group>): (cfg: RiskConfig)
    ensures cfg.maxRiskPerTrade == 0.01 && cfg.maxPositions == 3 && cfg.dailyLossCap == 0.02
    ensures cfg.maxTotalRisk == 0.05 && cfg.maxCorrelatedRisk == 0.03 && cfg.balance == 10000.0
    ensures cfg.groups == groups
  {
    RiskConfig(0.01, 3, 0.02, 0.05, 0.03, groups, 10000.0)
  }

  /** The daily loss, in account currency, at which trading stops. */
  function LossLimit(cfg: RiskConfig): real {
    cfg.balance * cfg.dailyLossCap
  }

  /** One entry of the synced snapshot: its symbol and, when recorded, its risk. */
  datatype OpenPosition = OpenPosition(symbol: string, riskPct: Option<real>)

  /** `p.get("risk_pct", 0.01)`. */
  function RiskOf(p: OpenPosition): real {
    if p.riskPct.Some? then p.riskPct.value else 0.01
  }

  /** The summed risk of the open positions. */
  function TotalRisk(ps: seq<OpenPosition>): real {
    if ps == [] then 0.0 else TotalRisk(ps[..|ps| - 1]) + RiskOf(ps[|ps| - 1])
  }

  /** The summed risk of the open positions whose normalised symbol is among
      the given normalised members. */
  function GroupRisk(ps: seq<OpenPosition>, members: seq<string>): real {
    if ps == [] then 0.0
    else
      var last := ps[|ps| - 1];
      GroupRisk(ps[..|ps| - 1], members) + (if Normalize(last.symbol) in NormalizeAll(members) then RiskOf(last) else 0.0)
  }

  /** `suggested_risk_pct or max_risk_per_trade`: a zero suggestion falls back
      to the per-trade maximum. */
  function ProposedRisk(cfg: RiskConfig, p: TradeProposal): (r: real)
    ensures p.suggestedRiskPct != 0.0 ==> r == p.suggestedRiskPct
    ensures p.suggestedRiskPct == 0.0 ==> r == cfg.maxRiskPerTrade
  {
    if p.suggestedRiskPct != 0.0 then p.suggestedRiskPct else cfg.maxRiskPerTrade
  }

  datatype Rejection =
    | MissingStopLoss
    | InvalidEntryPrice
    | MaxPositionsReached(limit: int)
    | DailyLossCapHit
    | PortfolioCapExceeded(total: real)
    | CorrelatedCapHit(group: string, total: real)

  /** Whether the named group's risk plus the proposed risk is over the cap. */
  predicate GroupBreached(cfg: RiskConfig, ps: seq<OpenPosition>, name: string, proposed: real) {
    GroupRisk(ps, Members(cfg.groups, name)) + proposed > cfg.maxCorrelatedRisk
  }

  /** Group `names[i]` is breached, none listed before it is, and `total` is
      its risk plus the proposed risk. */
  predicate FirstBreached(cfg: RiskConfig, ps: seq<OpenPosition>, names: seq<string>, proposed: real,
                          i: int, total: real) {
    && 0 <= i < |names|
    && GroupBreached(cfg, ps, names[i], proposed)
    && total == GroupRisk(ps, Members(cfg.groups, names[i])) + proposed
    && forall j :: 0 <= j < i ==> !GroupBreached(cfg, ps, names[j], proposed)
  }

  /** The group loop of `check_trade`: the first listed group whose risk plus
      the proposed risk exceeds the correlated cap, with that total. */
  function FirstBreach(cfg: RiskConfig, ps: seq<OpenPosition>, names: seq<string>, proposed: real)
    : (r: Option<(string, real)>)
    ensures r.None? <==> forall i :: 0 <= i < |names| ==> !GroupBreached(cfg, ps, names[i], proposed)
  {
    if names == [] then None
    else if GroupBreached(cfg, ps, names[0], proposed) then
      Some((names[0], GroupRisk(ps, Members(cfg.groups, names[0])) + proposed))
    else
      assert forall i :: 1 <= i < |names| ==> names[1..][i - 1] == names[i];
      FirstBreach(cfg, ps, names[1..], proposed)
  }

  /** A breach the group loop reports is the first breached group, with its
      total. */
  lemma {:induction false} FirstBreachIsFirst(cfg: RiskConfig, ps: seq<OpenPosition>, names: seq<string>, proposed: real)
    ensures var r := FirstBreach(cfg, ps, names, proposed);
      r.Some? ==> exists i :: 0 <= i < |names| && names[i] == r.value.0 && FirstBreached(cfg, ps, names, proposed, i, r.value.1)
  {
    var r := FirstBreach(cfg, ps, names, proposed);
    if names != [] && r.Some? {
      if GroupBreached(cfg, ps, names[0], proposed) {
        assert FirstBreached(cfg, ps, names, proposed, 0, r.value.1);
      } else {
        FirstBreachIsFirst(cfg, ps, names[1..], proposed);
        var i :| 0 <= i < |names[1..]| && names[1..][i] == r.value.0 && FirstBreached(cfg, ps, names[1..], proposed, i, r.value.1);
        assert forall j :: 1 <= j < |names| ==> names[1..][j - 1] == names[j];
        assert FirstBreached(cfg, ps, names, proposed, i + 1, r.value.1);
      }
    }
  }

  /** The guard chain of `check_trade`, in its order; None is an approval.
      The caps it checks last are stated by `VerdictCaps`. */
  function Verdict(cfg: RiskConfig, dailyPnl: real, ps: seq<OpenPosition>, p: TradeProposal): (r: Option<Rejection>)
    ensures r == Some(MissingStopLoss) <==> p.stopLoss <= 0.0
    ensures r == Some(InvalidEntryPrice) <==> p.stopLoss > 0.0 && p.entryPrice <= 0.0
    ensures r.Some? && r.value.MaxPositionsReached? <==>
      p.stopLoss > 0.0 && p.entryPrice > 0.0 && |ps| >= cfg.maxPositions
    ensures r.Some? && r.value.MaxPositionsReached? ==> r.value.limit == cfg.maxPositions
    ensures r == Some(DailyLossCapHit) <==>
      p.stopLoss > 0.0 && p.entryPrice > 0.0 && |ps| < cfg.maxPositions
      && dailyPnl <= -LossLimit(cfg)
  {
    if p.stopLoss <= 0.0 then Some(MissingStopLoss)
    else if p.entryPrice <= 0.0 then Some(InvalidEntryPrice)
    else if |ps| >= cfg.maxPositions then Some(MaxPositionsReached(cfg.maxPositions))
    else if dailyPnl <= -LossLimit(cfg) then Some(DailyLossCapHit)
    else
      var proposed := ProposedRisk(cfg, p);
      if TotalRisk(ps) + proposed > cfg.maxTotalRisk then Some(PortfolioCapExceeded(TotalRisk(ps) + proposed))
      else
        var names := GroupsForPair(cfg.groups, p.symbol);
        var b := FirstBreach(cfg, ps, names, proposed);
        if b.Some? then Some(CorrelatedCapHit(b.value.0, b.value.1)) else None
  }

  /** Past the first four guards, the total cap rejects a proposal whose risk
      on top of the open positions' is over it, reporting that total. */
  lemma VerdictTotalCap(cfg: RiskConfig, dailyPnl: real, ps: seq<OpenPosition>, p: TradeProposal)
    ensures var r := Verdict(cfg, dailyPnl, ps, p);
      && (r.Some? && r.value.PortfolioCapExceeded? <==>
            p.stopLoss > 0.0 && p.entryPrice > 0.0 && |ps| < cfg.maxPositions
            && dailyPnl > -LossLimit(cfg)
            && TotalRisk(ps) + ProposedRisk(cfg, p) > cfg.maxTotalRisk)
      && (r.Some? && r.value.PortfolioCapExceeded? ==> r.value.total == TotalRisk(ps) + ProposedRisk(cfg, p))
  {
  }

  /** Past the total cap, the groups of the symbol in their listed order: the
      first breached one is reported with its total, and a proposal breaching
      none is approved. */
  lemma VerdictGroupCap(cfg: RiskConfig, dailyPnl: real, ps: seq<OpenPosition>, p: TradeProposal)
    requires p.stopLoss > 0.0 && p.entryPrice > 0.0 && |ps| < cfg.maxPositions
    requires dailyPnl > -LossLimit(cfg)
    requires TotalRisk(ps) + ProposedRisk(cfg, p) <= cfg.maxTotalRisk
    ensures var r := Verdict(cfg, dailyPnl, ps, p);
      && (r.Some? <==> exists n :: n in GroupsForPair(cfg.groups, p.symbol) && GroupBreached(cfg, ps, n, ProposedRisk(cfg, p)))
      && (r.Some? ==>
            var names := GroupsForPair(cfg.groups, p.symbol);
            && r.value.CorrelatedCapHit?
            && exists i :: 0 <= i < |names| && names[i] == r.value.group && FirstBreached(cfg, ps, names, ProposedRisk(cfg, p), i, r.value.total))
  {
    var names := GroupsForPair(cfg.groups, p.symbol);
    var proposed := ProposedRisk(cfg, p);
    var b := FirstBreach(cfg, ps, names, proposed);
    assert Verdict(cfg, dailyPnl, ps, p) == if b.Some? then Some(CorrelatedCapHit(b.value.0, b.value.1)) else None;
    if b.Some? {
      FirstBreachIsFirst(cfg, ps, names, proposed);
      var i :| 0 <= i < |names| && names[i] == b.value.0 && FirstBreached(cfg, ps, names, proposed, i, b.value.1);
      assert names[i] in names;
    } else {
      forall n | n in names
        ensures !GroupBreached(cfg, ps, n, proposed)
      {
        var i :| 0 <= i < |names| && names[i] == n;
      }
    }
  }

  /** The `reason` text of a RISK_REJECTED record; the percentages of the
      two risk caps are not rendered. */
  function ReasonText(r: Rejection): string {
    match r
    case MissingStopLoss => "MISSING_STOP_LOSS"
    case InvalidEntryPrice => "Invalid entry price"
    case MaxPositionsReached(limit) => "Max positions reached (" + IntText(limit) + ")"
    case DailyLossCapHit => "Daily loss cap hit"
    case PortfolioCapExceeded(_) => "Portfolio risk cap exceeded"
    case CorrelatedCapHit(g, _) => "Correlated group cap hit: " + g
  }

  /** The count in a max-positions reason reads back as the configured limit. */
  lemma MaxPositionsReasonNamesLimit(limit: nat)
    ensures var t := ReasonText(MaxPositionsReached(limit));
      && |t| > 24 && t[..23] == "Max positions reached (" && t[|t| - 1] == ')'
      && AllDigits(t[23..|t| - 1]) && DigitsValue(t[23..|t| - 1]) == limit
  {
    var t := ReasonText(MaxPositionsReached(limit));
    assert t[23..|t| - 1] == NatText(limit);
    NatTextReadsBack(limit);
  }

  /** The one audit record a check writes: RISK_APPROVED, or RISK_REJECTED with
      its reason. */
  function DecisionRecord(p: TradeProposal, v: Option<Rejection>): (e: Emit)
    ensures v.None? <==> e.eventType == "RISK_APPROVED"
    ensures v.Some? <==> e.eventType == "RISK_REJECTED"
    ensures Get(e.payload, "proposal_id") == VStr(p.id) && Get(e.payload, "symbol") == VStr(p.symbol)
    ensures v.Some? ==> Get(e.payload, "reason") == VStr(ReasonText(v.value))
    ensures v.None? ==> "reason" !in e.payload
  {
    if v.None? then Emit("RISK_APPROVED", map["proposal_id" := VStr(p.id), "symbol" := VStr(p.symbol)])
    else Emit("RISK_REJECTED", map["reason" := VStr(ReasonText(v.value)), "proposal_id" := VStr(p.id), "symbol" := VStr(p.symbol)])
  }

  /** `calculate_position_size`: the units whose loss at the stop equals the
      risk budget, and 0 when entry and stop coincide. */
  function PositionSize(cfg: RiskConfig, p: TradeProposal): (size: real)
    ensures p.entryPrice == p.stopLoss ==> size == 0.0
    ensures p.entryPrice != p.stopLoss ==>
      size * Abs(p.entryPrice - p.stopLoss) == cfg.balance * ProposedRisk(cfg, p)
  {
    var distance := Abs(p.entryPrice - p.stopLoss);
    if distance == 0.0 then 0.0 else cfg.balance * ProposedRisk(cfg, p) / distance
  }

  function Abs(x: real): real {
    if x < 0.0 then -x else x
  }

  /** The RiskManager object: a fixed configuration, a daily P&L that nothing
      in the repository updates, the snapshot of open positions, and the audit
      trail its decisions go to. */
  class RiskManager {
    const cfg: RiskConfig
    const audit: AuditTrail
    var dailyPnl: real
    var currentPositions: seq<OpenPosition>

    constructor (cfg: RiskConfig, audit: AuditTrail)
      ensures this.cfg == cfg && this.audit == audit
      ensures dailyPnl == 0.0 && currentPositions == []
    {
      this.cfg := cfg;
      this.audit := audit;
      dailyPnl := 0.0;
      currentPositions := [];
    }

    /** `sync_positions`: the snapshot is replaced, nothing is merged. */
    method SyncPositions(ps: seq<OpenPosition>)
      modifies this
      ensures currentPositions == ps && dailyPnl == old(dailyPnl)
    {
      currentPositions := ps;
    }

    /** `check_trade`: the guard chain on the current snapshot, and exactly one
      audit record of the outcome. */
    method CheckTrade(p: TradeProposal) returns (ok: bool)
      modifies audit
      ensures ok <==> Verdict(cfg, dailyPnl, currentPositions, p).None?
      ensures audit.records == old(audit.records) + [DecisionRecord(p, Verdict(cfg, dailyPnl, currentPositions, p))]
    {
      var v := Verdict(cfg, dailyPnl, currentPositions, p);
      var e := DecisionRecord(p, v);
      audit.Log(e.eventType, e.payload);
      ok := v.None?;
    }

    /** `calculate_position_size` on this manager's configuration. */
    function CalculatePositionSize(p: TradeProposal): (size: real)
      ensures size == PositionSize(cfg, p)
    {
      PositionSize(cfg, p)
    }
  }

  /** A missing (zero) or negative stop loss is rejected before any cap is
      looked at, whatever the snapshot and the daily P&L. */
  lemma StopLossCheckedFirst(cfg: RiskConfig, dailyPnl: real, ps: seq<OpenPosition>, p: TradeProposal)
    requires p.stopLoss <= 0.0
    ensures forall ps' :: Verdict(cfg, dailyPnl, ps', p) == Some(MissingStopLoss)
    ensures forall pnl :: Verdict(cfg, pnl, ps, p) == Some(MissingStopLoss)
  {
  }

  /** An approved proposal stays approved when it asks for less (positive) risk. */
  lemma LessRiskStaysApproved(cfg: RiskConfig, dailyPnl: real, ps: seq<OpenPosition>, p: TradeProposal, smaller: real)
    requires Verdict(cfg, dailyPnl, ps, p).None?
    requires 0.0 < smaller <= ProposedRisk(cfg, p)
    ensures Verdict(cfg, dailyPnl, ps, p.(suggestedRiskPct := smaller)).None?
  {
    var q := p.(suggestedRiskPct := smaller);
    assert ProposedRisk(cfg, q) == smaller;
    forall n | n in GroupsForPair(cfg.groups, q.symbol)
      ensures !GroupBreached(cfg, ps, n, smaller)
    {
      assert !GroupBreached(cfg, ps, n, ProposedRisk(cfg, p));
    }
  }

  /** The risk of a snapshot of positions that all carry the same symbol, when
      that symbol is a member of the group. */
  lemma {:induction false} SameSymbolGroupRisk(ps: seq<OpenPosition>, members: seq<string>, s: string)
    requires forall i :: 0 <= i < |ps| ==> ps[i].symbol == s
    requires Normalize(s) in NormalizeAll(members)
    ensures GroupRisk(ps, members) == TotalRisk(ps)
  {
    if ps != [] {
      SameSymbolGroupRisk(ps[..|ps| - 1], members, s);
    }
  }

  /** Once the earlier guards pass, a group of the proposal's symbol whose risk
      plus the proposed risk is over the correlated cap rejects the proposal. */
  lemma BreachedGroupRejects(cfg: RiskConfig, dailyPnl: real, ps: seq<OpenPosition>, p: TradeProposal, n: string)
    requires p.stopLoss > 0.0 && p.entryPrice > 0.0 && |ps| < cfg.maxPositions
    requires dailyPnl > -LossLimit(cfg)
    requires TotalRisk(ps) + ProposedRisk(cfg, p) <= cfg.maxTotalRisk
    requires n in GroupsForPair(cfg.groups, p.symbol) && GroupBreached(cfg, ps, n, ProposedRisk(cfg, p))
    ensures var v := Verdict(cfg, dailyPnl, ps, p); v.Some? && v.value.CorrelatedCapHit?
  {
  }

  /** Two open EUR_USD positions at 1% each and a further EUR_USD proposal at
      2% are rejected at the 3% correlated cap, once EUR_USD belongs to some
      group, though the 5% total cap is not reached. */
  lemma CorrelatedScenarioRejected(groups: seq<Group>, p: TradeProposal)
    requires DistinctNames(groups)
    requires exists g :: g in groups && InGroup(g, "EUR_USD")
    requires p.symbol == "EUR_USD" && p.entryPrice == 1.10 && p.stopLoss == 1.09 && p.suggestedRiskPct == 0.02
    ensures var ps := [OpenPosition("EUR_USD", Some(0.01)), OpenPosition("EUR_USD", Some(0.01))];
      var v := Verdict(DefaultRiskConfig(groups), 0.0, ps, p);
      v.Some? && v.value.CorrelatedCapHit?
  {
    var cfg := DefaultRiskConfig(groups);
    var ps := [OpenPosition("EUR_USD", Some(0.01)), OpenPosition("EUR_USD", Some(0.01))];
    assert TotalRisk(ps) == 0.02 by {
      assert ps[..1] == [ps[0]];
    }
    var g :| g in groups && InGroup(g, "EUR_USD");
    EurUsdGroupBreached(groups, g, ps);
    BreachedGroupRejects(cfg, 0.0, ps, p, g.name);
  }

  /** The group holding EUR_USD carries both open EUR_USD positions. */
  lemma EurUsdGroupBreached(groups: seq<Group>, g: Group, ps: seq<OpenPosition>)
    requires DistinctNames(groups)
    requires g in groups && InGroup(g, "EUR_USD")
    requires ps == [OpenPosition("EUR_USD", Some(0.01)), OpenPosition("EUR_USD", Some(0.01))]
    requires TotalRisk(ps) == 0.02
    ensures g.name in GroupsForPair(groups, "EUR_USD")
    ensures GroupBreached(DefaultRiskConfig(groups), ps, g.name, 0.02)
  {
    assert Members(groups, g.name) == g.members;
    SameSymbolGroupRisk(ps, g.members, "EUR_USD");
  }

  /** The same snapshot admits a 1% AUD_NZD proposal when no group holds
      AUD_NZD. */
  lemma UnmappedScenarioApproved(groups: seq<Group>, p: TradeProposal)
    requires forall g :: g in groups ==> !InGroup(g, "AUD_NZD")
    requires p.symbol == "AUD_NZD" && p.entryPrice == 1.05 && p.stopLoss == 1.04 && p.suggestedRiskPct == 0.01
    ensures var ps := [OpenPosition("EUR_USD", Some(0.01)), OpenPosition("EUR_USD", Some(0.01))];
      Verdict(DefaultRiskConfig(groups), 0.0, ps, p).None?
  {
    var ps := [OpenPosition("EUR_USD", Some(0.01)), OpenPosition("EUR_USD", Some(0.01))];
    assert TotalRisk(ps) == 0.02 by {
      assert ps[..1] == [ps[0]];
    }
    VerdictGroupCap(DefaultRiskConfig(groups), 0.0, ps, p);
  }

  /** The snapshot grown to three positions stops a 3% GBP_JPY proposal at the
      position count, before the total cap (3% open plus 3% proposed) is
      reached in the chain. */
  lemma ThirdPositionStopsAtCount(groups: seq<Group>, p: TradeProposal)
    requires p.entryPrice == 180.0 && p.stopLoss == 178.0 && p.suggestedRiskPct == 0.03
    ensures var ps := [OpenPosition("EUR_USD", Some(0.01)), OpenPosition("EUR_USD", Some(0.01)), OpenPosition("AUD_NZD", Some(0.01))];
      Verdict(DefaultRiskConfig(groups), 0.0, ps, p) == Some(MaxPositionsReached(3))
  {
  }

  /** With two open positions holding 3% between them, a 3% proposal breaks
      the 5% total cap. */
  lemma TotalCapScenarioRejected(groups: seq<Group>, p: TradeProposal)
    requires p.entryPrice == 180.0 && p.stopLoss == 178.0 && p.suggestedRiskPct == 0.03
    ensures var ps := [OpenPosition("EUR_USD", Some(0.02)), OpenPosition("AUD_NZD", Some(0.01))];
      Verdict(DefaultRiskConfig(groups), 0.0, ps, p) == Some(PortfolioCapExceeded(0.06))
  {
    var ps := [OpenPosition("EUR_USD", Some(0.02)), OpenPosition("AUD_NZD", Some(0.01))];
    assert TotalRisk(ps) == 0.03 by {
      assert ps[..1] == [ps[0]];
    }
  }
}
