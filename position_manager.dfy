/** Stop management of src/modules/risk/position_manager.py: the break-even and
    trailing-stop rules that `evaluate_position` applies to one open position
    at the current price. */
module PositionManagement {
  import opened Common

  /** The `management` configuration: each rule is off unless enabled. */
  datatype ManagementConfig = ManagementConfig(
    breakEvenEnabled: bool,
    breakEvenActivation: real,
    trailingEnabled: bool,
    trailingActivation: real,
    trailingDistance: real)

  /** The thresholds used when a key is absent (20 pips to break even, 30 pips
      to start trailing, a 20-pip trail), with the rules switched as given. */
  function DefaultManagement(breakEven: bool, trailing: bool): (cfg: ManagementConfig)
    ensures cfg.breakEvenActivation == 20.0 && cfg.trailingActivation == 30.0 && cfg.trailingDistance == 20.0
    ensures cfg.breakEvenEnabled == breakEven && cfg.trailingEnabled == trailing
  {
    ManagementConfig(breakEven, 20.0, trailing, 30.0, 20.0)
  }

  /** The fields `evaluate_position` reads from a position record. The live
      store writes `fill_price` and `stop_loss`, the backtest `entry_price` and
      `sl`. */
  datatype PositionView = PositionView(
    symbol: Option<string>,
    direction: Option<string>,
    fillPrice: Option<real>,
    entryPrice: Option<real>,
    stopLoss: Option<real>,
    sl: Option<real>)

  /** `fill_price or entry_price`: a missing or zero fill price falls through. */
  function EntryOf(pos: PositionView): (e: Option<real>)
    ensures pos.fillPrice.Some? && pos.fillPrice.value != 0.0 ==> e == pos.fillPrice
    ensures !(pos.fillPrice.Some? && pos.fillPrice.value != 0.0) ==> e == pos.entryPrice
  {
    if pos.fillPrice.Some? && pos.fillPrice.value != 0.0 then pos.fillPrice else pos.entryPrice
  }

  /** `stop_loss or sl`. */
  function StopOf(pos: PositionView): (s: Option<real>)
    ensures pos.stopLoss.Some? && pos.stopLoss.value != 0.0 ==> s == pos.stopLoss
    ensures !(pos.stopLoss.Some? && pos.stopLoss.value != 0.0) ==> s == pos.sl
  {
    if pos.stopLoss.Some? && pos.stopLoss.value != 0.0 then pos.stopLoss else pos.sl
  }

  /** `pos.get('symbol', 'UNKNOWN')`. */
  function SymbolOf(pos: PositionView): string {
    if pos.symbol.Some? then pos.symbol.value else "UNKNOWN"
  }

  /** Pips per price unit: 100 for a yen pair, 10000 otherwise. */
  function Multiplier(symbol: string): (m: real)
    ensures m == 100.0 <==> Contains(symbol, "JPY")
    ensures m == 10000.0 <==> !Contains(symbol, "JPY")
  {
    if Contains(symbol, "JPY") then 100.0 else 10000.0
  }

  predicate IsBuy(pos: PositionView) {
    pos.direction == Some("BUY")
  }

  predicate IsSell(pos: PositionView) {
    pos.direction == Some("SELL")
  }

  /** Profit in pips: any direction other than BUY is priced as a short. */
  function ProfitPips(pos: PositionView, entry: real, price: real): (p: real)
    ensures IsBuy(pos) ==> (p >= 0.0 <==> price >= entry)
    ensures !IsBuy(pos) ==> (p >= 0.0 <==> price <= entry)
  {
    var m := Multiplier(SymbolOf(pos));
    if IsBuy(pos) then (price - entry) * m else (entry - price) * m
  }

  /** The break-even rule: enabled, in profit by the activation distance, and
      the stop strictly on the losing side of the entry. */
  predicate BreakEvenFires(cfg: ManagementConfig, pos: PositionView, entry: real, stop: real, price: real) {
    && cfg.breakEvenEnabled
    && ProfitPips(pos, entry, price) >= cfg.breakEvenActivation
    && ((IsBuy(pos) && stop < entry) || (IsSell(pos) && stop > entry))
  }

  /** The trailing candidate: the trail distance behind the current price. */
  function TrailCandidate(pos: PositionView, price: real, distance: real): real {
    var m := Multiplier(SymbolOf(pos));
    if IsBuy(pos) then price - distance / m else price + distance / m
  }

  /** The trailing rule: enabled, in profit by its activation distance, a
      candidate strictly better than the stop, and a positive candidate. */
  predicate TrailFires(cfg: ManagementConfig, pos: PositionView, stop: real, price: real, entry: real) {
    var c := TrailCandidate(pos, price, cfg.trailingDistance);
    && cfg.trailingEnabled
    && ProfitPips(pos, entry, price) >= cfg.trailingActivation
    && (if IsBuy(pos) then c > stop else c < stop)
    && c > 0.0
  }

  /** Whether `evaluate_position` compares the stop at all: the break-even
      rule does for a BUY or SELL once it is in profit by its activation, the
      trailing rule always does once in profit by its own. */
  predicate StopCompared(cfg: ManagementConfig, pos: PositionView, entry: real, price: real) {
    || (cfg.breakEvenEnabled && ProfitPips(pos, entry, price) >= cfg.breakEvenActivation && (IsBuy(pos) || IsSell(pos)))
    || (cfg.trailingEnabled && ProfitPips(pos, entry, price) >= cfg.trailingActivation)
  }

  /** `evaluate_position`: the new stop loss, or None when no rule fired. The
      trailing value, when there is one, overwrites the break-even value. */
  function EvaluatePosition(cfg: ManagementConfig, pos: PositionView, price: real): (r: Option<real>)
    requires EntryOf(pos).Some? && StopOf(pos).Some?
    ensures var entry, stop := EntryOf(pos).value, StopOf(pos).value;
      && (r.None? <==> !BreakEvenFires(cfg, pos, entry, stop, price) && !TrailFires(cfg, pos, stop, price, entry))
      && (TrailFires(cfg, pos, stop, price, entry) ==> r == Some(TrailCandidate(pos, price, cfg.trailingDistance)))
      && (!TrailFires(cfg, pos, stop, price, entry) && BreakEvenFires(cfg, pos, entry, stop, price) ==> r == Some(entry))
      && (r.Some? && IsBuy(pos) ==> r.value > stop)
      && (r.Some? && !IsBuy(pos) ==> r.value < stop)
  {
    var entry := EntryOf(pos).value;
    var stop := StopOf(pos).value;
    var profit := ProfitPips(pos, entry, price);
    var breakEven: Option<real> :=
      if cfg.breakEvenEnabled && profit >= cfg.breakEvenActivation
         && ((IsBuy(pos) && stop < entry) || (IsSell(pos) && stop > entry))
      then Some(entry) else None;
    var newSl :=
      if cfg.trailingEnabled && profit >= cfg.trailingActivation then
        var potential := TrailCandidate(pos, price, cfg.trailingDistance);
        if IsBuy(pos) then (if potential > stop then potential else 0.0)
        else (if potential < stop then potential else 0.0)
      else 0.0;
    if newSl > 0.0 then Some(newSl) else breakEven
  }

  /** The position with its stop replaced, as the caller writes the update back
      (under `stop_loss`, which is read first). */
  function WithStop(pos: PositionView, s: real): PositionView {
    pos.(stopLoss := Some(s))
  }

  /** A trailing candidate at or below zero is discarded, whatever the stop. */
  lemma NonPositiveCandidateDiscarded(cfg: ManagementConfig, pos: PositionView, price: real)
    requires EntryOf(pos).Some? && StopOf(pos).Some?
    requires TrailCandidate(pos, price, cfg.trailingDistance) <= 0.0
    ensures !TrailFires(cfg, pos, StopOf(pos).value, price, EntryOf(pos).value)
    ensures EvaluatePosition(cfg, pos, price) == None || EvaluatePosition(cfg, pos, price) == Some(EntryOf(pos).value)
  {
  }

  /** The stop a rule moved to is a resting point: evaluating again at the same
      price, with that stop written back, changes nothing more, as long as the
      trail starts no nearer than its own distance. */
  lemma {:induction false} UpdateIsSettled(cfg: ManagementConfig, pos: PositionView, price: real)
    requires EntryOf(pos).Some? && StopOf(pos).Some?
    requires cfg.trailingActivation >= cfg.trailingDistance
    requires EvaluatePosition(cfg, pos, price).Some?
    requires EvaluatePosition(cfg, pos, price).value != 0.0
    ensures EvaluatePosition(cfg, WithStop(pos, EvaluatePosition(cfg, pos, price).value), price).None?
  {
    var entry, stop := EntryOf(pos).value, StopOf(pos).value;
    var s := EvaluatePosition(cfg, pos, price).value;
    var pos' := WithStop(pos, s);
    assert EntryOf(pos') == EntryOf(pos) && StopOf(pos') == Some(s);
    assert SymbolOf(pos') == SymbolOf(pos) && ProfitPips(pos', entry, price) == ProfitPips(pos, entry, price);
    var m := Multiplier(SymbolOf(pos));
    var d := cfg.trailingDistance;
    var c := TrailCandidate(pos, price, d);
    assert TrailCandidate(pos', price, d) == c;
    if TrailFires(cfg, pos, stop, price, entry) {
      assert s == c;
      ProfitCoversTrail(pos, entry, price, cfg.trailingActivation, d);
    }
    assert !TrailFires(cfg, pos', s, price, entry);
  }

  /** Once in profit by at least the trail distance, the trailing candidate is
      no worse than the entry. */
  lemma ProfitCoversTrail(pos: PositionView, entry: real, price: real, activation: real, d: real)
    requires activation >= d
    requires ProfitPips(pos, entry, price) >= activation
    ensures IsBuy(pos) ==> TrailCandidate(pos, price, d) >= entry
    ensures !IsBuy(pos) ==> TrailCandidate(pos, price, d) <= entry
  {
    var m := Multiplier(SymbolOf(pos));
    if m == 100.0 {
      if IsBuy(pos) {
        assert (price - entry) * 100.0 >= d;
      } else {
        assert (entry - price) * 100.0 >= d;
      }
    } else {
      assert m == 10000.0;
      if IsBuy(pos) {
        assert (price - entry) * 10000.0 >= d;
      } else {
        assert (entry - price) * 10000.0 >= d;
      }
    }
  }

  /** A EUR_USD long entered at 1.1000 with its stop at 1.0950: at 1.1025 the
      break-even rule moves the stop to exactly 1.1000. */
  lemma BreakEvenAt1_1025(pos: PositionView)
    requires pos == PositionView(Some("EUR_USD"), Some("BUY"), None, Some(1.1000), None, Some(1.0950))
    ensures EvaluatePosition(DefaultManagement(true, true), pos, 1.1025) == Some(1.1000)
  {
    MissingCharNotContained("EUR_USD", "JPY");
    assert ProfitPips(pos, 1.1000, 1.1025) == 25.0;
  }

  /** With the stop at break-even, a close of 1.1040 trails the stop to 1.1020. */
  lemma TrailAt1_1040(pos: PositionView)
    requires pos == PositionView(Some("EUR_USD"), Some("BUY"), None, Some(1.1000), None, Some(1.1000))
    ensures EvaluatePosition(DefaultManagement(true, true), pos, 1.1040) == Some(1.1020)
  {
    MissingCharNotContained("EUR_USD", "JPY");
    assert ProfitPips(pos, 1.1000, 1.1040) == 40.0;
  }
}
