/** The comparison strategies of src/backtest/baselines.py: a baseline that
    never trades, and a moving-average crossover that keeps one trade at a
    time, closes it at the next bar's open on the opposite cross, and books its
    profit in lots of 0.1 at 100000 units per lot. */
module Baselines {
  import opened Common
  import Backtest

  type EquityPoint = Backtest.EquityPoint

  /** `NoTradeBaseline`: the balance it starts with is the equity of every bar. */
  class NoTradeBaseline {
    const initialBalance: real
    var equity: real
    var equityHistory: seq<EquityPoint>
    var trades: seq<BaselineTrade>

    /** The equity never moves and no trade is ever made. */
    ghost predicate Valid()
      reads this
    {
      equity == initialBalance && trades == []
    }

    constructor (initialBalance: real)
      ensures Valid() && this.initialBalance == initialBalance && equityHistory == []
    {
      this.initialBalance := initialBalance;
      equity := initialBalance;
      equityHistory := [];
      trades := [];
    }

    /** `run`: one equity point per candle, at the candle's time and the
        initial balance. */
    method Run(candles: seq<Candle>)
      requires Valid()
      modifies this
      ensures Valid()
      ensures |equityHistory| == |old(equityHistory)| + |candles|
      ensures equityHistory[..|old(equityHistory)|] == old(equityHistory)
      ensures forall k :: 0 <= k < |candles| ==>
        equityHistory[|old(equityHistory)| + k] == Backtest.EquityPoint(candles[k].timestamp, initialBalance)
    {
      var i := 0;
      while i < |candles|
        invariant 0 <= i <= |candles|
        invariant Valid()
        invariant |equityHistory| == |old(equityHistory)| + i
        invariant equityHistory[..|old(equityHistory)|] == old(equityHistory)
        invariant forall k :: 0 <= k < i ==>
          equityHistory[|old(equityHistory)| + k] == Backtest.EquityPoint(candles[k].timestamp, initialBalance)
      {
        equityHistory := equityHistory + [Backtest.EquityPoint(candles[i].timestamp, equity)];
        i := i + 1;
      }
    }
  }

  /** The `current_trade` dictionary. */
  datatype BaselineEntry = BaselineEntry(direction: string, entryTime: int, entryPrice: real, size: real)

  /** A closed trade: the entry's fields and the exit's. */
  datatype BaselineTrade = BaselineTrade(entry: BaselineEntry, exitTime: int, exitPrice: real, pnl: real, exitReason: string)

  /** The lot every baseline trade is opened with, and the units per lot. */
  const BaselineLot: real := 0.1
  const UnitsPerLot: real := 100000.0

  /** `_open_trade`. */
  function OpenEntry(price: real, time: int, direction: string): (e: BaselineEntry)
    ensures e.direction == direction && e.entryTime == time && e.entryPrice == price && e.size == BaselineLot
  {
    BaselineEntry(direction, time, price, BaselineLot)
  }

  /** The profit of closing at the price: a "BUY" gains when the price rose,
      any other direction when it fell. */
  function ClosePnl(e: BaselineEntry, price: real): (pnl: real)
    ensures e.direction == "BUY" ==> (pnl > 0.0 <==> price > e.entryPrice) && (pnl < 0.0 <==> price < e.entryPrice)
    ensures e.direction != "BUY" ==> (pnl > 0.0 <==> price < e.entryPrice) && (pnl < 0.0 <==> price > e.entryPrice)
    ensures pnl == 0.0 <==> price == e.entryPrice
  {
    if e.direction == "BUY" then (price - e.entryPrice) * BaselineLot * UnitsPerLot
    else (e.entryPrice - price) * BaselineLot * UnitsPerLot
  }

  /** The strategy's money: the equity, the open trade, the closed trades. */
  datatype Book = Book(equity: real, current: Option<BaselineEntry>, trades: seq<BaselineTrade>)

  /** `_close_trade`: nothing without an open trade; otherwise the profit is
      booked, the trade recorded with its exit, and the open trade cleared. */
  function Closed(b: Book, price: real, time: int, reason: string): (r: Book)
    ensures b.current.None? ==> r == b
    ensures b.current.Some? ==>
      && r.current.None?
      && |r.trades| == |b.trades| + 1 && r.trades[..|b.trades|] == b.trades
      && r.trades[|b.trades|] == BaselineTrade(b.current.value, time, price, ClosePnl(b.current.value, price), reason)
      && r.equity == b.equity + r.trades[|b.trades|].pnl
  {
    if b.current.None? then b
    else
      var e := b.current.value;
      var pnl := ClosePnl(e, price);
      Book(b.equity + pnl, None, b.trades + [BaselineTrade(e, time, price, pnl, reason)])
  }

  /** One value of a pandas rolling mean: missing (NaN) until the window is
      full. */
  function RollingMean(closes: seq<real>, w: nat, i: nat): (m: Option<real>)
    requires w >= 1 && i < |closes|
    ensures m.None? <==> i + 1 < w
  {
    if i + 1 < w then None else Some(Sum(closes[i + 1 - w..i + 1]) / (w as real))
  }

  function Sum(xs: seq<real>): real {
    if xs == [] then 0.0 else Sum(xs[..|xs| - 1]) + xs[|xs| - 1]
  }

  /** The moving-average column of a window over the closes. */
  function MovingAverage(candles: seq<Candle>, w: nat): (ma: seq<Option<real>>)
    requires w >= 1
    ensures |ma| == |candles|
    ensures forall i :: 0 <= i < |candles| ==> (ma[i].None? <==> i + 1 < w)
  {
    var closes := seq(|candles|, i requires 0 <= i < |candles| => candles[i].close);
    seq(|candles|, i requires 0 <= i < |candles| => RollingMean(closes, w, i))
  }

  /** Comparisons with a missing average are false, as they are with NaN. */
  predicate Above(a: Option<real>, b: Option<real>) {
    a.Some? && b.Some? && a.value > b.value
  }

  predicate Below(a: Option<real>, b: Option<real>) {
    a.Some? && b.Some? && a.value < b.value
  }

  predicate AtMost(a: Option<real>, b: Option<real>) {
    a.Some? && b.Some? && a.value <= b.value
  }

  predicate AtLeast(a: Option<real>, b: Option<real>) {
    a.Some? && b.Some? && a.value >= b.value
  }

  /** The fast average crosses above the slow one at bar i. */
  predicate BuyCross(fastMa: seq<Option<real>>, slowMa: seq<Option<real>>, i: nat)
    requires 1 <= i < |fastMa| == |slowMa|
  {
    Above(fastMa[i], slowMa[i]) && AtMost(fastMa[i - 1], slowMa[i - 1])
  }

  /** The fast average crosses below the slow one at bar i. */
  predicate SellCross(fastMa: seq<Option<real>>, slowMa: seq<Option<real>>, i: nat)
    requires 1 <= i < |fastMa| == |slowMa|
  {
    Below(fastMa[i], slowMa[i]) && AtLeast(fastMa[i - 1], slowMa[i - 1])
  }

  /** The loop's state: the local `position` (0 none, 1 long, -1 short), the
      book and the equity history. */
  datatype MAState = MAState(position: int, book: Book, history: seq<EquityPoint>)

  /** One bar of the crossover loop: on a buy cross a short is covered and,
      with no position, a long opened; the sell cross mirrors it; then the
      bar's equity point. */
  function BarStep(s: MAState, candles: seq<Candle>, fastMa: seq<Option<real>>, slowMa: seq<Option<real>>, i: nat): MAState
    requires 1 <= i < |candles| == |fastMa| == |slowMa|
  {
    var c := candles[i];
    var s1 :=
      if BuyCross(fastMa, slowMa, i) then
        var b := if s.position == -1 then Closed(s.book, c.open, c.timestamp, "BUY_TO_COVER") else s.book;
        if s.position == 0 then MAState(1, b.(current := Some(OpenEntry(c.open, c.timestamp, "BUY"))), s.history)
        else MAState(s.position, b, s.history)
      else if SellCross(fastMa, slowMa, i) then
        var b := if s.position == 1 then Closed(s.book, c.open, c.timestamp, "SELL") else s.book;
        if s.position == 0 then MAState(-1, b.(current := Some(OpenEntry(c.open, c.timestamp, "SELL_SHORT"))), s.history)
        else MAState(s.position, b, s.history)
      else s;
    s1.(history := s1.history + [Backtest.EquityPoint(c.timestamp, s1.book.equity)])
  }

  /** One more bar extends the loop by that bar's step. */
  lemma ThroughStep(s0: MAState, candles: seq<Candle>, fastMa: seq<Option<real>>, slowMa: seq<Option<real>>, lo: nat, i: nat)
    requires 1 <= lo <= i < |candles| == |fastMa| == |slowMa|
    ensures Through(s0, candles, fastMa, slowMa, lo, i + 1)
      == BarStep(Through(s0, candles, fastMa, slowMa, lo, i), candles, fastMa, slowMa, i)
  {
  }

  /** The loop over the bars [lo, hi). */
  function Through(s0: MAState, candles: seq<Candle>, fastMa: seq<Option<real>>, slowMa: seq<Option<real>>, lo: nat, hi: nat): MAState
    requires 1 <= lo && hi <= |candles| == |fastMa| == |slowMa|
    decreases hi
  {
    if hi <= lo then s0 else BarStep(Through(s0, candles, fastMa, slowMa, lo, hi - 1), candles, fastMa, slowMa, hi - 1)
  }

  /** `MACrossoverBaseline`. */
  class MACrossoverBaseline {
    const initialBalance: real
    const fast: nat
    const slow: nat
    var equity: real
    var equityHistory: seq<EquityPoint>
    var trades: seq<BaselineTrade>
    var currentTrade: Option<BaselineEntry>

    /** Both windows are positive. */
    predicate Valid()
      reads this
    {
      fast >= 1 && slow >= 1
    }

    constructor (initialBalance: real, fast: nat, slow: nat)
      requires fast >= 1 && slow >= 1
      ensures Valid()
      ensures this.initialBalance == initialBalance && this.fast == fast && this.slow == slow
      ensures equity == initialBalance && equityHistory == [] && trades == [] && currentTrade.None?
    {
      this.initialBalance := initialBalance;
      this.fast := fast;
      this.slow := slow;
      equity := initialBalance;
      equityHistory := [];
      trades := [];
      currentTrade := None;
    }

    function BookOf(): Book
      reads this
    {
      Book(equity, currentTrade, trades)
    }

    /** `run`. An empty candle list raises, since the frame then has no close
        column; otherwise the bars from the slow window on go through the loop
        with no position to start. */
    method Run(candles: seq<Candle>) returns (crashed: bool)
      requires Valid()
      modifies this
      ensures crashed <==> candles == []
      ensures crashed ==> BookOf() == old(BookOf()) && equityHistory == old(equityHistory)
      ensures !crashed ==>
        var s := Through(MAState(0, old(BookOf()), old(equityHistory)), candles,
                         MovingAverage(candles, fast), MovingAverage(candles, slow), slow, |candles|);
        BookOf() == s.book && equityHistory == s.history
    {
      if candles == [] {
        return true;
      }
      crashed := false;
      var fastMa, slowMa := MovingAverage(candles, fast), MovingAverage(candles, slow);
      ghost var s0 := MAState(0, BookOf(), equityHistory);
      var position := 0;
      var i := if slow < |candles| then slow else |candles|;
      while i < |candles|
        invariant i <= |candles| && (slow <= i || i == |candles|)
        invariant MAState(position, BookOf(), equityHistory) == Through(s0, candles, fastMa, slowMa, slow, i)
      {
        ghost var before := Through(s0, candles, fastMa, slowMa, slow, i);
        position := Bar(candles, fastMa, slowMa, i, position);
        ThroughStep(s0, candles, fastMa, slowMa, slow, i);
        assert MAState(position, BookOf(), equityHistory) == BarStep(before, candles, fastMa, slowMa, i);
        i := i + 1;
      }
    }

    /** One pass of the loop, at bar i with the position given. */
    method Bar(candles: seq<Candle>, fastMa: seq<Option<real>>, slowMa: seq<Option<real>>, i: nat, position: int)
      returns (position': int)
      requires 1 <= i < |candles| == |fastMa| == |slowMa|
      modifies this
      ensures MAState(position', BookOf(), equityHistory)
        == BarStep(MAState(position, old(BookOf()), old(equityHistory)), candles, fastMa, slowMa, i)
    {
      var c := candles[i];
      position' := position;
      if BuyCross(fastMa, slowMa, i) {
        if position' == -1 {
          CloseTrade(c.open, c.timestamp, "BUY_TO_COVER");
        }
        if position' == 0 {
          currentTrade := Some(OpenEntry(c.open, c.timestamp, "BUY"));
          position' := 1;
        }
      } else if SellCross(fastMa, slowMa, i) {
        if position' == 1 {
          CloseTrade(c.open, c.timestamp, "SELL");
        }
        if position' == 0 {
          currentTrade := Some(OpenEntry(c.open, c.timestamp, "SELL_SHORT"));
          position' := -1;
        }
      }
      equityHistory := equityHistory + [Backtest.EquityPoint(c.timestamp, equity)];
    }

    /** `_close_trade`. */
    method CloseTrade(price: real, time: int, reason: string)
      modifies this
      ensures BookOf() == Closed(old(BookOf()), price, time, reason) && equityHistory == old(equityHistory)
    {
      if currentTrade.Some? {
        var e := currentTrade.value;
        var pnl := ClosePnl(e, price);
        equity := equity + pnl;
        trades := trades + [BaselineTrade(e, time, price, pnl, reason)];
        currentTrade := None;
      }
    }
  }

  /** The profit of a list of closed trades. */
  function TotalPnl(ts: seq<BaselineTrade>): real {
    if ts == [] then 0.0 else TotalPnl(ts[..|ts| - 1]) + ts[|ts| - 1].pnl
  }

  /** What holds after any number of bars of one run started with no
      position: the position is -1, 0 or 1; with none nothing has happened;
      at most one trade was closed, after which nothing is open; an open
      position not yet closed holds its trade; and the equity moved by
      exactly the profit of the trade closed. */
  ghost predicate OneTrade(s0: MAState, s: MAState) {
    var n := |s0.book.trades|;
    && -1 <= s.position <= 1
    && (s.position == 0 ==> s.book == s0.book)
    && n <= |s.book.trades| <= n + 1
    && s.book.trades[..n] == s0.book.trades
    && (|s.book.trades| == n + 1 ==> s.position != 0 && s.book.current.None?)
    && (s.position != 0 && |s.book.trades| == n ==> s.book.current.Some?)
    && s.book.equity == s0.book.equity + TotalPnl(s.book.trades[n..])
  }

  /** One bar keeps OneTrade: a trade opens only from no position, and the
      position never returns to none, so a second trade never opens. */
  lemma BarKeepsOneTrade(s0: MAState, s: MAState, candles: seq<Candle>, fastMa: seq<Option<real>>,
                         slowMa: seq<Option<real>>, i: nat)
    requires 1 <= i < |candles| == |fastMa| == |slowMa|
    requires OneTrade(s0, s)
    ensures OneTrade(s0, BarStep(s, candles, fastMa, slowMa, i))
  {
    var n := |s0.book.trades|;
    var s' := BarStep(s, candles, fastMa, slowMa, i);
    if |s'.book.trades| == n + 1 && |s.book.trades| == n {
      assert s'.book.trades[n..] == [s'.book.trades[n]];
      assert s'.book.trades[..n] == s.book.trades[..n];
    } else {
      assert s'.book.trades == s.book.trades;
    }
  }

  /** However many bars a run covers, it closes at most one trade, keeps the
      trades it started with, and changes the equity only by that trade's
      profit. */
  lemma {:induction false} RunClosesAtMostOneTrade(s0: MAState, candles: seq<Candle>, fastMa: seq<Option<real>>,
                                                   slowMa: seq<Option<real>>, lo: nat, hi: nat)
    requires 1 <= lo && hi <= |candles| == |fastMa| == |slowMa|
    requires s0.position == 0
    ensures OneTrade(s0, Through(s0, candles, fastMa, slowMa, lo, hi))
    decreases hi
  {
    if hi <= lo {
      assert s0.book.trades[|s0.book.trades|..] == [];
    } else {
      RunClosesAtMostOneTrade(s0, candles, fastMa, slowMa, lo, hi - 1);
      BarKeepsOneTrade(s0, Through(s0, candles, fastMa, slowMa, lo, hi - 1), candles, fastMa, slowMa, hi - 1);
    }
  }

  /** The run records exactly one equity point per bar of [lo, hi), after the
      points it started with, each at its bar's time. */
  lemma {:induction false} OneEquityPointPerBar(s0: MAState, candles: seq<Candle>, fastMa: seq<Option<real>>,
                                                slowMa: seq<Option<real>>, lo: nat, hi: nat)
    requires 1 <= lo <= hi <= |candles| == |fastMa| == |slowMa|
    ensures var h, h0 := Through(s0, candles, fastMa, slowMa, lo, hi).history, s0.history;
      && |h| == |h0| + (hi - lo)
      && h[..|h0|] == h0
      && forall j :: |h0| <= j < |h| ==> h[j].timestamp == candles[lo + (j - |h0|)].timestamp
    decreases hi
  {
    if hi > lo {
      OneEquityPointPerBar(s0, candles, fastMa, slowMa, lo, hi - 1);
      var h := Through(s0, candles, fastMa, slowMa, lo, hi - 1).history;
      assert Through(s0, candles, fastMa, slowMa, lo, hi).history[..|h|] == h;
    }
  }

  /** No cross is seen until both averages exist on the previous bar: a
      signal at bar i needs i at least both windows. */
  lemma NoSignalBeforeWindows(candles: seq<Candle>, fast: nat, slow: nat, i: nat)
    requires fast >= 1 && slow >= 1 && 1 <= i < |candles|
    ensures BuyCross(MovingAverage(candles, fast), MovingAverage(candles, slow), i)
            || SellCross(MovingAverage(candles, fast), MovingAverage(candles, slow), i)
            ==> i >= fast && i >= slow
  {
    var f, m := MovingAverage(candles, fast), MovingAverage(candles, slow);
    assert f[i - 1].None? <==> i < fast;
    assert m[i - 1].None? <==> i < slow;
  }
}
