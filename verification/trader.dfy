/** The trading loop of the trader: the `Bot` object with its single position,
    `compute_indicators`, `decide` as an in-place update, and one iteration of
    `loop`. The exchange's answers for one iteration (equity reads, candles,
    whether each order request went through) are a `Feed` value; the effects
    of an iteration are its outcome, the new position and the orders sent,
    in the order they were sent. */
module Trader {
  import opened Base
  import opened Config
  import opened Indicators
  import opened Signals
  import opened Risk

  /** One candle row of `get_klines`. */
  datatype Bar = Bar(open: real, high: real, low: real, close: real)

  function Closes(bars: seq<Bar>): (r: seq<real>)
    ensures |r| == |bars| && forall i :: 0 <= i < |bars| ==> r[i] == bars[i].close
  {
    seq(|bars|, i requires 0 <= i < |bars| => bars[i].close)
  }

  function Highs(bars: seq<Bar>): (r: seq<real>)
    ensures |r| == |bars| && forall i :: 0 <= i < |bars| ==> r[i] == bars[i].high
  {
    seq(|bars|, i requires 0 <= i < |bars| => bars[i].high)
  }

  function Lows(bars: seq<Bar>): (r: seq<real>)
    ensures |r| == |bars| && forall i :: 0 <= i < |bars| ==> r[i] == bars[i].low
  {
    seq(|bars|, i requires 0 <= i < |bars| => bars[i].low)
  }

  /** The snapshot `compute_indicators` builds; `None` when there is no candle
      at all (the IndexError of `c[-1]`). */
  function IndicatorsOf(bars: seq<Bar>): (r: Option<Snapshot>)
    ensures r.None? <==> bars == []
    ensures r.Some? ==>
      && r.value.close == bars[|bars| - 1].close
      && (r.value.ema200.Some? <==> |bars| >= EmaTrend)
      && (r.value.sfast.Some? <==> |bars| >= SmaFast)
      && (r.value.sslow.Some? <==> |bars| >= SmaSlow)
      && (r.value.rsi.Some? <==> |bars| > RsiLen)
      && (r.value.atr.Some? <==> |bars| > AtrLen)
      && (r.value.atr.Some? ==> r.value.atr.value >= 0.0)
  {
    if bars == [] then None
    else
      var c := Closes(bars);
      var atr := AtrOf(Highs(bars), Lows(bars), c, AtrLen);
      assert atr.Some? ==> atr.value >= 0.0;
      Some(Snapshot(EmaOf(c, EmaTrend), Sma(c, SmaFast), Sma(c, SmaSlow), RsiOf(c, RsiLen), atr, c[|c| - 1]))
  }

  /** An order request. `MarketOpen` is `place_market_order`, which attaches
      a take-profit or stop-loss only when that level is non-zero;
      `ReduceOnlyClose` closes `qty` of the held `side`. */
  datatype Order =
    | MarketOpen(side: Side, qty: real, takeProfit: Option<real>, stopLoss: Option<real>)
    | ReduceOnlyClose(side: Side, qty: real)

  /** Python truthiness of a price level sent with an order. */
  function Truthy(level: real): (r: Option<real>)
    ensures r.Some? <==> level != 0.0
    ensures r.Some? ==> r.value == level
  {
    if level != 0.0 then Some(level) else None
  }

  /** The exchange's answers during one iteration. A read that raises is
      `None`; an order request that raises is `false`. */
  datatype Feed = Feed(
    breakerEquity: Option<real>,   // get_wallet_equity in circuit_breakers
    bars: Option<seq<Bar>>,        // get_klines
    sizingEquity: Option<real>,    // get_wallet_equity in position_sizing
    orderOk: bool,                 // the open or close order of lines 245-258
    stopOrderOk: bool)             // the client-side stop close of lines 259-269

  /** How an iteration ends: the `SystemExit` of the global limit, the pause
      of the daily limit, an exception caught at line 273, or the full cycle
      with the action `decide` chose. */
  datatype Outcome = Halted | Paused | Failed | Completed(action: Action)

  datatype Step = Step(outcome: Outcome, position: Position, orders: seq<Order>)

  /** The state after the open/close branch of lines 245-258: whether it got
      through without an exception, the position, the orders sent. */
  datatype Partial = Partial(ok: bool, position: Position, orders: seq<Order>)

  /** The open/close branch applied to the position `decide` left. */
  function Act(pos: Position, action: Action, x: Snapshot, inst: Instrument, feed: Feed): (r: Partial)
    ensures |r.orders| <= 1
    ensures !r.ok ==> r.position == pos && r.orders == []
    ensures r.orders == [] ==> r.position == pos
    ensures r.orders != [] && r.orders[0].MarketOpen? ==>
      && (action == OpenLong || action == OpenShort) && Avail(x.atr)
      && r.position.side == r.orders[0].side && r.position.qty == r.orders[0].qty
      && r.position.entry == x.close
    ensures r.orders != [] && r.orders[0].ReduceOnlyClose? ==>
      && (action == CloseLong || action == CloseShort) && pos.side != Flat
      && r.orders[0] == ReduceOnlyClose(pos.side, pos.qty) && r.position == NoPosition
  {
    if (action == OpenLong || action == OpenShort) && Avail(x.atr) then
      var side := if action == OpenLong then Long else Short;
      if feed.sizingEquity.None? then Partial(false, pos, [])
      else
        var qty := PositionSizing(feed.sizingEquity.value, x.close, x.atr.value, inst);
        if qty.None? then Partial(false, pos, [])
        else
          var brackets := BracketPrices(side, x.close, x.atr.value, inst.tickSize);
          if brackets.None? || !feed.orderOk then Partial(false, pos, [])
          else
            var (tp, sl) := brackets.value;
            Partial(true, Position(side, x.close, qty.value, sl, tp),
                    [MarketOpen(side, qty.value, Truthy(tp), Truthy(sl))])
    else if (action == CloseLong || action == CloseShort) && pos.side != Flat then
      if !feed.orderOk then Partial(false, pos, [])
      else Partial(true, NoPosition, [ReduceOnlyClose(pos.side, pos.qty)])
    else Partial(true, pos, [])
  }

  /** The price has reached the position's tracked stop. */
  predicate StopHit(pos: Position, price: real)
  {
    (pos.side == Long && price <= pos.sl) || (pos.side == Short && price >= pos.sl)
  }

  /** The decision cycle of one iteration once the snapshot `x` is known
      (lines 240-269): `decide`, open or close, then the client-side stop
      check on the position that is left. */
  function Cycle(pos: Position, x: Snapshot, inst: Instrument, feed: Feed): (s: Step)
    ensures s.outcome == Failed || s.outcome == Completed(Decision(pos, x))
    ensures |s.orders| <= 2
    ensures s.orders == [] ==> s.position == Trail(pos, x) || s.position == NoPosition
  {
    var action := Decision(pos, x);
    var acted := Act(Trail(pos, x), action, x, inst, feed);
    if !acted.ok then Step(Failed, acted.position, acted.orders)
    else if !StopHit(acted.position, x.close) then Step(Completed(action), acted.position, acted.orders)
    else if !feed.stopOrderOk then Step(Failed, acted.position, acted.orders)
    else Step(Completed(action), NoPosition,
              acted.orders + [ReduceOnlyClose(acted.position.side, acted.position.qty)])
  }

  /** The iteration got past the breakers and has a snapshot to decide on. */
  predicate Decides(inst: Instrument, dayStart: real, start: real, feed: Feed)
  {
    && feed.breakerEquity.Some?
    && CircuitBreakers(feed.breakerEquity.value, dayStart, start) == Clear
    && feed.bars.Some? && feed.bars.value != []
  }

  /** The snapshot of a deciding iteration. */
  function SnapshotOf(feed: Feed): Snapshot
    requires feed.bars.Some? && feed.bars.value != []
  {
    IndicatorsOf(feed.bars.value).value
  }

  /** One iteration of `loop` (lines 235-269) from position `pos`: breakers,
      indicators, then the decision cycle. */
  function Iteration(pos: Position, inst: Instrument, dayStart: real, start: real, feed: Feed): (s: Step)
    ensures s.outcome == Halted <==>
      feed.breakerEquity.Some? && CircuitBreakers(feed.breakerEquity.value, dayStart, start) == Halt
    ensures s.outcome == Paused <==>
      feed.breakerEquity.Some? && CircuitBreakers(feed.breakerEquity.value, dayStart, start) == Pause
    ensures s.outcome.Completed? ==> Decides(inst, dayStart, start, feed)
    ensures |s.orders| <= 2
  {
    if feed.breakerEquity.None? then Step(Failed, pos, [])
    else
      var breaker := CircuitBreakers(feed.breakerEquity.value, dayStart, start);
      if breaker == Halt then Step(Halted, pos, [])
      else if breaker == Pause then Step(Paused, pos, [])
      else if feed.bars.None? || feed.bars.value == [] then Step(Failed, pos, [])
      else Cycle(pos, SnapshotOf(feed), inst, feed)
  }

  // ------------------------------------------------------------ the bot

  class Bot {
    const symbol: string
    const instrument: Instrument
    const startEquity: real
    const dayStartEquity: real
    /** The leverage `__init__` passes to `set_leverage`. */
    const leverage: int
    var position: Position

    ghost predicate Valid()
      reads this
    {
      Consistent(position)
    }

    /** `Bot(symbol)` with the instrument and the wallet equity it fetches.
        The `set_leverage` call is best-effort and changes nothing here. */
    constructor (symbol: string, instrument: Instrument, equity: real)
      ensures Valid()
      ensures this.symbol == symbol && this.instrument == instrument
      ensures startEquity == equity && dayStartEquity == equity
      ensures leverage == LeverageChoice(instrument.maxLeverage)
      ensures position == NoPosition
    {
      this.symbol := symbol;
      this.instrument := instrument;
      startEquity := equity;
      dayStartEquity := equity;
      position := NoPosition;
      leverage := LeverageChoice(instrument.maxLeverage);
    }

    method ComputeIndicators(bars: seq<Bar>) returns (x: Option<Snapshot>)
      ensures x == IndicatorsOf(bars)
      ensures x.Some? <==> bars != []
    {
      var c, h, l := Closes(bars), Highs(bars), Lows(bars);
      var ema200 := Ema(c, EmaTrend);
      var sfast := Sma(c, SmaFast);
      var sslow := Sma(c, SmaSlow);
      var rsi := Rsi(c, RsiLen);
      var atr := Atr(h, l, c, AtrLen);
      if c == [] {
        return None;
      }
      x := Some(Snapshot(ema200, sfast, sslow, rsi, atr, c[|c| - 1]));
    }

    /** `decide(x)`: returns the action and, for an open position with an
        available ATR, moves the stop in place, never loosening it. */
    method Decide(x: Snapshot) returns (action: Action)
      requires Valid()
      modifies this
      ensures Valid()
      ensures position == Trail(old(position), x)
      ensures action == Decision(old(position), x)
      ensures old(position).side == Long ==> old(position).sl <= position.sl
      ensures old(position).side == Short ==> position.sl <= old(position).sl
    {
      var price := x.close;
      var longSig := LongSignal(x);
      var shortSig := ShortSignal(x);
      if position.side == Flat {
        if longSig {
          return OpenLong;
        }
        if shortSig {
          return OpenShort;
        }
        return Hold;
      }
      if position.side == Long {
        if Avail(x.atr) {
          var newSl := Max(position.sl, price - AtrSlMult * x.atr.value);
          if newSl > position.sl {
            position := position.(sl := newSl);
          }
        }
        if shortSig {
          return CloseLong;
        }
      } else {
        if Avail(x.atr) {
          var newSl := Min(position.sl, price + AtrSlMult * x.atr.value);
          if newSl < position.sl {
            position := position.(sl := newSl);
          }
        }
        if longSig {
          return CloseShort;
        }
      }
      return Manage;
    }

    /** One pass of the body of `loop`'s `while True`, up to the sleep. */
    method LoopOnce(feed: Feed) returns (outcome: Outcome, orders: seq<Order>)
      requires Valid()
      modifies this
      ensures Valid()
      ensures Step(outcome, position, orders)
           == Iteration(old(position), instrument, dayStartEquity, startEquity, feed)
    {
      orders := [];
      if feed.breakerEquity.None? {
        return Failed, orders;
      }
      var breaker := CircuitBreakers(feed.breakerEquity.value, dayStartEquity, startEquity);
      if breaker == Halt {
        return Halted, orders;
      }
      if breaker == Pause {
        return Paused, orders;
      }
      if feed.bars.None? {
        return Failed, orders;
      }
      var snapshot := ComputeIndicators(feed.bars.value);
      if snapshot.None? {
        return Failed, orders;
      }
      var x := snapshot.value;
      var price := x.close;
      var action := Decide(x);
      if (action == OpenLong || action == OpenShort) && Avail(x.atr) {
        var side := if action == OpenLong then Long else Short;
        if feed.sizingEquity.None? {
          return Failed, orders;
        }
        var qty := PositionSizing(feed.sizingEquity.value, price, x.atr.value, instrument);
        if qty.None? {
          return Failed, orders;
        }
        var brackets := BracketPrices(side, price, x.atr.value, instrument.tickSize);
        if brackets.None? || !feed.orderOk {
          return Failed, orders;
        }
        var (tp, sl) := brackets.value;
        orders := [MarketOpen(side, qty.value, Truthy(tp), Truthy(sl))];
        position := Position(side, price, qty.value, sl, tp);
      } else if (action == CloseLong || action == CloseShort) && position.side != Flat {
        if !feed.orderOk {
          return Failed, orders;
        }
        orders := [ReduceOnlyClose(position.side, position.qty)];
        position := NoPosition;
      }
      if StopHit(position, price) {
        if !feed.stopOrderOk {
          return Failed, orders;
        }
        orders := orders + [ReduceOnlyClose(position.side, position.qty)];
        position := NoPosition;
      }
      return Completed(action), orders;
    }
  }


  // ------------------------------------------------------------ properties of one iteration

  /** A paused or halted iteration decides nothing and sends no order. */
  lemma BreakersStopEverything(pos: Position, inst: Instrument, dayStart: real, start: real, feed: Feed)
    requires feed.breakerEquity.Some?
    requires CircuitBreakers(feed.breakerEquity.value, dayStart, start) != Clear
    ensures var s := Iteration(pos, inst, dayStart, start, feed);
      s.position == pos && s.orders == [] && (s.outcome == Paused || s.outcome == Halted)
  {
  }

  /** With the two baselines equal, as `__init__` sets them, no iteration halts. */
  lemma NeverHalts(pos: Position, inst: Instrument, baseline: real, feed: Feed)
    ensures Iteration(pos, inst, baseline, baseline, feed).outcome != Halted
  {
  }

  /** An iteration that does not reach `decide` sends nothing and keeps the
      position; one that does is the decision cycle on its snapshot. */
  lemma IterationDecidesFirst(pos: Position, inst: Instrument, dayStart: real, start: real, feed: Feed)
    ensures var s := Iteration(pos, inst, dayStart, start, feed);
      if Decides(inst, dayStart, start, feed) then s == Cycle(pos, SnapshotOf(feed), inst, feed)
      else s.orders == [] && s.position == pos && !s.outcome.Completed?
  {
  }

  /** Every order of a cycle is justified: an opening order comes first, only
      from a flat position, only with an available ATR and the matching
      signal; a close names a held side; there are at most two orders. */
  lemma CycleOrders(pos: Position, x: Snapshot, inst: Instrument, feed: Feed)
    requires Consistent(pos)
    ensures var s := Cycle(pos, x, inst, feed);
      && |s.orders| <= 2
      && forall i :: 0 <= i < |s.orders| ==>
        match s.orders[i]
        case MarketOpen(side, _, _, _) =>
          && i == 0 && pos.side == Flat && Avail(x.atr)
          && (side == Long <==> LongSignal(x))
          && (side == Short <==> ShortSignal(x))
        case ReduceOnlyClose(side, _) => side != Flat
  {
    var acted := Act(Trail(pos, x), Decision(pos, x), x, inst, feed);
    assert acted.ok ==> Consistent(acted.position);
  }

  /** A completed cycle never leaves a position its own stop has been crossed
      by: a remaining long is above its stop, a short below. */
  lemma CompletedRespectsStop(pos: Position, x: Snapshot, inst: Instrument, feed: Feed)
    ensures var s := Cycle(pos, x, inst, feed);
      s.outcome.Completed? ==>
        && (s.position.side == Long ==> x.close > s.position.sl)
        && (s.position.side == Short ==> x.close < s.position.sl)
  {
  }

  /** A cycle that fails before any order went through leaves the position as
      `decide` left it: the trailed stop survives the exception. */
  lemma FailureKeepsTrail(pos: Position, x: Snapshot, inst: Instrument, feed: Feed)
    ensures var s := Cycle(pos, x, inst, feed);
      s.orders == [] && s.outcome == Failed ==> s.position == Trail(pos, x)
  {
  }

  /** A flat position is always `Position()` after a cycle. */
  lemma CycleKeepsConsistent(pos: Position, x: Snapshot, inst: Instrument, feed: Feed)
    requires Consistent(pos)
    ensures Consistent(Cycle(pos, x, inst, feed).position)
  {
  }

  /** A close decided on a held position sends one reduce-only order for the
      whole quantity and leaves `Position()`. */
  lemma CloseFlattens(pos: Position, x: Snapshot, inst: Instrument, feed: Feed)
    requires pos.side != Flat
    requires Decision(pos, x) == CloseLong || Decision(pos, x) == CloseShort
    requires feed.orderOk
    ensures var s := Cycle(pos, x, inst, feed);
      && s == Step(Completed(Decision(pos, x)), NoPosition, [ReduceOnlyClose(pos.side, pos.qty)])
  {
  }

  /** A long whose stop the price has reached is closed in that cycle,
      whatever `decide` chose, if the exchange accepts the close. */
  lemma LongAtStopIsClosed(pos: Position, x: Snapshot, inst: Instrument, feed: Feed)
    requires pos.side == Long
    requires x.close <= pos.sl
    requires feed.orderOk && feed.stopOrderOk
    ensures var s := Cycle(pos, x, inst, feed);
      s.outcome.Completed? && s.position == NoPosition && s.orders == [ReduceOnlyClose(Long, pos.qty)]
  {
  }

  /** With a positive tick and a non-negative ATR, a new long is never
      stopped out in the cycle that opened it, since its floored stop is
      below the price; only a new short can be. */
  lemma OnlyShortsStopOutOnEntry(pos: Position, x: Snapshot, inst: Instrument, feed: Feed)
    requires Consistent(pos)
    requires inst.tickSize > 0.0
    requires x.atr.Some? ==> x.atr.value >= 0.0
    ensures var s := Cycle(pos, x, inst, feed);
      |s.orders| == 2 ==>
        && s.orders[0].MarketOpen? && s.orders[0].side == Short
        && s.orders[1] == ReduceOnlyClose(Short, s.orders[0].qty)
  {
    var s := Cycle(pos, x, inst, feed);
    if |s.orders| == 2 {
      CycleOrders(pos, x, inst, feed);
    }
  }

  /** Sixty flat closes at 100: both simple averages are 100, the 200-bar
      trend average is unavailable, so a flat bot holds. */
  lemma FlatHistoryHolds(bars: seq<Bar>)
    requires |bars| == 60
    requires forall i :: 0 <= i < |bars| ==> bars[i].close == 100.0
    ensures IndicatorsOf(bars).Some?
    ensures var x := IndicatorsOf(bars).value;
      && x.sfast == Some(100.0) && x.sslow == Some(100.0) && x.ema200 == None
      && Decision(NoPosition, x) == Hold
  {
    var c := Closes(bars);
    SmaOfConstant(c, SmaFast, 100.0);
    SmaOfConstant(c, SmaSlow, 100.0);
  }
}
