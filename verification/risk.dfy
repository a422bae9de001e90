/** The risk manager of the trader: `round_step`, position sizing, bracket
    prices, the equity circuit breakers and the leverage chosen at start-up.
    Each takes the exchange's answers (equity, instrument filters) as
    parameters. A division by zero in the source (a zero step, tick, price or
    stop distance) raises an exception; here it is a `None` result. */
module Risk {
  import opened Base
  import opened Config
  import opened Signals

  /** The instrument filters `get_instrument` returns. */
  datatype Instrument = Instrument(qtyStep: real, minQty: real, tickSize: real, maxLeverage: real)

  /** `v` is a whole multiple of `step`. */
  predicate OnGrid(v: real, step: real)
    requires step != 0.0
  {
    (v / step).Floor as real == v / step
  }

  /** `v` is `raw` rounded down to the grid of `step`. */
  predicate FlooredTo(v: real, raw: real, step: real)
    requires step != 0.0
  {
    OnGrid(v, step) && v <= raw < v + step
  }

  lemma FloorScaled(q: real, s: real)
    ensures s > 0.0 ==> (q.Floor as real) * s <= q * s < (q.Floor as real) * s + s
  {
    if s > 0.0 {
      var f := q.Floor as real;
      assert (q - f) * s >= 0.0;
      assert (f + 1.0 - q) * s > 0.0;
    }
  }

  /** `round_step(value, step)`: `floor(value/step)*step`. For a positive step
      the result is the grid point at or just below `value`. */
  function RoundStep(value: real, step: real): (r: real)
    requires step != 0.0
    ensures OnGrid(r, step)
    ensures step > 0.0 ==> FlooredTo(r, value, step)
  {
    var f := (value / step).Floor as real;
    FloorScaled(value / step, step);
    assert (value / step) * step == value;
    assert (f * step) / step == f;
    f * step
  }

  /** `a <= b/c` with `c > 0` gives `a*c <= b`. */
  lemma MulBelowQuotient(a: real, b: real, c: real)
    ensures c > 0.0 && a <= b / c ==> a * c <= b
  {
    if c > 0.0 && a <= b / c {
      assert (b / c - a) * c >= 0.0;
      assert (b / c) * c == b;
    }
  }

  /** `stop_dist`: at least `AtrSlMult` ATRs and at least 0.2% of the price. */
  function StopDistance(price: real, atr: real): (d: real)
    ensures d >= atr * AtrSlMult && d >= price * 0.002
    ensures d == atr * AtrSlMult || d == price * 0.002
  {
    Max(atr * AtrSlMult, price * 0.002)
  }

  /** The unrounded size `position_sizing` aims at: the quantity whose stop
      loses `RiskPct` of equity, or the notional cap over the price if that
      is smaller. */
  function Budget(equity: real, price: real, atr: real): real
    requires StopDistance(price, atr) != 0.0 && price != 0.0
  {
    Min(equity * RiskPct / StopDistance(price, atr), equity * MaxPosEquityFrac * MaxLeverage as real / price)
  }

  /** `position_sizing(price, atr)` with `equity` the wallet read it makes.
      The quantity risks `RiskPct` of equity over the stop distance, is capped
      by the notional limit and floored to the quantity step, but is never
      below the minimum quantity. A size above the minimum is therefore the
      largest step multiple within both budgets; the size is never below the
      floored budget, so a size at the minimum means the floored budget did
      not exceed it, and then the notional cap may be
      broken (`MinQtyBreaksCap`). `None` stands for the ZeroDivisionError the
      source raises on a zero stop distance, price or step. */
  function PositionSizing(equity: real, price: real, atr: real, inst: Instrument): (r: Option<real>)
    ensures r.None? <==> StopDistance(price, atr) == 0.0 || price == 0.0 || inst.qtyStep == 0.0
    ensures r.Some? ==> r.value >= inst.minQty
    ensures r.Some? && price > 0.0 && inst.qtyStep > 0.0 && r.value > inst.minQty ==>
      && OnGrid(r.value, inst.qtyStep)
      && r.value * price <= equity * MaxPosEquityFrac * MaxLeverage as real
      && r.value * StopDistance(price, atr) <= equity * RiskPct
    ensures r.Some? && price > 0.0 && inst.qtyStep > 0.0 ==>
      Budget(equity, price, atr) < r.value + inst.qtyStep
    ensures r.Some? && price > 0.0 && inst.qtyStep > 0.0 && r.value > inst.minQty ==>
      r.value <= Budget(equity, price, atr)
    ensures r.Some? && price > 0.0 && inst.qtyStep > 0.0 ==>
      RoundStep(Budget(equity, price, atr), inst.qtyStep) <= r.value
  {
    var stopDist := StopDistance(price, atr);
    if stopDist == 0.0 || price == 0.0 || inst.qtyStep == 0.0 then None
    else
      var capped := Budget(equity, price, atr);
      var stepped := RoundStep(capped, inst.qtyStep);
      MulBelowQuotient(stepped, equity * MaxPosEquityFrac * MaxLeverage as real, price);
      MulBelowQuotient(stepped, equity * RiskPct, stopDist);
      Some(Max(stepped, inst.minQty))
  }

  /** The unrounded (take-profit, stop-loss) levels of `bracket_prices`. */
  function RawBracket(side: Side, price: real, atr: real): (real, real)
  {
    if side == Long then (price + AtrTpMult * atr, price - AtrSlMult * atr)
    else (price - AtrTpMult * atr, price + AtrSlMult * atr)
  }

  /** `bracket_prices(side, price, atr)`, returned as `(tp, sl)`: both levels
      are floored to the tick whatever the side. A long's stop is then below
      the price and a short's target below the price. `None` stands for the
      ZeroDivisionError of a zero tick. */
  function BracketPrices(side: Side, price: real, atr: real, tick: real): (r: Option<(real, real)>)
    ensures r.None? <==> tick == 0.0
    ensures r.Some? && tick > 0.0 ==>
      && FlooredTo(r.value.0, RawBracket(side, price, atr).0, tick)
      && FlooredTo(r.value.1, RawBracket(side, price, atr).1, tick)
    ensures r.Some? && tick > 0.0 && atr > 0.0 && side == Long ==> r.value.1 < price
    ensures r.Some? && tick > 0.0 && atr > 0.0 && side != Long ==> r.value.0 < price
  {
    if tick == 0.0 then None
    else if side == Long then
      var sl := RoundStep(price - AtrSlMult * atr, tick);
      var tp := RoundStep(price + AtrTpMult * atr, tick);
      Some((tp, sl))
    else
      var sl := RoundStep(price + AtrSlMult * atr, tick);
      var tp := RoundStep(price - AtrTpMult * atr, tick);
      Some((tp, sl))
  }

  /** Because both levels are floored, a short's stop can land on the entry
      price itself: with a tick of 1 and an ATR of 0.5 at price 100 the stop
      is 100. */
  lemma ShortStopCanSitOnEntry()
    ensures BracketPrices(Short, 100.0, 0.5, 1.0) == Some((99.0, 100.0))
  {
    assert (100.75 / 1.0).Floor == 100;
    assert (99.0 / 1.0).Floor == 99;
  }

  /** A worked entry: equity 10000, price 100, ATR 2, all steps 0.01. The
      stop distance is 3, so 30 dollars of risk buys 10 units, well under the
      notional cap; the long's target is 104 and its stop 97. */
  lemma LongEntryExample()
    ensures PositionSizing(10000.0, 100.0, 2.0, Instrument(0.01, 0.01, 0.01, 10.0)) == Some(10.0)
    ensures BracketPrices(Long, 100.0, 2.0, 0.01) == Some((104.0, 97.0))
  {
    assert (10.0 / 0.01).Floor == 1000;
    assert (97.0 / 0.01).Floor == 9700;
    assert (104.0 / 0.01).Floor == 10400;
  }

  /** The minimum quantity overrides the notional cap: with equity 100,
      price 100, ATR 2 and a minimum of 2 units, the budget is 0.1 units but
      the size is 2, a notional of 200 against a cap of 100. */
  lemma MinQtyBreaksCap()
    ensures PositionSizing(100.0, 100.0, 2.0, Instrument(0.01, 2.0, 0.01, 10.0)) == Some(2.0)
    ensures 2.0 * 100.0 > 100.0 * MaxPosEquityFrac * MaxLeverage as real
  {
    assert (0.1 / 0.01).Floor == 10;
  }

  /** The three answers of `circuit_breakers`: `False`, `True` (pause) and
      the `SystemExit` of the global drawdown limit (halt). */
  datatype Breaker = Clear | Pause | Halt

  /** `(e - base)/base <= -limit` is `e <= base*(1 - limit)` for `base > 0`. */
  lemma RelativeLoss(e: real, base: real, limit: real)
    ensures base > 0.0 ==> ((e - base) / base <= -limit <==> e <= base * (1.0 - limit))
  {
    if base > 0.0 {
      assert ((e - base) / base) * base == e - base;
      if (e - base) / base <= -limit {
        assert ((e - base) / base + limit) * base <= 0.0;
      } else {
        assert ((e - base) / base + limit) * base > 0.0;
      }
    }
  }

  /** `circuit_breakers()` with `equity` the wallet read it makes. The daily
      check runs first: a loss of `DailyLossLimit` against the day's baseline
      pauses, and only otherwise can a loss of `GlobalDdLimit` against the
      start baseline halt. A non-positive baseline disables its check. When
      the two baselines are equal, as `__init__` makes them, the halt can
      never be reached. */
  function CircuitBreakers(equity: real, dayStart: real, start: real): (b: Breaker)
    ensures b == Pause <==> dayStart > 0.0 && equity <= dayStart * (1.0 - DailyLossLimit)
    ensures b == Halt <==>
      && !(dayStart > 0.0 && equity <= dayStart * (1.0 - DailyLossLimit))
      && start > 0.0 && equity <= start * (1.0 - GlobalDdLimit)
    ensures dayStart == start ==> b != Halt
  {
    RelativeLoss(equity, dayStart, DailyLossLimit);
    RelativeLoss(equity, start, GlobalDdLimit);
    if dayStart > 0.0 && (equity - dayStart) / dayStart <= -DailyLossLimit then Pause
    else if start > 0.0 && (equity - start) / start <= -GlobalDdLimit then Halt
    else Clear
  }

  /** A fall of 2.5% below the baselines pauses trading. */
  lemma DailyLossPauses()
    ensures CircuitBreakers(97.5, 100.0, 100.0) == Pause
  {
  }

  /** A fall of 6% below the baselines also only pauses: the halt is never
      reached, since the daily check fires first. */
  lemma DeepDrawdownOnlyPauses()
    ensures CircuitBreakers(94.0, 100.0, 100.0) == Pause
  {
  }

  /** Python's `int()` of a float: truncation toward zero. */
  function Trunc(x: real): int
  {
    if x >= 0.0 then x.Floor else -((-x).Floor)
  }

  /** The leverage `__init__` asks for: `min(5, int(max_leverage))`. It never
      exceeds 5 or the exchange's limit, and is 5 when the limit allows it. */
  function LeverageChoice(maxLeverage: real): (lev: int)
    ensures lev <= MaxLeverage
    ensures maxLeverage >= MaxLeverage as real ==> lev == MaxLeverage
    ensures 0.0 <= maxLeverage ==> 0 <= lev && lev as real <= maxLeverage
    ensures 1.0 <= maxLeverage ==> 1 <= lev
  {
    var t := Trunc(maxLeverage);
    if t < 5 then t else 5
  }
}
