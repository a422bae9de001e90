/** The signal engine of the trader: the position record, the indicator
    snapshot, the two entry signals and the decision with its trailing stop
    (`Bot.decide`). Here `decide` is given as two specification functions, the
    decision and the position it leaves; the method that updates the bot's
    position in place is `Trader.Bot.Decide`. */
module Signals {
  import opened Base
  import opened Config

  /** `Position.side`: the empty string (flat), "long" or "short". */
  datatype Side = Flat | Long | Short

  /** The single open-position record (`Position`, defaults all zero). */
  datatype Position = Position(side: Side, entry: real, qty: real, sl: real, tp: real)

  /** `Position()`: no position. */
  const NoPosition := Position(Flat, 0.0, 0.0, 0.0, 0.0)

  /** A flat position carries no quantity and no levels. */
  predicate Consistent(pos: Position)
  {
    pos.side == Flat ==> pos == NoPosition
  }

  /** What `compute_indicators` hands to `decide`: each indicator may be `None`. */
  datatype Snapshot = Snapshot(
    ema200: Option<real>,
    sfast: Option<real>,
    sslow: Option<real>,
    rsi: Option<real>,
    atr: Option<real>,
    close: real)

  datatype Action = Hold | OpenLong | OpenShort | CloseLong | CloseShort | Manage

  /** Python truthiness of an indicator: `None` and `0.0` are both false. */
  predicate Avail(o: Option<real>)
  {
    o.Some? && o.value != 0.0
  }

  /** `long_sig`: fast average above slow, price above the trend average, RSI above 55. */
  predicate LongSignal(x: Snapshot)
    ensures LongSignal(x) ==> WarmedUp(x) && x.rsi.value > RsiLong
  {
    && Avail(x.sfast) && Avail(x.sslow) && x.sfast.value > x.sslow.value
    && Avail(x.ema200) && x.close > x.ema200.value
    && Avail(x.rsi) && x.rsi.value > RsiLong
  }

  /** `short_sig`: the mirror image, with RSI below 45. */
  predicate ShortSignal(x: Snapshot)
    ensures ShortSignal(x) ==> WarmedUp(x) && x.rsi.value < RsiShort
  {
    && Avail(x.sfast) && Avail(x.sslow) && x.sfast.value < x.sslow.value
    && Avail(x.ema200) && x.close < x.ema200.value
    && Avail(x.rsi) && x.rsi.value < RsiShort
  }

  /** The three averages and the RSI that both signals need are all available. */
  predicate WarmedUp(x: Snapshot)
  {
    Avail(x.sfast) && Avail(x.sslow) && Avail(x.ema200) && Avail(x.rsi)
  }

  lemma SignalsExclusive(x: Snapshot)
    ensures !(LongSignal(x) && ShortSignal(x))
  {
  }

  /** An RSI of exactly zero (a window that only fell) is falsy, so it never
      yields a short signal, however the averages stand. */
  lemma ZeroRsiBlocksShort(x: Snapshot)
    requires x.rsi == Some(0.0)
    ensures !ShortSignal(x) && !LongSignal(x)
  {
  }

  /** The position `decide` leaves: for an open position with an available
      ATR, the stop trails the price at `AtrSlMult` ATRs and never loosens. */
  function Trail(pos: Position, x: Snapshot): (p: Position)
    ensures p == pos.(sl := p.sl)
    ensures pos.side == Long ==> pos.sl <= p.sl
    ensures pos.side == Short ==> p.sl <= pos.sl
    ensures p.sl != pos.sl ==> pos.side != Flat && Avail(x.atr)
    ensures pos.side == Long && Avail(x.atr) ==>
      x.close - AtrSlMult * x.atr.value <= p.sl
      && (p.sl == pos.sl || p.sl == x.close - AtrSlMult * x.atr.value)
    ensures pos.side == Short && Avail(x.atr) ==>
      p.sl <= x.close + AtrSlMult * x.atr.value
      && (p.sl == pos.sl || p.sl == x.close + AtrSlMult * x.atr.value)
  {
    if pos.side == Flat || !Avail(x.atr) then pos
    else if pos.side == Long then
      var newSl := Max(pos.sl, x.close - AtrSlMult * x.atr.value);
      if newSl > pos.sl then pos.(sl := newSl) else pos
    else
      var newSl := Min(pos.sl, x.close + AtrSlMult * x.atr.value);
      if newSl < pos.sl then pos.(sl := newSl) else pos
  }

  /** The action `decide` returns. Flat: open on the matching signal, else
      hold. Long: close on a short signal, else manage; short: the mirror. */
  function Decision(pos: Position, x: Snapshot): (a: Action)
    ensures pos.side == Flat ==>
      && (a == OpenLong <==> LongSignal(x))
      && (a == OpenShort <==> ShortSignal(x))
      && (a == Hold <==> !LongSignal(x) && !ShortSignal(x))
    ensures pos.side == Long ==>
      && (a == CloseLong <==> ShortSignal(x))
      && (a == Manage <==> !ShortSignal(x))
    ensures pos.side == Short ==>
      && (a == CloseShort <==> LongSignal(x))
      && (a == Manage <==> !LongSignal(x))
    ensures !WarmedUp(x) ==> a == (if pos.side == Flat then Hold else Manage)
  {
    if pos.side == Flat then
      if LongSignal(x) then OpenLong
      else if ShortSignal(x) then OpenShort
      else Hold
    else if pos.side == Long then
      if ShortSignal(x) then CloseLong else Manage
    else
      if LongSignal(x) then CloseShort else Manage
  }

  /** Over consecutive cycles that keep a long open, the stop is non-decreasing;
      for a short it is non-increasing. */
  lemma {:induction false} TrailMonotone(pos: Position, xs: seq<Snapshot>)
    ensures pos.side == Long ==> pos.sl <= TrailAll(pos, xs).sl
    ensures pos.side == Short ==> TrailAll(pos, xs).sl <= pos.sl
    ensures TrailAll(pos, xs) == pos.(sl := TrailAll(pos, xs).sl)
    decreases |xs|
  {
    if xs != [] {
      TrailMonotone(pos, xs[..|xs| - 1]);
    }
  }

  /** The position after `decide` has run on each snapshot in turn. */
  function TrailAll(pos: Position, xs: seq<Snapshot>): Position
    decreases |xs|
  {
    if xs == [] then pos else Trail(TrailAll(pos, xs[..|xs| - 1]), xs[|xs| - 1])
  }
}
