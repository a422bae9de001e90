/** The indicator pipeline of the trader: simple and exponential moving
    averages, RSI and ATR over a window of candle values. Each indicator is
    `None` when the history is too short. The three indicators the source
    computes with loops (`ema`, `rsi`, `atr`) are methods proved equal to a
    specification function; `sma` is a plain function. */
module Indicators {
  import opened Base

  /** Python's `sum()` of a list of numbers. */
  function Sum(s: seq<real>): real
  {
    if s == [] then 0.0 else Sum(s[..|s| - 1]) + s[|s| - 1]
  }

  /** Every element of `s` lies in `[lo, hi]`. */
  predicate Bounded(s: seq<real>, lo: real, hi: real)
  {
    forall i :: 0 <= i < |s| ==> lo <= s[i] <= hi
  }

  /** The smallest element of a non-empty sequence. */
  function Lowest(s: seq<real>): (m: real)
    requires s != []
    ensures m in s
    ensures forall i :: 0 <= i < |s| ==> m <= s[i]
  {
    if |s| == 1 then s[0]
    else
      var m' := Lowest(s[..|s| - 1]);
      assert m' in s[..|s| - 1];
      if s[|s| - 1] < m' then s[|s| - 1] else m'
  }

  /** The largest element of a non-empty sequence. */
  function Highest(s: seq<real>): (m: real)
    requires s != []
    ensures m in s
    ensures forall i :: 0 <= i < |s| ==> s[i] <= m
  {
    if |s| == 1 then s[0]
    else
      var m' := Highest(s[..|s| - 1]);
      assert m' in s[..|s| - 1];
      if s[|s| - 1] > m' then s[|s| - 1] else m'
  }

  lemma {:induction false} SumBetween(s: seq<real>, lo: real, hi: real)
    requires Bounded(s, lo, hi)
    ensures lo * |s| as real <= Sum(s) <= hi * |s| as real
  {
    if s != [] {
      var init := s[..|s| - 1];
      assert Bounded(init, lo, hi) by {
        forall i | 0 <= i < |init| ensures lo <= init[i] <= hi {
          assert init[i] == s[i];
        }
      }
      SumBetween(init, lo, hi);
      assert lo * |s| as real == lo * |init| as real + lo;
      assert hi * |s| as real == hi * |init| as real + hi;
    }
  }

  /** Dividing by a positive `n` keeps bounds scaled by `n`. */
  lemma DivBetween(x: real, n: real, lo: real, hi: real)
    requires n > 0.0 && lo * n <= x <= hi * n
    ensures lo <= x / n <= hi
  {
    assert (x / n - lo) * n == x - lo * n;
    assert (hi - x / n) * n == hi * n - x;
  }

  /** The mean of values in `[lo, hi]` is in `[lo, hi]`. */
  lemma MeanBetween(s: seq<real>, lo: real, hi: real)
    requires s != [] && Bounded(s, lo, hi)
    ensures lo <= Sum(s) / |s| as real <= hi
  {
    SumBetween(s, lo, hi);
    DivBetween(Sum(s), |s| as real, lo, hi);
  }

  /** A weighted average `a*k + b*(1-k)` of two values in `[lo, hi]` stays there. */
  lemma ConvexBetween(a: real, b: real, k: real, lo: real, hi: real)
    requires 0.0 <= k <= 1.0 && lo <= a <= hi && lo <= b <= hi
    ensures lo <= a * k + b * (1.0 - k) <= hi
  {
    assert (a - lo) * k >= 0.0;
    assert (b - lo) * (1.0 - k) >= 0.0;
    assert (hi - a) * k >= 0.0;
    assert (hi - b) * (1.0 - k) >= 0.0;
  }

  /** `Bounded` holds of every slice of a bounded sequence. */
  lemma BoundedSlice(s: seq<real>, i: int, j: int, lo: real, hi: real)
    requires 0 <= i <= j <= |s| && Bounded(s, lo, hi)
    ensures Bounded(s[i..j], lo, hi)
  {
    forall t | 0 <= t < j - i ensures lo <= s[i..j][t] <= hi {
      assert s[i..j][t] == s[i + t];
    }
  }

  /** The last `n` values, Python's `values[-n:]` for `0 < n <= len(values)`. */
  function Tail(values: seq<real>, n: int): seq<real>
    requires 0 < n <= |values|
  {
    values[|values| - n..]
  }

  // ---------------------------------------------------------------- SMA

  /** `sma(values, n)`: the mean of the last `n` values. */
  function Sma(values: seq<real>, n: int): (r: Option<real>)
    ensures r.None? <==> |values| < n || n <= 0
    ensures r.Some? ==> Lowest(Tail(values, n)) <= r.value <= Highest(Tail(values, n))
  {
    if |values| < n || n <= 0 then None
    else
      var w := Tail(values, n);
      MeanBetween(w, Lowest(w), Highest(w));
      Some(Sum(w) / n as real)
  }

  /** A constant series has that constant as its moving average. */
  lemma SmaOfConstant(values: seq<real>, n: int, c: real)
    requires 0 < n <= |values|
    requires forall i :: 0 <= i < |values| ==> values[i] == c
    ensures Sma(values, n) == Some(c)
  {
    var w := Tail(values, n);
    assert forall i :: 0 <= i < |w| ==> w[i] == values[|values| - n + i];
    assert Lowest(w) == c && Highest(w) == c;
  }

  // ---------------------------------------------------------------- EMA

  /** The smoothing loop of `ema`: each value `v` replaces `e` by `v*k + e*(1-k)`. */
  function Smooth(e: real, vs: seq<real>, k: real): real
    decreases vs
  {
    if vs == [] then e else Smooth(vs[0] * k + e * (1.0 - k), vs[1..], k)
  }

  lemma {:induction false} SmoothBetween(e: real, vs: seq<real>, k: real, lo: real, hi: real)
    requires 0.0 <= k <= 1.0 && lo <= e <= hi && Bounded(vs, lo, hi)
    decreases vs
    ensures lo <= Smooth(e, vs, k) <= hi
  {
    if vs != [] {
      ConvexBetween(vs[0], e, k, lo, hi);
      BoundedSlice(vs, 1, |vs|, lo, hi);
      assert vs[1..|vs|] == vs[1..];
      SmoothBetween(vs[0] * k + e * (1.0 - k), vs[1..], k, lo, hi);
    }
  }

  /** Every value lies between the smallest and the largest. */
  lemma BoundedByExtremes(s: seq<real>)
    requires s != []
    ensures Bounded(s, Lowest(s), Highest(s))
  {
  }

  /** The seed of `ema` and `atr`, the mean of the first `n` values, and
      the values after it all lie between the smallest and largest value. */
  lemma SeedBetween(s: seq<real>, n: int)
    requires 0 < n <= |s|
    ensures Lowest(s) <= Sum(s[..n]) / n as real <= Highest(s)
  {
    var lo, hi := Lowest(s), Highest(s);
    BoundedByExtremes(s);
    BoundedSlice(s, 0, n, lo, hi);
    assert s[0..n] == s[..n];
    MeanBetween(s[..n], lo, hi);
  }

  /** What follows the seed window also lies between the extremes. */
  lemma RestBetween(s: seq<real>, n: int)
    requires 0 < n <= |s|
    ensures Bounded(s[n..], Lowest(s), Highest(s))
  {
    BoundedByExtremes(s);
    BoundedSlice(s, n, |s|, Lowest(s), Highest(s));
    assert s[n..|s|] == s[n..];
  }

  /** The seed and smoothing of `ema` stay within the values read. */
  lemma EmaBetween(values: seq<real>, n: int, k: real)
    requires 0 < n <= |values| && 0.0 <= k <= 1.0
    ensures Lowest(values) <= Smooth(Sum(values[..n]) / n as real, values[n..], k) <= Highest(values)
  {
    SeedBetween(values, n);
    RestBetween(values, n);
    SmoothBetween(Sum(values[..n]) / n as real, values[n..], k, Lowest(values), Highest(values));
  }

  /** `ema(values, n)`: seeded with the mean of the first `n` values, then
      smoothed over the rest of the same window with factor `2/(n+1)`. The
      result lies between the smallest and the largest value read. */
  function EmaOf(values: seq<real>, n: int): (r: Option<real>)
    ensures r.None? <==> |values| < n || n <= 0
    ensures r.Some? ==> Lowest(values) <= r.value <= Highest(values)
  {
    if |values| < n || n <= 0 then None
    else
      DivBetween(2.0, (n + 1) as real, 0.0, 1.0);
      EmaBetween(values, n, 2.0 / (n + 1) as real);
      Some(Smooth(Sum(values[..n]) / n as real, values[n..], 2.0 / (n + 1) as real))
  }

  method Ema(values: seq<real>, n: int) returns (r: Option<real>)
    ensures r == EmaOf(values, n)
  {
    if |values| < n || n <= 0 {
      return None;
    }
    var k := 2.0 / (n + 1) as real;
    var e := Sum(values[..n]) / n as real;
    for i := n to |values|
      invariant Smooth(e, values[i..], k) == Smooth(Sum(values[..n]) / n as real, values[n..], k)
    {
      assert values[i..][1..] == values[i + 1..];
      e := values[i] * k + e * (1.0 - k);
    }
    assert values[|values|..] == [];
    r := Some(e);
  }

  // ---------------------------------------------------------------- RSI

  /** The contribution of one price difference to the gains and the losses. */
  function Gain(d: real): real { if d >= 0.0 then d else 0.0 }
  function Loss(d: real): real { if d >= 0.0 then 0.0 else -d }

  /** Sum of the gains of the differences `values[j] - values[j-1]`, `lo <= j < hi`. */
  function Gains(values: seq<real>, lo: int, hi: int): (g: real)
    requires 1 <= lo <= hi <= |values|
    ensures g >= 0.0
    decreases hi - lo
  {
    if hi == lo then 0.0 else Gains(values, lo, hi - 1) + Gain(values[hi - 1] - values[hi - 2])
  }

  /** Sum of the losses (as positive numbers) of the same differences. */
  function Losses(values: seq<real>, lo: int, hi: int): (l: real)
    requires 1 <= lo <= hi <= |values|
    ensures l >= 0.0
    ensures l == 0.0 <==> forall j :: lo <= j < hi ==> values[j - 1] <= values[j]
    decreases hi - lo
  {
    if hi == lo then 0.0 else Losses(values, lo, hi - 1) + Loss(values[hi - 1] - values[hi - 2])
  }

  /** None of the last `n` differences of `values` is a fall. */
  predicate NeverFalls(values: seq<real>, n: int)
  {
    forall j :: |values| - n <= j < |values| && 1 <= j ==> values[j - 1] <= values[j]
  }

  /** `rsi(values, n)` over the last `n` differences: exactly 100 when none of
      them is a fall, otherwise in `[0, 100)`. */
  function RsiOf(values: seq<real>, n: int): (r: Option<real>)
    ensures r.None? <==> |values| < n + 1
    ensures r.Some? && NeverFalls(values, n) ==> r.value == 100.0
    ensures r.Some? && !NeverFalls(values, n) ==> 0.0 <= r.value < 100.0
  {
    if |values| < n + 1 then None
    else
      var gains := if n <= 0 then 0.0 else Gains(values, |values| - n, |values|);
      var losses := if n <= 0 then 0.0 else Losses(values, |values| - n, |values|);
      if losses == 0.0 then Some(100.0)
      else
        var rs := gains / losses;
        assert rs >= 0.0;
        assert 100.0 / (1.0 + rs) <= 100.0;
        Some(100.0 - 100.0 / (1.0 + rs))
  }

  method Rsi(values: seq<real>, n: int) returns (r: Option<real>)
    ensures r == RsiOf(values, n)
  {
    if |values| < n + 1 {
      return None;
    }
    var gains, losses := 0.0, 0.0;
    var i := -n;
    while i < 0
      invariant if n >= 1 then
          && -n <= i <= 0
          && gains == Gains(values, |values| - n, |values| + i)
          && losses == Losses(values, |values| - n, |values| + i)
        else i == -n && gains == 0.0 && losses == 0.0
    {
      var d := values[|values| + i] - values[|values| + i - 1];
      if d >= 0.0 {
        gains := gains + d;
      } else {
        losses := losses - d;
      }
      i := i + 1;
    }
    if losses == 0.0 {
      return Some(100.0);
    }
    var rs := gains / losses;
    r := Some(100.0 - 100.0 / (1.0 + rs));
  }

  // ---------------------------------------------------------------- ATR

  /** The true range of a bar against the previous close. */
  function TrueRange(high: real, low: real, prevClose: real): (tr: real)
    ensures tr >= 0.0
    ensures tr >= high - low && tr >= Abs(high - prevClose) && tr >= Abs(low - prevClose)
    ensures tr == high - low || tr == Abs(high - prevClose) || tr == Abs(low - prevClose)
  {
    Max(Max(high - low, Abs(high - prevClose)), Abs(low - prevClose))
  }

  /** The list `trs` that `atr` builds: one true range per bar after the first. */
  function TrueRanges(high: seq<real>, low: seq<real>, close: seq<real>): (trs: seq<real>)
    requires |high| >= |close| && |low| >= |close|
  {
    if |close| == 0 then []
    else seq(|close| - 1, j requires 0 <= j < |close| - 1 => TrueRange(high[j + 1], low[j + 1], close[j]))
  }

  /** The smoothing loop of `atr`: each true range `x` replaces `a` by `(a*(n-1) + x)/n`. */
  function Wilder(a: real, xs: seq<real>, n: int): real
    requires n >= 1
    decreases xs
  {
    if xs == [] then a else Wilder((a * (n - 1) as real + xs[0]) / n as real, xs[1..], n)
  }

  lemma {:induction false} WilderBetween(a: real, xs: seq<real>, n: int, lo: real, hi: real)
    requires n >= 1 && lo <= a <= hi && Bounded(xs, lo, hi)
    decreases xs
    ensures lo <= Wilder(a, xs, n) <= hi
  {
    if xs != [] {
      var k := 1.0 / n as real;
      assert (a * (n - 1) as real + xs[0]) / n as real == xs[0] * k + a * (1.0 - k);
      ConvexBetween(xs[0], a, k, lo, hi);
      BoundedSlice(xs, 1, |xs|, lo, hi);
      assert xs[1..|xs|] == xs[1..];
      WilderBetween((a * (n - 1) as real + xs[0]) / n as real, xs[1..], n, lo, hi);
    }
  }

  /** The seed of `atr` smoothed over the remaining true ranges. */
  function Smoothed(trs: seq<real>, n: int): real
    requires 1 <= n <= |trs|
  {
    Wilder(Sum(trs[..n]) / n as real, trs[n..], n)
  }

  /** The seed and smoothing of `atr` stay within the true ranges read. */
  lemma AtrBetween(trs: seq<real>, n: int)
    requires 1 <= n <= |trs|
    ensures Lowest(trs) <= Smoothed(trs, n) <= Highest(trs)
  {
    SeedBetween(trs, n);
    RestBetween(trs, n);
    WilderBetween(Sum(trs[..n]) / n as real, trs[n..], n, Lowest(trs), Highest(trs));
  }

  /** `atr(high, low, close, n)`: seeded with the mean of the first `n` true
      ranges, then Wilder-smoothed over the rest. It is never negative, and it
      lies between the smallest and the largest true range. */
  function AtrOf(high: seq<real>, low: seq<real>, close: seq<real>, n: int): (r: Option<real>)
    requires n >= 1 && |high| >= |close| && |low| >= |close|
    ensures r.None? <==> |close| < n + 1
    ensures r.Some? ==> 0.0 <= r.value
    ensures r.Some? ==>
      var trs := TrueRanges(high, low, close);
      trs != [] && Lowest(trs) <= r.value <= Highest(trs)
  {
    if |close| < n + 1 then None
    else
      var trs := TrueRanges(high, low, close);
      assert 0.0 <= Lowest(trs) by {
        assert Lowest(trs) in trs;
      }
      AtrBetween(trs, n);
      Some(Smoothed(trs, n))
  }

  /** The loop of `atr` that collects one true range per bar after the first. */
  method CollectTrueRanges(high: seq<real>, low: seq<real>, close: seq<real>) returns (trs: seq<real>)
    requires |high| >= |close| && |low| >= |close|
    ensures trs == TrueRanges(high, low, close)
  {
    trs := [];
    if |close| == 0 {
      return;
    }
    for i := 1 to |close|
      invariant |trs| == i - 1
      invariant forall j :: 0 <= j < i - 1 ==> trs[j] == TrueRange(high[j + 1], low[j + 1], close[j])
    {
      var tr := Max(Max(high[i] - low[i], Abs(high[i] - close[i - 1])), Abs(low[i] - close[i - 1]));
      trs := trs + [tr];
    }
    assert |trs| == |TrueRanges(high, low, close)|;
    forall j | 0 <= j < |trs| ensures trs[j] == TrueRanges(high, low, close)[j] {
    }
  }

  /** The smoothing loop of `atr` over the true ranges, after the seed. */
  method SmoothTrueRanges(trs: seq<real>, n: int) returns (a: real)
    requires 1 <= n <= |trs|
    ensures a == Smoothed(trs, n)
  {
    a := Sum(trs[..n]) / n as real;
    for i := n to |trs|
      invariant Wilder(a, trs[i..], n) == Smoothed(trs, n)
    {
      assert trs[i..][1..] == trs[i + 1..];
      a := (a * (n - 1) as real + trs[i]) / n as real;
    }
    assert trs[|trs|..] == [];
  }

  method Atr(high: seq<real>, low: seq<real>, close: seq<real>, n: int) returns (r: Option<real>)
    requires n >= 1 && |high| >= |close| && |low| >= |close|
    ensures r == AtrOf(high, low, close, n)
  {
    if |close| < n + 1 {
      return None;
    }
    var trs := CollectTrueRanges(high, low, close);
    // len(trs) == len(close) - 1 >= n here, so the source's second length check never fires.
    var a := SmoothTrueRanges(trs, n);
    r := Some(a);
  }
}
