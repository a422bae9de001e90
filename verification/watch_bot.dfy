/** The price-alert bot: the per-chat `WatchState`, one tick of the
    `watcher` loop, `ensure_state` and the state updates of the command
    handlers. A price read is an input (`None` when `get_price` raised); a
    command argument arrives with the result of `float()` on it already
    known. */
module WatchBot {
  import opened Base

  /** The per-chat settings and alert state of `WatchState` (the asyncio task
      handle is not part of it; see `BotState.CmdWatch`). */
  datatype WatchState = WatchState(
    symbol: string,
    category: string,
    interval: real,
    above: Option<real>,
    below: Option<real>,
    pctMove: Option<real>,
    baseline: Option<real>,
    lastAboveTriggered: bool,
    lastBelowTriggered: bool,
    running: bool)

  /** `WatchState()`: ETHUSDT on spot, polled every 5 seconds, no alerts set. */
  const DefaultWatch := WatchState("ETHUSDT", "spot", 5.0, None, None, None, None, false, false, false)

  /** The market categories `/category` accepts. */
  const Categories: set<string> := {"spot", "linear", "inverse", "option"}

  /** One alert line of a tick's message. `Move` records the relative move in
      percent, whether it was upwards and the baseline it was measured from. */
  datatype Alert =
    | Above(level: real, price: real)
    | Below(level: real, price: real)
    | Move(delta: real, up: bool, base: real, price: real)

  /** The position of each kind of alert in a message. */
  function Rank(a: Alert): int
  {
    match a
    case Above(_, _) => 0
    case Below(_, _) => 1
    case Move(_, _, _, _) => 2
  }

  predicate HasAbove(alerts: seq<Alert>)
  {
    exists i :: 0 <= i < |alerts| && alerts[i].Above?
  }

  predicate HasBelow(alerts: seq<Alert>)
  {
    exists i :: 0 <= i < |alerts| && alerts[i].Below?
  }

  predicate HasMove(alerts: seq<Alert>)
  {
    exists i :: 0 <= i < |alerts| && alerts[i].Move?
  }

  /** The outcome of one tick: the new state, the alerts raised and whether
      the tick's message was sent (`false`: the `[WARN]` of an exception
      was sent instead, and the alerts were lost). */
  datatype TickResult = TickResult(state: WatchState, alerts: seq<Alert>, sent: bool)

  /** The baseline the percentage check of a tick at price `p` measures from. */
  function BaseOf(st: WatchState, p: real): real
  {
    if st.baseline.Some? then st.baseline.value else p
  }

  /** The state once a tick at price `p` has taken the missing baseline of
      a set percentage threshold (lines 75-76). */
  function TakeBaseline(st: WatchState, p: real): (st': WatchState)
    ensures st'.pctMove.Some? ==> st'.baseline == Some(BaseOf(st, p))
    ensures st' == st.(baseline := st'.baseline)
    ensures BaseOf(st', p) == BaseOf(st, p)
  {
    if st.pctMove.Some? && st.baseline.None? then st.(baseline := Some(p)) else st
  }

  /** The "above" check of a tick (lines 81-86): the alert it raises, if
      any, and the new latch. */
  function AboveCheck(st: WatchState, p: real): (r: (seq<Alert>, bool))
    ensures r.0 != [] ==> st.above.Some? && r.0 == [Above(st.above.value, p)]
    ensures r.0 != [] <==> st.above.Some? && p >= st.above.value && !st.lastAboveTriggered
    ensures r.1 == if st.above.Some? then p >= st.above.value else st.lastAboveTriggered
  {
    if st.above.None? then ([], st.lastAboveTriggered)
    else if p >= st.above.value && !st.lastAboveTriggered then ([Above(st.above.value, p)], true)
    else if p < st.above.value then ([], false)
    else ([], st.lastAboveTriggered)
  }

  /** The "below" check of a tick (lines 87-92), the mirror image. */
  function BelowCheck(st: WatchState, p: real): (r: (seq<Alert>, bool))
    ensures r.0 != [] ==> st.below.Some? && r.0 == [Below(st.below.value, p)]
    ensures r.0 != [] <==> st.below.Some? && p <= st.below.value && !st.lastBelowTriggered
    ensures r.1 == if st.below.Some? then p <= st.below.value else st.lastBelowTriggered
  {
    if st.below.None? then ([], st.lastBelowTriggered)
    else if p <= st.below.value && !st.lastBelowTriggered then ([Below(st.below.value, p)], true)
    else if p > st.below.value then ([], false)
    else ([], st.lastBelowTriggered)
  }

  /** The relative move in percent of `p` against a non-zero baseline. */
  function MovePct(p: real, base: real): real
    requires base != 0.0
  {
    Abs(p - base) / base * 100.0
  }

  /** The percentage check of a tick (lines 93-98) against the baseline
      `BaseOf(st, p)`: `None` for the division by zero of a zero baseline,
      otherwise the alert it raises, if any, and the new baseline. */
  function MoveCheck(st: WatchState, p: real): (r: Option<(seq<Alert>, Option<real>)>)
    ensures r.None? <==> st.pctMove.Some? && BaseOf(st, p) == 0.0
    ensures r.Some? ==> (r.value.0 != [] <==>
      st.pctMove.Some? && MovePct(p, BaseOf(st, p)) >= st.pctMove.value)
    ensures r.Some? && r.value.0 != [] ==>
      r.value.0 == [Move(MovePct(p, BaseOf(st, p)), p > BaseOf(st, p), BaseOf(st, p), p)]
    ensures r.Some? && st.pctMove.None? ==> r.value.1 == st.baseline
    ensures r.Some? && st.pctMove.Some? ==>
      r.value.1 == Some(if r.value.0 != [] then p else BaseOf(st, p))
  {
    if st.pctMove.None? then Some(([], st.baseline))
    else
      var base := BaseOf(st, p);
      if base == 0.0 then None
      else if MovePct(p, base) >= st.pctMove.value then
        Some(([Move(MovePct(p, base), p > base, base, p)], Some(p)))
      else Some(([], Some(base)))
  }

  /** Alerts of one kind each, concatenated in rank order: each kind is
      present exactly when its part is non-empty, and the ranks increase. */
  lemma {:induction false} KindsInOrder(a: seq<Alert>, b: seq<Alert>, c: seq<Alert>)
    requires a == [] || (|a| == 1 && a[0].Above?)
    requires b == [] || (|b| == 1 && b[0].Below?)
    requires c == [] || (|c| == 1 && c[0].Move?)
    ensures HasAbove(a + b + c) <==> a != []
    ensures HasBelow(a + b + c) <==> b != []
    ensures HasMove(a + b + c) <==> c != []
    ensures forall i, j :: 0 <= i < j < |a + b + c| ==> Rank((a + b + c)[i]) < Rank((a + b + c)[j])
  {
    var s := a + b + c;
    assert forall i :: 0 <= i < |s| ==>
      (s[i].Above? <==> i < |a|) && (s[i].Below? <==> |a| <= i < |a| + |b|)
      && (s[i].Move? <==> |a| + |b| <= i);
    if a != [] {
      assert s[0].Above?;
    }
    if b != [] {
      assert s[|a|].Below?;
    }
    if c != [] {
      assert s[|a| + |b|].Move?;
    }
  }

  /** The alerts of one tick at price `p` (lines 80-98), at most one of each
      kind and in the order above, below, percentage move. */
  function TickAlerts(st: WatchState, p: real): (alerts: seq<Alert>)
    ensures HasAbove(alerts) <==> st.above.Some? && p >= st.above.value && !st.lastAboveTriggered
    ensures HasBelow(alerts) <==> st.below.Some? && p <= st.below.value && !st.lastBelowTriggered
    ensures HasMove(alerts) <==>
      && st.pctMove.Some? && BaseOf(st, p) != 0.0
      && MovePct(p, BaseOf(st, p)) >= st.pctMove.value
    ensures forall i :: 0 <= i < |alerts| ==> alerts[i].price == p
    ensures forall i :: 0 <= i < |alerts| && alerts[i].Move? ==>
      alerts[i].base == BaseOf(st, p) && alerts[i].up == (p > BaseOf(st, p))
    ensures forall i, j :: 0 <= i < j < |alerts| ==> Rank(alerts[i]) < Rank(alerts[j])
  {
    var st1 := TakeBaseline(st, p);
    var move := MoveCheck(st1, p);
    var moveAlerts := if move.None? then [] else move.value.0;
    KindsInOrder(AboveCheck(st1, p).0, BelowCheck(st1, p).0, moveAlerts);
    AboveCheck(st1, p).0 + BelowCheck(st1, p).0 + moveAlerts
  }

  /** One tick of `watcher` at price `p` (lines 75-98). The latches record
      whether the last price was at or beyond their threshold, so an alert
      of a kind fires on the tick that crosses its threshold and not again
      until the price has come back. A percentage move against the
      baseline fires and re-bases at the price. A zero baseline makes the
      percentage check divide by zero: the latch updates before it stay,
      and the tick's message, with its alerts, is replaced by a warning. */
  function Watch(st: WatchState, p: real): (t: TickResult)
    ensures t.state == st.(lastAboveTriggered := t.state.lastAboveTriggered,
                           lastBelowTriggered := t.state.lastBelowTriggered,
                           baseline := t.state.baseline)
    ensures st.above.Some? ==> t.state.lastAboveTriggered == (p >= st.above.value)
    ensures st.above.None? ==> t.state.lastAboveTriggered == st.lastAboveTriggered
    ensures st.below.Some? ==> t.state.lastBelowTriggered == (p <= st.below.value)
    ensures st.below.None? ==> t.state.lastBelowTriggered == st.lastBelowTriggered
    ensures !t.sent <==> st.pctMove.Some? && BaseOf(st, p) == 0.0
    ensures t.alerts == TickAlerts(st, p)
    ensures st.pctMove.None? ==> t.state.baseline == st.baseline
    ensures st.pctMove.Some? ==>
      t.state.baseline == Some(if HasMove(t.alerts) then p else BaseOf(st, p))
  {
    var st1 := TakeBaseline(st, p);
    var move := MoveCheck(st1, p);
    var latched := st1.(lastAboveTriggered := AboveCheck(st1, p).1, lastBelowTriggered := BelowCheck(st1, p).1);
    if move.None? then TickResult(latched, TickAlerts(st, p), false)
    else TickResult(latched.(baseline := move.value.1), TickAlerts(st, p), true)
  }

  /** A tick is its four blocks run in order on the state that has taken
      its baseline: above, below, then the percentage check. */
  lemma WatchBySteps(st: WatchState, p: real)
    ensures var st1 := TakeBaseline(st, p);
      var above, below, move := AboveCheck(st1, p), BelowCheck(st1, p), MoveCheck(st1, p);
      var latched := st1.(lastAboveTriggered := above.1, lastBelowTriggered := below.1);
      Watch(st, p) ==
        if move.None? then TickResult(latched, above.0 + below.0, false)
        else TickResult(latched.(baseline := move.value.1), above.0 + below.0 + move.value.0, true)
  {
  }

  /** The state after ticks at the prices `ps`, in order. */
  function After(st: WatchState, ps: seq<real>): WatchState
    decreases |ps|
  {
    if ps == [] then st else Watch(After(st, ps[..|ps| - 1]), ps[|ps| - 1]).state
  }

  /** The tick at index `k` of a run of ticks at the prices `ps`. */
  function TickAt(st: WatchState, ps: seq<real>, k: int): TickResult
    requires 0 <= k < |ps|
  {
    Watch(After(st, ps[..k]), ps[k])
  }

  /** Ticks change neither the settings nor the thresholds. */
  lemma {:induction false} AfterKeepsSettings(st: WatchState, ps: seq<real>)
    ensures After(st, ps) == st.(lastAboveTriggered := After(st, ps).lastAboveTriggered,
                                 lastBelowTriggered := After(st, ps).lastBelowTriggered,
                                 baseline := After(st, ps).baseline)
    decreases |ps|
  {
    if ps != [] {
      AfterKeepsSettings(st, ps[..|ps| - 1]);
    }
  }

  /** After at least one tick, the above latch says whether the last price
      was at or over the threshold, and the below latch whether it was at or
      under its own. */
  lemma LatchesRecordLastPrice(st: WatchState, ps: seq<real>)
    requires ps != []
    ensures st.above.Some? ==> After(st, ps).lastAboveTriggered == (ps[|ps| - 1] >= st.above.value)
    ensures st.below.Some? ==> After(st, ps).lastBelowTriggered == (ps[|ps| - 1] <= st.below.value)
  {
    AfterKeepsSettings(st, ps[..|ps| - 1]);
  }

  /** Two "above" alerts in a run are always separated by a tick strictly
      below the threshold. */
  lemma AboveAlertsSeparated(st: WatchState, ps: seq<real>, i: int, j: int)
    requires 0 <= i < j < |ps|
    requires HasAbove(TickAt(st, ps, i).alerts) && HasAbove(TickAt(st, ps, j).alerts)
    ensures st.above.Some?
    ensures exists k :: i < k < j && ps[k] < st.above.value
  {
    AfterKeepsSettings(st, ps[..j]);
    AfterKeepsSettings(st, ps[..i]);
    LatchesRecordLastPrice(st, ps[..j]);
    assert ps[..j][j - 1] == ps[j - 1];
    if j - 1 == i {
      assert false;
    }
    assert i < j - 1 < j && ps[j - 1] < st.above.value;
  }

  /** Two "below" alerts in a run are always separated by a tick strictly
      above the threshold. */
  lemma BelowAlertsSeparated(st: WatchState, ps: seq<real>, i: int, j: int)
    requires 0 <= i < j < |ps|
    requires HasBelow(TickAt(st, ps, i).alerts) && HasBelow(TickAt(st, ps, j).alerts)
    ensures st.below.Some?
    ensures exists k :: i < k < j && ps[k] > st.below.value
  {
    AfterKeepsSettings(st, ps[..j]);
    AfterKeepsSettings(st, ps[..i]);
    LatchesRecordLastPrice(st, ps[..j]);
    assert ps[..j][j - 1] == ps[j - 1];
    if j - 1 == i {
      assert false;
    }
    assert i < j - 1 < j && ps[j - 1] > st.below.value;
  }

  /** The first tick after `/pct` sets a positive threshold only takes the
      baseline: it raises no percentage alert. */
  lemma PctFirstTickQuiet(st: WatchState, v: real, p: real)
    requires v > 0.0 && p != 0.0
    ensures var t := Watch(st.(pctMove := Some(v), baseline := None), p);
      !HasMove(t.alerts) && t.state.baseline == Some(p) && t.sent
  {
  }

  /** The time `watcher` sleeps between ticks: at least a second. */
  function PollDelay(st: WatchState): (d: real)
    ensures d >= 1.0 && d >= st.interval
    ensures d == 1.0 || d == st.interval
  {
    Max(1.0, st.interval)
  }

  // ------------------------------------------------------------ chat state

  /** `ensure_state(chat_id)` on the map of watches. */
  function Ensured(m: map<int, WatchState>, chat: int): (r: map<int, WatchState>)
    ensures chat in r && r.Keys == m.Keys + {chat}
    ensures r[chat] == if chat in m then m[chat] else DefaultWatch
    ensures forall c :: c in m && c != chat ==> r[c] == m[c]
    ensures chat in m ==> r == m
  {
    if chat in m then m else m[chat := DefaultWatch]
  }

  lemma EnsuredIdempotent(m: map<int, WatchState>, chat: int)
    ensures Ensured(Ensured(m, chat), chat) == Ensured(m, chat)
  {
  }

  /** A command argument: its text and what `float()` gives for it (`None`
      when it raises ValueError). */
  datatype Arg = Arg(text: string, number: Option<real>)

  /** What a command handler answers. `Raised` is an exception escaping the
      handler (a float that does not parse); `ShowCurrent` is the reply to
      `/interval` or `/category` without arguments. */
  datatype Reply = Usage | Raised | ShowCurrent | Rejected | Updated | AlreadyRunning | Started

  function AsciiLowerChar(c: char): char
  {
    if 'A' <= c <= 'Z' then (c as int + 32) as char else c
  }

  function AsciiUpperChar(c: char): char
  {
    if 'a' <= c <= 'z' then (c as int - 32) as char else c
  }

  /** `str.lower()` on ASCII letters. */
  function AsciiLower(s: string): (r: string)
    ensures |r| == |s|
    ensures forall i :: 0 <= i < |s| ==> r[i] == AsciiLowerChar(s[i])
    ensures forall i :: 0 <= i < |r| ==> !('A' <= r[i] <= 'Z')
  {
    seq(|s|, i requires 0 <= i < |s| => AsciiLowerChar(s[i]))
  }

  /** `str.upper()` on ASCII letters. */
  function AsciiUpper(s: string): (r: string)
    ensures |r| == |s|
    ensures forall i :: 0 <= i < |s| ==> r[i] == AsciiUpperChar(s[i])
    ensures forall i :: 0 <= i < |r| ==> !('a' <= r[i] <= 'z')
  {
    seq(|s|, i requires 0 <= i < |s| => AsciiUpperChar(s[i]))
  }

  /** Every category a chat can hold through `/category` is one Bybit knows. */
  predicate CategoriesKnown(m: map<int, WatchState>)
  {
    forall c :: c in m ==> m[c].category in Categories
  }

  /** The "above" block of a tick, appending to the tick's alerts. */
  method AboveStep(st: WatchState, p: real, alerts: seq<Alert>) returns (alerts': seq<Alert>, st': WatchState)
    ensures alerts' == alerts + AboveCheck(st, p).0
    ensures st' == st.(lastAboveTriggered := AboveCheck(st, p).1)
  {
    alerts', st' := alerts, st;
    if st.above.Some? {
      if p >= st.above.value && !st.lastAboveTriggered {
        alerts' := alerts' + [Above(st.above.value, p)];
        st' := st'.(lastAboveTriggered := true);
      } else if p < st.above.value {
        st' := st'.(lastAboveTriggered := false);
      }
    }
  }

  /** The "below" block of a tick, appending to the tick's alerts. */
  method BelowStep(st: WatchState, p: real, alerts: seq<Alert>) returns (alerts': seq<Alert>, st': WatchState)
    ensures alerts' == alerts + BelowCheck(st, p).0
    ensures st' == st.(lastBelowTriggered := BelowCheck(st, p).1)
  {
    alerts', st' := alerts, st;
    if st.below.Some? {
      if p <= st.below.value && !st.lastBelowTriggered {
        alerts' := alerts' + [Below(st.below.value, p)];
        st' := st'.(lastBelowTriggered := true);
      } else if p > st.below.value {
        st' := st'.(lastBelowTriggered := false);
      }
    }
  }

  /** The percentage block of a tick, on a state whose baseline has been
      taken; `ok` is false for the division by zero of a zero baseline. */
  method MoveStep(st: WatchState, p: real, alerts: seq<Alert>) returns (alerts': seq<Alert>, st': WatchState, ok: bool)
    requires st.pctMove.Some? ==> st.baseline.Some?
    ensures ok <==> MoveCheck(st, p).Some?
    ensures !ok ==> alerts' == alerts && st' == st
    ensures ok ==> alerts' == alerts + MoveCheck(st, p).value.0
    ensures ok ==> st' == st.(baseline := MoveCheck(st, p).value.1)
  {
    alerts', st', ok := alerts, st, true;
    if st.pctMove.Some? && st.baseline.Some? {
      var base := st.baseline.value;
      if base == 0.0 {
        return alerts', st', false;
      }
      var delta := Abs(p - base) / base * 100.0;
      if delta >= st.pctMove.value {
        alerts' := alerts' + [Move(delta, p > base, base, p)];
        st' := st'.(baseline := Some(p));
      }
    }
  }

  /** The body of `watcher`'s loop after a price `p` was read (lines 75-98),
      block by block. */
  method Tick(st: WatchState, p: real) returns (t: TickResult)
    ensures t == Watch(st, p)
  {
    var cur := st;
    if cur.pctMove.Some? && cur.baseline.None? {
      cur := cur.(baseline := Some(p));
    }
    ghost var st1 := cur;
    ghost var above, below := AboveCheck(st1, p), BelowCheck(st1, p);
    var alerts := [];
    alerts, cur := AboveStep(cur, p, alerts);
    alerts, cur := BelowStep(cur, p, alerts);
    assert alerts == above.0 + below.0;
    assert MoveCheck(cur, p) == MoveCheck(st1, p);
    var sent;
    alerts, cur, sent := MoveStep(cur, p, alerts);
    WatchBySteps(st, p);
    t := TickResult(cur, alerts, sent);
  }

  class BotState {
    /** `STATE.watches`: the watch of each chat id. */
    var watches: map<int, WatchState>

    constructor ()
      ensures watches == map[]
    {
      watches := map[];
    }

    method EnsureState(chat: int) returns (st: WatchState)
      modifies this
      ensures watches == Ensured(old(watches), chat)
      ensures st == watches[chat]
    {
      if chat !in watches {
        watches := watches[chat := DefaultWatch];
      }
      st := watches[chat];
    }

    /** One tick of the `watcher` task of `chat` on the price read `read`
        (`None`: `get_price` raised, a warning is sent and nothing changes). */
    method WatcherTick(chat: int, read: Option<real>) returns (alerts: seq<Alert>, sent: bool)
      requires chat in watches
      modifies this
      ensures read.None? ==> watches == old(watches) && alerts == [] && !sent
      ensures read.Some? ==>
        var t := Watch(old(watches)[chat], read.value);
        && watches == old(watches)[chat := t.state]
        && alerts == t.alerts && sent == t.sent
    {
      alerts, sent := [], false;
      if read.None? {
        return;
      }
      var t := Tick(watches[chat], read.value);
      watches := watches[chat := t.state];
      alerts, sent := t.alerts, t.sent;
    }

    /** `/above <price>`: sets the threshold and clears only its own latch. */
    method CmdAbove(chat: int, args: seq<Arg>) returns (reply: Reply)
      modifies this
      ensures args == [] ==> reply == Usage && watches == Ensured(old(watches), chat)
      ensures args != [] && args[0].number.None? ==>
        reply == Raised && watches == Ensured(old(watches), chat)
      ensures args != [] && args[0].number.Some? ==>
        var m := Ensured(old(watches), chat);
        reply == Updated
        && watches == m[chat := m[chat].(above := args[0].number, lastAboveTriggered := false)]
    {
      var st := EnsureState(chat);
      if args == [] {
        return Usage;
      }
      if args[0].number.None? {
        return Raised;
      }
      watches := watches[chat := st.(above := args[0].number, lastAboveTriggered := false)];
      return Updated;
    }

    /** `/below <price>`: the mirror of `/above`. */
    method CmdBelow(chat: int, args: seq<Arg>) returns (reply: Reply)
      modifies this
      ensures args == [] ==> reply == Usage && watches == Ensured(old(watches), chat)
      ensures args != [] && args[0].number.None? ==>
        reply == Raised && watches == Ensured(old(watches), chat)
      ensures args != [] && args[0].number.Some? ==>
        var m := Ensured(old(watches), chat);
        reply == Updated
        && watches == m[chat := m[chat].(below := args[0].number, lastBelowTriggered := false)]
    {
      var st := EnsureState(chat);
      if args == [] {
        return Usage;
      }
      if args[0].number.None? {
        return Raised;
      }
      watches := watches[chat := st.(below := args[0].number, lastBelowTriggered := false)];
      return Updated;
    }

    /** `/pct <X>`: sets the move threshold and drops the baseline, so the
        next tick takes a fresh one. */
    method CmdPct(chat: int, args: seq<Arg>) returns (reply: Reply)
      modifies this
      ensures args == [] ==> reply == Usage && watches == Ensured(old(watches), chat)
      ensures args != [] && args[0].number.None? ==>
        reply == Raised && watches == Ensured(old(watches), chat)
      ensures args != [] && args[0].number.Some? ==>
        var m := Ensured(old(watches), chat);
        reply == Updated
        && watches == m[chat := m[chat].(pctMove := args[0].number, baseline := None)]
    {
      var st := EnsureState(chat);
      if args == [] {
        return Usage;
      }
      if args[0].number.None? {
        return Raised;
      }
      watches := watches[chat := st.(pctMove := args[0].number, baseline := None)];
      return Updated;
    }

    /** `/interval <sec>`: stores the period, raised to at least a second. */
    method CmdInterval(chat: int, args: seq<Arg>) returns (reply: Reply)
      modifies this
      ensures args == [] ==> reply == ShowCurrent && watches == Ensured(old(watches), chat)
      ensures args != [] && args[0].number.None? ==>
        reply == Raised && watches == Ensured(old(watches), chat)
      ensures args != [] && args[0].number.Some? ==>
        var m := Ensured(old(watches), chat);
        reply == Updated
        && chat in watches
        && watches == m[chat := m[chat].(interval := watches[chat].interval)]
        && watches[chat].interval >= 1.0
        && watches[chat].interval >= args[0].number.value
        && (watches[chat].interval == 1.0 || watches[chat].interval == args[0].number.value)
    {
      var st := EnsureState(chat);
      if args == [] {
        return ShowCurrent;
      }
      if args[0].number.None? {
        return Raised;
      }
      watches := watches[chat := st.(interval := Max(1.0, args[0].number.value))];
      return Updated;
    }

    /** `/category <name>`: lower-cases the name and stores it only when it
        is one of the four known categories. */
    method CmdCategory(chat: int, args: seq<Arg>) returns (reply: Reply)
      modifies this
      ensures CategoriesKnown(old(watches)) ==> CategoriesKnown(watches)
      ensures var m := Ensured(old(watches), chat);
        if args == [] then reply == ShowCurrent && watches == m
        else if AsciiLower(args[0].text) !in Categories then reply == Rejected && watches == m
        else reply == Updated && watches == m[chat := m[chat].(category := AsciiLower(args[0].text))]
    {
      var st := EnsureState(chat);
      if args == [] {
        return ShowCurrent;
      }
      var c := AsciiLower(args[0].text);
      if c !in Categories {
        return Rejected;
      }
      watches := watches[chat := st.(category := c)];
      return Updated;
    }

    /** `/watch <SYMBOL> [interval]`: stores the upper-cased symbol and, when
        it parses, the interval as given; then starts the watcher unless
        the chat's task is still live (`taskLive`). The settings are stored
        either way. */
    method CmdWatch(chat: int, args: seq<Arg>, taskLive: bool) returns (reply: Reply)
      modifies this
      ensures var m := Ensured(old(watches), chat);
        var st := m[chat];
        var symbol := if args != [] then AsciiUpper(args[0].text) else st.symbol;
        var interval := if |args| >= 2 && args[1].number.Some? then args[1].number.value else st.interval;
        var running := if taskLive then st.running else true;
        && reply == (if taskLive then AlreadyRunning else Started)
        && watches == m[chat := st.(symbol := symbol, interval := interval, running := running)]
    {
      var st := EnsureState(chat);
      if args != [] {
        st := st.(symbol := AsciiUpper(args[0].text));
      }
      if |args| >= 2 && args[1].number.Some? {
        st := st.(interval := args[1].number.value);
      }
      if taskLive {
        watches := watches[chat := st];
        return AlreadyRunning;
      }
      st := st.(running := true);
      watches := watches[chat := st];
      return Started;
    }
  }

  /** After `/above v` the next tick at or over `v` alerts, whatever the
      latch was before. */
  lemma AboveRearmed(st: WatchState, v: real, p: real)
    requires p >= v
    ensures HasAbove(Watch(st.(above := Some(v), lastAboveTriggered := false), p).alerts)
  {
  }

  /** After `/below v` the next tick at or under `v` alerts. */
  lemma BelowRearmed(st: WatchState, v: real, p: real)
    requires p <= v
    ensures HasBelow(Watch(st.(below := Some(v), lastBelowTriggered := false), p).alerts)
  {
  }
}
