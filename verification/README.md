# Bybit auto-trader and price-alert bot, modelled in Dafny

This project models the core of two small programs. The first is a trading
bot for a Bybit perpetual contract. The second is a Telegram bot that watches
one trading pair per chat and sends price alerts.

The trader polls candles every cycle and computes five indicators from them:
SMA 20 and 50, EMA 200, RSI 14 and ATR 14. From these it decides whether to
open a long or a short, close the position, or only trail the stop of the
position it holds. Before every cycle it checks two equity circuit breakers:
a daily-loss pause and a global-drawdown halt. An opening order's size comes
from a fixed risk fraction over an ATR stop distance, capped by a notional
limit. The exchange's minimum quantity overrides that cap: when the budget is
below the minimum, the order is for the minimum, whatever notional it has. The order carries
take-profit and stop-loss levels rounded down to the price tick. The bot also
closes a position itself when the price crosses the tracked stop.

The alert bot keeps one `WatchState` per chat. It holds above and below
thresholds, each with an edge-triggered latch, and a percentage-move alert
measured against a baseline that moves to the price each time the alert
fires. Chat commands set these fields.

Layout:

- `common.dfy` (module `Base`): `Option`, and `Max`, `Min`, `Abs` with Python's `max`/`min` semantics.
- `config.dfy` (module `Config`): the trader's constants.
- `indicators.dfy` (module `Indicators`): `sma`, `ema`, `rsi` and `atr`.
  - `sma` is a function.
  - `ema`, `rsi` and `atr` are loops in the source. Each is a method proved equal to a specification function.
- `signals.dfy` (module `Signals`): `Position`, the indicator snapshot, the two entry signals, and the decision and trailing stop of `decide`.
- `risk.dfy` (module `Risk`): `round_step`, position sizing, bracket prices, circuit breakers and the leverage choice.
- `trader.dfy` (module `Trader`): candles, the specification of one loop iteration, and the class `Bot`.
  - `Bot` updates its position in place through `Decide` and `LoopOnce`.
- `watch_bot.dfy` (module `WatchBot`):
  - `WatchState`, the specification of one watcher tick, and the block-by-block `Tick` method;
  - the class `BotState`, whose chat map the commands update.

Inputs of the model:

- Prices, equity and quantities are `real`.
- Python truthiness of an indicator (`None` or `0.0` is false) is `Avail`.
- Every answer of the exchange in one trader iteration is a `Feed` value:
  - the two equity reads;
  - the candles;
  - whether each order request went through.
- A raised exception becomes a `None` result or a `Failed` outcome.
- For the alert bot:
  - each price read is an `Option<real>`;
  - each command argument carries the result of `float()` on it;
  - the liveness of the chat's asyncio task is a boolean.

The circuit breakers check the daily pause first
(`bybit_auto_trader.py:224-225`), and `__init__` sets both baselines to the
same equity (line 170). With a 2% daily limit and a 5% global limit, every
fall that would halt already pauses, so the halt is never reached. The model
states this:

- `Risk.CircuitBreakers` states the precedence.
- `Risk.DeepDrawdownOnlyPauses` shows that a 6% fall only pauses.
- `Trader.NeverHalts` shows that no iteration halts when the baselines are equal.

## Model

| member | source | states |
|---|---|---|
| Risk.RoundStep | bybit_auto_trader.py:85-87 | the result is a whole multiple of the step; for a positive step it is the grid point at or below the value and less than one step below it |
| Indicators.Sma | bybit_auto_trader.py:89-91 | `None` exactly when the history is shorter than `n` or `n <= 0`; otherwise the mean lies between the smallest and largest of the last `n` values |
| Indicators.SmaOfConstant | bybit_auto_trader.py:89-91 | a constant series has that constant as its simple average |
| Indicators.EmaOf | bybit_auto_trader.py:93-98 | `None` exactly when the history is shorter than `n` or `n <= 0`; otherwise the average lies between the smallest and largest value |
| Indicators.SmoothBetween | bybit_auto_trader.py:97 | smoothing with a factor in `[0, 1]`, started inside `[lo, hi]` over values inside `[lo, hi]`, never leaves `[lo, hi]` |
| Indicators.EmaBetween | bybit_auto_trader.py:95-97 | the mean seed and the smoothing over the rest of the window lie between the smallest and largest value |
| Indicators.Ema | bybit_auto_trader.py:93-98 | the seeded smoothing loop computes exactly `EmaOf` |
| Indicators.Losses | bybit_auto_trader.py:102-106 | the accumulated losses are non-negative and zero exactly when no difference in the window is a fall |
| Indicators.RsiOf | bybit_auto_trader.py:100-109 | `None` exactly when there are fewer than `n + 1` values; exactly 100 when nothing fell; otherwise in `[0, 100)` |
| Indicators.Rsi | bybit_auto_trader.py:100-109 | the gains/losses loop over the last `n` differences computes exactly `RsiOf` |
| Indicators.TrueRange | bybit_auto_trader.py:115 | the true range is the largest of the bar's range and the two gaps to the previous close, so it is non-negative |
| Indicators.AtrOf | bybit_auto_trader.py:111-121 | `None` exactly when there are fewer than `n + 1` closes; otherwise non-negative and between the smallest and largest true range |
| Indicators.WilderBetween | bybit_auto_trader.py:119-120 | Wilder smoothing, started inside `[lo, hi]` over true ranges inside `[lo, hi]`, never leaves `[lo, hi]` |
| Indicators.AtrBetween | bybit_auto_trader.py:118-120 | the mean seed of the first `n` true ranges, Wilder-smoothed over the rest, lies between the smallest and largest true range |
| Indicators.CollectTrueRanges | bybit_auto_trader.py:113-116 | the loop appends one true range per bar after the first, in order: exactly `TrueRanges` |
| Indicators.SmoothTrueRanges | bybit_auto_trader.py:118-120 | the seeded Wilder loop over the true ranges after the first `n` computes exactly the specified smoothing |
| Indicators.Atr | bybit_auto_trader.py:111-121 | the true-range loop and the Wilder smoothing loop compute exactly `AtrOf` |
| Signals.LongSignal | bybit_auto_trader.py:183 | the long signal needs the three averages and the RSI truthy (warmed up) and the RSI above 55; with `SignalsExclusive` and `ZeroRsiBlocksShort` |
| Signals.ShortSignal | bybit_auto_trader.py:184 | the short signal needs the same warm-up and the RSI below 45 |
| Signals.SignalsExclusive | bybit_auto_trader.py:183-184 | the long and short signals are never both true |
| Signals.ZeroRsiBlocksShort | bybit_auto_trader.py:183-184 | an RSI of exactly 0 is falsy and blocks both signals |
| Signals.Trail | bybit_auto_trader.py:189-197 | only the stop changes; a long's stop never falls and a short's never rises; it moves only for an open position with an available ATR, and only to price ∓ 1.5 ATR |
| Signals.Decision | bybit_auto_trader.py:181-199 | flat: open long iff the long signal, open short iff the short signal, else hold; long: close iff the short signal, else manage; short: the mirror; without warmed-up indicators: hold or manage |
| Signals.TrailMonotone | bybit_auto_trader.py:189-197 | over any run of `decide` calls on a held position, a long's stop is non-decreasing, a short's non-increasing, and nothing but the stop changes |
| Risk.StopDistance | bybit_auto_trader.py:204 | the stop distance is at least 1.5 ATR and at least 0.2% of the price, and equals one of them |
| Risk.PositionSizing | bybit_auto_trader.py:201-210 | fails exactly on a zero stop distance, price or quantity step; the size is at least the minimum quantity; a size above the minimum is on the step grid, within the notional cap and within the risk budget, and less than one step below the smaller budget, so it is the largest step multiple within both; any size is more than the budget minus one step and at least the floored budget, so it is the larger of the floored budget and the minimum quantity |
| Risk.MinQtyBreaksCap | bybit_auto_trader.py:206-209 | with equity 100, price 100, ATR 2 and a minimum of 2 units, the size is the minimum 2, a notional of 200 over the cap of 100 |
| Risk.BracketPrices | bybit_auto_trader.py:212-220 | fails exactly on a zero tick; each level is its raw level floored to the tick; with a positive ATR a long's stop and a short's target are below the price |
| Risk.ShortStopCanSitOnEntry | bybit_auto_trader.py:218-220 | flooring can put a short's stop exactly on the entry price (tick 1, ATR 0.5, price 100) |
| Risk.LongEntryExample | bybit_auto_trader.py:201-220 | equity 10000, price 100, ATR 2, steps 0.01: quantity 10, target 104, stop 97 |
| Risk.CircuitBreakers | bybit_auto_trader.py:222-228 | pause iff the daily baseline is positive and the loss reaches 2%; halt iff not paused and the start baseline's loss reaches 5%; never halt when the baselines are equal |
| Risk.DailyLossPauses | bybit_auto_trader.py:224-225 | a 2.5% fall pauses |
| Risk.DeepDrawdownOnlyPauses | bybit_auto_trader.py:222-228 | a 6% fall with equal baselines only pauses |
| Risk.LeverageChoice | bybit_auto_trader.py:172 | the leverage never exceeds 5 or the exchange's limit; it is 5 when the limit allows and at least 1 when the limit is |
| Trader.IndicatorsOf | bybit_auto_trader.py:176-179 | no snapshot without candles; otherwise the snapshot carries the last close, each indicator is present (`Some`) exactly when the history is long enough, and the ATR is non-negative; a present ATR of `0.0` (a flat history) is still falsy, so `Avail` is not implied |
| Trader.Bot.constructor | bybit_auto_trader.py:166-174 | both equity baselines equal the starting equity, there is no position, and the leverage is `LeverageChoice` of the exchange's limit |
| Trader.Bot.ComputeIndicators | bybit_auto_trader.py:176-179 | computes `IndicatorsOf` with the loop-based indicator methods |
| Trader.Bot.Decide | bybit_auto_trader.py:181-199 | returns `Decision` and leaves the position at `Trail` of the old one, so the stop never loosens |
| Trader.Bot.LoopOnce | bybit_auto_trader.py:234-274 | the outcome, the orders sent and the new position are those of `Iteration` from the old position |
| Trader.Truthy | bybit_auto_trader.py:152-153 | a take-profit or stop-loss level is sent exactly when it is non-zero, and then unchanged |
| Trader.Act | bybit_auto_trader.py:245-258 | at most one order; a failure sends nothing and keeps the position; an opening order comes from an open action with a truthy ATR and records its side, quantity and entry price; a close comes from a close action on a held position, for its whole quantity, and leaves `Position()` |
| Trader.Cycle | bybit_auto_trader.py:240-269 | the cycle either fails or completes with `decide`'s action, sends at most two orders, and without orders leaves the trailed or the empty position; see also `CycleOrders`, `CompletedRespectsStop`, `FailureKeepsTrail` |
| Trader.Iteration | bybit_auto_trader.py:235-269 | halts exactly when the breaker read succeeds and says halt, pauses exactly when it says pause, completes only past the breakers with candles, and sends at most two orders; see also `IterationDecidesFirst`, `NeverHalts` |
| Trader.BreakersStopEverything | bybit_auto_trader.py:235-236 | a paused or halted iteration sends no order and keeps the position |
| Trader.NeverHalts | bybit_auto_trader.py:222-228 | with equal baselines, as the constructor sets them, no iteration halts |
| Trader.IterationDecidesFirst | bybit_auto_trader.py:235-240 | an iteration that does not reach `decide` sends nothing and keeps the position; otherwise it is the decision cycle on the snapshot of its candles |
| Trader.CycleOrders | bybit_auto_trader.py:245-269 | at most two orders; an opening order comes first, only from a flat position with an available ATR, on the side of the matching signal; every close names a held side |
| Trader.CompletedRespectsStop | bybit_auto_trader.py:259-269 | after a completed cycle a remaining long is above its stop and a remaining short below it |
| Trader.FailureKeepsTrail | bybit_auto_trader.py:240-274 | a cycle that fails before an order went through leaves the trailed position, so the stop moved by `decide` survives the exception |
| Trader.CycleKeepsConsistent | bybit_auto_trader.py:245-269 | a flat position after a cycle is always `Position()` |
| Trader.CloseFlattens | bybit_auto_trader.py:253-258 | a close decided on a held position sends one reduce-only order for its whole quantity and leaves `Position()` |
| Trader.LongAtStopIsClosed | bybit_auto_trader.py:259-264 | a long whose stop the price has reached is closed in that cycle with one reduce-only order, whatever was decided |
| Trader.OnlyShortsStopOutOnEntry | bybit_auto_trader.py:245-269 | with a positive tick, a cycle that sends two orders opened a short and then closed it at its stop; a new long never stops out on entry |
| Trader.FlatHistoryHolds | bybit_auto_trader.py:176-188 | sixty closes at 100 give both simple averages 100 and no EMA 200, so a flat bot holds |
| WatchBot.TakeBaseline | telegram_bybit_watch_bot.py:75-76 | a set percentage threshold always has a baseline after this step, the current price when it had none; nothing else changes |
| WatchBot.AboveCheck | telegram_bybit_watch_bot.py:81-86 | one above alert iff the threshold is set, reached and the latch is clear; the latch becomes whether the price is at or above the threshold, and is kept when none is set |
| WatchBot.BelowCheck | telegram_bybit_watch_bot.py:87-92 | the mirror of the above check with `<=` and `>` |
| WatchBot.MoveCheck | telegram_bybit_watch_bot.py:93-98 | fails exactly on a zero baseline; alerts iff the relative move reaches the threshold; the baseline becomes the price exactly when it alerts |
| WatchBot.TickAlerts | telegram_bybit_watch_bot.py:80-98 | each kind of alert is present exactly under its condition; all carry the tick's price; a move alert names its baseline and direction; they are in the order above, below, move |
| WatchBot.Watch | telegram_bybit_watch_bot.py:75-98 | a tick changes only the latches and the baseline; each latch records the last price against its threshold; a zero baseline turns the message into a warning but keeps the latch updates |
| WatchBot.AboveStep | telegram_bybit_watch_bot.py:81-86 | the above block appends `AboveCheck`'s alert and sets its latch |
| WatchBot.BelowStep | telegram_bybit_watch_bot.py:87-92 | the below block appends `BelowCheck`'s alert and sets its latch |
| WatchBot.MoveStep | telegram_bybit_watch_bot.py:93-98 | the move block fails exactly when `MoveCheck` does; otherwise it appends its alert and sets the baseline |
| WatchBot.Tick | telegram_bybit_watch_bot.py:75-98 | the block-by-block tick computes exactly `Watch` |
| WatchBot.AfterKeepsSettings | telegram_bybit_watch_bot.py:75-98 | any run of ticks leaves the symbol, category, interval and thresholds unchanged |
| WatchBot.LatchesRecordLastPrice | telegram_bybit_watch_bot.py:81-92 | after a run, each latch says whether the last price was at or beyond its threshold |
| WatchBot.AboveAlertsSeparated | telegram_bybit_watch_bot.py:81-86 | between two above alerts of a run there is a tick strictly below the threshold |
| WatchBot.BelowAlertsSeparated | telegram_bybit_watch_bot.py:87-92 | between two below alerts of a run there is a tick strictly above the threshold |
| WatchBot.PctFirstTickQuiet | telegram_bybit_watch_bot.py:75-76 | the first tick after a positive percentage threshold is set only takes the baseline and raises no move alert |
| WatchBot.PollDelay | telegram_bybit_watch_bot.py:104 | the pause between ticks is at least one second and at least the interval |
| WatchBot.Ensured | telegram_bybit_watch_bot.py:107-110 | the chat gets a default state only when absent; other chats are untouched |
| WatchBot.EnsuredIdempotent | telegram_bybit_watch_bot.py:107-110 | ensuring a chat twice is ensuring it once |
| WatchBot.AsciiLower | telegram_bybit_watch_bot.py:208 | lower-casing keeps the length, maps each character and leaves no upper-case letter |
| WatchBot.AsciiUpper | telegram_bybit_watch_bot.py:145 | upper-casing keeps the length, maps each character and leaves no lower-case letter |
| WatchBot.BotState.constructor | telegram_bybit_watch_bot.py:45-47 | no chat has a state yet |
| WatchBot.BotState.EnsureState | telegram_bybit_watch_bot.py:107-110 | the map becomes `Ensured` and the chat's state is returned |
| WatchBot.BotState.WatcherTick | telegram_bybit_watch_bot.py:70-103 | a failed price read changes nothing and sends a warning; otherwise the chat's state and message are those of `Watch` and other chats are untouched |
| WatchBot.BotState.CmdAbove | telegram_bybit_watch_bot.py:168-175 | without arguments or with an unparsable one only the chat is ensured; otherwise the threshold is set and only its own latch cleared |
| WatchBot.BotState.CmdBelow | telegram_bybit_watch_bot.py:177-184 | the mirror of `/above` |
| WatchBot.BotState.CmdPct | telegram_bybit_watch_bot.py:186-193 | without a usable argument only the chat is ensured; otherwise the threshold is set and the baseline dropped |
| WatchBot.BotState.CmdInterval | telegram_bybit_watch_bot.py:195-201 | without a usable argument only the chat is ensured; otherwise the interval is the argument raised to at least one second, and nothing else changes |
| WatchBot.BotState.CmdCategory | telegram_bybit_watch_bot.py:203-213 | stores the lower-cased argument only when it is spot, linear, inverse or option; otherwise only the chat is ensured; known categories stay known |
| WatchBot.BotState.CmdWatch | telegram_bybit_watch_bot.py:142-156 | stores the upper-cased symbol and a parsable interval unclamped; starts the watcher unless the task is live, keeping the stored settings either way |
| WatchBot.AboveRearmed | telegram_bybit_watch_bot.py:168-175 | after `/above v` the next tick at or above `v` alerts, whatever the latch was |
| WatchBot.BelowRearmed | telegram_bybit_watch_bot.py:177-184 | after `/below v` the next tick at or below `v` alerts |

## Left out

- Request signing, HTTP transport and the exchange wrappers (`bybit_auto_trader.py:43-155`, `get_price` at `telegram_bybit_watch_bot.py:51-64`): their results are inputs. Order calls either go through or raise.
- `time.sleep`, `datetime.now`, all printed and sent message text, and the number formatting in it: the alert bot's alerts are data, not text.
- The `DRY_RUN` and `ENV` branching: an order that only prints is an order that went through.
- `argparse`, `main`, SIGTERM and `KeyboardInterrupt` handling, and the unbounded `while True`: `Trader.Bot.LoopOnce` is one pass of the loop body.
- Floating point: the model uses exact reals, so there is no rounding, NaN or overflow.
- Risk.PositionSizing: does not model the rounding to six decimals at `bybit_auto_trader.py:210`, since exact reals have no decimal formatting.
- Indicators.AtrOf: requires `n >= 1`, because `n = 0` divides by zero at line 118. It also requires the highs and lows to be at least as long as the closes; otherwise the source raises an IndexError. Candles always give three lists of equal length.
- The stop-loss close at `bybit_auto_trader.py:259-269` is not valid Python as written (lines 262-263 and 267-268). The model follows its evident intent: a reduce-only close of the whole quantity, then `Position()`.
- The `set_leverage` call in the constructor is best-effort and changes no state. `Trader.Bot.leverage` records the leverage it asks for.
- Asyncio tasks, cancellation, `send_message` and `reply_text`. The watcher's start and stop messages, its `while st.running` loop and its `asyncio.sleep` are left out; one tick is modelled. A task's liveness is the `taskLive` parameter of `WatchBot.BotState.CmdWatch`.
- `WatchState` objects are shared by reference between a chat's handlers and its watcher task. Here each is a value in the `BotState.watches` map, updated by map assignment. This matches the source because entries are only ever added, never replaced. Interleaving of a handler with a running tick is not modelled.
- Python's `float()` parsing of command arguments is an input (`Arg.number`). `str.upper` and `str.lower` are modelled on ASCII letters only.
- A float that does not parse in `/above`, `/below`, `/pct` or `/interval` raises out of the handler. That is the `Raised` reply, and the state is then left as `ensure_state` made it. In `/watch` the error is swallowed.
- `cmd_start`, `cmd_price`, `cmd_stop` and `cmd_status` are not part of this model. They only reply, read a price, or stop the task. Note that `cmd_price` can store any lower-cased category, which `/category` would refuse.
