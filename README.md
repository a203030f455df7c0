# Colour-prediction round and settlement engine in Dafny

This project models the engine of a browser colour-prediction betting game. The player picks one of three things: a colour (green, red or violet), a size (big or small) or an exact number 0–9. The player also picks a stake from {1, 5, 10, 50, 100}. A round clock counts down, a result 0–9 is drawn, the bet is settled against it, the balance moves by `payout − stake` and an entry goes to the head of the history. Then a new round starts.

Three modules follow the program's three core files:

- `game_utils.dfy`, module `GameUtils` (src/utils/gameUtils.ts), is pure. It holds the number-to-colour table, the big/small split, `hasBet` and `calculatePayout`. The contract of `NumberColor` characterises the table without listing it: red on even numbers, green on odd ones, and violet as well on 0 and 5, the only two numbers that carry two colours. `CalculatePayout` is written in the program's order of checks. Its contract uses an independent reference rule `Wins` and the odds table `Multiplier` (violet 4.5, red/green 2, size 2, number 9).
- `color_prediction.dfy`, module `ColorPrediction` (src/components/ColorPrediction.tsx). The component's state is the class `Game`, with one method per handler. Round completion is split into its three phases: `Begin`, then `Settle(result, now)`, then `Finish(newId)`. The drawn result, the settlement's clock reading and each new round id are parameters. `Valid()` says that at most one kind of selection is set. `Solvent()` says the balance is non-negative and covers the stake of a selection still waiting to be settled. Every handler preserves `Solvent()`, and `ProcessBet` and `Settle` preserve it when the selection has not been settled yet.
- `timer.dfy`, module `Timer` (src/components/Timer.tsx). `Step` is one run of the interval callback on a `Clock` value. `Run` and `Completions` iterate it. The lemmas prove that, from a reset with duration d ≥ 1, completion fires on exactly the d-th tick and never twice. They also prove when the countdown flag and the warning style are on. The class `RoundClock` holds the component's state: `Tick` is proved to follow `Step`, and `Reset` is the reset effect. The pure views are also here: minutes and seconds, the warning threshold, the progress percentage and the duration badge.

Money is `real`, which is exact, so no rounding happens anywhere. The progress value is also `real`.

Some behaviours of the program that the model keeps:

- Progress is a percentage in [0, 100].
- The final-countdown flag stays raised until the next reset.
- `handleGameComplete` has no re-entrancy guard, so neither does `Begin`.
- `handleBetAmountSelect` does not check the processing flag, so neither does `SelectBetAmount`.
- The scenario method `VioletRoundOnZero` arms a `RoundClock` with `GameDuration` and re-arms it when the next round's id is installed.

## Model

| member | source | states |
|---|---|---|
| `GameUtils.NumberColor` | src/utils/gameUtils.ts:18-33 | red is among a result's colours iff it is even, green iff it is odd, violet iff it is 0 or 5; only 0 and 5 map to a pair, whose first colour is violet |
| `GameUtils.ColorTable` | src/utils/gameUtils.ts:18-29 | the table entry by entry: 0→[violet, red], 5→[violet, green], 1/3/7/9→green, 2/4/6/8→red |
| `GameUtils.IsBig` | src/utils/gameUtils.ts:35-37 | a result is big exactly when a bet on "big" wins on it |
| `GameUtils.IsSmall` | src/utils/gameUtils.ts:39-41 | small holds exactly when big does not |
| `GameUtils.BigSmallPartition` | src/utils/gameUtils.ts:35-41 | for every result exactly one of big (n ≥ 5) and small holds |
| `GameUtils.HasBet` | src/utils/gameUtils.ts:43-45 | a selection holds a bet iff it is not null |
| `GameUtils.CalculatePayout` | src/utils/gameUtils.ts:47-84 | the bet wins iff the reference rule `Wins` holds (colour in the result's colours, big/small matches, number equal); payout is stake × 4.5 / 2 / 2 / 9 on a win and 0 on a loss; payout ≥ 0 for a non-negative stake, and for a positive stake a win iff payout > 0 |
| `GameUtils.PayoutExamples` | src/utils/gameUtils.ts:47-84 | (violet, 0, 10) pays 45; (red, 2, 10) pays 20; (big, 3, 5) loses; (7, 7, 1) pays 9 |
| `ColorPrediction.ResultColor` | src/components/ColorPrediction.tsx:92-94 | the parity formula for a history entry's colour agrees with the colour table on every result |
| `ColorPrediction.Toggle` | src/components/ColorPrediction.tsx:138 | pressing the selected choice clears it; pressing any other choice selects it |
| `ColorPrediction.Game.SelectedBet` | src/components/ColorPrediction.tsx:37-42 | no bet iff all three selections are null; with at most one set, the bet is whichever is set (colour takes precedence) |
| `ColorPrediction.Game.constructor` | src/components/ColorPrediction.tsx:21-35 | balance 100, stake 1, nothing selected, not processing, empty history, no last result, last payout 0 |
| `ColorPrediction.Game.StartNewRound` | src/components/ColorPrediction.tsx:44-51 | new round id; all selections, last result and last payout cleared; balance and history untouched; solvency kept |
| `ColorPrediction.Game.Begin` | src/components/ColorPrediction.tsx:53-54 | only the processing flag changes, and it becomes true |
| `ColorPrediction.Game.ProcessBet` | src/components/ColorPrediction.tsx:69-97 | with no selection nothing changes; otherwise balance' = balance + payout − stake, last payout is the payout on a win and 0 otherwise, and the history gains one entry at its head (this round's id, the bet, stake, payout, outcome and the result's colour) with older entries in order |
| `ColorPrediction.Game.Settle` | src/components/ColorPrediction.tsx:56-60 | records the drawn result, then settles exactly as `ProcessBet`: without a selection balance, last payout and history are unchanged; otherwise balance' = balance + payout − stake, last payout is the payout on a win and 0 otherwise, and the full entry (round id, timestamp, bet, stake, payout, outcome, result colour) goes at the head of the history |
| `ColorPrediction.Game.Finish` | src/components/ColorPrediction.tsx:62-65 | starts the next round (as `StartNewRound`) and clears the processing flag |
| `ColorPrediction.Game.SelectBetAmount` | src/components/ColorPrediction.tsx:114-125 | the stake becomes the chosen amount iff the balance covers it, otherwise it is unchanged; the processing flag is not consulted |
| `ColorPrediction.Game.SelectColor` | src/components/ColorPrediction.tsx:127-141 | while processing or with balance below the stake nothing changes; otherwise the colour is toggled and number and size are cleared; at most one selection stays set |
| `ColorPrediction.Game.SelectNumber` | src/components/ColorPrediction.tsx:143-157 | while processing or with balance below the stake nothing changes; otherwise the number is toggled and colour and size are cleared; at most one selection stays set |
| `ColorPrediction.Game.SelectSize` | src/components/ColorPrediction.tsx:159-173 | while processing or with balance below the stake nothing changes; otherwise the size is toggled and colour and number are cleared; at most one selection stays set |
| `ColorPrediction.Game.Recharge` | src/components/ColorPrediction.tsx:179-185 | the balance grows by exactly 100 and nothing else changes |
| `ColorPrediction.Game.Withdraw` | src/components/ColorPrediction.tsx:187-192 | no state changes |
| `Timer.Step` | src/components/Timer.tsx:35-49 | one tick: time left never negative and drops by one while positive; completion is signalled iff the previous time left was ≤ 1, and the interval stops exactly then; the countdown flag rises when the previous time left was 6 and never falls |
| `Timer.RunCountsDown` | src/components/Timer.tsx:35-49 | from a running clock with t ≥ 1 left, after k ≤ t ticks t − k is left, the clock still runs iff k < t, and the countdown flag is up iff it already was or the clock passed 6 |
| `Timer.CompletesOnce` | src/components/Timer.tsx:42-46 | from a running clock with t ≥ 1 left, k ticks signal completion once if k ≥ t and not at all otherwise |
| `Timer.FiresOnDthTick` | src/components/Timer.tsx:30-49 | after a reset with duration d ≥ 1, the first d − 1 ticks do not complete, the d-th does, and no number of ticks completes more than once |
| `Timer.CountdownFlag` | src/components/Timer.tsx:33-40 | after a reset with duration d and k ≤ d ticks, the countdown flag is up iff d ≥ 6 and fewer than 6 seconds are left |
| `Timer.WarningWindow` | src/components/Timer.tsx:63 | after a reset with duration d and k ≤ d ticks, the warning style is on iff at most 10 seconds are left |
| `Timer.IsWarning` | src/components/Timer.tsx:63 | for time left t ≥ 0, the warning style is on exactly while the face shows 0 minutes and at most 10 seconds |
| `Timer.Percent` | src/components/Timer.tsx:55 | progress lies in [0, 100] while 0 ≤ time left ≤ duration; it is 100 at full time and 0 at none |
| `Timer.PercentMonotone` | src/components/Timer.tsx:54-56 | less time left never shows more progress |
| `Timer.ProgressNonIncreasing` | src/components/Timer.tsx:54-56 | progress does not increase from one tick to the next |
| `Timer.TimeDisplay` | src/components/Timer.tsx:59-60 | for time left t ≥ 0, minutes × 60 + seconds = t with 0 ≤ seconds < 60; a negative t gives seconds in (−60, 0], as the truncating remainder does |
| `Timer.NatToStringRoundTrip` | src/components/Timer.tsx:78 | the decimal numeral of n reads back as n |
| `Timer.IntToString` | src/components/Timer.tsx:78 | a non-negative integer is written as its digits, a negative one as a minus sign followed by the digits of its magnitude; the digits are non-empty and have no leading zero, so the text is the canonical numeral |
| `Timer.DurationLabel` | src/components/Timer.tsx:78 | the badge ends in "s" below 60 seconds and in "m" otherwise; for a non-negative duration, the digits before that letter, with no leading zero, read back as the duration, or as its whole minutes from 60 on |
| `Timer.RoundClock.constructor` | src/components/Timer.tsx:26-33 | mounting arms the clock: full time, progress 100, flag down, interval set, nothing fired |
| `Timer.RoundClock.Reset` | src/components/Timer.tsx:30-33 | a reset restores time left = duration, progress = 100 and a lowered flag, and re-arms the interval with nothing fired |
| `Timer.RoundClock.Tick` | src/components/Timer.tsx:35-49 | the new state is `Step` of the old one and completion is what `Step` signals; completion comes on exactly the duration-th tick since the reset, after which the interval is stopped; progress does not increase |
| `Timer.RoundClock.Display` | src/components/Timer.tsx:58-60 | the clock face shows minutes × 60 + seconds = time left with 0 ≤ seconds < 60 |

## Left out

- All rendering, animation and styling are left out. This covers the JSX of both components and the files `ColorButton.tsx`, `NumberButton.tsx`, `BalanceCard.tsx`, `GameHistory.tsx` and `pages/Index.tsx`. The history table's first-ten slice, the shortened id and the Big/Small label are display projections.
- Toast notifications are left out. A rejected selection or stake change is modelled only as "state unchanged". Withdraw is modelled as the no-op it is.
- Randomness and clock reads are parameters: `randomResult`, `generateGameId` and `Date.now`. The result, the new round id and the settlement's timestamp are passed in.
- The 1 s and 3 s `setTimeout` delays are not modelled. Round completion is the three phases `Begin`, `Settle` and `Finish`, called in that order.
- Wall-clock timing of the 1 s interval is not modelled; a call of `RoundClock.Tick` stands for one interval callback.
- Timer.RoundClock.Tick: requires that the interval is still set: once it is cleared, the runtime makes no further callbacks. `Run` and `Completions` model "no more callbacks" the same way.
- Re-arming the clock on every parent render is not modelled. The reset effect lists the completion callback among its dependencies, and the parent creates that callback anew on each render. So in the running program any state change of the game (a selection, the processing flag) re-arms the clock at full time. The model re-arms only through an explicit `RoundClock.Reset`.
- Timer.RoundClock.Reset: requires a duration of at least one second, as does the constructor. With a zero duration the progress effect divides by zero (NaN in the program). The only caller passes the constant 60.
- The selectable round length is not modelled. `handleTimeSlotSelect` is never wired to the UI, so the duration is the constant `GameDuration` (60). The decorative time-slot pills and the 'random'/'x1'… buttons have no effect on state.
- Floating-point arithmetic and `formatBalance` (`toFixed(2)`) and `padStart` formatting are left out. Money and progress are exact reals. With integer stakes and multipliers 2, 4.5 and 9, every payout is a multiple of 0.5, which binary floating point also represents exactly.
- Timer.DurationLabel: covers integer durations only. A fractional number of seconds would print with a decimal point.
- React's effect and closure semantics (stale captures, batching, double-invoked updaters) are left out. Each handler reads and writes the current state.
- The `settled` flag in `Game` and the `fired`/`ticks` fields in `RoundClock` are proof-only ghost state. They do not exist in the program.
