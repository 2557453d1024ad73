# Weekly work/rest schedule: store, meters, paint machine, verdict

This project models the scheduling-and-scoring engine of a single-page tool (`game.js`).
In the tool, each person of a small roster gets one slot per weekday. The user paints a
slot as work or rest by pressing and dragging the mouse. Three heuristic meters score the
schedule, and a verdict can be requested.

Modules (one per component of the engine):

- `Store` (store.dfy): the two-valued `Slot` and the schedule store `Schedule`. The store
  is a class holding one array per person, created all-rest by `InitData`, written one slot
  at a time by `SetCell`, and refilled with rest by `ClearAll`. `Snapshot()` reads the
  arrays back as a value (`Grid`). `WriteSlot` is the single-cell write on values.
- `Metrics` (metrics.dfy): the per-person measures (longest work streak, rest gaps), the
  per-day utilization and the three meters. Every loop of the page is a method proved equal
  to a specification function. The properties are proved about those functions: bounds,
  the streak characterisation, the gap bound, and the all-rest readings 70/60/65.
- `Paint` (paint.dfy): the pointer handlers abstracted into events `Down(p, i)`,
  `Enter(p, i)` and `Up`. `Next` is their effect on the pair (schedule, paint state).
- `Evaluator` (evaluator.dfy): the first-match verdict cascade.
- `Game` (game.dfy): the page state as a class. It holds the store, the two paint fields
  and the readings of the three bars. Its handler methods are proved to act as `Next`, and
  the bars are kept equal to the meters of the current schedule.

A person is identified by their position in the roster. In the page, the id string only
keys the dictionary. The roster size and the number of days are generalised from 3 and 7 to
any `N >= 1` and `HOURS >= 1`, which keeps the divisions of the utilization and of the mean
defined. The flow meter is computed with exact rationals (`real`), and `Math.round(x)` is
`(x + 0.5).Floor`.

`restGaps` is specified by `GapCount`, which counts the slots that are rest and are
preceded by two work slots. Each such slot closes exactly one maximal work run of length at
least 2, so this is the number of such runs that are followed by a rest slot. A final work
run that never meets a rest slot is not counted (`TrailingWorkNotCounted`), although its
length still counts as a streak.

`setCell` performs no bounds or person check, and its only callers address existing cells,
so the model makes a valid person and index a precondition.

## Model

| member | source | states |
|---|---|---|
| Store.Opposite | game.js:89 | the paint mode chosen on a press is the other slot value than the pressed cell's |
| Store.WriteSlot | game.js:109 | after the write, cell (p, i) holds s; every other cell and every row length is unchanged |
| Store.Fill | game.js:176 | `fill` leaves every element of the array equal to the given slot |
| Store.Schedule.InitData | game.js:32-34 | one fresh array of `hours` slots per person, no two shared, all rest |
| Store.Schedule.SetCell | game.js:108-109 | the new snapshot is the old one with only slot (p, i) replaced by s |
| Store.Schedule.ClearAll | game.js:176 | afterwards every person has `hours` slots, all rest |
| Metrics.Clamp | game.js:30 | the result lies in [a, b], equals n when n is in range, a below it, b above it |
| Metrics.ClampReal | game.js:30 | the same four facts for the real-valued intermediate scores of the flow meter |
| Metrics.Round | game.js:165 | `Math.round`: the result is within half of x, with halves rounded up |
| Metrics.LongestStreak | game.js:116-123 | the longest streak is at least the final run and at most the row length |
| Metrics.LongestStreakIsLongestRun | game.js:116-123 | some run of consecutive work slots has exactly that length, and no run is longer |
| Metrics.LongestStreakZero | game.js:116-123 | the streak is 0 exactly when the row holds no work slot |
| Metrics.CountStreaks | game.js:116-123 | the single pass keeping `cur` and `best` returns the longest streak of the row |
| Metrics.GapCountBound | game.js:125-136 | each counted gap needs three slots of its own, so gaps <= length / 3 |
| Metrics.TrailingWorkNotCounted | game.js:125-136 | a final work run adds no gap, yet the streak is at least its length |
| Metrics.RestGaps | game.js:125-136 | the pass counting rest slots met with `cur >= 2` returns the number of work-work-rest patterns |
| Metrics.RestingRow | game.js:33 | an all-rest row has streak 0 and no gap |
| Metrics.FiveWorkTwoRest | game.js:116-152 | five work days then two rest: streak 5, one gap, penalty 16, reward 4 |
| Metrics.Balance | game.js:146-152 | the balance is clamp(70 + 4 * total gaps - 8 * total streak excess over 3, 0, 100), within [0, 100] |
| Metrics.BlankTotals | game.js:146-151 | with nobody working, total penalty and total reward are both 0 |
| Metrics.BalanceMeter | game.js:146-152 | the per-person accumulation loop returns the balance of the snapshot |
| Metrics.Working | game.js:139-140 | the number of persons working on a day never exceeds the roster size |
| Metrics.Utilization | game.js:138-141 | the utilization of a day is a fraction in [0, 1] |
| Metrics.UtilizationAtHour | game.js:138-142 | the loop over the roster returns working / N for that day |
| Metrics.SumUtil | game.js:156 | the sum of the first k daily utilizations lies in [0, k] |
| Metrics.Average | game.js:157 | the mean utilization lies in [0, 1] |
| Metrics.MeanUtilization | game.js:155-157 | the first loop of the flow part returns the mean utilization |
| Metrics.Deviation | game.js:158-161 | the summed distance from the mean is never negative |
| Metrics.TotalDeviation | game.js:158-161 | the second loop returns the sum of the distances from the mean |
| Metrics.Stability | game.js:162 | stability lies in [0, 100] |
| Metrics.Proximity | game.js:163-164 | proximity to the 70% target lies in [0, 100] |
| Metrics.Flow | game.js:165 | flow is an integer in [0, 100] |
| Metrics.FlowMeter | game.js:155-165 | the flow part of `updateMeters` returns the flow of the snapshot |
| Metrics.BlankFlow | game.js:155-165 | nobody working gives stability 100, proximity 0 and flow 60 |
| Metrics.Surplus | game.js:168 | surplus is (b + f + 1) / 2 and lies between the smaller and larger of b and f |
| Metrics.MetersOf | game.js:144-168 | all three readings lie in [0, 100], and surplus lies between balance and flow |
| Metrics.UpdateMeters | game.js:144-168 | the metric computation returns the three meters of the current snapshot |
| Metrics.BlankMeters | game.js:144-168 | an all-rest schedule of any size reads balance 70, flow 60, surplus 65 |
| Paint.Next | game.js:84-106 | every handler keeps "a mode is set exactly while painting" and keeps every row length |
| Paint.DownToggles | game.js:84-91 | a press flips the cell, starts painting with the slot written, and changes nothing else |
| Paint.EnterIgnoredWhenIdle | game.js:95 | entering a cell while not painting changes nothing |
| Paint.EnterPaints | game.js:94-100 | entering while painting writes the mode into that cell only and keeps the paint state |
| Paint.EnterIdempotent | game.js:94-100 | entering the same cell twice has the effect of entering it once |
| Paint.UpEndsSession | game.js:106 | a release always leads to not painting with no mode, and leaves the schedule alone |
| Paint.DragSession | game.js:84-106 | press on a rest cell, enter two more, release: those three cells are work, the rest unchanged, idle again |
| Evaluator.Classify | game.js:190-193 | Optimal iff s >= 75, b >= 70 and f >= 70; Overloaded iff b < 50; Unstable iff b >= 50 and f < 55; otherwise Acceptable (so Optimal and Overloaded never both hold) |
| Game.GameState.constructor | game.js:213-218 | start-up gives an all-rest schedule, idle painting, and bars at 70/60/65 |
| Game.GameState.SetCell | game.js:108-114 | writes the one slot and leaves the bars equal to the meters of the new schedule |
| Game.GameState.OnCellDown | game.js:84-93 | the press handler acts on the page state as `Next` with `Down` |
| Game.GameState.OnCellEnter | game.js:94-100 | the enter handler acts on the page state as `Next` with `Enter` |
| Game.GameState.OnMouseUp | game.js:106 | the release handler acts on the page state as `Next` with `Up`, bars untouched |
| Game.GameState.ClearAll | game.js:175-178 | clearing leaves every slot rest, keeps the paint state, and shows bars 70/60/65 |
| Game.GameState.Evaluate | game.js:183-193 | the verdict is the cascade applied to the current bar readings, which are the meters of the current schedule |
| Game.BlankIsAcceptable | game.js:190-193 | the all-rest readings (70, 60, 65) are judged Acceptable |

## Left out

- DOM rendering (`renderHeader`, `renderGrid`, `renderWorkers`) and updating the cell's `dataset` in `setCell` (game.js:36-82, 110-112): presentation only.
- Reading the cell's person and index from `dataset` in the handlers (game.js:85-87, 96-98): the events carry the person and index directly.
- The bar-width writes and the `parseInt` read-back in `evaluate` (game.js:170-172, 185-187): the bars are modelled as a `Meters` field. The readings are integers in [0, 100], so writing `${v}%` and parsing it back gives v again.
- `statusText`, the dialogs, the help buttons, the sound toggle and `onCellClick`'s `preventDefault` (game.js:179, 194-211, 101-104): UI controls with no effect on the schedule.
- The WebAudio sound effects and the cue names passed to `sfx.play` (game.js:92, 180, 190-193, 221-243): foreign API and timers, no core state.
- The verdict titles and descriptions (game.js:188-193): opaque text; the `Verdict` value stands for them.
- IEEE-754 double rounding in the flow computation (game.js:155-165): flow is computed with exact rationals.
- Store.Schedule.SetCell: an index at or beyond `HOURS` would make the JavaScript array grow, and an unknown person id would throw a TypeError. Neither can happen from the page, so both are excluded by the precondition instead of being modelled.
