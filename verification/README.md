# Hydroponic display: chart feed, delay options, readings and panel latches

This project models the logic layer of the touchscreen firmware of a
hydroponic monitor (`src/main.cpp`). Almost all of that file builds LVGL widgets.
Under the widgets there is a small state machine, and the model covers it:

- **Chart series** (`ChartSeries`). The pH chart and the EC chart each hold
  20 integer points. `update_chart_val` shifts the points one slot to the left,
  drops the oldest point and writes the new value into slot 19. Both series
  start with every point equal to 6.
- **Chart timer** (`ChartTimer`). `task_update_chart` runs every 100 ms and
  adds 100 to `delay_current`. When the counter strictly exceeds `delay_ms`,
  each chart gets the current reading times ten and the counter restarts at 0.
  Because the comparison is strict, a window of D ms feeds the charts every
  D/100 + 1 ticks, that is every D + 100 ms. The "0.1 seconds" entry therefore
  feeds every 0.2 s.
- **Delay options** (`DelayOption`). `dropdown_change_delay_event` maps the
  selected dropdown index to one of six window lengths: 100, 1000, 60000,
  600000, 1800000 or 3600000 ms. Every index from 5 up maps to 3600000 ms.
- **Simulated readings** (`Readings`). `task_value_readings` derives pH, EC,
  temperature and the water-level flag from four `rand()` draws. All quantities
  are kept in integer hundredths.
- **Panel latches** (`ButtonLatch`). The open and close buttons each have a
  two-state press/release latch. A switch fires only on a release that follows
  a press.
- **The machine** (`Monitor`). One immutable `State` holds the reading, the two
  targets, the delay option and window, the counter, both series, both latches
  and the visible panel. Each task and each event handler is one atomic step.
  Steps may come in any order, so the model does not depend on how the LVGL
  task scheduler interleaves them. The machine has these parts:
  - an invariant `Inv` that every step preserves;
  - the counter bound after every chart task;
  - the link between runs of chart tasks and the timer schedule.

Modelling choices:

- **Values.** pH, EC and temperature are in hundredths. Targets and spinbox
  values are in tenths.
- **Chart points.** `ph * 10` converted to `int` is modelled as
  hundredths / 10, truncated toward zero (see `Readings.ToChartPoint` under
  "Left out").
- **`rand()`.** Each call is an arbitrary natural number. `RAND_MAX` is not
  bounded.
- **Panels.** Panel positions are abstracted to `Main | Settings`.
- **Integer width.** Chart points (`lv_coord_t`, 16 bits) and `delay_current`
  (`int`) never come near their width limits in this model, so no
  wrap-around is written out.

## Model

| member | source | states |
|---|---|---|
| `ChartSeries.Filled` | src/main.cpp:422-424 | The initial series has exactly 20 points and every point is 6. The EC series is filled the same way at lines 441-443. |
| `ChartSeries.ShiftIn` | src/main.cpp:242-248 | After one update the series still has 20 points. Point 19 is the new value and point i is the old point i+1 for i in 0..18. |
| `ChartSeries.ShiftInExchanges` | src/main.cpp:242-248 | As a multiset, one update removes one copy of the old first point and adds one copy of the new value. |
| `ChartSeries.UpdateChartVal` | src/main.cpp:242-248 | The firmware's in-place copy loop, followed by the store into slot 19, gives the same 20-point series as `ShiftIn`: last point `val`, every other point moved one slot left. |
| `ChartSeries.PushAllWindow` | src/main.cpp:242-248 | After any sequence of updates, the series is the old series followed by the new values, with as many leading points dropped as values were pushed. |
| `ChartSeries.PushAllKeepsLatest` | src/main.cpp:242-248 | After at least 20 updates, the series is exactly the last 20 values pushed, oldest first. Nothing of the initial fill is left. |
| `ChartTimer.Advance` | src/main.cpp:277-284 | A tick flushes exactly when counter + 100 > `delay_ms`. A flush resets the counter to 0; otherwise the counter grows by 100. Starting from a nonnegative multiple of 100, the new counter is a multiple of 100 between 0 and `delay_ms`. |
| `ChartTimer.Period` | src/main.cpp:279 | The flush period p, in ticks, satisfies 100·(p−1) ≤ `delay_ms` < 100·p, so p is `delay_ms`/100 + 1. |
| `ChartTimer.FlushSchedule` | src/main.cpp:277-284 | With a constant window and a zero counter at the start, n ticks give exactly n / p flushes and leave the counter at 100·(n mod p). |
| `ChartTimer.FirstFlush` | src/main.cpp:279 | No flush happens before tick p. Tick p flushes exactly once and leaves the counter at 0. |
| `DelayOption.DelayForOption` | src/main.cpp:589-606 | The window always lies in the table of six lengths. Indices 0..5 select their table entry, and every other index selects 3600000 ms. The window is always a positive multiple of 100. |
| `Readings.Simulate` | src/main.cpp:306-317 | A simulated reading lies in the fixed ranges: pH in [500, 699], EC in [0, 999] and temperature in [6000, 6499] hundredths. The water level is OK exactly when the fourth draw mod 100 exceeds 10. |
| `Readings.SimulateCovers` | src/main.cpp:308-316 | The ranges are exact: every reading inside them comes from some choice of draws. |
| `Readings.ToChartPoint` | src/main.cpp:280-281 | The `(int)(x*10)` conversion truncates toward zero. For nonnegative input the point p satisfies 10p ≤ hundredths < 10p + 10. |
| `Readings.ChartPointsOfReading` | src/main.cpp:308-309 | Chart points from a simulated reading stay inside the chart ranges: pH points in [50, 69] within 50..70, and EC points in [0, 99] within 0..100. |
| `ButtonLatch.Step` | src/main.cpp:250-260 | A poll fires exactly when the state is RELEASED and the latch is armed. A poll leaves the latch armed exactly when the state is PRESSED, or the latch was armed and the state is not RELEASED. |
| `ButtonLatch.FiresNeedPresses` | src/main.cpp:250-260 | Over any sequence of polls, the switches fired plus a still-armed latch never outnumber the PRESSED polls plus an initially armed latch. |
| `ButtonLatch.NoPressNoSwitch` | src/main.cpp:250-260 | A disarmed latch that never sees PRESSED never fires. |
| `Monitor.InitialAsWritten` | src/main.cpp:70-91 | The firmware's boot state satisfies the invariant and both series are all 6. Its stored window (1000 ms) is not the one for the preselected dropdown entry. |
| `Monitor.Initial` | src/main.cpp:84-86 | The corrected boot state satisfies the invariant, and its stored window is the one the preselected entry names. Both series are all 6, the counter is 0, the main panel is shown and both latches are clear. |
| `Monitor.ChartTask` | src/main.cpp:275-287 | On a flush, each series gets exactly one point (the current reading times ten) and the counter becomes 0. Otherwise both series are unchanged and the counter grows by 100. Nothing else changes. Afterwards the counter is a multiple of 100 between 0 and `delay_ms`. |
| `Monitor.ReadingsTask` | src/main.cpp:306-317 | The whole reading is replaced by one inside the simulation ranges. The water-level flag follows its draw, and nothing else changes. |
| `Monitor.DelayDropdown` | src/main.cpp:584-608 | Only VALUE_CHANGED acts. It then stores the selected index and its window, which is one of the six lengths. The counter, the series and everything else stay as they were. |
| `Monitor.PhSpinbox` | src/main.cpp:545-559 | Only SHORT_CLICKED and LONG_PRESSED_REPEAT act. They set the pH target to the spinbox value in tenths and change nothing else. |
| `Monitor.EcSpinbox` | src/main.cpp:561-575 | Only SHORT_CLICKED and LONG_PRESSED_REPEAT act. They set the EC target to the spinbox value in tenths and change nothing else. |
| `Monitor.OpenButtonTask` | src/main.cpp:250-260 | PRESSED arms the open latch. RELEASED while armed shows the settings panel and disarms. Any other poll changes nothing. The close latch is never touched. |
| `Monitor.CloseButtonTask` | src/main.cpp:262-273 | PRESSED arms the close latch. RELEASED while armed shows the main panel and disarms. Any other poll changes nothing. The open latch is never touched. |
| `Monitor.ChartTaskKeepsPoints` | src/main.cpp:275-287 | A chart task preserves the invariant. Every pH point stays 6, 0 (the pre-reading value) or inside 50..70, and every EC point stays inside 0..100. |
| `Monitor.StepPreservesInv` | src/main.cpp:174-180 | Every task and handler step preserves the invariant. The invariant covers: series shape; a nonnegative counter that is a multiple of 100; a window that is one of the six lengths; readings in range; targets in the spinbox ranges; chart points in range. |
| `Monitor.RunPreservesInv` | src/main.cpp:174-180 | From any state satisfying the invariant, every state reached through admissible steps, in any order, satisfies it. |
| `Monitor.ReachableFromBoot` | src/main.cpp:70-91 | Every state reached from the firmware's own boot state through admissible steps, in any order, satisfies the invariant. |
| `Monitor.CounterBoundedAfterChartTask` | src/main.cpp:277-284 | After any run from the firmware's boot state (`delay_ms = 1000`) that ends with a chart task, 0 ≤ `delay_current` ≤ `delay_ms` and the counter is a multiple of 100. This holds even when the window was just lowered below the pending count. |
| `Monitor.FeedFollowsTimer` | src/main.cpp:277-284 | A run of chart tasks feeds each chart the current reading once per timer flush, pushed through the sliding window. |
| `Monitor.ChartFeedRate` | src/main.cpp:277-284 | From a zero counter, n chart tasks under window D push exactly n / (D/100 + 1) points into the pH series. The counter ends at 100·(n mod (D/100 + 1)). |
| `Monitor.InitialWindowMismatch` | src/main.cpp:84-86 | With the boot state as written, no flush happens in the first 10 ticks and the 11th tick flushes. The displayed "1 minute" window allows no flush in the first 600 ticks (its period is 601). The boot state does not match its entry. |
| `Monitor.RunKeepsWindowMatch` | src/main.cpp:584-608 | Once the stored window matches the selected entry, every run keeps them matched, because the dropdown handler writes both together. |

## Findings

| source | as written | input that shows it | evidently intended | confidence | as-written member | corrected member |
|---|---|---|---|---|---|---|
| src/main.cpp:84-86 | `delay_option = 2` preselects "1 minute" in the dropdown (line 666), but `delay_ms = 1000` | boot, with no dropdown event: the charts are fed on tick 11 (about every 1.1 s) while the dropdown reads "1 minute" | the stored window matches the preselected entry: `delay_ms = 60000`, as modelled (`delay_option = 1` would fix it equally) | medium, not executed | `Monitor.InitialAsWritten`, `Monitor.InitialWindowMismatch` | `Monitor.Initial`, `Monitor.RunKeepsWindowMatch` |

## Left out

- **Widgets.** Widget construction, styling, layout and label formatting are
  left out (`build_*`, `create_text`, `create_val_text`, `task_update_values`).
  They are presentation glue over LVGL.
- **Display and touch drivers.** `disp_flush` and `input_read` are hardware
  I/O.
- **Brightness.** `task_update_brightness` and
  `slider_change_brightness_event` are left out. They forward a slider value to
  the foreign `ledcWrite`.
- **Scheduler.** The LVGL task scheduler, `loop()` and `lv_tick_task` are left
  out. Each task is an explicit step instead, and steps may come in any order.
- **Initialisation.** `initialize()` is left out: src/main.cpp shows only
  its opening line (703), and the file ends there.
- **Spinbox clamp.** The clamp to 50..70 and 0..99 and the step size happen
  inside `lv_spinbox_increment`/`lv_spinbox_decrement`. That code is not part
  of this model. An in-range spinbox value is taken as an assumption (`EventOk`)
  and is not proved.
- **Bus transfers.** `Wire.h` is included (src/main.cpp:3) but nothing in the
  file uses it. There is no bus protocol to model: readings come only from the
  simulation in `task_value_readings` (306-317).
- **Averaging.** The chart task pushes the current reading (280-281). It keeps
  no running sums, so there is no averaging to model.
- **Reset on window change.** `dropdown_change_delay_event` (584-608) writes
  only `delay_option` and `delay_ms`. It leaves `delay_current` and the series
  untouched, and `Monitor.DelayDropdown` states exactly that.
- **Manual refresh.** No handler resets the series. The only writes to them
  are the fill (422-424, 441-443) and `update_chart_val`.
- **`lv_chart_refresh`.** The calls only redraw the charts and are not
  modelled.
- `Readings.ToChartPoint`: does not model IEEE double arithmetic. For every
  reading the simulation can produce, `(int)((5 + k/100.0)*10)` for k in 0..199
  and `(int)((k/100.0)*10)` for k in 0..999 truncate to the same integers as
  the exact decimals, `(500+k)/10` and `k/10`. Exact decimal arithmetic is
  assumed only on the function's wider domain.
- `Readings.Simulate`: treats each `rand()` result as an arbitrary natural
  number. The model does not use the `RAND_MAX` bound or the generator's
  sequence, because the standard library's generator is not part of this
  model.
