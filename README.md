# Pomodoro focus timer: schedule planner and session state machine

This project models the two pieces of logic in a small desktop focus timer.

- **The session planner** (`planner.py`). It turns a number of available minutes into a list of WORK and BREAK phases. It spends the minute budget greedily in three stages: an opening 25-minute WORK with its 5-minute BREAK, a loop of 35/10 or 25/5 blocks, and an optional wrap-up WORK of whatever is left.
- **The session controller** (the non-window part of `PomodoroApp` in `main.py`). It holds the active schedule, the current phase index, a countdown, a running flag, an overtime marker and the distraction log. It offers plan loading, navigation, start/stop/reset, the one-second tick, expiry handling, the legacy WORK/BREAK toggle and distraction logging.

Files:

- `wrappers.dfy`: module `Wrappers`, the `Option` type.
- `planner.dfy`: module `Planner`.
  - `Schedule` defines the planner's result stage by stage.
  - `GenerateSchedule` is the source's loop with its early `return` and `break`. It is proved to compute `Schedule`.
  - Lemmas state the budget, shape and exact-output properties.
- `timeformat.dfy`: module `TimeFormat`, the `format_time` helper with a reader for its output.
- `session.dfy`: module `Session`.
  - `State` is a value holding the controller's fields.
  - One function per controller method computes the state after that method from the state before it.
  - `Command`/`Step`/`Run` describe the host driving the controller.
  - Lemmas relate several operations to each other.
- `app.dfy`: module `App`, the class `PomodoroApp`. Its fields are updated in place by methods that call each other as in the source. Each method is proved to end in the state the matching `Session` function gives: `ensures Model() == Session.F(old(Model()), …)`.

The host takes the place of Tk:
- It calls `Tick` once per elapsed second, in place of `root.after`.
- It supplies the clock reading `now` that starts overtime.
- For a distraction, it supplies the formatted timestamp and whether the log file already existed.

Points where the code behaves in a way one might not expect, which the model follows:

- 25 minutes give only `[WORK 1500]`. After the opening WORK 0 minutes remain, which is below 5, so the function returns at once (planner.py:26-30). There is no BREAK after it.
- "Plan complete" means `schedule` is set to `[]` while `current_step_index` keeps its value (main.py:231-234). It does not mean index == length.
- `skip_step` does nothing at the last phase. So only an expiry, through `next_step`, completes a plan (main.py:192-194).
- `start_timer` counts down once immediately. If the countdown is already 0, it expires at once (main.py:278, main.py:302-308).
- An infeasible `start_smart_plan` still sets `schedule` to `[]` and then returns (main.py:177-180).

## Model

| member | source | states |
|---|---|---|
| Planner.GenerateSchedule | planner.py:5-63 | The imperative generator returns exactly `Schedule(totalMinutes)` for every integer input, negative and huge ones included. The loop terminates because each iteration spends at least 25 minutes or leaves through `break`. |
| Planner.InfeasibleIsEmpty | planner.py:15-17 | The schedule is empty if and only if fewer than 25 minutes are given. |
| Planner.OpensWithStandardWork | planner.py:19-30 | A feasible schedule starts with WORK 1500. It is exactly `[WORK 1500]` if and only if 25 to 29 minutes are given; otherwise BREAK 300 is second. |
| Planner.BudgetRespected | planner.py:13-61 | The durations add up to at most `totalMinutes * 60`. For a feasible budget, less than 10 minutes stay unscheduled. |
| Planner.PeakBudget | planner.py:36-56 | The repeating stage spends its budget exactly down to a leftover in [0, 25). The leftover is below 10 when the stage ended on an unpaired WORK. |
| Planner.PeakPhaseAt | planner.py:36-56 | Each phase of the repeating stage: WORK at even positions and BREAK at odd ones, whole minutes, never the wrap-up label. A 35-minute WORK is followed by a 10-minute BREAK. |
| Planner.SchedulePhaseAt | planner.py:19-61 | The same per-position facts for the whole schedule. The wrap-up WORK can only be the last phase and lasts 10 to 24 minutes. |
| Planner.PhasesAlternate | planner.py:22-60 | Phases strictly alternate, WORK first. So a wrap-up WORK never follows a WORK. |
| Planner.DurationsAreWholeMinutes | planner.py:22-60 | Every duration is a positive multiple of 60 seconds. |
| Planner.DeepWorkIsPaired | planner.py:38-53 | Every WORK of 2100 s is immediately followed by a BREAK of 600 s. |
| Planner.WrapUpIsLast | planner.py:58-61 | The wrap-up WORK occurs at most once, as the last phase, lasting 600 to 1440 s. |
| Planner.MinimalPlan | planner.py:26-30 | `Schedule(25) == [WORK 1500]`. |
| Planner.OneHourPlan | planner.py:19-61 | `Schedule(60)` is W1500, B300, W1500, B300. |
| Planner.TwoHourPlan | planner.py:19-61 | `Schedule(120)` is W1500, B300, W2100, B600, W2100, B600. |
| Planner.ThreeHourPlan | main.py:129 | The 3-hour preset gives three 35/10 blocks after the opening, then a 15-minute wrap-up. |
| Planner.FourHourPlan | main.py:130 | The 4-hour preset gives four 35/10 blocks after the opening, then a 25/5 block, with nothing left over. |
| TimeFormat.Decimal | main.py:166 | Python's decimal rendering of a natural number: digits only, no leading zero, and reading it back gives the number. |
| TimeFormat.Pad2 | main.py:166 | `{n:02}`: at least two digits (exactly two below 100), zero-padded on the left, and reading it back gives n. |
| TimeFormat.FormatTime | main.py:164-166 | The output is `mins:secs` with `mins * 60 + secs == seconds` and `secs < 60`. Both fields are zero-padded to at least two digits. |
| TimeFormat.ParseFormatRoundTrip | main.py:164-166 | Reading the formatted text back gives the seconds that were formatted. |
| TimeFormat.FormatFiftySeconds | tests/test_pomodoro.py:69 | 50 seconds are shown as `00:50`. |
| TimeFormat.FormatJustStarted | main.py:164-166 | 1499 seconds are shown as `24:59`. |
| TimeFormat.FormatHundredMinutes | main.py:164-166 | Minutes are not cut to two digits: 6000 seconds are shown as `100:00`. |
| Session.LoadStepByIndex | main.py:196-239 | For an index in range, the new state is the old one with that index, the phase's kind and full duration, and no overtime; schedule, `running` and log are unchanged. Past the end, only the schedule (to `[]`) and overtime (cleared) change, so index, kind and countdown are kept. Keeps the state invariant. |
| Session.RemainingSteps | main.py:241-243 | In a valid state with a plan, the count of phases after the current one lies in [0, length). It is 0 exactly at the last phase. |
| Session.NextStep | main.py:185-186 | Before the last phase, loads the following phase: index plus one, its kind and full duration, no overtime, everything else unchanged. At the last phase, completes the plan: schedule `[]`, overtime cleared, nothing else changed. Keeps the invariant. |
| Session.PrevStep | main.py:188-190 | A no-op with no plan or at index 0. Otherwise the new state is the old one with the previous index, that phase's kind and full duration, and no overtime; schedule, `running` and log are unchanged. Keeps the invariant. |
| Session.SkipStep | main.py:192-194 | Never completes a plan, and is a no-op at the last phase. Otherwise the new state is the old one with the next index, that phase's kind and full duration, and no overtime; schedule, `running` and log are unchanged. Keeps the invariant. |
| Session.StartSmartPlan | main.py:176-183 | Below 25 minutes only the schedule changes, to `[]`. Otherwise the generated schedule is installed with phase 0 loaded and no overtime. `running` and the log are kept. |
| Session.StopTimer | main.py:280-286 | Leaves the countdown stopped and changes nothing else. |
| Session.ToggleModeLegacy | main.py:340-357 | Flips WORK/BREAK and loads that kind's default (300 or 1500 s). Nothing else changes. |
| Session.FinishTimer | main.py:310-338 | Always stops the countdown. If a next phase exists, it is loaded and overtime starts at `now`. At the last phase the plan completes with no overtime, keeping index, countdown and kind. With no plan, the kind flips to its default and overtime starts. |
| Session.Tick | main.py:302-308 | While running with time left, decrements by exactly 1 and changes nothing else. Stopped with time left, a no-op. At 0, expires. After a tick, a running countdown is exactly one lower than before. |
| Session.StartTimer | main.py:265-278 | A no-op while running. Otherwise it runs, clears overtime and decrements once at once. When already at 0 it expires instead. |
| Session.ResetTimer | main.py:288-297 | Stops, clears overtime and changes only the countdown. That becomes the loaded phase's duration when `0 <= index < length`; otherwise 300 during a BREAK and 1500 during a WORK. |
| Session.LogDistraction | main.py:359-368 | The log changes if and only if a WORK countdown is running. Then it gains the header (only when the file did not exist) and the row `(timestamp, format_time(time_left))`. Nothing else changes. |
| Session.SkipThenPrevReloads | main.py:188-206 | Skip then back reloads the starting phase with a fresh countdown and no overtime. |
| Session.PrevThenSkipReloads | main.py:188-206 | Back then skip reloads the starting phase with a fresh countdown and no overtime. |
| Session.NavigationCountsSteps | main.py:241-243 | Each successful move changes the remaining-phase count by exactly one. |
| Session.StopTimerIdempotent | main.py:280-286 | Stopping twice is the same as stopping once. |
| Session.ResetTimerIdempotent | main.py:288-297 | Resetting twice is the same as resetting once. |
| Session.ToggleTwice | main.py:340-357 | Two legacy toggles restore the kind, with that kind's default countdown. |
| Session.LoggedTimeReadsBack | main.py:359-368 | The appended row carries the given timestamp. Its time text reads back as the countdown's seconds. |
| Session.Step | main.py:96-138 | Every button and the timer callback keep the invariant: index at least -1; while a plan is active, the index points at one of its phases, the kind is that phase's kind and the countdown is at most its duration (so index -1 only occurs without a plan); no overtime while running. |
| Session.OvertimeRule | main.py:245-254 | Overtime equals `Some(now)` exactly after an expiry that left a next phase or the legacy toggle. Start, reset, a successful move or a feasible plan clear it. Every other command leaves it unchanged. |
| Session.OnlyStartStarts | main.py:265-286 | A stopped countdown starts running only through the start button, and only with time left. |
| Session.LogOnlyGrows | main.py:363-368 | No command removes or rewrites a log row. |
| Session.Run | main.py:96-138 | Any sequence of host commands keeps the invariant of `Step`, including the loaded phase's kind and duration bound. |
| Session.Ticks | main.py:302-306 | Repeated timer callbacks keep the invariant of `Step`, including the loaded phase's kind and duration bound. |
| Session.CountDown | main.py:302-306 | While running, n callbacks with at least n seconds left lower the countdown by exactly n and change nothing else. |
| Session.RunPhase | main.py:265-338 | Starting a loaded phase and letting it run out gives the same state as expiring it. |
| Session.OneHourSession | main.py:73 | The default one-hour plan from a fresh start: each run-out phase pre-loads the next one, stopped, with overtime from its expiry time. The fourth expiry completes the plan with no overtime. |
| App.PomodoroApp.constructor | main.py:41-52 | No plan, index -1, WORK, stopped, 1500 s, no overtime, empty log. |
| App.PomodoroApp.StopOvertime | main.py:251-254 | Only the overtime marker changes, to absent. |
| App.PomodoroApp.StartOvertime | main.py:246-249 | Only the overtime marker changes, to the given clock reading. |
| App.PomodoroApp.LoadStepByIndex | main.py:196-239 | The new state is `Session.LoadStepByIndex` of the old one. |
| App.PomodoroApp.UpdatePlanStatus | main.py:241-243 | Returns the number of phases after the current one, in [0, length] while a plan is active. |
| App.PomodoroApp.NextStep | main.py:185-186 | The new state is `Session.NextStep` of the old one. |
| App.PomodoroApp.PrevStep | main.py:188-190 | The new state is `Session.PrevStep` of the old one. |
| App.PomodoroApp.SkipStep | main.py:192-194 | The new state is `Session.SkipStep` of the old one. |
| App.PomodoroApp.StartSmartPlan | main.py:176-183 | Calls the generator. The new state is `Session.StartSmartPlan` of the old one. |
| App.PomodoroApp.StopTimer | main.py:280-286 | The new state is `Session.StopTimer` of the old one. |
| App.PomodoroApp.ToggleModeLegacy | main.py:340-357 | The new state is `Session.ToggleModeLegacy` of the old one. |
| App.PomodoroApp.FinishTimer | main.py:310-338 | The new state is `Session.FinishTimer` of the old one. |
| App.PomodoroApp.Tick | main.py:302-308 | The new state is `Session.Tick` of the old one. |
| App.PomodoroApp.StartTimer | main.py:265-278 | The new state is `Session.StartTimer` of the old one. |
| App.PomodoroApp.ResetTimer | main.py:288-297 | The new state is `Session.ResetTimer` of the old one. |
| App.PomodoroApp.LogDistraction | main.py:359-368 | The new state is `Session.LogDistraction` of the old one. |
| App.FinishTimerTransition | tests/test_pomodoro.py:39-72 | On the object, with the two-phase plan WORK 100 s, BREAK 50 s at index 0: after the expiry the BREAK of 50 s is loaded at index 1, shown as `00:50`, stopped, with overtime from the expiry time. |
| App.NavigateTwoPhases | tests/test_pomodoro.py:74-100 | On the object, with the same plan at index 0: skip loads index 1, back loads index 0 with the WORK's 100 s, and a skip at the last phase leaves the state unchanged. |
| App.FirstPhaseOfDefaultPlan | main.py:265-338 | On the object: the start-up plan of main.py:73, start, 1499 ticks, then one more. The 5-minute BREAK at index 1 is then loaded, stopped, with overtime from the expiry time. |

## Left out

- Tk widgets, colours, label and button texts, and button enabling (main.py:75-148 and the window lines inside each method). Phase labels are carried as opaque strings.
- `root.after` / `after_cancel` and `timer_id` (main.py:284-286, main.py:306). The host calls `Tick` once per elapsed second instead. The model does not capture that stopping the countdown also cancels the next callback: a `Tick` delivered while stopped is modelled as `run_timer` would behave.
- The delayed default plan `root.after(100, lambda: self.start_smart_plan(60))` (main.py:73). The host calls `StartSmartPlan(60)`, as `OneHourSession` and `FirstPhaseOfDefaultPlan` do.
- Window raising and restoring inside `finish_timer` (main.py:314-322), the tray icon, its thread, the SHOW/QUIT queue and quitting (main.py:152-162, main.py:374-424): concurrency and window management.
- The wall clock. Overtime keeps the host's reading at expiry. The elapsed-time display and its 1-second redraw (main.py:256-262) are not modelled; neither is the log timestamp, which the host supplies already formatted (main.py:361).
- File I/O for `focus_log.csv` (main.py:363-368). The log is a sequence of rows, and "did the file exist" is an input.
- Random workout tips (main.py:215, main.py:347) and the message boxes (main.py:174, main.py:179).
- `start_custom_plan`'s `int()` parsing and error box (main.py:169-174). The host passes an integer to `StartSmartPlan`.
- `resource_path`, `create_image`, `build.py` and `convert_icon.py`: no timer logic.
- `tests/test_planner.py` expects a warm-up phase and labels that `planner.py` never produces. It is not used.
- App.PomodoroApp.LoadStepByIndex and Session.LoadStepByIndex require a non-negative index. Python would read a negative index from the end of the list. Every caller passes `current_step_index ± 1` with `current_step_index >= -1` and a guard, so no negative index occurs.
- Phase durations are natural numbers and `time_left` is a natural number. Every duration the program creates is positive, so `time_left` never goes below 0.
