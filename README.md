# AxiDraw driver, modelled in Dafny

This project models the core of the `@thi.ng/axidraw` package, a driver for the AxiDraw pen plotter.
The driver turns an ordered list of drawing commands into EiBotBoard (EBB) serial commands:
- `XM` moves the steppers;
- `SP` raises or lowers the pen;
- `SC` configures the servo;
- `EM` switches the motors;
- `R` resets the board.

The project has these modules:

- `Api` holds the driver's value types: the closed union of the 13 drawing commands, the three control states, the metrics of a draw, and the options the driver reads.
- `JsNumber` holds the JavaScript numeric operations the driver uses: `Math.trunc`, `Math.max`, `x | 0` (truncation, then signed 32-bit wrap-around) and per-axis clamping.
- `Ebb` defines the EBB commands as values and the trace events: a command sent, or a wait of some milliseconds.
- `DriverSpec` gives the meaning of each driver operation as a pure function on a snapshot of the driver's state (`Plotter`). `Exec`, `Step` and `Dispatch` give the meaning of the `draw` loop: the control check, the dispatch on the command tag, the recursion into the `start`/`stop` lists, the wait rule and the one-off pen-level restore.
- `Driver` holds the `AxiDraw` class. It has the fields of the source class, plus `trace` and `control`:
  - `trace` records everything written to the serial port and every wait.
  - `control` holds the readings the control will return from then on.
  - Every method is proved to change the state exactly as its `DriverSpec` function says. The loop of `draw` is proved against `Exec` with a loop invariant.
- `DriverProps` and `DrawProps` hold the properties of that model:
  - motion: clamping, targets, the exact `XM` command, the default-options example;
  - the pen commands, and the pen-limit stack;
  - what a draw keeps, and the consistency of its metrics;
  - the exact command counts when no CANCEL is read;
  - the square of the test suite, drawn with the pen down;
  - the trace emitted on pause and cancel, and the wait rule after a command.
- `PenHandling` holds the pen-timing classes: `PenPosition`, `PenLiftTiming` with its `update`, and `PenHeight`.

Where the documentation and the code differ, the model follows the code:
- The documented default of `preDelay` is 30 (packages/axidraw/src/api.ts:188-193). The default options set 0 (packages/axidraw/src/axidraw.ts:54), and so does the model.
- The expectations in packages/axidraw/test/index.ts:46-72 need a servo setup (`SC,8`, `SC,11`, `SC,12`, `SR`), a pin field on `SP`, and suppressed redundant lifts. `axidraw.ts` produces none of these: `penUp` and `penDown` (packages/axidraw/src/axidraw.ts:362-376) always emit `SP,1,delay` or `SP,0,delay`, and so does the model.
- The same expectation has `SC,4,20641` and `SC,5,15248` for the pen levels. The code sends `(7500 + 175 * level) | 0`, which gives `SC,4,18000` and `SC,5,12750` for the default levels up 60 and down 30. The model states the code's values (`DriverProps.DefaultPenConfig`).
- Of that expectation, the model states the four `XM` values of the pen-down square (test/index.ts:57-60), its waits and its distances (`DrawProps.SquareExample`, `DrawProps.DefaultSquareExample`), and the single first side (`DriverProps.MoveExample`). The diagonals, the pen-up moves and the counts of the whole test draw are not stated.

## Model

All source paths are under `packages/axidraw/`.

Several `DriverSpec` functions are the reference definitions. They have no contract of their own, and the rows below state them through the members that use them:
- `Exec`, `Step`, `Dispatch` and `ControlPoint` (`draw`, src/axidraw.ts:186-299) are stated by `Driver.AxiDraw.Process`, `StepCommand`, `Execute` and `CheckControl`. The properties of a draw are the `DrawProps` lemmas (`ExecKeeps`, `ExecPlausible`, `ExecCounts`, `ExecFirst`, `ControlPause`, `SquareExample`).
- `SendMoveSpec` (src/axidraw.ts:436-447) is stated by `Driver.AxiDraw.SendMove`, `DriverProps.SendMoveEffect` and `DriverProps.SendMovePosition`.
- `PenUpSpec` and `PenDownSpec` (src/axidraw.ts:362-376) are stated by `Driver.AxiDraw.PenUp`, `PenDown` and `DriverProps.PenMoves`.
- `PenConfigSpec` (src/axidraw.ts:351-360) is stated by `Driver.AxiDraw.PenConfig` and `DriverProps.PenConfigEffect`.
- `SaveSpec` and `RestoreSpec` (src/axidraw.ts:335-349) are stated by `Driver.AxiDraw.Save`, `Restore`, `DriverProps.SavePushes`, `RestorePops` and `BalancedRestores`.
- `ResetSpec` (src/axidraw.ts:110-115) is stated by `Driver.AxiDraw.Reset`.

| member | source | states |
|---|---|---|
| Api.Metrics.Add | packages/axidraw/src/axidraw.ts:235-238 | folding sub-metrics adds each of the four counters componentwise |
| Api.DefaultOpts | packages/axidraw/src/axidraw.ts:37-71 | the default options; the steps-per-unit ratio they give is exactly 80 |
| JsNumber.Abs | packages/axidraw/src/axidraw.ts:441 | the result is non-negative and equals `x` or `-x` |
| JsNumber.Max | packages/axidraw/src/axidraw.ts:441-443 | the result bounds both arguments and is one of them |
| JsNumber.Trunc | packages/axidraw/src/pen_handling.ts:82-83 | rounds toward zero: the largest integer not above a non-negative `x`, the smallest not below a negative one |
| JsNumber.ToInt32 | packages/axidraw/src/axidraw.ts:445 | the bitwise-or-with-zero conversion lies in the signed 32-bit range, agrees with the truncation modulo 2^32, and equals it whenever it fits |
| JsNumber.Clamp | packages/axidraw/src/axidraw.ts:438 | the clamped value is within `[lo, hi]` when `lo <= hi`; an inside value is kept; a value below becomes `lo`; a value above becomes `hi` |
| Ebb.ServoValue | packages/axidraw/src/axidraw.ts:470 | for a level in 0..100 the servo value is `trunc(7500 + 175x)` and lies in 7500..25000 |
| Ebb.ServoValueMonotone | packages/axidraw/src/axidraw.ts:470 | over 0..100 a higher level never gives a lower servo value |
| DriverSpec.ClampTo | packages/axidraw/src/axidraw.ts:438 | no bounds: no clamping; ordered bounds: the result lies inside them; an inside point is kept |
| DriverSpec.StepBounds | packages/axidraw/src/axidraw.ts:92-105 | a rectangle is scaled to steps; a paper size is based at [0,0] |
| DriverSpec.MakeEnv | packages/axidraw/src/axidraw.ts:88-105 | `scale * unitsPerInch == stepsPerInch`; bounds are absent exactly when none are configured |
| DriverSpec.EffectiveDelay | packages/axidraw/src/axidraw.ts:364 | a given non-negative delay is used as is; otherwise the configured default |
| DriverSpec.ReadControl | packages/axidraw/src/axidraw.ts:208 | `deref()` returns the next reading and consumes it; changes nothing else |
| DriverSpec.PollSpec | packages/axidraw/src/axidraw.ts:212-214 | the poll ends on a reading other than PAUSE; it changes only the trace and the control |
| DriverSpec.Travel | packages/axidraw/src/axidraw.ts:200-203 | a move adds its distance to `totalDist`, and to `drawDist` only with the pen down; no command counts |
| DriverSpec.AfterCommand | packages/axidraw/src/axidraw.ts:288-298 | the wait and restore after a command change only the trace |
| Driver.AxiDraw.constructor | packages/axidraw/src/axidraw.ts:87-108 | the options, scale and bounds are those of `MakeEnv`; the state is `Initial`: limits `[down, up]`, one stack entry, scaled home, not connected, nothing sent |
| Driver.AxiDraw.Send | packages/axidraw/src/axidraw.ts:431-434 | appends the command to the trace |
| Driver.AxiDraw.Delay | packages/axidraw/src/axidraw.ts:289-291 | appends a wait to the trace |
| Driver.AxiDraw.SendPenConfig | packages/axidraw/src/axidraw.ts:459-471 | emits `SC,id,v` with `v` the 32-bit truncation of `7500 + 175x`, whatever `penlift` is |
| Driver.AxiDraw.Reset | packages/axidraw/src/axidraw.ts:110-115 | zeroes `pos` and `targetPos` and emits `R` |
| Driver.AxiDraw.MotorsOn | packages/axidraw/src/axidraw.ts:327-329 | emits `EM,1,1` |
| Driver.AxiDraw.MotorsOff | packages/axidraw/src/axidraw.ts:331-333 | emits `EM,0,0` |
| Driver.AxiDraw.Connect | packages/axidraw/src/axidraw.ts:129-147 | with a matching port it connects; without one it fails with `NoMatchingDevice` and changes nothing |
| Driver.AxiDraw.SetHome | packages/axidraw/src/axidraw.ts:418-421 | the home position becomes the scaled argument |
| Driver.AxiDraw.Save | packages/axidraw/src/axidraw.ts:335-338 | pushes a copy of the limits |
| Driver.AxiDraw.Restore | packages/axidraw/src/axidraw.ts:340-349 | pops and re-sends as `RestoreSpec` says, and keeps the bottom entry |
| Driver.AxiDraw.PenConfig | packages/axidraw/src/axidraw.ts:351-360 | changes the state as `PenConfigSpec` says |
| Driver.AxiDraw.PenUp | packages/axidraw/src/axidraw.ts:362-368 | changes the state and returns the delay as `PenUpSpec` says |
| Driver.AxiDraw.PenDown | packages/axidraw/src/axidraw.ts:370-376 | changes the state and returns the delay as `PenDownSpec` says |
| Driver.AxiDraw.SendMove | packages/axidraw/src/axidraw.ts:436-447 | moves to the stored target, clamped first; the state, duration and distance are those of `SendMoveSpec` |
| Driver.AxiDraw.MoveTo | packages/axidraw/src/axidraw.ts:391-396 | targets `p * scale + homePos`, then moves as `SendMoveSpec` says |
| Driver.AxiDraw.MoveRelative | packages/axidraw/src/axidraw.ts:404-409 | targets `delta * scale + pos`, then moves as `SendMoveSpec` says |
| Driver.AxiDraw.Home | packages/axidraw/src/axidraw.ts:414-416 | `moveTo([0,0])` |
| Driver.AxiDraw.Deref | packages/axidraw/src/axidraw.ts:208 | reads and consumes the next control reading |
| Driver.AxiDraw.PollPaused | packages/axidraw/src/axidraw.ts:212-214 | the do-while poll loop, proved against `PollSpec` |
| Driver.AxiDraw.CheckControl | packages/axidraw/src/axidraw.ts:207-223 | the pause and cancel handling before a command, as `ControlPoint` says |
| Driver.AxiDraw.Execute | packages/axidraw/src/axidraw.ts:224-287 | the `switch` on the tag, with each case's wait and metrics, as `Dispatch` says; `start`/`stop` recurse into their lists |
| Driver.AxiDraw.AfterWait | packages/axidraw/src/axidraw.ts:288-298 | a positive wait less `preDelay` (floored at 0), then the one-off level restore |
| Driver.AxiDraw.StepCommand | packages/axidraw/src/axidraw.ts:205-299 | one loop iteration: count, control check, dispatch, wait, as `Step` says |
| Driver.AxiDraw.Process | packages/axidraw/src/axidraw.ts:196-299 | the loop of `draw` with its four counters; the final state and metrics are those of `Exec` |
| Driver.AxiDraw.Draw | packages/axidraw/src/axidraw.ts:186-315 | fails with `NotConnected` and changes nothing unless connected; otherwise runs as `Exec` says and returns its metrics |
| Driver.AxiDraw.Draw1 | packages/axidraw/src/axidraw.ts:323-325 | a draw of the single command |
| DriverProps.SendMovePosition | packages/axidraw/src/axidraw.ts:436-440 | after a move `pos == targetPos ==` the clamped target; only those and the trace change |
| DriverProps.SendMoveEffect | packages/axidraw/src/axidraw.ts:439-447 | exactly one `XM` of the 32-bit truncations of `dur`, `dx`, `dy`; `dur = 1000 * max(abs(dx), abs(dy)) / (speed * tempo)` with the pen-state speed and tempo 1 by default; distance `mag(delta) / scale` |
| DriverProps.SendMoveStaysInBounds | packages/axidraw/src/axidraw.ts:438 | with ordered bounds every move ends inside them |
| DriverProps.SendMoveUnbounded | packages/axidraw/src/api.ts:112-113 | without bounds the target is not clamped |
| DriverProps.SendMoveDistNonNegative | packages/axidraw/src/axidraw.ts:446 | a move's distance is never negative when the length never is |
| DriverProps.MoveToTarget | packages/axidraw/src/axidraw.ts:391-396 | `moveTo` ends at the clamped `p * scale + homePos` |
| DriverProps.MoveRelTarget | packages/axidraw/src/axidraw.ts:404-409 | `moveRelative` ends at the clamped `delta * scale + pos` |
| DriverProps.SendMoveIgnoresTarget | packages/axidraw/src/axidraw.ts:437-440 | the previous stored target has no effect on a move |
| DriverProps.HomeTarget | packages/axidraw/src/axidraw.ts:414-416 | `home` ends at the clamped home position |
| DriverProps.StandStill | packages/axidraw/src/axidraw.ts:439-446 | a move to the current position emits `XM,0,0,0`; its duration and distance are 0 |
| DriverProps.DefaultScale | packages/axidraw/src/axidraw.ts:44-45 | the default options give 80 steps per millimetre |
| DriverProps.ToInt32OfInteger | packages/axidraw/src/axidraw.ts:445 | an integer inside the 32-bit range passes the 32-bit truncation unchanged |
| DriverProps.DefaultEnv | packages/axidraw/src/axidraw.ts:37-71 | the default options meet the driver's requirements; they give speeds of 4000, scale 80 and A3 bounds based at [0,0] |
| DriverProps.AxisMove | packages/axidraw/src/axidraw.ts:436-447 | a move along x by `d` inside the bounds emits `XM,ToInt32(1000 abs(d) / speed),ToInt32(d),0` (the 32-bit truncations; `d` itself for an integral `d` in range) and covers `abs(d) / scale` |
| DriverProps.MoveExample | packages/axidraw/test/index.ts:57 | pen down, from the origin to [100,0], at 4000 steps/s and scale 80: `XM,2000,8000,0`, duration 2000, distance 100 |
| DriverProps.DefaultMoveExample | packages/axidraw/test/index.ts:57 | the same move under the default options |
| DriverProps.PenMoves | packages/axidraw/src/axidraw.ts:362-376 | an optional `SC,4,level` (up) or `SC,5,level` (down), then `SP,1,delay` or `SP,0,delay` with the effective delay (also returned); the pen flag is set; limits and everything else unchanged, whatever the previous pen state |
| DriverProps.NegativeDelayIsDefault | packages/axidraw/src/api.ts:24-29 | a delay of -1 means the configured default |
| DriverProps.DefaultPenConfig | packages/axidraw/src/axidraw.ts:351-360 | `penConfig()` under the default levels (up 60, down 30) emits `SC,4,18000`, `SC,5,12750`, `SC,10,65535` |
| DriverProps.PenConfigEffect | packages/axidraw/src/axidraw.ts:351-360 | missing values come from the options; limits become `[down, up]`; emits `SC,4,up`, `SC,5,down`, `SC,10,65535` in order |
| DriverProps.SavePushes | packages/axidraw/src/axidraw.ts:335-338 | `save` pushes the current limits and changes nothing else |
| DriverProps.RestorePops | packages/axidraw/src/axidraw.ts:340-349 | with fewer than 2 entries: no change at all; otherwise: pop into the limits, then `SC,4,up`, `SC,5,down` |
| DriverProps.RestoreKeepsSentinel | packages/axidraw/src/axidraw.ts:107 | `restore` never removes the bottom entry |
| DriverProps.SaveConfigRestore | packages/axidraw/src/axidraw.ts:335-360 | save, any `penConfig`, restore: limits and stack are as before |
| DriverProps.SaveRestore | packages/axidraw/src/axidraw.ts:335-349 | save then restore gives back the limits and the stack |
| DriverProps.ApplyOpsAppend | packages/axidraw/src/axidraw.ts:335-360 | running two sequences of stack operations one after the other is running their concatenation |
| DriverProps.BlockRestores | packages/axidraw/src/axidraw.ts:335-360 | a configuration or a `save` ... `restore` pair leaves the stack as it was; a pair also gives back the limits, whatever it encloses |
| DriverProps.FlattenKeepsStack | packages/axidraw/src/axidraw.ts:335-360 | any balanced sequence of `save`, `restore` and `penConfig` leaves the stack as it was |
| DriverProps.BalancedRestores | packages/axidraw/src/axidraw.ts:335-360 | `n` balanced `save` ... `restore` pairs, side by side or nested, around any pen configurations: the limits and the stack are as before |
| DriverProps.InitialStack | packages/axidraw/src/axidraw.ts:87-108 | after construction the stack is exactly `[[down, up]]`, home is scaled, nothing is sent, not connected |
| DrawProps.ReadKeeps | packages/axidraw/src/axidraw.ts:208 | reading the control keeps the connection, home, bottom stack entry and trace prefix; with no CANCEL among the readings, the reading is not CANCEL and none of the rest is |
| DrawProps.PollKeeps | packages/axidraw/src/axidraw.ts:212-214 | polling keeps the connection, home, bottom stack entry and trace prefix; with no CANCEL among the readings, the poll does not end on CANCEL |
| DrawProps.PenUpKeeps | packages/axidraw/src/axidraw.ts:362-368 | `penUp` keeps the connection, home, bottom stack entry and trace prefix |
| DrawProps.PenDownKeeps | packages/axidraw/src/axidraw.ts:370-376 | `penDown` keeps the same |
| DrawProps.ControlPointKeeps | packages/axidraw/src/axidraw.ts:207-223 | the control check keeps the same; with no CANCEL among the readings it never cancels |
| DrawProps.SendMoveKeeps | packages/axidraw/src/axidraw.ts:436-447 | a move keeps the same |
| DrawProps.AfterCommandKeeps | packages/axidraw/src/axidraw.ts:288-298 | the wait and restore keep the same |
| DrawProps.ExecKeeps | packages/axidraw/src/axidraw.ts:205-299 | a whole draw keeps the connection and home; it never removes the bottom stack entry, only appends to the trace, and never creates a control |
| DrawProps.StepKeeps | packages/axidraw/src/axidraw.ts:205-299 | one iteration keeps the same |
| DrawProps.DispatchKeeps | packages/axidraw/src/axidraw.ts:227-287 | every command keeps the same |
| DrawProps.StepWithoutControl | packages/axidraw/src/axidraw.ts:205-207 | without a control a command is never cancelled: dispatched, waited for, counted once |
| DrawProps.StepWithControl | packages/axidraw/src/axidraw.ts:206-223 | with a control: a cancel counts the command and dispatches nothing; otherwise it is dispatched from the state the check leaves |
| DrawProps.MoveDist | packages/axidraw/src/axidraw.ts:241-281 | the distance a move records is never negative |
| DrawProps.ExecPlausible | packages/axidraw/src/axidraw.ts:196-299 | every draw's metrics satisfy `0 <= penCommands <= commands` and `0 <= drawDist <= totalDist` |
| DrawProps.StepPlausible | packages/axidraw/src/axidraw.ts:205-299 | one iteration's metrics are consistent, and it counts at least one command |
| DrawProps.DispatchShape | packages/axidraw/src/axidraw.ts:228-287 | `start`/`stop` contribute their sub-draw's metrics; `u`/`d` one pen command; other non-moves nothing |
| DrawProps.DispatchPlausible | packages/axidraw/src/axidraw.ts:227-287 | one command adds at most one pen command more than commands, and drawn distance within total distance |
| DrawProps.DrawMetricsPlausible | packages/axidraw/src/api.ts:400-424 | `0 <= penCommands <= commands` and `0 <= drawDist <= totalDist` for every draw |
| DrawProps.MoveMetrics | packages/axidraw/src/axidraw.ts:200-203 | a move adds no command count; its distance goes to `drawDist` only with the pen down |
| DrawProps.ExecCounts | packages/axidraw/src/axidraw.ts:205-264 | a draw counts at most the unfolded commands and their `u`/`d` commands; exactly those when no CANCEL is among the readings (pauses included); pause and cancel lifts never count |
| DrawProps.ExecFirst | packages/axidraw/src/axidraw.ts:205-299 | a draw is its first step, then the rest unless that step cancels |
| DrawProps.PendingStart | packages/axidraw/src/axidraw.ts:196-199 | the loop invariant holds initially |
| DrawProps.PendingStep | packages/axidraw/src/axidraw.ts:205-299 | one iteration keeps the loop invariant, or cancels with the final result |
| DrawProps.PendingDone | packages/axidraw/src/axidraw.ts:299-314 | at the end of the loop the state and counters are the draw's result |
| DrawProps.StepCounts | packages/axidraw/src/axidraw.ts:205-264 | one step counts at most its unfolded commands and `u`/`d`; with no CANCEL among the readings exactly those, not cancelled, and still no CANCEL left |
| DrawProps.DispatchCounts | packages/axidraw/src/axidraw.ts:228-264 | the counts `start`/`stop` fold in from their lists, and the one pen command of `u`/`d`; exact when no CANCEL is among the readings |
| DrawProps.DrawCountsWithoutCancel | packages/axidraw/src/api.ts:417-423 | without a control, or with one that never reads CANCEL: `commands` is the number of unfolded commands; `penCommands` the number of their `u`/`d` |
| DrawProps.PollAfterPauses | packages/axidraw/src/axidraw.ts:212-214 | `n` PAUSE readings then another: `n + 1` waits of `refresh`, that reading returned, `n + 1` readings consumed |
| DrawProps.ControlContinue | packages/axidraw/src/api.ts:101-102 | CONTINUE lets the command through and changes nothing else |
| DrawProps.ControlCancel | packages/axidraw/src/axidraw.ts:219-222 | CANCEL emits one `SP,1` and cancels |
| DrawProps.ControlPause | packages/axidraw/src/axidraw.ts:209-222 | PAUSE: `SP,1` if the pen was down, the waits, then `SP,0` only on CONTINUE with the pen originally down, and `SP,1` plus cancel on CANCEL |
| DrawProps.ExecCancelledAtOnce | packages/axidraw/src/axidraw.ts:219-222 | a first reading of CANCEL: one `SP,1`, nothing processed, one command counted |
| DrawProps.ExecSingle | packages/axidraw/src/axidraw.ts:323-325 | a draw of one command is one step |
| DrawProps.SideStep | packages/axidraw/src/axidraw.ts:436-447 | one pen-down side of 8000 steps along an axis at 4000 steps/s: `XM,2000,dx,dy`, a 2000 ms wait, one command, 100 units drawn |
| DrawProps.ExecSide | packages/axidraw/src/axidraw.ts:196-299 | a draw that starts with such a side is that side, then the rest of the draw from where it ends |
| DrawProps.SquareExample | packages/axidraw/test/index.ts:57-60 | the pen-down square from the origin: `XM,2000,8000,0`, `XM,2000,0,8000`, `XM,2000,-8000,0`, `XM,2000,0,-8000`, each followed by its wait; back at the origin; 4 commands, no pen command, `drawDist == totalDist == 400` |
| DrawProps.DefaultSquareExample | packages/axidraw/src/api.ts:406-416 | the same square under the default options: the four `XM` in order and `drawDist == totalDist == 400` |
| DrawProps.AfterCommandWait | packages/axidraw/src/axidraw.ts:288-292 | without a one-off level, the only effect after a command is the wait |
| DrawProps.WaitAfter | packages/axidraw/src/axidraw.ts:288-292 | no wait unless positive; a positive wait becomes `max(0, wait - preDelay)` |
| DrawProps.StepWait | packages/axidraw/src/axidraw.ts:271-273 | `w`: only the wait, less `preDelay` |
| DrawProps.StepOneOffDown | packages/axidraw/src/axidraw.ts:261-264 | `d` with a level: `SC,5,level`, `SP,0`, the wait, then `SC,5` with the stored down level; the limits are unchanged |
| DrawProps.StepOneOffUp | packages/axidraw/src/axidraw.ts:257-260 | `u` with a level: `SC,4,level`, `SP,1`, the wait, then `SC,4` with the stored up level; the limits are unchanged |
| DrawProps.OneOffRestore | packages/axidraw/src/axidraw.ts:293-298 | after a `u`/`d` with a level: the wait, then the stored level of that channel |
| PenHandling.PenPosition.constructor | packages/axidraw/src/pen_handling.ts:16-19 | at the origin, with the vertical state unknown |
| PenHandling.PenPosition.Reset | packages/axidraw/src/pen_handling.ts:21-25 | back to the origin, with the vertical state unknown |
| PenHandling.PenPosition.ResetZ | packages/axidraw/src/pen_handling.ts:27-29 | clears only the vertical state |
| PenHandling.LiftTime | packages/axidraw/src/pen_handling.ts:82-90 | never negative; below the 0.9 travel threshold it is `max(0, delay)`, whatever the rate |
| PenHandling.PenLiftTiming.constructor | packages/axidraw/src/pen_handling.ts:40-43 | both times unknown |
| PenHandling.PenLiftTiming.Update | packages/axidraw/src/pen_handling.ts:63-103 | both times become known and non-negative: raise from the up rate and delay, lower from the down ones |
| PenHandling.PenHeight.constructor | packages/axidraw/src/pen_handling.ts:117-122 | no down position, no temporary height, not narrow-band, fresh timing with both times unknown |
| PenHandling.LiftTimeMonotoneInDelay | packages/axidraw/src/pen_handling.ts:88-89 | a longer delay never shortens the time |
| PenHandling.LiftTimeAboveThreshold | packages/axidraw/src/pen_handling.ts:82-90 | past the threshold, with a non-negative blend and delay, the time is `trunc(blend) + delay` |
| PenHandling.UpdateIndependence | packages/axidraw/src/pen_handling.ts:82-90 | the raise time does not depend on the down rate or down delay |
| PenHandling.UpdateIndependenceLower | packages/axidraw/src/pen_handling.ts:93-101 | the lower time does not depend on the up rate or up delay |
| PenHandling.EqualPositionsNoTravel | packages/axidraw/src/pen_handling.ts:85-101 | equal up and down positions: both times are their delays, floored at 0 |

## Left out

- **Serial I/O.** Opening the port, listing ports and matching their names are I/O. `Connect` takes whether a matching port was `found`, and `disconnect` is not modelled. Sending appends to `trace`.
- **Waiting.** `delayed` is recorded as a `Waited` event; no time passes.
- **Process plumbing.** The SIGINT handler, `onSignal` and `process.exit` are not modelled.
- **Logging and the clock.** Logging, `Date.now`, `formatDuration` and the `duration` field of the metrics are not modelled.
- **Paper-size bounds.** The unit conversion of paper-size bounds uses a foreign library. A paper size is taken already in motor steps and based at [0,0].
- **Wrapping.** `complete()` and the command builders of `commands.js` are not part of this model. `Draw` runs exactly the given commands, which is `draw(commands, false)`. The default start and stop lists are read as `on`, `pen`, `u` and `u`, `home`, `off`.
- **Floating point.** Arithmetic is exact (`real`), without rounding. Two operations are parameters:
  - `mag`, the floating-point Euclidean length, is left uninterpreted. Lemmas that need a fact about it take it as a precondition: `MagNonNegative`, or an exact value on an axis.
  - The fourth root of the pen-timing blend is the parameter `root4`.
- **Division by zero.** The requires that rule it out are preconditions the source does not check: non-zero speeds, a positive scale, a tempo that is not 0, and a non-zero rate past the travel threshold. JavaScript would yield `Infinity` or `NaN` there.
- **Exhausted control.** The control is a finite sequence of readings. Once it is used up, it reads CONTINUE, so that the pause poll terminates.
- **Send before connect.** The source would crash here because the serial port is not set. The model simply records the command.
- **Unknown tags.** The `unsupported` default branch of the dispatch cannot be reached with the closed command datatype. A comment carries only its text.
- **Nested start/stop.** `start`/`stop` lists are required to contain no `start`/`stop` of their own (`Flat`), which makes the recursion terminate. `start`/`stop` with such lists is not modelled.
- **Dead code.** The servo locals of `sendPenConfig` are computed and never used, so they are not modelled. `PenHandler` is an empty class.
- **Command text.** Commands are values, not rendered `"XM,…\r"` strings.
- DrawProps.ExecCounts: the counts are exact whenever no CANCEL is among the control's readings, however many pauses there are. When a CANCEL is read, the counts are upper bounds only, because where the cancel falls decides how many commands run.
- **Option merging.** The constructor merges the given options over the defaults (`{ ...DEFAULT_OPTS, ...opts }`, packages/axidraw/src/axidraw.ts:88). The model's constructor receives the options already merged. An absent `bounds` (`None`) stands for an explicit `bounds: undefined`, which disables clamping (packages/axidraw/src/api.ts:113).
- DriverProps.DefaultMoveExample: assumes `mag([8000, 0]) == 8000`, the one floating-point fact it needs.
- DrawProps.ControlPause: describes a pause of at least one reading followed by a non-PAUSE reading. A pause that outlasts the readings ends in CONTINUE, by the exhausted-control rule above.
