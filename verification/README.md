# H-bridge output patterns, in Dafny

This project models the output-pattern logic of the MicroPython H-bridge motor
drivers in `micropython/drivers/motion/h-bridge/`. The logic turns a signed speed
command (or `None`, the STOP mode) into an ordered sequence of hardware writes.
It covers:

- `HBridgeDirPwm`: one direction pin and one PWM output.
- `HBridge4Pwm`: four independent PWM outputs, one per bridge switch S1..S4.
- `HBridge2McPwm`: two MCPWM channels, each driving one leg through a
  complementary high/low pair.
- `HBridgeEn`: an enable pin in front of any of the three drivers.
- The shared constants and the percentage/duty conversions.

Every driver method is modelled as a pure function that returns its trace: a
`seq<Event>` made of `SetDuty(channel, value)` (a `duty_u16` write),
`SetLevel(pin, level)` (a direction or enable pin write), `Sleep(us)` (the
`sleep_us` dead time) and `Release(channel)` (a `deinit` attempt). `Run`
replays a trace onto a `Bench`, the last value written to every output, so
each proof about final states, intermediate states and ordering is a proof
about these traces.

Modules, one per file:

- `Common` (`common.dfy`): `U16`, the `Command` type (`Stop` is `None`,
  `Speed(0)` is BRAKE), Python truthiness, and the two conversions.
- `Outputs` (`outputs.dfy`): channels, pins, events, the `Bench` and `Run`.
- `Interlock` (`interlock.dfy`): the dead-time interlock. Every
  `HBridge4Pwm`/`HBridge2McPwm` routine zeroes some outputs, sleeps, then
  writes the outputs it turns on. A routine is therefore a `Transition(off, on)`
  whose trace is built in the source's write order. The generic theorems are
  proved here once: one sleep, zero writes first, the final state, and that
  a routine which zeroes the other output of a pair before turning one on
  never has both on. For `HBridge4Pwm` the pairs are the two switches of a
  leg (no shoot-through). For `HBridge2McPwm` the pair is the two channels,
  which the driver never runs together.
- `Routines` (`routines.dfy`): the routine names, the `reverse` setter and the
  `go` dispatch. The two four-switch classes share the setter and the dispatch
  word for word.
- `FourPwm`, `McPwm`, `DirPwm` (`four_pwm.dfy`, `mc_pwm.dfy`, `dir_pwm.dfy`):
  the three drivers.
- `Enable` (`enable.dfy`): `HBridgeEn` over a `Motor`, which is any of the
  three drivers.

Python's `//` floors. Every division in the conversions has a positive
divisor, and there Dafny's `/` gives the same result. Speeds are unbounded
integers: the drivers neither clamp nor range-check them.

The model follows the code where the header comments say something else:

- `go(0)` and `go(None)` both run `stop()` in `HBridge4Pwm` and
  `HBridge2McPwm`, so BRAKE and STOP are not told apart.
- `HBridgeDirPwm.go(0)` still writes the direction pin.
- `HBridge2McPwm.forward` writes full duty whatever its speed.
- `HBridge2McPwm.breakh` and `coast1` end with channel 1 at U16 and channel 2
  at 0, the same state as `forward`. With each channel driving one leg
  through its complementary pair, that is the forward row of the header
  table, not the high-side brake or a coast row. `breakl` and `coast2` are
  the same with the channels swapped. The model keeps the code's writes.

## Model

| member | source | states |
|---|---|---|
| Common.PercentagesToI16 | micropython/drivers/motion/h-bridge/HBridge_common.py:12-14 | the duty always lies in [-U16, U16], for any integer percentage |
| Common.PercentagesToI16Anchors | micropython/drivers/motion/h-bridge/HBridge_common.py:12-14 | 100 maps to U16, -100 to -U16, 0 to 0 |
| Common.PercentagesToI16Monotone | micropython/drivers/motion/h-bridge/HBridge_common.py:14 | a larger percentage never gives a smaller duty |
| Common.PercentagesRoundTrip | micropython/drivers/motion/h-bridge/HBridge_common.py:10-17 | converting a percentage in [-100, 100] to a duty and back gives exactly that percentage, with the as-written and the corrected inverse alike |
| Common.I16ToPercentages | micropython/drivers/motion/h-bridge/HBridge_common.py:16-17 | as written, the result is only bounded by plus or minus U16 |
| Common.I16ToPercentagesRange | micropython/drivers/motion/h-bridge/HBridge_common.py:16-17 | a duty in [-U16, U16] converts to a percentage in [-100, 100] |
| Common.I16ToPercentagesEscapesRange | micropython/drivers/motion/h-bridge/HBridge_common.py:17 | as written, the duty 2*U16 converts to 200 percent; the corrected conversion gives 100 |
| Common.I16ToPercentagesClamped | micropython/drivers/motion/h-bridge/HBridge_common.py:16-17 | the corrected conversion always returns a percentage in [-100, 100] |
| Common.I16ToPercentagesClampedAgrees | micropython/drivers/motion/h-bridge/HBridge_common.py:16-17 | on [-U16, U16] the corrected and as-written conversions agree |
| Enable.Go | micropython/drivers/motion/h-bridge/HBridge_common.py:42-44 | `go` writes the enable level first and only once, high exactly when the speed is neither None nor 0; the wrapped `go` follows unchanged and never writes enable |
| Enable.Stop | micropython/drivers/motion/h-bridge/HBridge_common.py:38-40 | `stop` runs the wrapped `stop` first and unchanged (it never writes enable), then writes enable low as its single last event |
| Enable.Deinit | micropython/drivers/motion/h-bridge/HBridge_common.py:35-36 | `deinit` is exactly the wrapped driver's `deinit`, which attempts at least one release; it only releases outputs and never writes the enable pin |
| Enable.GoFinal | micropython/drivers/motion/h-bridge/HBridge_common.py:42-44 | after `go` the outputs are where the wrapped `go` leaves them, with enable high exactly when the speed is neither None nor 0 |
| Enable.StopDisablesLast | micropython/drivers/motion/h-bridge/HBridge_common.py:38-40 | after `stop` the outputs are where the wrapped `stop` leaves them, and enable is low |
| Enable.DeinitLeavesEnable | micropython/drivers/motion/h-bridge/HBridge_common.py:35-36 | `deinit` changes no recorded output value |
| Enable.MotorLeavesEnable | micropython/drivers/motion/h-bridge/HBridge_common.py:36-44 | none of the wrapped drivers' `go`, `stop` or `deinit` writes the enable pin |
| DirPwm.SetReverse | micropython/drivers/motion/h-bridge/HBridgeDirPwm.py:42-44 | the setter stores `bool(x)` for None, bool and int arguments |
| DirPwm.Stop | micropython/drivers/motion/h-bridge/HBridgeDirPwm.py:46-47 | `stop` writes only duty 0 and never writes the direction pin |
| DirPwm.StopFinal | micropython/drivers/motion/h-bridge/HBridgeDirPwm.py:46-47 | after `stop` every output is as it was except the duty, now 0 |
| DirPwm.Go | micropython/drivers/motion/h-bridge/HBridgeDirPwm.py:49-54 | a speed, 0 included, writes the direction pin once and then the duty once; None is exactly `stop()` |
| DirPwm.Deinit | micropython/drivers/motion/h-bridge/HBridgeDirPwm.py:32-36 | `deinit` only tries to release the PWM output, never the direction pin |
| DirPwm.GoFinal | micropython/drivers/motion/h-bridge/HBridgeDirPwm.py:49-54 | after `go(s)` the direction is `(s > 0) != reverse` and the duty is `abs(s)`; after `go(None)` only the duty changes, to 0 |
| DirPwm.GoOpposite | micropython/drivers/motion/h-bridge/HBridgeDirPwm.py:51-52 | for s ≠ 0, `go(s)` and `go(-s)` give equal duty and opposite direction levels |
| DirPwm.GoParkBrake | micropython/drivers/motion/h-bridge/HBridgeDirPwm.py:10-52 | `go(0)` is the park-brake row: duty 0, with the direction level equal to `reverse` |
| DirPwm.GoReverse | micropython/drivers/motion/h-bridge/HBridgeDirPwm.py:42-51 | flipping `reverse` flips the direction level `go(s)` produces and keeps the duty |
| DirPwm.GoAgreesWithDispatch | micropython/drivers/motion/h-bridge/HBridgeDirPwm.py:49-52 | for s ≠ 0 the direction is high exactly when the four-switch drivers' `go` would run `forward`, and the duty is the speed those drivers would pass on |
| Routines.SetReverse | micropython/drivers/motion/h-bridge/HBridge4Pwm.py:85-91 | the setter stores `bool(x)` and keeps the dead time |
| Routines.Dispatch | micropython/drivers/motion/h-bridge/HBridge4Pwm.py:159-174 | 0 and None select `stop`; any other speed selects `forward` exactly when its sign and `reverse` disagree, else `backward`, always with the speed's positive magnitude |
| Routines.DispatchReverse | micropython/drivers/motion/h-bridge/HBridge2McPwm.py:117-132 | with `reverse` flipped, a speed selects what its negation selected |
| Routines.DispatchBrakeIsStop | micropython/drivers/motion/h-bridge/HBridge2McPwm.py:129-132 | BRAKE (0) and STOP (None) select the same routine, `stop` |
| Interlock.TraceOrdered | micropython/drivers/motion/h-bridge/HBridge4Pwm.py:96-157 | every routine's trace has exactly one sleep of the dead time, every other event is a duty write, and every write before the sleep is 0 |
| Interlock.TraceSeparated | micropython/drivers/motion/h-bridge/HBridge4Pwm.py:103-129 | when a routine's on-writes are nonzero, all zero writes come before the sleep and all nonzero writes after it |
| Interlock.TraceOnlyDuties | micropython/drivers/motion/h-bridge/HBridge2McPwm.py:72-115 | a routine writes only duties and sleeps, never a pin level |
| Interlock.TraceFinal | micropython/drivers/motion/h-bridge/HBridge4Pwm.py:96-157 | a routine leaves each output at its last on-write, else at 0 if it was zeroed, else unchanged; pins are untouched |
| Interlock.KeepsApart | micropython/drivers/motion/h-bridge/HBridge4Pwm.py:96-157 | starting from a state where no pair of outputs is both on, a routine that zeroes the other output of a pair before turning one on, and never turns on both, passes through no state with both outputs of a pair on |
| FourPwm.Pattern | micropython/drivers/motion/h-bridge/HBridge4Pwm.py:96-157 | every routine touches only S1..S4, and turns an output on only after zeroing its same-leg complement, never turning on both switches of a leg |
| FourPwm.Call | micropython/drivers/motion/h-bridge/HBridge4Pwm.py:96-157 | every routine sleeps the dead time exactly once, every other event is a duty write, and only zeros are written before the sleep |
| FourPwm.Stop | micropython/drivers/motion/h-bridge/HBridge4Pwm.py:93-101 | `stop` writes 0 to each of S1..S4 once, then sleeps the dead time |
| FourPwm.Go | micropython/drivers/motion/h-bridge/HBridge4Pwm.py:159-174 | through `go`, every write before the one sleep is zero and every write after it nonzero |
| FourPwm.CallMatchesTable | micropython/drivers/motion/h-bridge/HBridge4Pwm.py:19-33 | every routine ends in its row of the header truth table whatever the outputs held before (forward (U16,0,0,s), backward (0,s,U16,0), breakh (U16,0,U16,0), breakl (0,U16,0,U16), coastK only output K at U16); no other output changes |
| FourPwm.GoFinal | micropython/drivers/motion/h-bridge/HBridge4Pwm.py:159-174 | `go(s)` ends at (U16,0,0,abs(s)) when the sign and `reverse` disagree, at (0,abs(s),U16,0) when they agree, and all four at 0 for 0 and None |
| FourPwm.CallNoShootThrough | micropython/drivers/motion/h-bridge/HBridge4Pwm.py:96-157 | from a state with no shorted leg, no intermediate or final state of any routine has S1 and S2, or S3 and S4, both nonzero |
| FourPwm.GoNoShootThrough | micropython/drivers/motion/h-bridge/HBridge4Pwm.py:159-174 | the same holds for `go` with any command |
| FourPwm.GoReverse | micropython/drivers/motion/h-bridge/HBridge4Pwm.py:159-170 | with `reverse` flipped, `go(s)` produces the events `go(-s)` produced |
| FourPwm.GoBrakeIsStop | micropython/drivers/motion/h-bridge/HBridge4Pwm.py:93-101 | `go(0)` and `go(None)` produce exactly the events of `stop()` |
| FourPwm.Deinit | micropython/drivers/motion/h-bridge/HBridge4Pwm.py:67-83 | `deinit` tries to release each of the four outputs and does nothing else |
| McPwm.Pattern | micropython/drivers/motion/h-bridge/HBridge2McPwm.py:72-115 | every routine touches only the two channels, turns on at most one, and zeroes the other one before that |
| McPwm.Call | micropython/drivers/motion/h-bridge/HBridge2McPwm.py:72-115 | every routine sleeps the dead time exactly once, every other event is a duty write, and only zeros are written before the sleep |
| McPwm.Stop | micropython/drivers/motion/h-bridge/HBridge2McPwm.py:69-75 | `stop` writes 0 to each channel once, then sleeps the dead time |
| McPwm.Go | micropython/drivers/motion/h-bridge/HBridge2McPwm.py:117-132 | through `go`, every write before the one sleep is zero and every write after it nonzero |
| McPwm.CallFinal | micropython/drivers/motion/h-bridge/HBridge2McPwm.py:69-115 | whatever the channels held before: forward, breakh and coast1 end at (U16, 0); backward(s) at (0, s); breakl and coast2 at (0, U16); stop/coast0, coast3 and coast4 at (0, 0); nothing else changes |
| McPwm.CallAtMostOneOn | micropython/drivers/motion/h-bridge/HBridge2McPwm.py:72-115 | after any routine at most one of the two channels is nonzero, whatever they held before |
| McPwm.GoFinal | micropython/drivers/motion/h-bridge/HBridge2McPwm.py:117-132 | `go(s)` ends at (U16, 0) when the sign and `reverse` disagree, at (0, abs(s)) when they agree, and at (0, 0) for 0 and None |
| McPwm.CallOneChannelAtATime | micropython/drivers/motion/h-bridge/HBridge2McPwm.py:72-115 | from channels not both on, no intermediate or final state of any routine has both channels on |
| McPwm.GoOneChannelAtATime | micropython/drivers/motion/h-bridge/HBridge2McPwm.py:117-132 | the same holds for `go` with any command |
| McPwm.ForwardIgnoresSpeed | micropython/drivers/motion/h-bridge/HBridge2McPwm.py:77-100 | `forward(s)` ignores `s`: for every speed it produces exactly the events of `breakh` and `coast1`, channel 2 to 0, the dead time, channel 1 to U16 |
| McPwm.BackwardBodies | micropython/drivers/motion/h-bridge/HBridge2McPwm.py:82-105 | `backward(s)` writes channel 1 to 0, sleeps, then channel 2 to `s`; `breakl` and `coast2` are `backward(U16)` |
| McPwm.CoastBodies | micropython/drivers/motion/h-bridge/HBridge2McPwm.py:72-75 | `coast0`, `coast3` and `coast4` all write both channels to 0 and then sleep |
| McPwm.GoReverse | micropython/drivers/motion/h-bridge/HBridge2McPwm.py:117-128 | with `reverse` flipped, `go(s)` produces the events `go(-s)` produced |
| McPwm.GoBrakeIsStop | micropython/drivers/motion/h-bridge/HBridge2McPwm.py:69-75 | `go(0)` and `go(None)` produce exactly the events of `stop()` |
| McPwm.Deinit | micropython/drivers/motion/h-bridge/HBridge2McPwm.py:51-59 | `deinit` tries to release both channels and does nothing else |

## Left out

- Constructors: the `isinstance` choice between a ready `PWM`/`Pin`/`Signal` and a raw identifier, peripheral construction, the initial duty of 0, and `freq`. A driver is modelled by what it keeps: `reverse` and `dead_time_us`.
- The `HBridge2McPwm` constructor calls `PWM`, which that module never imports. It is not modelled, like the other constructors.
- The module-level MCPWM probing at the end of `HBridge2McPwm.py` (it raises at `1/0` when the module is imported): it is a demo, not part of the driver.
- `__repr__` string formatting.
- `HBridge4Pwm_test.py` and `HBridgeDirPwm_test.py`: hardware demo loops with prints and real sleeps.
- Real timing: `sleep_us` is a `Sleep(dead_time_us)` event, not elapsed time.
- Peripheral behaviour: what `deinit` does to an output, the duty range the peripheral accepts, and any exception it raises. Each failing release is swallowed, so every `Release` is always in the trace and changes no recorded value.
- Pin versus `Signal` polarity of the enable and direction outputs: both are logical levels.
- `HBridgeEn` wrapping another `HBridgeEn`: `Motor` covers the three drivers only, with one enable pin.
- Routines.SetReverse: only `None`, bool and int arguments are modelled (`PyValue`); other Python objects' truthiness is not.
- DirPwm.SetReverse: the same restriction on the setter's argument.
- Speed range checks: the code performs none, so none are modelled; speeds are unbounded integers.
- Shoot-through inside one MCPWM channel, between its high and low outputs, is left to the MCPWM peripheral and is not modelled: a channel is one output value.
- Concurrency: the drivers are single-threaded and non-reentrant; one call is one trace.

## Findings

| source | as written | input that shows it | evidently intended | confidence | as-written member | corrected member |
|---|---|---|---|---|---|---|
| micropython/drivers/motion/h-bridge/HBridge_common.py:17 | `i16_to_percentages` saturates at `-U16`/`U16`, the bounds copied from `percentages_to_i16` | `i16_to_percentages(2 * U16)` returns 200 | saturate at -100 and 100, so the result is always a percentage | medium; not executed | Common.I16ToPercentagesEscapesRange | Common.I16ToPercentagesClamped |
