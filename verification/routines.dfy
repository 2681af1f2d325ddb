/**
 The transition routines HBridge4Pwm and HBridge2McPwm both offer, and the
 `go(speed)` dispatch the two classes share word for word.
 */
module Routines {
  import opened Common

  /** What HBridge4Pwm and HBridge2McPwm keep after construction; `freq`
      only matters to the peripherals and is not kept. */
  datatype Config = Config(reverse: bool, deadTimeUs: int)

  /** The `reverse` setter: stores `bool(x)`, keeps the dead time and
      writes no output. */
  function SetReverse(d: Config, x: PyValue): (r: Config)
    ensures r.reverse == Bool(x)
    ensures r.deadTimeUs == d.deadTimeUs
  {
    d.(reverse := Bool(x))
  }

  /** `stop()` is `coast0()`; the others are the methods of the same name. */
  datatype Routine =
    | Coast0
    | Forward(speed: int)
    | Backward(speed: int)
    | BreakH
    | BreakL
    | Coast1
    | Coast2
    | Coast3
    | Coast4

  /** The routine `go(cmd)` runs. No command is range-checked: the speed is
      passed on as its magnitude, however large. */
  function Dispatch(reverse: bool, cmd: Command): (r: Routine)
    ensures !Truthy(cmd) <==> r == Coast0
    ensures Truthy(cmd) ==> (r.Forward? || r.Backward?) && r.speed == Abs(cmd.value) && r.speed > 0
    ensures Truthy(cmd) ==> (r.Forward? <==> (cmd.value > 0) != reverse)
  {
    match cmd
    case Stop => Coast0
    case Speed(s) =>
      if s > 0 then
        if reverse then Backward(s) else Forward(s)
      else if s < 0 then
        if reverse then Forward(-s) else Backward(-s)
      else
        Coast0
  }

  /** Flipping `reverse` runs for a speed what was run for its negation. */
  lemma DispatchReverse(reverse: bool, s: int)
    ensures Dispatch(!reverse, Speed(s)) == Dispatch(reverse, Speed(-s))
  {
  }

  /** BRAKE (0) and STOP (None) are not told apart: both run `stop()`. */
  lemma DispatchBrakeIsStop(reverse: bool)
    ensures Dispatch(reverse, BRAKE) == Dispatch(reverse, STOP) == Coast0
  {
  }
}
