/**
 HBridgeDirPwm: one direction pin and one PWM output
 (micropython/drivers/motion/h-bridge/HBridgeDirPwm.py). A high direction
 level means forward.
 */
module DirPwm {
  import opened Common
  import opened Outputs
  import Routines

  /** What the driver keeps after construction; `freq` only matters to the
      peripheral and is not kept. */
  datatype Driver = Driver(reverse: bool)

  /** The `reverse` setter: stores `bool(x)` and writes no output. */
  function SetReverse(d: Driver, x: PyValue): (r: Driver)
    ensures r.reverse == Bool(x)
  {
    d.(reverse := Bool(x))
  }

  /** `stop()`: the duty goes to zero; the direction pin is not written. */
  function Stop(d: Driver): (t: seq<Event>)
    ensures forall i :: 0 <= i < |t| ==> t[i] == SetDuty(DirDuty, 0)
    ensures !WritesLevel(t, Dir)
  {
    [SetDuty(DirDuty, 0)]
  }

  /** `stop()` leaves every output as it was except the duty, now zero. */
  lemma StopFinal(d: Driver, b: Bench)
    ensures Run(b, Stop(d)) == b.(duty := 0)
  {
  }

  /** `go(speed)`: a speed, zero included, writes the direction pin exactly
      once and then the duty exactly once; None is `stop()`. */
  function Go(d: Driver, cmd: Command): (t: seq<Event>)
    ensures cmd.Speed? ==>
      && |t| == 2
      && t[0].SetLevel? && t[0].pin == Dir
      && t[1].SetDuty? && t[1].ch == DirDuty
    ensures cmd.Stop? ==> t == Stop(d)
  {
    match cmd
    case Speed(s) => [SetLevel(Dir, (s > 0) != d.reverse), SetDuty(DirDuty, Abs(s))]
    case Stop => Stop(d)
  }

  /** `deinit()`: releases the PWM output only, failure swallowed; the
      direction pin is left alone. */
  function Deinit(d: Driver): (t: seq<Event>)
    ensures forall e :: e in t ==> e.Release?
    ensures forall c :: Release(c) in t <==> c == DirDuty
  {
    [Release(DirDuty)]
  }

  /** Where `go` leaves the outputs: for a speed the direction level is high
      exactly when the sign and `reverse` disagree and the duty is the speed's
      magnitude; for None only the duty changes, to zero. Nothing else
      changes. */
  lemma GoFinal(d: Driver, cmd: Command, b: Bench)
    ensures cmd.Speed? ==>
      Run(b, Go(d, cmd)) == b.(dir := (cmd.value > 0) != d.reverse, duty := Abs(cmd.value))
    ensures cmd.Stop? ==> Run(b, Go(d, cmd)) == b.(duty := 0)
  {
    if cmd.Speed? {
      var t := Go(d, cmd);
      var b1 := Apply(b, t[0]);
      assert t[1..] == [t[1]] && t[1..][1..] == [];
      assert Run(b, t) == Run(b1, [t[1]]) == Apply(b1, t[1]);
    }
  }

  /** Opposite speeds give equal duty and opposite direction levels. */
  lemma GoOpposite(d: Driver, s: int, b: Bench)
    requires s != 0
    ensures Run(b, Go(d, Speed(-s))).duty == Run(b, Go(d, Speed(s))).duty
    ensures Run(b, Go(d, Speed(-s))).dir == !Run(b, Go(d, Speed(s))).dir
  {
    GoFinal(d, Speed(s), b);
    GoFinal(d, Speed(-s), b);
  }

  /** `go(0)`: the park-brake row, duty zero, with the direction level equal
      to the `reverse` flag. */
  lemma GoParkBrake(d: Driver, b: Bench)
    ensures Run(b, Go(d, BRAKE)).duty == 0
    ensures Run(b, Go(d, BRAKE)).dir == d.reverse
  {
    GoFinal(d, BRAKE, b);
  }

  /** Flipping `reverse` flips the direction level for every speed and keeps
      the duty. */
  lemma GoReverse(d: Driver, s: int, b: Bench)
    ensures Run(b, Go(SetReverse(d, PyBool(!d.reverse)), Speed(s))).dir
      == !Run(b, Go(d, Speed(s))).dir
    ensures Run(b, Go(SetReverse(d, PyBool(!d.reverse)), Speed(s))).duty
      == Run(b, Go(d, Speed(s))).duty
  {
    GoFinal(d, Speed(s), b);
    GoFinal(SetReverse(d, PyBool(!d.reverse)), Speed(s), b);
  }

  /** The same contract as the four-switch and MCPWM drivers: for a nonzero
      speed the direction is high exactly when their `go` would run `forward`,
      and the duty is the speed they would hand it. */
  lemma GoAgreesWithDispatch(d: Driver, s: int, b: Bench)
    requires s != 0
    ensures Run(b, Go(d, Speed(s))).dir <==> Routines.Dispatch(d.reverse, Speed(s)).Forward?
    ensures Run(b, Go(d, Speed(s))).duty == Routines.Dispatch(d.reverse, Speed(s)).speed
  {
    GoFinal(d, Speed(s), b);
  }
}
