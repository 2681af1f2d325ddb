/**
 HBridgeEn: an enable pin in front of any of the three drivers
 (micropython/drivers/motion/h-bridge/HBridge_common.py, class HBridgeEn).
 The pin is modelled as its logical level, whatever its polarity.
 */
module Enable {
  import opened Common
  import opened Outputs
  import opened Interlock
  import Routines
  import DirPwm
  import FourPwm
  import McPwm

  /** The wrapped driver: any of the three variants. */
  datatype Motor =
    | DirPwmMotor(dirPwm: DirPwm.Driver)
    | FourPwmMotor(fourPwm: Routines.Config)
    | McPwmMotor(mcPwm: Routines.Config)

  function MotorGo(m: Motor, cmd: Command): seq<Event> {
    match m
    case DirPwmMotor(d) => DirPwm.Go(d, cmd)
    case FourPwmMotor(d) => FourPwm.Go(d, cmd)
    case McPwmMotor(d) => McPwm.Go(d, cmd)
  }

  function MotorStop(m: Motor): seq<Event> {
    match m
    case DirPwmMotor(d) => DirPwm.Stop(d)
    case FourPwmMotor(d) => FourPwm.Stop(d)
    case McPwmMotor(d) => McPwm.Stop(d)
  }

  function MotorDeinit(m: Motor): seq<Event> {
    match m
    case DirPwmMotor(d) => DirPwm.Deinit(d)
    case FourPwmMotor(d) => FourPwm.Deinit(d)
    case McPwmMotor(d) => McPwm.Deinit(d)
  }

  /** None of the wrapped drivers ever writes the enable pin. */
  lemma MotorLeavesEnable(m: Motor, cmd: Command)
    ensures !WritesLevel(MotorGo(m, cmd), En)
    ensures !WritesLevel(MotorStop(m), En)
    ensures !WritesLevel(MotorDeinit(m), En)
  {
    match m
    case DirPwmMotor(d) =>
    case FourPwmMotor(d) =>
      FourPwmLeavesEnable(d, cmd);
    case McPwmMotor(d) =>
      McPwmLeavesEnable(d, cmd);
  }

  lemma FourPwmLeavesEnable(d: Routines.Config, cmd: Command)
    ensures !WritesLevel(FourPwm.Go(d, cmd), En)
    ensures !WritesLevel(FourPwm.Stop(d), En)
    ensures !WritesLevel(FourPwm.Deinit(d), En)
  {
    var r := Routines.Dispatch(d.reverse, cmd);
    TraceOnlyDuties(FourPwm.Pattern(r), d.deadTimeUs);
    TraceOnlyDuties(FourPwm.Pattern(Routines.Coast0), d.deadTimeUs);
    assert FourPwm.Go(d, cmd) == Trace(FourPwm.Pattern(r), d.deadTimeUs);
    assert FourPwm.Stop(d) == Trace(FourPwm.Pattern(Routines.Coast0), d.deadTimeUs);
  }

  lemma McPwmLeavesEnable(d: Routines.Config, cmd: Command)
    ensures !WritesLevel(McPwm.Go(d, cmd), En)
    ensures !WritesLevel(McPwm.Stop(d), En)
    ensures !WritesLevel(McPwm.Deinit(d), En)
  {
    var r := Routines.Dispatch(d.reverse, cmd);
    TraceOnlyDuties(McPwm.Pattern(r), d.deadTimeUs);
    TraceOnlyDuties(McPwm.Pattern(Routines.Coast0), d.deadTimeUs);
    assert McPwm.Go(d, cmd) == Trace(McPwm.Pattern(r), d.deadTimeUs);
    assert McPwm.Stop(d) == Trace(McPwm.Pattern(Routines.Coast0), d.deadTimeUs);
  }

  /** The decorator keeps only the wrapped driver; the enable pin is the
      bench's `En`. */
  datatype HBridgeEn = HBridgeEn(motor: Motor)

  /** `go(speed)`: the enable level is written first and only once, high
      exactly when the speed is neither None nor 0; the wrapped `go` then
      runs unchanged. */
  function Go(e: HBridgeEn, cmd: Command): (t: seq<Event>)
    ensures |t| > 0 && t[0] == SetLevel(En, cmd.Speed? && cmd.value != 0)
    ensures t[1..] == MotorGo(e.motor, cmd)
    ensures !WritesLevel(t[1..], En)
  {
    MotorLeavesEnable(e.motor, cmd);
    var t := [SetLevel(En, Truthy(cmd))] + MotorGo(e.motor, cmd);
    assert t[1..] == MotorGo(e.motor, cmd);
    t
  }

  /** `stop()`: the wrapped `stop` runs first and unchanged; the enable level
      is then written low, once, as the last event. */
  function Stop(e: HBridgeEn): (t: seq<Event>)
    ensures |t| > 0 && t[|t| - 1] == SetLevel(En, false)
    ensures t[..|t| - 1] == MotorStop(e.motor)
    ensures !WritesLevel(t[..|t| - 1], En)
  {
    MotorLeavesEnable(e.motor, STOP);
    var t := MotorStop(e.motor) + [SetLevel(En, false)];
    assert t[..|t| - 1] == MotorStop(e.motor);
    t
  }

  /** `deinit()` only delegates: the wrapped driver's `deinit` runs
      unchanged, and the enable pin is neither written nor released. */
  function Deinit(e: HBridgeEn): (t: seq<Event>)
    ensures t == MotorDeinit(e.motor) && |t| > 0
    ensures forall i :: 0 <= i < |t| ==> t[i].Release?
    ensures !WritesLevel(t, En)
  {
    MotorLeavesEnable(e.motor, STOP);
    MotorDeinit(e.motor)
  }

  /** After `go` the outputs are where the wrapped `go` leaves them, and the
      enable level is high exactly when the speed is neither None nor 0. */
  lemma GoFinal(e: HBridgeEn, cmd: Command, b: Bench)
    ensures Run(b, Go(e, cmd)).en <==> cmd.Speed? && cmd.value != 0
    ensures Run(b, Go(e, cmd)) == Run(b, MotorGo(e.motor, cmd)).(en := Truthy(cmd))
  {
    MotorLeavesEnable(e.motor, cmd);
    RunCommutesLevel(b, MotorGo(e.motor, cmd), En, Truthy(cmd));
  }

  /** After `stop` the outputs are where the wrapped `stop` leaves them, and
      the enable level is low. */
  lemma StopDisablesLast(e: HBridgeEn, b: Bench)
    ensures !Run(b, Stop(e)).en
    ensures Run(b, Stop(e)) == Run(b, MotorStop(e.motor)).(en := false)
  {
    RunAppend(b, MotorStop(e.motor), [SetLevel(En, false)]);
  }

  /** `deinit` changes no output value. */
  lemma DeinitLeavesEnable(e: HBridgeEn, b: Bench)
    ensures Run(b, Deinit(e)) == b
  {
    ReleasesLeaveBench(b, Deinit(e));
  }
}
