/**
 HBridge4Pwm: four independent PWM outputs, one per switch S1..S4
 (micropython/drivers/motion/h-bridge/HBridge4Pwm.py).
 */
module FourPwm {
  import opened Common
  import opened Outputs
  import opened Interlock
  import opened Routines

  /** Which outputs each routine zeroes before the dead time and which it
      writes after, in the source's order. Only S1..S4 are touched, and an
      output is turned on only after its same-leg complement is zeroed. */
  function Pattern(r: Routine): (p: Transition)
    ensures forall c :: c in p.off ==> Paired(Legs, c)
    ensures forall i :: 0 <= i < |p.on| ==> Paired(Legs, p.on[i].ch)
    ensures Guarded(Legs, p)
  {
    match r
    case Coast0 => Transition([Pwm1, Pwm3, Pwm2, Pwm4], [])
    case Forward(s) => Transition([Pwm3, Pwm2], [Switch(Pwm1, U16), Switch(Pwm4, s)])
    case Backward(s) => Transition([Pwm1, Pwm4], [Switch(Pwm3, U16), Switch(Pwm2, s)])
    case BreakH => Transition([Pwm2, Pwm4], [Switch(Pwm1, U16), Switch(Pwm3, U16)])
    case BreakL => Transition([Pwm1, Pwm3], [Switch(Pwm2, U16), Switch(Pwm4, U16)])
    case Coast1 => Transition([Pwm3, Pwm2, Pwm4], [Switch(Pwm1, U16)])
    case Coast2 => Transition([Pwm1, Pwm3, Pwm4], [Switch(Pwm2, U16)])
    case Coast3 => Transition([Pwm1, Pwm2, Pwm4], [Switch(Pwm3, U16)])
    case Coast4 => Transition([Pwm1, Pwm3, Pwm2], [Switch(Pwm4, U16)])
  }

  /** The events of calling routine `r` on driver `d`: the dead time is
      slept exactly once, with only zero writes before it. */
  function Call(d: Config, r: Routine): (t: seq<Event>)
    ensures DeadTimeOrdered(t, d.deadTimeUs)
  {
    TraceOrdered(Pattern(r), d.deadTimeUs);
    Trace(Pattern(r), d.deadTimeUs)
  }

  /** `stop()`: S1, S3, S2 and S4 are written 0, then the dead time is
      slept. */
  function Stop(d: Config): (t: seq<Event>)
    ensures |t| == 5 && t[4] == Sleep(d.deadTimeUs)
    ensures forall i :: 0 <= i < 4 ==> t[i].SetDuty? && t[i].value == 0
    ensures {t[0].ch, t[1].ch, t[2].ch, t[3].ch} == {Pwm1, Pwm2, Pwm3, Pwm4}
  {
    Call(d, Coast0)
  }

  /** `go(cmd)`: the routine the dispatch selects. Every write before its one
      sleep is zero and every write after it nonzero. */
  function Go(d: Config, cmd: Command): (t: seq<Event>)
    ensures DeadTimeSeparated(t, d.deadTimeUs)
  {
    TraceSeparated(Pattern(Dispatch(d.reverse, cmd)), d.deadTimeUs);
    Call(d, Dispatch(d.reverse, cmd))
  }

  /** `deinit()`: each output's release is tried on its own and its failure
      swallowed, so all four are always attempted. */
  function Deinit(d: Config): (t: seq<Event>)
    ensures forall e :: e in t ==> e.Release?
    ensures forall c :: Release(c) in t <==> c in {Pwm1, Pwm2, Pwm3, Pwm4}
  {
    [Release(Pwm1), Release(Pwm2), Release(Pwm3), Release(Pwm4)]
  }

  /** The duties of S1..S4. */
  datatype Duties = Duties(s1: int, s2: int, s3: int, s4: int)

  function Switches(b: Bench): Duties {
    Duties(b.pwm1, b.pwm2, b.pwm3, b.pwm4)
  }

  /** The truth table of the module header, one row per routine; a PWM
      entry is the routine's speed and a 1 entry is U16. */
  function Row(r: Routine): Duties {
    match r
    case Forward(s) => Duties(U16, 0, 0, s)
    case Backward(s) => Duties(0, s, U16, 0)
    case Coast0 => Duties(0, 0, 0, 0)
    case Coast1 => Duties(U16, 0, 0, 0)
    case Coast2 => Duties(0, U16, 0, 0)
    case Coast3 => Duties(0, 0, U16, 0)
    case Coast4 => Duties(0, 0, 0, U16)
    case BreakH => Duties(U16, 0, U16, 0)
    case BreakL => Duties(0, U16, 0, U16)
  }

  /** Every routine ends in its truth-table row whatever the outputs held
      before, and touches no output other than S1..S4. */
  lemma CallMatchesTable(d: Config, r: Routine, b: Bench)
    ensures Switches(Run(b, Call(d, r))) == Row(r)
    ensures Run(b, Call(d, r)).(pwm1 := b.pwm1, pwm2 := b.pwm2, pwm3 := b.pwm3, pwm4 := b.pwm4) == b
  {
    CallSwitches(d, r, b);
    CallFrame(d, r, b);
  }

  lemma CallFrame(d: Config, r: Routine, b: Bench)
    ensures Run(b, Call(d, r)).(pwm1 := b.pwm1, pwm2 := b.pwm2, pwm3 := b.pwm3, pwm4 := b.pwm4) == b
  {
    var p := Pattern(r);
    TraceFinal(b, p, d.deadTimeUs);
    FinalShort(b, p, d.deadTimeUs, Mcpwm1);
    FinalShort(b, p, d.deadTimeUs, Mcpwm2);
    FinalShort(b, p, d.deadTimeUs, DirDuty);
    var b' := Run(b, Call(d, r));
    assert b'.mcpwm1 == b.mcpwm1 && b'.mcpwm2 == b.mcpwm2 && b'.duty == b.duty;
    assert LevelOf(b', Dir) == b.dir && LevelOf(b', En) == b.en;
  }

  lemma CallSwitches(d: Config, r: Routine, b: Bench)
    ensures Switches(Run(b, Call(d, r))) == Row(r)
  {
    var p := Pattern(r);
    FinalShort(b, p, d.deadTimeUs, Pwm1);
    FinalShort(b, p, d.deadTimeUs, Pwm2);
    FinalShort(b, p, d.deadTimeUs, Pwm3);
    FinalShort(b, p, d.deadTimeUs, Pwm4);
  }

  /** `go`: forward when the sign and `reverse` disagree, backward when they
      agree, all switches off for 0 and None; the magnitude of the speed
      becomes the PWM duty. */
  lemma GoFinal(d: Config, cmd: Command, b: Bench)
    ensures !Truthy(cmd) ==> Switches(Run(b, Go(d, cmd))) == Duties(0, 0, 0, 0)
    ensures Truthy(cmd) && (cmd.value > 0) != d.reverse ==>
      Switches(Run(b, Go(d, cmd))) == Duties(U16, 0, 0, Abs(cmd.value))
    ensures Truthy(cmd) && (cmd.value > 0) == d.reverse ==>
      Switches(Run(b, Go(d, cmd))) == Duties(0, Abs(cmd.value), U16, 0)
  {
    CallMatchesTable(d, Dispatch(d.reverse, cmd), b);
  }

  /** No leg has both of its switches on: not a short-circuit row. Only
      S1..S4 matter; the other drivers' outputs do not. */
  predicate NoShort(b: Bench) {
    Apart(Legs, b)
  }

  /** No shoot-through: from outputs with no shorted leg, no state during or
      after any routine has both switches of a leg on. */
  lemma CallNoShootThrough(d: Config, r: Routine, b: Bench)
    requires NoShort(b)
    ensures forall k :: 0 <= k <= |Call(d, r)| ==> NoShort(Run(b, Call(d, r)[..k]))
  {
    KeepsApart(Legs, b, Pattern(r), d.deadTimeUs);
  }

  /** The same for `go` with any command. */
  lemma GoNoShootThrough(d: Config, cmd: Command, b: Bench)
    requires NoShort(b)
    ensures forall k :: 0 <= k <= |Go(d, cmd)| ==> NoShort(Run(b, Go(d, cmd)[..k]))
  {
    CallNoShootThrough(d, Dispatch(d.reverse, cmd), b);
  }

  /** Flipping `reverse` makes `go(s)` do what `go(-s)` did. */
  lemma GoReverse(d: Config, s: int)
    ensures Go(SetReverse(d, PyBool(!d.reverse)), Speed(s)) == Go(d, Speed(-s))
  {
    DispatchReverse(d.reverse, s);
  }

  /** `go(0)` and `go(None)` both run `stop()`. */
  lemma GoBrakeIsStop(d: Config)
    ensures Go(d, BRAKE) == Go(d, STOP) == Stop(d)
  {
  }
}
