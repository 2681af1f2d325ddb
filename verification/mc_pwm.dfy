/**
 HBridge2McPwm: two MCPWM channels, each driving one leg through a
 complementary high/low output pair
 (micropython/drivers/motion/h-bridge/HBridge2McPwm.py, the class only).
 */
module McPwm {
  import opened Common
  import opened Outputs
  import opened Interlock
  import opened Routines

  /** Which channels each routine zeroes before the dead time and which it
      writes after, in the source's order. `forward` writes full duty
      whatever its speed; coast1 and breakh, coast2 and breakl, and coast0,
      coast3 and coast4 share one body each. Only the two channels are
      touched, at most one is turned on, and the other one is zeroed before
      that. */
  function Pattern(r: Routine): (p: Transition)
    ensures forall c :: c in p.off ==> Paired(ChannelPair, c)
    ensures |p.on| <= 1 && forall i :: 0 <= i < |p.on| ==> Paired(ChannelPair, p.on[i].ch)
    ensures Guarded(ChannelPair, p)
  {
    match r
    case Coast0 => Transition([Mcpwm1, Mcpwm2], [])
    case Forward(_) => Transition([Mcpwm2], [Switch(Mcpwm1, U16)])
    case Backward(s) => Transition([Mcpwm1], [Switch(Mcpwm2, s)])
    case BreakH => Transition([Mcpwm2], [Switch(Mcpwm1, U16)])
    case BreakL => Transition([Mcpwm1], [Switch(Mcpwm2, U16)])
    case Coast1 => Transition([Mcpwm2], [Switch(Mcpwm1, U16)])
    case Coast2 => Transition([Mcpwm1], [Switch(Mcpwm2, U16)])
    case Coast3 => Transition([Mcpwm1, Mcpwm2], [])
    case Coast4 => Transition([Mcpwm1, Mcpwm2], [])
  }

  /** The events of calling routine `r` on driver `d`: the dead time is
      slept exactly once, with only zero writes before it. */
  function Call(d: Config, r: Routine): (t: seq<Event>)
    ensures DeadTimeOrdered(t, d.deadTimeUs)
  {
    TraceOrdered(Pattern(r), d.deadTimeUs);
    Trace(Pattern(r), d.deadTimeUs)
  }

  /** `stop()`: both channels are written 0, then the dead time is slept. */
  function Stop(d: Config): (t: seq<Event>)
    ensures |t| == 3 && t[2] == Sleep(d.deadTimeUs)
    ensures forall i :: 0 <= i < 2 ==> t[i].SetDuty? && t[i].value == 0
    ensures {t[0].ch, t[1].ch} == {Mcpwm1, Mcpwm2}
  {
    Call(d, Coast0)
  }

  /** `go(cmd)`: the routine the dispatch selects. Every write before its one
      sleep is zero and every write after it nonzero. */
  function Go(d: Config, cmd: Command): (t: seq<Event>)
    ensures DeadTimeSeparated(t, d.deadTimeUs)
  {
    TraceSeparated(Pattern(Dispatch(d.reverse, cmd)), d.deadTimeUs);
    Call(d, Dispatch(d.reverse, cmd))
  }

  /** `deinit()`: both channel releases are always attempted, failures
      swallowed. */
  function Deinit(d: Config): (t: seq<Event>)
    ensures forall e :: e in t ==> e.Release?
    ensures forall c :: Release(c) in t <==> c in {Mcpwm1, Mcpwm2}
  {
    [Release(Mcpwm1), Release(Mcpwm2)]
  }

  /** The duties of the two channels. */
  datatype Duties = Duties(m1: int, m2: int)

  function Channels(b: Bench): Duties {
    Duties(b.mcpwm1, b.mcpwm2)
  }

  /** Where each routine leaves the two channels, whatever they held before,
      touching nothing else. */
  lemma CallFinal(d: Config, r: Routine, b: Bench)
    ensures r.Forward? || r == BreakH || r == Coast1 ==>
      Channels(Run(b, Call(d, r))) == Duties(U16, 0)
    ensures r.Backward? ==> Channels(Run(b, Call(d, r))) == Duties(0, r.speed)
    ensures r == BreakL || r == Coast2 ==> Channels(Run(b, Call(d, r))) == Duties(0, U16)
    ensures r == Coast0 || r == Coast3 || r == Coast4 ==>
      Channels(Run(b, Call(d, r))) == Duties(0, 0)
    ensures Run(b, Call(d, r)).(mcpwm1 := b.mcpwm1, mcpwm2 := b.mcpwm2) == b
  {
    CallChannels(d, r, b);
    CallFrame(d, r, b);
  }

  lemma CallChannels(d: Config, r: Routine, b: Bench)
    ensures r.Forward? || r == BreakH || r == Coast1 ==>
      Channels(Run(b, Call(d, r))) == Duties(U16, 0)
    ensures r.Backward? ==> Channels(Run(b, Call(d, r))) == Duties(0, r.speed)
    ensures r == BreakL || r == Coast2 ==> Channels(Run(b, Call(d, r))) == Duties(0, U16)
    ensures r == Coast0 || r == Coast3 || r == Coast4 ==>
      Channels(Run(b, Call(d, r))) == Duties(0, 0)
  {
    var p := Pattern(r);
    FinalShort(b, p, d.deadTimeUs, Mcpwm1);
    FinalShort(b, p, d.deadTimeUs, Mcpwm2);
  }

  lemma CallFrame(d: Config, r: Routine, b: Bench)
    ensures Run(b, Call(d, r)).(mcpwm1 := b.mcpwm1, mcpwm2 := b.mcpwm2) == b
  {
    var p := Pattern(r);
    TraceFinal(b, p, d.deadTimeUs);
    FinalShort(b, p, d.deadTimeUs, Pwm1);
    FinalShort(b, p, d.deadTimeUs, Pwm2);
    FinalShort(b, p, d.deadTimeUs, Pwm3);
    FinalShort(b, p, d.deadTimeUs, Pwm4);
    FinalShort(b, p, d.deadTimeUs, DirDuty);
    var b' := Run(b, Call(d, r));
    assert b'.pwm1 == b.pwm1 && b'.pwm2 == b.pwm2 && b'.pwm3 == b.pwm3 && b'.pwm4 == b.pwm4;
    assert b'.duty == b.duty;
    assert LevelOf(b', Dir) == b.dir && LevelOf(b', En) == b.en;
  }

  /** After any routine at most one channel is nonzero, whatever the channels
      held before. */
  lemma CallAtMostOneOn(d: Config, r: Routine, b: Bench)
    ensures Run(b, Call(d, r)).mcpwm1 == 0 || Run(b, Call(d, r)).mcpwm2 == 0
  {
    CallFinal(d, r, b);
  }

  /** `go`: channel 1 at full duty when the sign and `reverse` disagree,
      channel 2 at the speed's magnitude when they agree, both off for 0 and
      None. */
  lemma GoFinal(d: Config, cmd: Command, b: Bench)
    ensures !Truthy(cmd) ==> Channels(Run(b, Go(d, cmd))) == Duties(0, 0)
    ensures Truthy(cmd) && (cmd.value > 0) != d.reverse ==>
      Channels(Run(b, Go(d, cmd))) == Duties(U16, 0)
    ensures Truthy(cmd) && (cmd.value > 0) == d.reverse ==>
      Channels(Run(b, Go(d, cmd))) == Duties(0, Abs(cmd.value))
  {
    CallFinal(d, Dispatch(d.reverse, cmd), b);
  }

  /** `forward` ignores its speed: its events are those of `breakh` and of
      `coast1`, channel 2 to 0, the dead time, channel 1 to full duty. */
  lemma ForwardIgnoresSpeed(d: Config, s: int, s': int)
    ensures Call(d, Forward(s)) == Call(d, Forward(s')) == Call(d, BreakH) == Call(d, Coast1)
    ensures Call(d, Forward(s)) == [SetDuty(Mcpwm2, 0), Sleep(d.deadTimeUs), SetDuty(Mcpwm1, U16)]
  {
    assert Zeros([Mcpwm2]) == [SetDuty(Mcpwm2, 0)];
    assert Writes([Switch(Mcpwm1, U16)]) == [SetDuty(Mcpwm1, U16)];
  }

  /** `backward(s)` writes channel 1 to 0, sleeps, then channel 2 to `s`;
      `breakl` and `coast2` coincide with it at full duty. */
  lemma BackwardBodies(d: Config, s: int)
    ensures Call(d, Backward(s)) == [SetDuty(Mcpwm1, 0), Sleep(d.deadTimeUs), SetDuty(Mcpwm2, s)]
    ensures Call(d, BreakL) == Call(d, Coast2) == Call(d, Backward(U16))
  {
    assert Zeros([Mcpwm1]) == [SetDuty(Mcpwm1, 0)];
    assert Writes([Switch(Mcpwm2, s)]) == [SetDuty(Mcpwm2, s)];
  }

  /** `coast0`, `coast3` and `coast4` coincide: both channels to 0, then the
      dead time. */
  lemma CoastBodies(d: Config)
    ensures Call(d, Coast0) == Call(d, Coast3) == Call(d, Coast4)
      == [SetDuty(Mcpwm1, 0), SetDuty(Mcpwm2, 0), Sleep(d.deadTimeUs)]
  {
    assert Zeros([Mcpwm1, Mcpwm2]) == [SetDuty(Mcpwm1, 0), SetDuty(Mcpwm2, 0)];
  }

  /** One channel at a time: from channels not both on, no state during or
      after any routine has both on. Keeping the high and low outputs of one
      channel apart is left to the peripheral and is not modelled. */
  lemma CallOneChannelAtATime(d: Config, r: Routine, b: Bench)
    requires b.mcpwm1 == 0 || b.mcpwm2 == 0
    ensures forall k :: 0 <= k <= |Call(d, r)| ==>
      Run(b, Call(d, r)[..k]).mcpwm1 == 0 || Run(b, Call(d, r)[..k]).mcpwm2 == 0
  {
    assert Apart(ChannelPair, b);
    KeepsApart(ChannelPair, b, Pattern(r), d.deadTimeUs);
    forall k | 0 <= k <= |Call(d, r)|
      ensures Run(b, Call(d, r)[..k]).mcpwm1 == 0 || Run(b, Call(d, r)[..k]).mcpwm2 == 0
    {
      assert Apart(ChannelPair, Run(b, Call(d, r)[..k]));
      assert Paired(ChannelPair, Mcpwm1);
    }
  }

  /** The same for `go` with any command. */
  lemma GoOneChannelAtATime(d: Config, cmd: Command, b: Bench)
    requires b.mcpwm1 == 0 || b.mcpwm2 == 0
    ensures forall k :: 0 <= k <= |Go(d, cmd)| ==>
      Run(b, Go(d, cmd)[..k]).mcpwm1 == 0 || Run(b, Go(d, cmd)[..k]).mcpwm2 == 0
  {
    CallOneChannelAtATime(d, Dispatch(d.reverse, cmd), b);
  }

  /** Flipping `reverse` makes `go(s)` do what `go(-s)` did. */
  lemma GoReverse(d: Config, s: int)
    ensures Go(SetReverse(d, PyBool(!d.reverse)), Speed(s)) == Go(d, Speed(-s))
  {
    DispatchReverse(d.reverse, s);
  }

  /** `go(0)` and `go(None)` both run `stop()`. */
  lemma GoBrakeIsStop(d: Config)
    ensures Go(d, BRAKE) == Go(d, STOP) == Stop(d)
  {
  }
}
