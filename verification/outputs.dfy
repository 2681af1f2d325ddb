/**
 The hardware outputs the drivers write, the write/sleep events a driver call
 produces, and the replay of an event trace onto the outputs.

 Every driver method in the source is a straight-line sequence of
 `duty_u16(...)` writes, pin level writes, `sleep_us(...)` calls and
 `deinit()` calls on its outputs; a call is modelled as that sequence.
 */
module Outputs {

  /** The PWM outputs set through `duty_u16`: the four switches of
      HBridge4Pwm, the two channels of HBridge2McPwm and the one PWM of
      HBridgeDirPwm. */
  datatype Channel = Pwm1 | Pwm2 | Pwm3 | Pwm4 | Mcpwm1 | Mcpwm2 | DirDuty

  /** The digital outputs: the direction pin of HBridgeDirPwm and the enable
      pin of HBridgeEn, each as a logical level. */
  datatype Pin = Dir | En

  datatype Event =
    | SetDuty(ch: Channel, value: int)   // ch.duty_u16(value)
    | SetLevel(pin: Pin, high: bool)     // pin(level)
    | Sleep(us: int)                     // sleep_us(us)
    | Release(ch: Channel)               // try: ch.deinit() except: pass

  /** The last value written to every output. */
  datatype Bench = Bench(
    pwm1: int, pwm2: int, pwm3: int, pwm4: int,
    mcpwm1: int, mcpwm2: int,
    duty: int, dir: bool, en: bool)

  function DutyOf(b: Bench, c: Channel): int {
    match c
    case Pwm1 => b.pwm1
    case Pwm2 => b.pwm2
    case Pwm3 => b.pwm3
    case Pwm4 => b.pwm4
    case Mcpwm1 => b.mcpwm1
    case Mcpwm2 => b.mcpwm2
    case DirDuty => b.duty
  }

  function LevelOf(b: Bench, p: Pin): bool {
    match p
    case Dir => b.dir
    case En => b.en
  }

  /** One event's effect: a write replaces exactly one output's value; a
      sleep and a release leave every recorded value as it was. */
  function Apply(b: Bench, e: Event): (r: Bench)
    ensures e.SetDuty? ==> DutyOf(r, e.ch) == e.value
    ensures e.SetLevel? ==> LevelOf(r, e.pin) == e.high
    ensures forall c :: (!e.SetDuty? || c != e.ch) ==> DutyOf(r, c) == DutyOf(b, c)
    ensures forall p :: (!e.SetLevel? || p != e.pin) ==> LevelOf(r, p) == LevelOf(b, p)
  {
    match e
    case SetDuty(c, v) =>
      (match c
       case Pwm1 => b.(pwm1 := v)
       case Pwm2 => b.(pwm2 := v)
       case Pwm3 => b.(pwm3 := v)
       case Pwm4 => b.(pwm4 := v)
       case Mcpwm1 => b.(mcpwm1 := v)
       case Mcpwm2 => b.(mcpwm2 := v)
       case DirDuty => b.(duty := v))
    case SetLevel(p, h) =>
      (match p
       case Dir => b.(dir := h)
       case En => b.(en := h))
    case Sleep(_) => b
    case Release(_) => b
  }

  /** The outputs after the events of `t` happen in order. */
  function Run(b: Bench, t: seq<Event>): Bench
    decreases |t|
  {
    if |t| == 0 then b else Run(Apply(b, t[0]), t[1..])
  }

  /** Running two traces back to back is running their concatenation. */
  lemma {:induction false} RunAppend(b: Bench, s: seq<Event>, t: seq<Event>)
    ensures Run(b, s + t) == Run(Run(b, s), t)
    decreases |s|
  {
    if |s| == 0 {
      assert s + t == t;
    } else {
      assert (s + t)[1..] == s[1..] + t;
      RunAppend(Apply(b, s[0]), s[1..], t);
    }
  }

  /** `t` writes the level of pin `p` somewhere. */
  predicate WritesLevel(t: seq<Event>, p: Pin) {
    exists i :: 0 <= i < |t| && t[i].SetLevel? && t[i].pin == p
  }

  /** A level write to a pin the trace never writes can be moved from before
      the trace to after it. */
  lemma {:induction false} RunCommutesLevel(b: Bench, t: seq<Event>, p: Pin, h: bool)
    requires !WritesLevel(t, p)
    ensures Run(Apply(b, SetLevel(p, h)), t) == Apply(Run(b, t), SetLevel(p, h))
    decreases |t|
  {
    if |t| > 0 {
      assert !(t[0].SetLevel? && t[0].pin == p);
      assert forall i :: 0 <= i < |t[1..]| ==> t[1..][i] == t[i + 1];
      assert Apply(Apply(b, SetLevel(p, h)), t[0]) == Apply(Apply(b, t[0]), SetLevel(p, h));
      RunCommutesLevel(Apply(b, t[0]), t[1..], p, h);
    }
  }

  /** A trace of releases only changes no recorded output value: `deinit`
      swallows every failure, and what a released peripheral does is not
      modelled. */
  lemma {:induction false} ReleasesLeaveBench(b: Bench, t: seq<Event>)
    requires forall e :: e in t ==> e.Release?
    ensures Run(b, t) == b
    decreases |t|
  {
    if |t| > 0 {
      assert t[0] in t;
      assert forall e :: e in t[1..] ==> e in t;
      ReleasesLeaveBench(b, t[1..]);
    }
  }
}
