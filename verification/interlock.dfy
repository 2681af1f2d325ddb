/**
 The dead-time interlock shared by HBridge4Pwm and HBridge2McPwm: every
 transition routine zeroes some outputs, sleeps `dead_time_us`, and only
 then writes the outputs it turns on. A routine is modelled by those two
 lists; its event trace is built from them in the order the source writes.
 */
module Interlock {
  import opened Outputs

  /** A write performed after the dead time. */
  datatype Switch = Switch(ch: Channel, value: int)

  /** A transition routine: zero `off` in order, sleep, perform `on` in order. */
  datatype Transition = Transition(off: seq<Channel>, on: seq<Switch>)

  function Zeros(off: seq<Channel>): (t: seq<Event>)
    ensures |t| == |off|
    ensures forall i :: 0 <= i < |off| ==> t[i] == SetDuty(off[i], 0)
    decreases |off|
  {
    if |off| == 0 then [] else [SetDuty(off[0], 0)] + Zeros(off[1..])
  }

  function Writes(on: seq<Switch>): (t: seq<Event>)
    ensures |t| == |on|
    ensures forall i :: 0 <= i < |on| ==> t[i] == SetDuty(on[i].ch, on[i].value)
    decreases |on|
  {
    if |on| == 0 then [] else [SetDuty(on[0].ch, on[0].value)] + Writes(on[1..])
  }

  /** The events a routine produces with dead time `us`. */
  function Trace(r: Transition, us: int): seq<Event> {
    Zeros(r.off) + [Sleep(us)] + Writes(r.on)
  }

  /** The interlock ordering of a trace: exactly one event is `Sleep(us)`,
      every other event is a duty write, and every write before the sleep
      writes zero. */
  predicate DeadTimeOrdered(t: seq<Event>, us: int) {
    exists k :: 0 <= k < |t| && t[k] == Sleep(us)
      && (forall i :: 0 <= i < |t| && i != k ==> t[i].SetDuty?)
      && (forall i :: 0 <= i < k ==> t[i].value == 0)
  }

  /** The interlock ordering with every write after the sleep nonzero: all
      zero writes come before the dead time and all nonzero writes after it. */
  predicate DeadTimeSeparated(t: seq<Event>, us: int) {
    exists k :: 0 <= k < |t| && t[k] == Sleep(us)
      && (forall i :: 0 <= i < |t| && i != k ==> t[i].SetDuty?)
      && (forall i :: 0 <= i < k ==> t[i].value == 0)
      && (forall i :: k < i < |t| ==> t[i].value != 0)
  }

  /** A routine whose on-writes are all nonzero separates zero and nonzero
      writes by its one sleep. */
  lemma TraceSeparated(r: Transition, us: int)
    requires forall i :: 0 <= i < |r.on| ==> r.on[i].value != 0
    ensures DeadTimeSeparated(Trace(r, us), us)
  {
    var t := Trace(r, us);
    var k := |r.off|;
    assert t[k] == Sleep(us);
    assert forall i :: 0 <= i < k ==> t[i] == SetDuty(r.off[i], 0);
    assert forall i :: k < i < |t| ==> t[i] == SetDuty(r.on[i - k - 1].ch, r.on[i - k - 1].value);
  }

  /** A routine writes duties and sleeps, nothing else: no pin level and no
      release. */
  lemma TraceOnlyDuties(r: Transition, us: int)
    ensures forall i :: 0 <= i < |Trace(r, us)| ==> Trace(r, us)[i].SetDuty? || Trace(r, us)[i].Sleep?
    ensures forall p :: !WritesLevel(Trace(r, us), p)
  {
    var t := Trace(r, us);
    var k := |r.off|;
    assert forall i :: 0 <= i < k ==> t[i] == SetDuty(r.off[i], 0);
    assert forall i :: k < i < |t| ==> t[i] == SetDuty(r.on[i - k - 1].ch, r.on[i - k - 1].value);
  }

  /** Every routine's trace keeps the interlock ordering. */
  lemma TraceOrdered(r: Transition, us: int)
    ensures DeadTimeOrdered(Trace(r, us), us)
  {
    var t := Trace(r, us);
    var k := |r.off|;
    assert t[k] == Sleep(us);
    assert forall i :: 0 <= i < k ==> t[i] == SetDuty(r.off[i], 0);
    assert forall i :: k < i < |t| ==> t[i] == SetDuty(r.on[i - k - 1].ch, r.on[i - k - 1].value);
  }

  /** The value `c` holds after the writes `on`, starting from `prior`. */
  function After(on: seq<Switch>, c: Channel, prior: int): int
    decreases |on|
  {
    if |on| == 0 then prior
    else After(on[1..], c, if on[0].ch == c then on[0].value else prior)
  }

  /** The last write wins, for the one or two on-writes a routine makes. */
  lemma AfterShort(on: seq<Switch>, c: Channel, prior: int)
    requires |on| <= 2
    ensures After(on, c, prior) ==
      if |on| == 2 && on[1].ch == c then on[1].value
      else if |on| >= 1 && on[0].ch == c then on[0].value
      else prior
  {
    if |on| == 2 {
      assert on[1..][1..] == [];
    } else if |on| == 1 {
      assert on[1..] == [];
    }
  }

  /** `Final` for a routine with at most two on-writes, spelled out. */
  lemma FinalShort(b: Bench, r: Transition, us: int, c: Channel)
    requires |r.on| <= 2
    ensures DutyOf(Run(b, Trace(r, us)), c) ==
      if |r.on| == 2 && r.on[1].ch == c then r.on[1].value
      else if |r.on| >= 1 && r.on[0].ch == c then r.on[0].value
      else if c in r.off then 0
      else DutyOf(b, c)
  {
    TraceFinal(b, r, us);
    AfterShort(r.on, c, if c in r.off then 0 else DutyOf(b, c));
  }

  /** The value output `c` holds when a routine ends, given its value before. */
  function Final(r: Transition, c: Channel, prior: int): int {
    After(r.on, c, if c in r.off then 0 else prior)
  }

  lemma {:induction false} ZerosFinal(b: Bench, off: seq<Channel>)
    ensures forall c :: DutyOf(Run(b, Zeros(off)), c) == if c in off then 0 else DutyOf(b, c)
    ensures forall p :: LevelOf(Run(b, Zeros(off)), p) == LevelOf(b, p)
    decreases |off|
  {
    if |off| > 0 {
      ZerosFinal(Apply(b, SetDuty(off[0], 0)), off[1..]);
      assert Zeros(off)[1..] == Zeros(off[1..]);
      assert forall c :: c in off <==> c == off[0] || c in off[1..];
    }
  }

  lemma {:induction false} WritesFinal(b: Bench, on: seq<Switch>)
    ensures forall c :: DutyOf(Run(b, Writes(on)), c) == After(on, c, DutyOf(b, c))
    ensures forall p :: LevelOf(Run(b, Writes(on)), p) == LevelOf(b, p)
    decreases |on|
  {
    if |on| > 0 {
      WritesFinal(Apply(b, SetDuty(on[0].ch, on[0].value)), on[1..]);
      assert Writes(on)[1..] == Writes(on[1..]);
    }
  }

  /** What a routine leaves behind: each output ends at its last on-write,
      else zero if the routine zeroed it, else its earlier value; pin levels
      are untouched. */
  lemma TraceFinal(b: Bench, r: Transition, us: int)
    ensures forall c :: DutyOf(Run(b, Trace(r, us)), c) == Final(r, c, DutyOf(b, c))
    ensures forall p :: LevelOf(Run(b, Trace(r, us)), p) == LevelOf(b, p)
  {
    var z := Run(b, Zeros(r.off));
    ZerosFinal(b, r.off);
    WritesFinal(z, r.on);
    RunAppend(b, Zeros(r.off) + [Sleep(us)], Writes(r.on));
    RunAppend(b, Zeros(r.off), [Sleep(us)]);
  }

  // Outputs that must not be on together.

  /** Which pairs of outputs an interlock keeps apart. `Legs`: the two
      switches of each leg of HBridge4Pwm, S1/S2 and S3/S4; both on is the
      short-circuit row of its header. `ChannelPair`: the two MCPWM channels of
      HBridge2McPwm. Each channel drives a whole leg, so both on is not a
      short (it is the high-side brake row), but no routine of that driver
      ever has them on together. */
  datatype Exclusion = Legs | ChannelPair

  /** The outputs `x` pairs up. */
  predicate Paired(x: Exclusion, c: Channel) {
    match x
    case Legs => c.Pwm1? || c.Pwm2? || c.Pwm3? || c.Pwm4?
    case ChannelPair => c.Mcpwm1? || c.Mcpwm2?
  }

  /** The output `x` pairs `c` with. */
  function Rival(x: Exclusion, c: Channel): (p: Channel)
    requires Paired(x, c)
    ensures Paired(x, p) && p != c
  {
    match c
    case Pwm1 => Pwm2
    case Pwm2 => Pwm1
    case Pwm3 => Pwm4
    case Pwm4 => Pwm3
    case Mcpwm1 => Mcpwm2
    case Mcpwm2 => Mcpwm1
  }

  lemma RivalInvolutive(x: Exclusion, c: Channel)
    requires Paired(x, c)
    ensures Rival(x, Rival(x, c)) == c
  {
  }

  /** No pair of `x` has both of its outputs nonzero. */
  predicate Apart(x: Exclusion, b: Bench) {
    forall c :: Paired(x, c) ==> DutyOf(b, c) == 0 || DutyOf(b, Rival(x, c)) == 0
  }

  /** A routine guards every paired output it turns on: the other output of
      the pair is zeroed before the dead time and is not turned on
      afterwards. */
  predicate Guarded(x: Exclusion, r: Transition) {
    forall i :: 0 <= i < |r.on| && Paired(x, r.on[i].ch) ==>
      Rival(x, r.on[i].ch) in r.off
      && forall j :: 0 <= j < |r.on| ==> r.on[j].ch != Rival(x, r.on[i].ch)
  }

  /** Every state the outputs pass through while `t` runs, first and last
      included, keeps the pairs of `x` apart. */
  predicate AlwaysApart(x: Exclusion, b: Bench, t: seq<Event>)
    decreases |t|
  {
    Apart(x, b) && (|t| > 0 ==> AlwaysApart(x, Apply(b, t[0]), t[1..]))
  }

  lemma {:induction false} AlwaysApartAppend(x: Exclusion, b: Bench, s: seq<Event>, t: seq<Event>)
    requires AlwaysApart(x, b, s) && AlwaysApart(x, Run(b, s), t)
    ensures AlwaysApart(x, b, s + t)
    decreases |s|
  {
    if |s| == 0 {
      assert s + t == t;
    } else {
      assert (s + t)[0] == s[0];
      assert (s + t)[1..] == s[1..] + t;
      assert Run(b, s) == Run(Apply(b, s[0]), s[1..]);
      AlwaysApartAppend(x, Apply(b, s[0]), s[1..], t);
    }
  }

  lemma {:induction false} AlwaysApartPrefix(x: Exclusion, b: Bench, t: seq<Event>, k: nat)
    requires AlwaysApart(x, b, t) && k <= |t|
    ensures Apart(x, Run(b, t[..k]))
    decreases k
  {
    if k > 0 {
      assert t[..k][1..] == t[1..][..k - 1];
      AlwaysApartPrefix(x, Apply(b, t[0]), t[1..], k - 1);
    }
  }

  lemma {:induction false} ZerosApart(x: Exclusion, b: Bench, off: seq<Channel>)
    requires Apart(x, b)
    ensures AlwaysApart(x, b, Zeros(off))
    decreases |off|
  {
    if |off| > 0 {
      var b' := Apply(b, SetDuty(off[0], 0));
      assert Apart(x, b');
      assert Zeros(off)[1..] == Zeros(off[1..]);
      ZerosApart(x, b', off[1..]);
    }
  }

  lemma {:induction false} WritesApart(x: Exclusion, b: Bench, on: seq<Switch>)
    requires Apart(x, b)
    requires forall i :: 0 <= i < |on| && Paired(x, on[i].ch) ==>
      DutyOf(b, Rival(x, on[i].ch)) == 0
      && forall j :: 0 <= j < |on| ==> on[j].ch != Rival(x, on[i].ch)
    ensures AlwaysApart(x, b, Writes(on))
    decreases |on|
  {
    if |on| > 0 {
      var b' := Apply(b, SetDuty(on[0].ch, on[0].value));
      forall c | Paired(x, c)
        ensures DutyOf(b', c) == 0 || DutyOf(b', Rival(x, c)) == 0
      {
        if c == on[0].ch {
          assert DutyOf(b', Rival(x, c)) == 0;
        } else if Rival(x, c) == on[0].ch {
          RivalInvolutive(x, c);
          assert DutyOf(b', c) == 0;
        }
      }
      assert forall i :: 1 <= i < |on| && Paired(x, on[i].ch) ==>
        DutyOf(b', Rival(x, on[i].ch)) == DutyOf(b, Rival(x, on[i].ch));
      assert Writes(on)[1..] == Writes(on[1..]);
      var rest := on[1..];
      assert forall i :: 0 <= i < |rest| ==> rest[i] == on[i + 1];
      WritesApart(x, b', rest);
    }
  }

  /** The interlock works: started from outputs whose pairs are apart, a
      guarded routine never passes through a state with both outputs of a
      pair on. */
  lemma KeepsApart(x: Exclusion, b: Bench, r: Transition, us: int)
    requires Apart(x, b) && Guarded(x, r)
    ensures AlwaysApart(x, b, Trace(r, us))
    ensures forall k :: 0 <= k <= |Trace(r, us)| ==> Apart(x, Run(b, Trace(r, us)[..k]))
  {
    var z := Run(b, Zeros(r.off));
    ZerosApart(x, b, r.off);
    ZerosFinal(b, r.off);
    assert Run(z, [Sleep(us)]) == z;
    RunAppend(b, Zeros(r.off), [Sleep(us)]);
    AlwaysApartPrefix(x, b, Zeros(r.off), |r.off|);
    assert Zeros(r.off)[..|r.off|] == Zeros(r.off);
    assert AlwaysApart(x, z, [Sleep(us)]);
    AlwaysApartAppend(x, b, Zeros(r.off), [Sleep(us)]);
    WritesApart(x, z, r.on);
    AlwaysApartAppend(x, b, Zeros(r.off) + [Sleep(us)], Writes(r.on));
    forall k | 0 <= k <= |Trace(r, us)|
      ensures Apart(x, Run(b, Trace(r, us)[..k]))
    {
      AlwaysApartPrefix(x, b, Trace(r, us), k);
    }
  }
}
