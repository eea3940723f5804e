/**
 * Properties of the driver model: motion, pen commands, the pen-limit
 * stack, the control check and the metrics of a draw.
 */
module DriverProps {
  import opened Api
  import opened JsNumber
  import opened Ebb
  import opened DriverSpec

  // ---------------------------------------------------------------------
  // Motion

  /** `sendMove`: the clamped target becomes both `pos` and `targetPos`; only those and the trace change. */
  lemma SendMovePosition(env: Env, s: Plotter, target: Vec2, tempo: Option<real>)
    requires env.Valid() && TempoOk(tempo)
    ensures var r := SendMoveSpec(env, s, target, tempo);
      && r.s.pos == r.s.targetPos == ClampTo(env.bounds, target)
      && r.s.(pos := s.pos, targetPos := s.targetPos, trace := s.trace) == s
  {
  }

  /**
   * `sendMove` emits exactly one `XM` with the truncated duration and the
   * truncated delta between the new and the old position. The duration is
   * `1000 * max(|dx|, |dy|) / (speed * tempo)` with the speed of the pen's
   * current state and a tempo defaulting to 1; the distance is the length of
   * the delta in world units.
   */
  lemma SendMoveEffect(env: Env, s: Plotter, target: Vec2, tempo: Option<real>)
    requires env.Valid() && TempoOk(tempo)
    ensures var r := SendMoveSpec(env, s, target, tempo);
      var dx := r.s.pos.x - s.pos.x;
      var dy := r.s.pos.y - s.pos.y;
      && r.s.trace == s.trace + [Sent(XM(ToInt32(r.duration), ToInt32(dx), ToInt32(dy)))]
      && r.duration == Quotient(1000.0 * Max(Abs(dx), Abs(dy)), MoveSpeed(env, s.isPenDown, tempo))
      && r.dist == Quotient(env.mag(Vec2(dx, dy)), env.scale)
  {
    var r := SendMoveSpec(env, s, target, tempo);
    assert Diff(r.s.pos, s.pos) == Vec2(r.s.pos.x - s.pos.x, r.s.pos.y - s.pos.y);
  }

  /** With bounds whose minimum is at most their maximum, every move ends inside them. */
  lemma SendMoveStaysInBounds(env: Env, s: Plotter, target: Vec2, tempo: Option<real>)
    requires env.Valid() && TempoOk(tempo)
    requires env.bounds.Some? && env.bounds.value.lo.x <= env.bounds.value.hi.x
    requires env.bounds.value.lo.y <= env.bounds.value.hi.y
    ensures InBounds(SendMoveSpec(env, s, target, tempo).s.pos, env.bounds.value)
  {
  }

  /** Without bounds the target is used unclamped. */
  lemma SendMoveUnbounded(env: Env, s: Plotter, target: Vec2, tempo: Option<real>)
    requires env.Valid() && TempoOk(tempo) && env.bounds.None?
    ensures SendMoveSpec(env, s, target, tempo).s.pos == target
  {
  }

  /** A distance is never negative when the length function is not. */
  lemma SendMoveDistNonNegative(env: Env, s: Plotter, target: Vec2, tempo: Option<real>)
    requires env.Valid() && TempoOk(tempo) && MagNonNegative(env.mag)
    ensures SendMoveSpec(env, s, target, tempo).dist >= 0.0
  {
    var delta := Diff(ClampTo(env.bounds, target), s.pos);
    assert env.mag(delta) >= 0.0;
    assert Quotient(env.mag(delta), env.scale) == env.mag(delta) / env.scale;
  }

  /** `moveTo` targets `p * scale + homePos` before clamping. */
  lemma MoveToTarget(env: Env, s: Plotter, p: Vec2, tempo: Option<real>)
    requires env.Valid() && TempoOk(tempo)
    ensures MoveToSpec(env, s, p, tempo).s.pos == ClampTo(env.bounds, MulAdd(p, env.scale, s.homePos))
  {
    SendMovePosition(env, s, MulAdd(p, env.scale, s.homePos), tempo);
  }

  /** `moveRelative` targets `delta * scale + pos` before clamping. */
  lemma MoveRelTarget(env: Env, s: Plotter, delta: Vec2, tempo: Option<real>)
    requires env.Valid() && TempoOk(tempo)
    ensures MoveRelSpec(env, s, delta, tempo).s.pos == ClampTo(env.bounds, MulAdd(delta, env.scale, s.pos))
  {
    SendMovePosition(env, s, MulAdd(delta, env.scale, s.pos), tempo);
  }

  /** `sendMove` overwrites the stored target, so its earlier value does not matter. */
  lemma SendMoveIgnoresTarget(env: Env, s: Plotter, stale: Vec2, target: Vec2, tempo: Option<real>)
    requires env.Valid() && TempoOk(tempo)
    ensures SendMoveSpec(env, s.(targetPos := stale), target, tempo) == SendMoveSpec(env, s, target, tempo)
  {
  }

  /** `home` targets the home position itself. */
  lemma HomeTarget(env: Env, s: Plotter)
    requires env.Valid()
    ensures HomeSpec(env, s).s.pos == ClampTo(env.bounds, s.homePos)
  {
    assert MulAdd(Origin, env.scale, s.homePos) == s.homePos;
    SendMovePosition(env, s, s.homePos, None);
  }

  /** Moving to where the plotter already is (inside the bounds, if any) emits `XM,0,0,0` and covers no distance. */
  lemma StandStill(env: Env, s: Plotter, tempo: Option<real>)
    requires env.Valid() && TempoOk(tempo) && env.mag(Origin) == 0.0
    requires env.bounds.None? || InBounds(s.pos, env.bounds.value)
    ensures var r := SendMoveSpec(env, s, s.pos, tempo);
      r.s.trace == s.trace + [Sent(XM(0, 0, 0))] && r.duration == 0.0 && r.dist == 0.0
  {
    var r := SendMoveSpec(env, s, s.pos, tempo);
    assert Diff(s.pos, s.pos) == Vec2(0.0, 0.0);
    assert Quotient(1000.0 * Max(Abs(0.0), Abs(0.0)), MoveSpeed(env, s.isPenDown, tempo)) == 0.0;
    assert Trunc(0.0) == 0;
  }

  /** The default options scale world millimetres to 80 motor steps. */
  lemma DefaultScale(mag: Vec2 -> real)
    ensures MakeEnv(DefaultOpts(), mag).scale == 80.0
  {
    var o := DefaultOpts();
    assert o.stepsPerInch / o.unitsPerInch == 80.0;
  }

  /** An integral value inside the 32-bit range passes `| 0` unchanged. */
  lemma ToInt32OfInteger(n: int)
    requires -TwoTo31 <= n < TwoTo31
    ensures ToInt32(n as real) == n
  {
    assert Trunc(n as real) == n;
  }

  /** The default options meet the driver's requirements and give the A3 bounds in steps. */
  lemma DefaultEnv(mag: Vec2 -> real)
    ensures var env := MakeEnv(DefaultOpts(), mag);
      && env.Valid()
      && env.bounds == Some(Bounds(Origin, A3LandscapeSteps))
      && env.opts.speedDown == 4000.0 && env.opts.speedUp == 4000.0
      && env.scale == 80.0
  {
    DefaultScale(mag);
  }

  /**
   * A move along the x axis by `d` steps that stays inside the bounds:
   * `XM,<duration>,<d>,0` with the duration `1000 * |d| / speed`, and a
   * distance of `|d|` steps in world units.
   */
  lemma AxisMove(env: Env, s: Plotter, d: real, tempo: Option<real>)
    requires env.Valid() && TempoOk(tempo) && env.mag(Vec2(d, 0.0)) == Abs(d)
    requires env.bounds.None? || InBounds(Vec2(s.pos.x + d, s.pos.y), env.bounds.value)
    ensures var r := SendMoveSpec(env, s, Vec2(s.pos.x + d, s.pos.y), tempo);
      && r.s.pos == Vec2(s.pos.x + d, s.pos.y)
      && r.duration == Quotient(1000.0 * Abs(d), MoveSpeed(env, s.isPenDown, tempo))
      && r.dist == Quotient(Abs(d), env.scale)
      && r.s.trace == s.trace + [Sent(XM(ToInt32(r.duration), ToInt32(d), 0))]
  {
    var t := Vec2(s.pos.x + d, s.pos.y);
    SendMovePosition(env, s, t, tempo);
    SendMoveEffect(env, s, t, tempo);
    AxisDelta(s.pos, d);
  }

  lemma AxisDelta(p: Vec2, d: real)
    ensures (p.x + d) - p.x == d && p.y - p.y == 0.0
    ensures Max(Abs(d), Abs(0.0)) == Abs(d) && ToInt32(0.0) == 0
  {
    assert Trunc(0.0) == 0;
  }

  /**
   * A pen-down move from the origin to `[100, 0]` at 4000 steps per second
   * and 80 steps per unit: `XM,2000,8000,0`, 100 units drawn.
   */
  lemma MoveExample(env: Env, s: Plotter)
    requires env.Valid() && env.mag(Vec2(8000.0, 0.0)) == 8000.0
    requires env.bounds == Some(Bounds(Origin, A3LandscapeSteps))
    requires env.opts.speedDown == 4000.0 && env.scale == 80.0
    requires s.pos == Origin && s.homePos == Origin && s.isPenDown
    ensures var r := MoveToSpec(env, s, Vec2(100.0, 0.0), None);
      && r.s.trace == s.trace + [Sent(XM(2000, 8000, 0))]
      && r.s.pos == Vec2(8000.0, 0.0)
      && r.duration == 2000.0
      && r.dist == 100.0
  {
    assert InBounds(Vec2(s.pos.x + 8000.0, s.pos.y), env.bounds.value);
    ExampleNumbers(env, s.isPenDown);
    AxisMove(env, s, 8000.0, None);
    ExampleTarget(env, s);
  }

  /** The same move under the default options. */
  lemma DefaultMoveExample(mag: Vec2 -> real, s: Plotter)
    requires mag(Vec2(8000.0, 0.0)) == 8000.0
    requires s.pos == Origin && s.homePos == Origin && s.isPenDown
    ensures var env := MakeEnv(DefaultOpts(), mag);
      var r := MoveToSpec(env, s, Vec2(100.0, 0.0), None);
      && r.s.trace == s.trace + [Sent(XM(2000, 8000, 0))]
      && r.duration == 2000.0
      && r.dist == 100.0
  {
    DefaultEnv(mag);
    MoveExample(MakeEnv(DefaultOpts(), mag), s);
  }

  lemma ExampleTarget(env: Env, s: Plotter)
    requires env.Valid() && env.scale == 80.0 && s.homePos == Origin && s.pos == Origin
    ensures MoveToSpec(env, s, Vec2(100.0, 0.0), None) == SendMoveSpec(env, s, Vec2(s.pos.x + 8000.0, s.pos.y), None)
  {
    ExampleScaling(env.scale, s.homePos);
  }

  lemma ExampleScaling(scale: real, home: Vec2)
    requires scale == 80.0 && home == Origin
    ensures MulAdd(Vec2(100.0, 0.0), scale, home) == Vec2(home.x + 8000.0, home.y)
  {
  }

  lemma ExampleNumbers(env: Env, penDown: bool)
    requires env.Valid() && env.opts.speedDown == 4000.0 && env.scale == 80.0 && penDown
    ensures Quotient(1000.0 * Abs(8000.0), MoveSpeed(env, penDown, None)) == 2000.0
    ensures Quotient(Abs(8000.0), env.scale) == 100.0
    ensures ToInt32(2000.0) == 2000 && ToInt32(8000.0) == 8000
  {
    assert MoveSpeed(env, penDown, None) == 4000.0;
    ToInt32OfInteger(2000);
    ToInt32OfInteger(8000);
  }

  // ---------------------------------------------------------------------
  // Pen commands

  /**
   * `penUp`/`penDown`: an optional one-off level, then `SP,1|0,delay` with
   * the effective delay, which is also returned; only the pen flag and the
   * trace change, whatever the pen's previous state.
   */
  lemma PenMoves(env: Env, s: Plotter, delay: Option<real>, level: Option<real>)
    ensures var u := PenUpSpec(env, s, delay, level);
      && u.delay == EffectiveDelay(delay, env.opts.delayUp)
      && u.s.trace == s.trace + (if level.Some? then [Sent(SC(PenUpChannel, ServoValue(level.value)))] else [])
                              + [Sent(SP(1, u.delay))]
      && !u.s.isPenDown
      && u.s.(isPenDown := s.isPenDown, trace := s.trace) == s
    ensures var d := PenDownSpec(env, s, delay, level);
      && d.delay == EffectiveDelay(delay, env.opts.delayDown)
      && d.s.trace == s.trace + (if level.Some? then [Sent(SC(PenDownChannel, ServoValue(level.value)))] else [])
                              + [Sent(SP(0, d.delay))]
      && d.s.isPenDown
      && d.s.(isPenDown := s.isPenDown, trace := s.trace) == s
  {
  }

  /** A delay of -1 (or any negative one) means the configured default. */
  lemma NegativeDelayIsDefault(env: Env, s: Plotter, level: Option<real>)
    ensures PenUpSpec(env, s, Some(-1.0), level).delay == env.opts.delayUp
    ensures PenDownSpec(env, s, Some(-1.0), level).delay == env.opts.delayDown
  {
  }

  /**
   * `penConfig(down?, up?)`: missing values are taken from the options, the
   * limits become `[down, up]`, and `SC,4,up`, `SC,5,down`, `SC,10,65535`
   * are emitted in that order.
   */
  lemma PenConfigEffect(env: Env, s: Plotter, down: Option<real>, up: Option<real>)
    ensures var r := PenConfigSpec(env, s, down, up);
      var d := down.GetOr(env.opts.down);
      var u := up.GetOr(env.opts.up);
      && r.penLimits == Limits(d, u)
      && r.trace == s.trace + [Sent(SC(PenUpChannel, ServoValue(u))), Sent(SC(PenDownChannel, ServoValue(d))),
                               Sent(SC(RateChannel, RateValue))]
      && r.(penLimits := s.penLimits, trace := s.trace) == s
  {
  }

  /**
   * `penConfig()` under the default levels (down 30, up 60): `SC,4,18000`,
   * `SC,5,12750`, `SC,10,65535`.
   */
  lemma DefaultPenConfig(env: Env, s: Plotter)
    requires env.opts.up == 60.0 && env.opts.down == 30.0
    ensures PenConfigSpec(env, s, None, None).trace
         == s.trace + [Sent(SC(PenUpChannel, 18000)), Sent(SC(PenDownChannel, 12750)), Sent(SC(RateChannel, RateValue))]
  {
    PenConfigEffect(env, s, None, None);
    DefaultServoValues();
  }

  lemma DefaultServoValues()
    ensures ServoValue(60.0) == 18000 && ServoValue(30.0) == 12750
  {
    assert 7500.0 + 175.0 * 60.0 == 18000 as real;
    assert 7500.0 + 175.0 * 30.0 == 12750 as real;
    ToInt32OfInteger(18000);
    ToInt32OfInteger(12750);
  }

  // ---------------------------------------------------------------------
  // Pen-limit stack

  /** `save` pushes a copy of the current limits. */
  lemma SavePushes(s: Plotter)
    ensures SaveSpec(s).penState == s.penState + [s.penLimits]
    ensures SaveSpec(s).(penState := s.penState) == s
  {
  }

  /** `restore` pops and re-sends the limits (up first), or does nothing at all on the last entry. */
  lemma RestorePops(s: Plotter)
    ensures |s.penState| < 2 ==> RestoreSpec(s) == s
    ensures |s.penState| >= 2 ==>
      var top := s.penState[|s.penState| - 1];
      && RestoreSpec(s).penLimits == top
      && RestoreSpec(s).penState == s.penState[..|s.penState| - 1]
      && RestoreSpec(s).trace == s.trace + [Sent(SC(PenUpChannel, ServoValue(top.up))),
                                            Sent(SC(PenDownChannel, ServoValue(top.down)))]
  {
  }

  /** The bottom entry is never popped. */
  lemma RestoreKeepsSentinel(s: Plotter)
    requires |s.penState| >= 1
    ensures |RestoreSpec(s).penState| >= 1
    ensures RestoreSpec(s).penState[0] == s.penState[0]
  {
  }

  /** Save, any pen configuration, restore: the limits and the stack are as before. */
  lemma SaveConfigRestore(env: Env, s: Plotter, down: Option<real>, up: Option<real>)
    requires |s.penState| >= 1
    ensures var r := RestoreSpec(PenConfigSpec(env, SaveSpec(s), down, up));
      r.penLimits == s.penLimits && r.penState == s.penState
  {
    var s1 := PenConfigSpec(env, SaveSpec(s), down, up);
    assert s1.penState == s.penState + [s.penLimits];
    assert s1.penState[..|s1.penState| - 1] == s.penState;
  }

  /** Save immediately followed by restore gives back the limits and the stack. */
  lemma SaveRestore(s: Plotter)
    requires |s.penState| >= 1
    ensures RestoreSpec(SaveSpec(s)).penLimits == s.penLimits
    ensures RestoreSpec(SaveSpec(s)).penState == s.penState
  {
    assert (s.penState + [s.penLimits])[..|s.penState|] == s.penState;
  }

  /** One operation on the pen-limit stack: `save`, `restore` or `penConfig(down?, up?)`. */
  datatype StackOp = SaveOp | RestoreOp | ConfigOp(down: Option<real>, up: Option<real>)

  function ApplyOp(env: Env, s: Plotter, op: StackOp): Plotter {
    match op
    case SaveOp => SaveSpec(s)
    case RestoreOp => RestoreSpec(s)
    case ConfigOp(down, up) => PenConfigSpec(env, s, down, up)
  }

  /** The operations one after the other. */
  function ApplyOps(env: Env, s: Plotter, ops: seq<StackOp>): Plotter
    decreases |ops|
  {
    if |ops| == 0 then s else ApplyOps(env, ApplyOp(env, s, ops[0]), ops[1..])
  }

  /**
   * A balanced sequence of stack operations, as a tree: a pen
   * configuration, or a `save` ... `restore` pair around more of them.
   */
  datatype Block = Configure(down: Option<real>, up: Option<real>) | Bracket(body: seq<Block>)

  function BlockOps(b: Block): seq<StackOp>
    decreases b
  {
    match b
    case Configure(down, up) => [ConfigOp(down, up)]
    case Bracket(body) => [SaveOp] + Flatten(body) + [RestoreOp]
  }

  function Flatten(bs: seq<Block>): seq<StackOp>
    decreases bs
  {
    if |bs| == 0 then [] else BlockOps(bs[0]) + Flatten(bs[1..])
  }

  lemma {:induction false} ApplyOpsAppend(env: Env, s: Plotter, a: seq<StackOp>, b: seq<StackOp>)
    ensures ApplyOps(env, s, a + b) == ApplyOps(env, ApplyOps(env, s, a), b)
    decreases |a|
  {
    if |a| == 0 {
      assert a + b == b;
    } else {
      assert (a + b)[0] == a[0] && (a + b)[1..] == a[1..] + b;
      ApplyOpsAppend(env, ApplyOp(env, s, a[0]), a[1..], b);
    }
  }

  /**
   * A block leaves the stack as it found it; a `save` ... `restore` pair
   * also gives back the limits, whatever configurations it encloses.
   */
  lemma {:induction false} BlockRestores(env: Env, s: Plotter, b: Block)
    requires |s.penState| >= 1
    ensures ApplyOps(env, s, BlockOps(b)).penState == s.penState
    ensures b.Bracket? ==> ApplyOps(env, s, BlockOps(b)).penLimits == s.penLimits
    decreases b
  {
    match b
    case Configure(down, up) =>
      assert BlockOps(b)[1..] == [];
    case Bracket(body) =>
      var s1 := SaveSpec(s);
      assert ApplyOps(env, s, [SaveOp]) == s1 by { assert [SaveOp][1..] == []; }
      ApplyOpsAppend(env, s, [SaveOp], Flatten(body));
      FlattenKeepsStack(env, s1, body);
      var s2 := ApplyOps(env, s1, Flatten(body));
      assert s2.penState == s.penState + [s.penLimits];
      assert ApplyOps(env, s2, [RestoreOp]) == RestoreSpec(s2) by { assert [RestoreOp][1..] == []; }
      ApplyOpsAppend(env, s, [SaveOp] + Flatten(body), [RestoreOp]);
      assert s2.penState[..|s2.penState| - 1] == s.penState;
  }

  /** Any balanced sequence leaves the stack as it found it. */
  lemma {:induction false} FlattenKeepsStack(env: Env, s: Plotter, bs: seq<Block>)
    requires |s.penState| >= 1
    ensures ApplyOps(env, s, Flatten(bs)).penState == s.penState
    decreases bs
  {
    if |bs| > 0 {
      ApplyOpsAppend(env, s, BlockOps(bs[0]), Flatten(bs[1..]));
      BlockRestores(env, s, bs[0]);
      FlattenKeepsStack(env, ApplyOps(env, s, BlockOps(bs[0])), bs[1..]);
    }
  }

  /**
   * `n` balanced `save` ... `restore` pairs, side by side or nested, with
   * any pen configurations inside them: the limits and the stack are as
   * before.
   */
  lemma {:induction false} BalancedRestores(env: Env, s: Plotter, bs: seq<Block>)
    requires |s.penState| >= 1
    requires forall i :: 0 <= i < |bs| ==> bs[i].Bracket?
    ensures ApplyOps(env, s, Flatten(bs)).penLimits == s.penLimits
    ensures ApplyOps(env, s, Flatten(bs)).penState == s.penState
    decreases |bs|
  {
    if |bs| > 0 {
      ApplyOpsAppend(env, s, BlockOps(bs[0]), Flatten(bs[1..]));
      BlockRestores(env, s, bs[0]);
      BalancedRestores(env, ApplyOps(env, s, BlockOps(bs[0])), bs[1..]);
    }
  }

  /** After construction the stack holds exactly the initial limits. */
  lemma InitialStack(env: Env, control: Option<seq<AxiDrawState>>)
    ensures Initial(env, control).penState == [Limits(env.opts.down, env.opts.up)]
    ensures Initial(env, control).penLimits == Limits(env.opts.down, env.opts.up)
    ensures Initial(env, control).homePos == Scaled(env.opts.home, env.scale)
    ensures !Initial(env, control).isConnected && Initial(env, control).trace == []
  {
  }
}
