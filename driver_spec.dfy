/**
 * The AxiDraw driver as a state-transition system over values: one
 * function per operation of the driver class, and `Exec`, the meaning of a
 * draw. The class in driver.dfy is proved to follow these functions.
 */
module DriverSpec {
  import opened Api
  import opened JsNumber
  import opened Ebb

  /** A pen configuration `[down, up]`, in percent. */
  datatype Limits = Limits(down: real, up: real)

  /** A clamping rectangle `[min, max]`, in motor steps. */
  datatype Bounds = Bounds(lo: Vec2, hi: Vec2)

  /** `mulN2`: componentwise scaling. */
  function Scaled(v: Vec2, k: real): Vec2 {
    Vec2(v.x * k, v.y * k)
  }

  /** `maddN2`: `p * k + base`. */
  function MulAdd(p: Vec2, k: real, base: Vec2): Vec2 {
    Vec2(p.x * k + base.x, p.y * k + base.y)
  }

  /** `sub2`: `a - b`. */
  function Diff(a: Vec2, b: Vec2): Vec2 {
    Vec2(a.x - b.x, a.y - b.y)
  }

  predicate InBounds(p: Vec2, b: Bounds) {
    b.lo.x <= p.x <= b.hi.x && b.lo.y <= p.y <= b.hi.y
  }

  /** `clamp2` with the configured bounds, or no clamping without bounds. */
  function ClampTo(bounds: Option<Bounds>, p: Vec2): (r: Vec2)
    ensures bounds.None? ==> r == p
    ensures bounds.Some? && bounds.value.lo.x <= bounds.value.hi.x && bounds.value.lo.y <= bounds.value.hi.y ==>
              InBounds(r, bounds.value)
    ensures bounds.Some? && InBounds(p, bounds.value) ==> r == p
  {
    match bounds
    case None => p
    case Some(b) => Vec2(Clamp(p.x, b.lo.x, b.hi.x), Clamp(p.y, b.lo.y, b.hi.y))
  }

  /** `mag`, the Euclidean length computed in floating point, is never negative. */
  ghost predicate MagNonNegative(mag: Vec2 -> real) {
    forall v :: mag(v) >= 0.0
  }

  /** `start` and `stop` do not occur among the commands. */
  predicate Flat(cmds: seq<DrawCommand>) {
    forall i :: 0 <= i < |cmds| ==> !cmds[i].Start? && !cmds[i].Stop?
  }

  /** A move with an explicit speed factor of 0 would divide by zero. */
  predicate Supported(c: DrawCommand) {
    match c
    case MoveXY(_, Some(t)) => t != 0.0
    case MoveRel(_, Some(t)) => t != 0.0
    case _ => true
  }

  predicate AllSupported(cmds: seq<DrawCommand>) {
    forall i :: 0 <= i < |cmds| ==> Supported(cmds[i])
  }

  function Rank(c: DrawCommand): nat {
    if c.Start? || c.Stop? then 1 else 0
  }

  function Level(cmds: seq<DrawCommand>): nat {
    if Flat(cmds) then 0 else 1
  }

  /**
   * What the driver fixes at construction: options, world-to-steps scale,
   * bounds in steps, and the length function.
   */
  datatype Env = Env(opts: Opts, scale: real, bounds: Option<Bounds>, mag: Vec2 -> real) {
    /** No division by zero, start/stop lists that do not themselves wrap. */
    predicate Valid() {
      && scale > 0.0
      && opts.speedUp != 0.0 && opts.speedDown != 0.0
      && Flat(opts.start) && Flat(opts.stop)
      && AllSupported(opts.start) && AllSupported(opts.stop)
    }
  }

  /** The bounds in steps: a rectangle is scaled, a paper size is based at [0,0]. */
  function StepBounds(b: BoundsOpt, scale: real): (r: Bounds)
    ensures b.Paper? ==> r.lo == Origin && r.hi == b.size
    ensures b.Rect? ==> r.lo == Scaled(b.lo, scale) && r.hi == Scaled(b.hi, scale)
  {
    match b
    case Rect(lo, hi) => Bounds(Scaled(lo, scale), Scaled(hi, scale))
    case Paper(size) => Bounds(Origin, size)
  }

  function MakeEnv(opts: Opts, mag: Vec2 -> real): (e: Env)
    requires opts.unitsPerInch != 0.0
    ensures e.scale * opts.unitsPerInch == opts.stepsPerInch
    ensures opts.bounds.None? <==> e.bounds.None?
  {
    var scale := opts.stepsPerInch / opts.unitsPerInch;
    Env(opts, scale,
        match opts.bounds case None => None case Some(b) => Some(StepBounds(b, scale)),
        mag)
  }

  /** The mutable state of the driver, plus the serial trace and the control's future readings. */
  datatype Plotter = Plotter(
    isConnected: bool,
    isPenDown: bool,
    penLimits: Limits,
    penState: seq<Limits>,
    pos: Vec2,
    targetPos: Vec2,
    homePos: Vec2,
    trace: seq<Event>,
    control: Option<seq<AxiDrawState>>)

  /** The state right after construction (the constructor's own `save` included). */
  function Initial(env: Env, control: Option<seq<AxiDrawState>>): (s: Plotter)
  {
    var limits := Limits(env.opts.down, env.opts.up);
    Plotter(false, false, limits, [limits], Origin, Origin, Scaled(env.opts.home, env.scale), [], control)
  }

  // ---------------------------------------------------------------------
  // Emitters

  function Emit(s: Plotter, c: Cmd): (r: Plotter)
  {
    s.(trace := s.trace + [Sent(c)])
  }

  function EmitPenConfig(s: Plotter, id: int, x: real): (r: Plotter)
  {
    Emit(s, SC(id, ServoValue(x)))
  }

  function Delayed(s: Plotter, ms: real): (r: Plotter)
  {
    s.(trace := s.trace + [Waited(ms)])
  }

  function ResetSpec(s: Plotter): (r: Plotter)
  {
    Emit(s.(pos := Origin, targetPos := Origin), R)
  }

  function MotorsSpec(s: Plotter, on: bool): (r: Plotter)
  {
    if on then Emit(s, EM(1, 1)) else Emit(s, EM(0, 0))
  }

  function SetHomeSpec(env: Env, s: Plotter, p: Vec2): (r: Plotter)
  {
    s.(homePos := Scaled(p, env.scale))
  }

  // ---------------------------------------------------------------------
  // Pen-limit stack

  function SaveSpec(s: Plotter): (r: Plotter)
  {
    s.(penState := s.penState + [s.penLimits])
  }

  function RestoreSpec(s: Plotter): (r: Plotter)
  {
    if |s.penState| < 2 then s
    else
      var top := s.penState[|s.penState| - 1];
      var s1 := s.(penLimits := top, penState := s.penState[..|s.penState| - 1]);
      EmitPenConfig(EmitPenConfig(s1, PenUpChannel, top.up), PenDownChannel, top.down)
  }

  // ---------------------------------------------------------------------
  // Pen configuration and pen up/down

  function PenConfigSpec(env: Env, s: Plotter, down: Option<real>, up: Option<real>): (r: Plotter)
  {
    var u := up.GetOr(env.opts.up);
    var s1 := EmitPenConfig(s, PenUpChannel, u).(penLimits := s.penLimits.(up := u));
    var d := down.GetOr(env.opts.down);
    var s2 := EmitPenConfig(s1, PenDownChannel, d).(penLimits := s1.penLimits.(down := d));
    Emit(s2, SC(RateChannel, RateValue))
  }

  /** The delay of a pen move: the argument if given and not negative, else the default. */
  function EffectiveDelay(delay: Option<real>, default: real): (d: real)
    ensures delay.Some? && delay.value >= 0.0 ==> d == delay.value
    ensures delay.None? || delay.value < 0.0 ==> d == default
  {
    if delay.Some? && delay.value >= 0.0 then delay.value else default
  }

  datatype PenOut = PenOut(s: Plotter, delay: real)

  function PenUpSpec(env: Env, s: Plotter, delay: Option<real>, level: Option<real>): (r: PenOut)
  {
    var s1 := if level.Some? then EmitPenConfig(s, PenUpChannel, level.value) else s;
    var d := EffectiveDelay(delay, env.opts.delayUp);
    PenOut(Emit(s1, SP(1, d)).(isPenDown := false), d)
  }

  function PenDownSpec(env: Env, s: Plotter, delay: Option<real>, level: Option<real>): (r: PenOut)
  {
    var s1 := if level.Some? then EmitPenConfig(s, PenDownChannel, level.value) else s;
    var d := EffectiveDelay(delay, env.opts.delayDown);
    PenOut(Emit(s1, SP(0, d)).(isPenDown := true), d)
  }

  // ---------------------------------------------------------------------
  // Motion

  datatype MoveOut = MoveOut(s: Plotter, duration: real, dist: real)

  /** Steps per second of the next move: pen-down or pen-up speed times the tempo (default 1). */
  function MoveSpeed(env: Env, penDown: bool, tempo: Option<real>): real {
    (if penDown then env.opts.speedDown else env.opts.speedUp) * tempo.GetOr(1.0)
  }

  predicate TempoOk(tempo: Option<real>) {
    tempo.Some? ==> tempo.value != 0.0
  }

  /** `a / b`. */
  function Quotient(a: real, b: real): real
    requires b != 0.0
  {
    a / b
  }

  /** `sendMove`: clamp the target, move by the delta, emit one `XM`. */
  function SendMoveSpec(env: Env, s: Plotter, target: Vec2, tempo: Option<real>): (r: MoveOut)
    requires env.Valid() && TempoOk(tempo)
  {
    var t := ClampTo(env.bounds, target);
    var delta := Diff(t, s.pos);
    var maxAxis := Max(Abs(delta.x), Abs(delta.y));
    var speed := MoveSpeed(env, s.isPenDown, tempo);
    var duration := Quotient(1000.0 * maxAxis, speed);
    var s1 := s.(pos := t, targetPos := t);
    MoveOut(Emit(s1, XM(ToInt32(duration), ToInt32(delta.x), ToInt32(delta.y))),
            duration, Quotient(env.mag(delta), env.scale))
  }

  /** `moveTo`: target `p * scale + homePos`. */
  function MoveToSpec(env: Env, s: Plotter, p: Vec2, tempo: Option<real>): (r: MoveOut)
    requires env.Valid() && TempoOk(tempo)
  {
    SendMoveSpec(env, s, MulAdd(p, env.scale, s.homePos), tempo)
  }

  /** `moveRelative`: target `delta * scale + pos`. */
  function MoveRelSpec(env: Env, s: Plotter, delta: Vec2, tempo: Option<real>): (r: MoveOut)
    requires env.Valid() && TempoOk(tempo)
  {
    SendMoveSpec(env, s, MulAdd(delta, env.scale, s.pos), tempo)
  }

  /** `home`: `moveTo([0, 0])`, so the target is the home position itself. */
  function HomeSpec(env: Env, s: Plotter): (r: MoveOut)
    requires env.Valid()
  {
    MoveToSpec(env, s, Origin, None)
  }

  // ---------------------------------------------------------------------
  // Control

  datatype Reading = Reading(state: AxiDrawState, s: Plotter)

  /** One `control.deref()`: the next sample; once the samples run out, CONTINUE. */
  function ReadControl(s: Plotter): (r: Reading)
    requires s.control.Some?
    ensures r.s.control.Some?
    ensures |s.control.value| > 0 ==> r.state == s.control.value[0] && r.s.control.value == s.control.value[1..]
    ensures |s.control.value| == 0 ==> r.state == Continue && r.s == s
    ensures r.s.(control := s.control) == s
  {
    var samples := s.control.value;
    if |samples| == 0 then Reading(Continue, s)
    else Reading(samples[0], s.(control := Some(samples[1..])))
  }

  /** The pause poll: wait `refresh` ms and read again, for as long as the reading is PAUSE. */
  function PollSpec(env: Env, s: Plotter): (r: Reading)
    requires s.control.Some?
    ensures r.state != Pause
    ensures r.s.control.Some?
    ensures r.s.(trace := s.trace, control := s.control) == s
    decreases |s.control.value|
  {
    var rd := ReadControl(Delayed(s, env.opts.refresh));
    if rd.state == Pause then PollSpec(env, rd.s) else rd
  }

  datatype Checkpoint = Checkpoint(s: Plotter, cancelled: bool)

  /** The control check made before each command. */
  function ControlPoint(env: Env, s: Plotter): (r: Checkpoint)
    requires s.control.Some?
  {
    var rd := ReadControl(s);
    var (state, s1) :=
      if rd.state == Pause then
        var penDown := rd.s.isPenDown;
        var s2 := if penDown then PenUpSpec(env, rd.s, None, None).s else rd.s;
        var p := PollSpec(env, s2);
        (p.state, if p.state == Continue && penDown then PenDownSpec(env, p.s, None, None).s else p.s)
      else (rd.state, rd.s);
    if state == Cancel then Checkpoint(PenUpSpec(env, s1, None, None).s, true)
    else Checkpoint(s1, false)
  }

  // ---------------------------------------------------------------------
  // Draw

  /** The result of dispatching one command: new state, the command's `wait`, metrics it adds. */
  datatype Dispatched = Dispatched(s: Plotter, wait: real, m: Metrics)

  /** The distance of a move: added to the total, and to the drawn distance when the pen is down. */
  function Travel(dist: real, penDown: bool): (m: Metrics)
    ensures m.commands == 0 && m.penCommands == 0 && m.totalDist == dist
    ensures m.drawDist == (if penDown then dist else 0.0)
  {
    Metrics(0, 0, dist, if penDown then dist else 0.0)
  }

  const OnePen: Metrics := Metrics(0, 1, 0.0, 0.0)
  const OneCommand: Metrics := Metrics(1, 0, 0.0, 0.0)

  datatype Run = Run(s: Plotter, m: Metrics)

  /** The outcome of one loop iteration of a draw. */
  datatype StepOut = StepOut(s: Plotter, m: Metrics, cancelled: bool)

  /** `draw` over exactly these commands (the wrapping by `complete` is not modelled). */
  function Exec(env: Env, s: Plotter, cmds: seq<DrawCommand>): Run
    requires env.Valid() && AllSupported(cmds)
    decreases Level(cmds), |cmds|, 2
  {
    if |cmds| == 0 then Run(s, NoMetrics)
    else
      assert Flat(cmds) ==> Flat(cmds[1..]) && !cmds[0].Start? && !cmds[0].Stop?;
      var o := Step(env, s, cmds[0]);
      if o.cancelled then Run(o.s, o.m)
      else
        var rest := Exec(env, o.s, cmds[1..]);
        Run(rest.s, o.m.Add(rest.m))
  }

  /** One command: count it, check the control, dispatch, wait, restore a one-off pen level. */
  function Step(env: Env, s: Plotter, c: DrawCommand): StepOut
    requires env.Valid() && Supported(c)
    decreases Rank(c), 0, 1
  {
    var cp := if s.control.Some? then ControlPoint(env, s) else Checkpoint(s, false);
    if cp.cancelled then StepOut(cp.s, OneCommand, true)
    else
      var d := Dispatch(env, cp.s, c);
      StepOut(AfterCommand(env, d.s, c, d.wait), OneCommand.Add(d.m), false)
  }

  /** The `switch` on the command tag. */
  function Dispatch(env: Env, s: Plotter, c: DrawCommand): Dispatched
    requires env.Valid() && Supported(c)
    decreases Rank(c), 0, 0
  {
    match c
    case Start =>
      var sub := Exec(env, s, env.opts.start);
      Dispatched(sub.s, -1.0, sub.m)
    case Stop =>
      var sub := Exec(env, s, env.opts.stop);
      Dispatched(sub.s, -1.0, sub.m)
    case Home =>
      var o := HomeSpec(env, s);
      Dispatched(o.s, o.duration, Travel(o.dist, o.s.isPenDown))
    case Reset => Dispatched(ResetSpec(s), -1.0, NoMetrics)
    case Motor(sw) => Dispatched(MotorsSpec(s, sw == On), -1.0, NoMetrics)
    case PenConfig(down, up) => Dispatched(PenConfigSpec(env, s, down, up), -1.0, NoMetrics)
    case PenUpDown(Up, delay, level) =>
      var o := PenUpSpec(env, s, delay, level);
      Dispatched(o.s, o.delay, OnePen)
    case PenUpDown(Down, delay, level) =>
      var o := PenDownSpec(env, s, delay, level);
      Dispatched(o.s, o.delay, OnePen)
    case Save => Dispatched(SaveSpec(s), -1.0, NoMetrics)
    case Restore => Dispatched(RestoreSpec(s), -1.0, NoMetrics)
    case Wait(ms) => Dispatched(s, ms, NoMetrics)
    case MoveXY(p, tempo) =>
      var o := MoveToSpec(env, s, p, tempo);
      Dispatched(o.s, o.duration, Travel(o.dist, o.s.isPenDown))
    case MoveRel(delta, tempo) =>
      var o := MoveRelSpec(env, s, delta, tempo);
      Dispatched(o.s, o.duration, Travel(o.dist, o.s.isPenDown))
    case Comment(_) => Dispatched(s, -1.0, NoMetrics)
  }

  /** After dispatch: a positive wait less the pre-delay (never negative), then the one-off level restore. */
  function AfterCommand(env: Env, s: Plotter, c: DrawCommand, wait: real): (r: Plotter)
    ensures r.(trace := s.trace) == s
  {
    var s1 := if wait > 0.0 then Delayed(s, Max(0.0, wait - env.opts.preDelay)) else s;
    match c
    case PenUpDown(Down, _, Some(_)) => EmitPenConfig(s1, PenDownChannel, s1.penLimits.down)
    case PenUpDown(Up, _, Some(_)) => EmitPenConfig(s1, PenUpChannel, s1.penLimits.up)
    case _ => s1
  }
}
