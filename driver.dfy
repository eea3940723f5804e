/**
 * The AxiDraw driver class. Its fields are the driver's mutable state; the
 * serial port is modelled by `trace`, the list of everything written to it
 * (and of the waits in between), and the control by the sequence of states
 * its future `deref()` calls return. Every method is proved to change the
 * state exactly as the matching function of DriverSpec says.
 */
module Driver {
  import opened Api
  import opened JsNumber
  import opened Ebb
  import opened DriverSpec
  import opened DriverProps
  import opened DrawProps

  datatype DriverError =
    /** `draw` before `connect` (the failing `assert`). */
    | NotConnected
    /** `connect` found no matching serial port (the `ioerror`). */
    | NoMatchingDevice

  datatype Result<+T> = Ok(value: T) | Err(error: DriverError)

  class AxiDraw {
    const opts: Opts
    const scale: real
    const bounds: Option<Bounds>
    /** `mag` of `@thi.ng/vectors`, the floating-point Euclidean length. */
    const mag: Vec2 -> real

    var isConnected: bool
    var isPenDown: bool
    var penLimits: Limits
    var penState: seq<Limits>
    var pos: Vec2
    var targetPos: Vec2
    var homePos: Vec2
    /** Everything sent to the serial port, and every wait, in order. */
    var trace: seq<Event>
    /** `None`: no control configured; `Some(xs)`: what the control reads next. */
    var control: Option<seq<AxiDrawState>>

    function Config(): Env {
      Env(opts, scale, bounds, mag)
    }

    function Snapshot(): Plotter
      reads this
    {
      Plotter(isConnected, isPenDown, penLimits, penState, pos, targetPos, homePos, trace, control)
    }

    /** The sentinel entry pushed by the constructor is never popped. */
    ghost predicate Valid()
      reads this
    {
      Config().Valid() && |penState| >= 1
    }

    constructor (opts: Opts, control: Option<seq<AxiDrawState>>, mag: Vec2 -> real)
      requires opts.unitsPerInch > 0.0 && opts.stepsPerInch > 0.0
      requires opts.speedUp != 0.0 && opts.speedDown != 0.0
      requires Flat(opts.start) && Flat(opts.stop)
      requires AllSupported(opts.start) && AllSupported(opts.stop)
      ensures Valid()
      ensures Config() == MakeEnv(opts, mag)
      ensures Snapshot() == Initial(Config(), control)
    {
      this.opts := opts;
      this.mag := mag;
      var scale := opts.stepsPerInch / opts.unitsPerInch;
      this.scale := scale;
      this.bounds := match opts.bounds case None => None case Some(b) => Some(StepBounds(b, scale));
      isConnected := false;
      isPenDown := false;
      penLimits := Limits(opts.down, opts.up);
      penState := [];
      pos := Origin;
      targetPos := Origin;
      homePos := Origin;
      trace := [];
      this.control := control;
      new;
      SetHome(opts.home);
      Save();
    }

    // -------------------------------------------------------------------
    // Serial output

    method Send(c: Cmd)
      modifies this
      ensures Snapshot() == Emit(old(Snapshot()), c)
    {
      trace := trace + [Sent(c)];
    }

    /** `delayed(0, ms)`, recorded rather than waited for. */
    method Delay(ms: real)
      modifies this
      ensures Snapshot() == Delayed(old(Snapshot()), ms)
    {
      trace := trace + [Waited(ms)];
    }

    method SendPenConfig(id: int, x: real)
      modifies this
      ensures Snapshot() == EmitPenConfig(old(Snapshot()), id, x)
    {
      Send(SC(id, ServoValue(x)));
    }

    // -------------------------------------------------------------------
    // Simple emitters

    method Reset()
      requires Valid()
      modifies this
      ensures Valid() && Snapshot() == ResetSpec(old(Snapshot()))
    {
      pos := Origin;
      targetPos := Origin;
      Send(R);
    }

    method MotorsOn()
      requires Valid()
      modifies this
      ensures Valid() && Snapshot() == MotorsSpec(old(Snapshot()), true)
    {
      Send(EM(1, 1));
    }

    method MotorsOff()
      requires Valid()
      modifies this
      ensures Valid() && Snapshot() == MotorsSpec(old(Snapshot()), false)
    {
      Send(EM(0, 0));
    }

    /** `connect`: `found` says whether the port listing had a matching device. */
    method Connect(found: bool) returns (r: Result<()>)
      requires Valid()
      modifies this
      ensures Valid()
      ensures found ==> r == Ok(()) && Snapshot() == old(Snapshot()).(isConnected := true)
      ensures !found ==> r == Err(NoMatchingDevice) && Snapshot() == old(Snapshot())
    {
      if !found {
        return Err(NoMatchingDevice);
      }
      isConnected := true;
      r := Ok(());
    }

    method SetHome(p: Vec2)
      modifies this
      ensures Snapshot() == SetHomeSpec(Config(), old(Snapshot()), p)
    {
      homePos := Scaled(p, scale);
    }

    // -------------------------------------------------------------------
    // Pen-limit stack

    method Save()
      modifies this
      ensures Snapshot() == SaveSpec(old(Snapshot()))
    {
      penState := penState + [penLimits];
    }

    method Restore()
      requires Valid()
      modifies this
      ensures Valid() && Snapshot() == RestoreSpec(old(Snapshot()))
    {
      if |penState| < 2 {
        return;
      }
      var top := penState[|penState| - 1];
      penState := penState[..|penState| - 1];
      penLimits := top;
      SendPenConfig(PenUpChannel, top.up);
      SendPenConfig(PenDownChannel, top.down);
    }

    // -------------------------------------------------------------------
    // Pen

    method PenConfig(down: Option<real>, up: Option<real>)
      requires Valid()
      modifies this
      ensures Valid() && Snapshot() == PenConfigSpec(Config(), old(Snapshot()), down, up)
    {
      var u := up.GetOr(opts.up);
      SendPenConfig(PenUpChannel, u);
      penLimits := penLimits.(up := u);
      var d := down.GetOr(opts.down);
      SendPenConfig(PenDownChannel, d);
      penLimits := penLimits.(down := d);
      Send(SC(RateChannel, RateValue));
    }

    method PenUp(delay: Option<real>, level: Option<real>) returns (d: real)
      requires Valid()
      modifies this
      ensures Valid() && PenOut(Snapshot(), d) == PenUpSpec(Config(), old(Snapshot()), delay, level)
    {
      if level.Some? {
        SendPenConfig(PenUpChannel, level.value);
      }
      d := if delay.Some? && delay.value >= 0.0 then delay.value else opts.delayUp;
      Send(SP(1, d));
      isPenDown := false;
    }

    method PenDown(delay: Option<real>, level: Option<real>) returns (d: real)
      requires Valid()
      modifies this
      ensures Valid() && PenOut(Snapshot(), d) == PenDownSpec(Config(), old(Snapshot()), delay, level)
    {
      if level.Some? {
        SendPenConfig(PenDownChannel, level.value);
      }
      d := if delay.Some? && delay.value >= 0.0 then delay.value else opts.delayDown;
      Send(SP(0, d));
      isPenDown := true;
    }

    // -------------------------------------------------------------------
    // Motion

    /** Moves to `targetPos` (clamped in place first) and returns `[duration, distance]`. */
    method SendMove(tempo: Option<real>) returns (duration: real, dist: real)
      requires Valid() && TempoOk(tempo)
      modifies this
      ensures Valid()
      ensures MoveOut(Snapshot(), duration, dist) == SendMoveSpec(Config(), old(Snapshot()), old(targetPos), tempo)
    {
      targetPos := ClampTo(bounds, targetPos);
      var delta := Diff(targetPos, pos);
      pos := targetPos;
      var maxAxis := Max(Abs(delta.x), Abs(delta.y));
      duration := Quotient(1000.0 * maxAxis, MoveSpeed(Config(), isPenDown, tempo));
      Send(XM(ToInt32(duration), ToInt32(delta.x), ToInt32(delta.y)));
      dist := Quotient(mag(delta), scale);
    }

    method MoveTo(p: Vec2, tempo: Option<real>) returns (duration: real, dist: real)
      requires Valid() && TempoOk(tempo)
      modifies this
      ensures Valid()
      ensures MoveOut(Snapshot(), duration, dist) == MoveToSpec(Config(), old(Snapshot()), p, tempo)
    {
      ghost var stale := targetPos;
      targetPos := MulAdd(p, scale, homePos);
      ghost var s1 := Snapshot();
      duration, dist := SendMove(tempo);
      SendMoveIgnoresTarget(Config(), s1, stale, s1.targetPos, tempo);
    }

    method MoveRelative(delta: Vec2, tempo: Option<real>) returns (duration: real, dist: real)
      requires Valid() && TempoOk(tempo)
      modifies this
      ensures Valid()
      ensures MoveOut(Snapshot(), duration, dist) == MoveRelSpec(Config(), old(Snapshot()), delta, tempo)
    {
      ghost var stale := targetPos;
      targetPos := MulAdd(delta, scale, pos);
      ghost var s1 := Snapshot();
      duration, dist := SendMove(tempo);
      SendMoveIgnoresTarget(Config(), s1, stale, s1.targetPos, tempo);
    }

    method Home() returns (duration: real, dist: real)
      requires Valid()
      modifies this
      ensures Valid()
      ensures MoveOut(Snapshot(), duration, dist) == HomeSpec(Config(), old(Snapshot()))
    {
      duration, dist := MoveTo(Origin, None);
    }

    // -------------------------------------------------------------------
    // Control

    /** `control.deref()`. */
    method Deref() returns (state: AxiDrawState)
      requires control.Some?
      modifies this
      ensures Reading(state, Snapshot()) == ReadControl(old(Snapshot()))
    {
      var samples := control.value;
      if |samples| == 0 {
        state := Continue;
      } else {
        state := samples[0];
        control := Some(samples[1..]);
      }
    }

    /** `do { await delayed(0, refresh) } while ((state = control.deref()) === PAUSE)`. */
    method PollPaused() returns (state: AxiDrawState)
      requires Valid() && control.Some?
      modifies this
      ensures Valid() && control.Some?
      ensures Reading(state, Snapshot()) == PollSpec(Config(), old(Snapshot()))
    {
      Delay(opts.refresh);
      state := Deref();
      while state == Pause
        invariant Valid() && control.Some?
        invariant PollSpec(Config(), old(Snapshot()))
                    == if state == Pause then PollSpec(Config(), Snapshot()) else Reading(state, Snapshot())
        decreases |control.value| + (if state == Pause then 1 else 0)
      {
        Delay(opts.refresh);
        state := Deref();
      }
    }

    /** The control check before a command: pause handling, then cancel handling. */
    method CheckControl() returns (cancelled: bool)
      requires Valid() && control.Some?
      modifies this
      ensures Valid()
      ensures Checkpoint(Snapshot(), cancelled) == ControlPoint(Config(), old(Snapshot()))
    {
      var state := Deref();
      if state == Pause {
        var penDown := isPenDown;
        if penDown {
          var _ := PenUp(None, None);
        }
        state := PollPaused();
        if state == Continue && penDown {
          var _ := PenDown(None, None);
        }
      }
      cancelled := state == Cancel;
      if cancelled {
        var _ := PenUp(None, None);
      }
    }

    // -------------------------------------------------------------------
    // Draw

    /** The `switch` of `draw` on one command: returns its `wait` and the metrics it adds. */
    method Execute(c: DrawCommand) returns (wait: real, delta: Metrics)
      requires Valid() && Supported(c)
      modifies this
      decreases Rank(c), 0
      ensures Valid()
      ensures Dispatched(Snapshot(), wait, delta) == Dispatch(Config(), old(Snapshot()), c)
    {
      wait, delta := -1.0, NoMetrics;
      match c {
        case Start =>
          delta := Process(opts.start);
        case Stop =>
          delta := Process(opts.stop);
        case Home =>
          var dist;
          wait, dist := Home();
          delta := Travel(dist, isPenDown);
        case Reset =>
          Reset();
        case Motor(sw) =>
          if sw == On { MotorsOn(); } else { MotorsOff(); }
        case PenConfig(down, up) =>
          PenConfig(down, up);
        case PenUpDown(Up, delay, level) =>
          wait := PenUp(delay, level);
          delta := OnePen;
        case PenUpDown(Down, delay, level) =>
          wait := PenDown(delay, level);
          delta := OnePen;
        case Save =>
          Save();
        case Restore =>
          Restore();
        case Wait(ms) =>
          wait := ms;
        case MoveXY(p, tempo) =>
          var dist;
          wait, dist := MoveTo(p, tempo);
          delta := Travel(dist, isPenDown);
        case MoveRel(d, tempo) =>
          var dist;
          wait, dist := MoveRelative(d, tempo);
          delta := Travel(dist, isPenDown);
        case Comment(_) =>
      }
    }

    /** The tail of one loop iteration: the positive wait less the pre-delay, then the one-off level restore. */
    method AfterWait(c: DrawCommand, wait: real)
      requires Valid()
      modifies this
      ensures Valid()
      ensures Snapshot() == AfterCommand(Config(), old(Snapshot()), c, wait)
    {
      if wait > 0.0 {
        Delay(Max(0.0, wait - opts.preDelay));
      }
      match c {
        case PenUpDown(Down, _, Some(_)) => SendPenConfig(PenDownChannel, penLimits.down);
        case PenUpDown(Up, _, Some(_)) => SendPenConfig(PenUpChannel, penLimits.up);
        case _ =>
      }
    }

    /** One iteration of the loop of `draw`: the control check, the command, the wait. */
    method StepCommand(c: DrawCommand) returns (cancelled: bool, delta: Metrics)
      requires Valid() && Supported(c)
      modifies this
      decreases Rank(c), 1
      ensures Valid()
      ensures StepOut(Snapshot(), delta, cancelled) == Step(Config(), old(Snapshot()), c)
    {
      cancelled := false;
      if control.Some? {
        cancelled := CheckControl();
        if cancelled {
          return cancelled, OneCommand;
        }
      }
      var wait, m := Execute(c);
      AfterWait(c, wait);
      delta := OneCommand.Add(m);
    }

    /** The loop of `draw` over exactly the given commands. */
    method Process(cmds: seq<DrawCommand>) returns (m: Metrics)
      requires Valid() && AllSupported(cmds)
      modifies this
      decreases Level(cmds), 2
      ensures Valid()
      ensures Run(Snapshot(), m) == Exec(Config(), old(Snapshot()), cmds)
    {
      ghost var s0 := Snapshot();
      var numCommands, penCommands, totalDist, drawDist := 0, 0, 0.0, 0.0;
      PendingStart(Config(), s0, cmds);
      var i := 0;
      while i < |cmds|
        invariant 0 <= i <= |cmds|
        invariant Valid()
        invariant Pending(Config(), s0, cmds, i, Metrics(numCommands, penCommands, totalDist, drawDist), Snapshot())
      {
        ghost var si := Snapshot();
        ghost var acc := Metrics(numCommands, penCommands, totalDist, drawDist);
        assert Flat(cmds) ==> !cmds[i].Start? && !cmds[i].Stop?;
        var cancelled, delta := StepCommand(cmds[i]);
        numCommands := numCommands + delta.commands;
        penCommands := penCommands + delta.penCommands;
        totalDist := totalDist + delta.totalDist;
        drawDist := drawDist + delta.drawDist;
        assert Metrics(numCommands, penCommands, totalDist, drawDist) == acc.Add(delta);
        PendingStep(Config(), s0, cmds, i, acc, si, StepOut(Snapshot(), delta, cancelled));
        if cancelled {
          m := Metrics(numCommands, penCommands, totalDist, drawDist);
          return;
        }
        i := i + 1;
      }
      m := Metrics(numCommands, penCommands, totalDist, drawDist);
      PendingDone(Config(), s0, cmds, m, Snapshot());
    }

    /** `draw(commands, false)`: fails without touching anything unless connected. */
    method Draw(cmds: seq<DrawCommand>) returns (r: Result<Metrics>)
      requires Valid() && AllSupported(cmds)
      modifies this
      ensures Valid()
      ensures !old(isConnected) ==> r == Err(NotConnected) && Snapshot() == old(Snapshot())
      ensures old(isConnected) ==> r.Ok? && Run(Snapshot(), r.value) == Exec(Config(), old(Snapshot()), cmds)
    {
      if !isConnected {
        return Err(NotConnected);
      }
      var m := Process(cmds);
      r := Ok(m);
    }

    /** `draw1(cmd)`: a draw of the single command. */
    method Draw1(c: DrawCommand) returns (r: Result<Metrics>)
      requires Valid() && Supported(c)
      modifies this
      ensures Valid()
      ensures !old(isConnected) ==> r == Err(NotConnected) && Snapshot() == old(Snapshot())
      ensures old(isConnected) ==> r.Ok? && Run(Snapshot(), r.value) == Exec(Config(), old(Snapshot()), [c])
    {
      r := Draw([c]);
    }
  }
}
