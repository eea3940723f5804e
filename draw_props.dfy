/**
 * Properties of a whole draw: what it keeps, the metrics it returns, and
 * what the control check emits on pause, resume and cancel.
 */
module DrawProps {
  import opened Api
  import opened JsNumber
  import opened Ebb
  import opened DriverSpec
  import opened DriverProps

  // ---------------------------------------------------------------------
  // What a draw keeps

  /** No control, or one whose readings still to come hold no CANCEL. */
  predicate NoCancel(control: Option<seq<AxiDrawState>>) {
    control.Some? ==> forall k :: 0 <= k < |control.value| ==> control.value[k] != Cancel
  }

  /**
   * `r` is a later state of the driver than `s`: the trace only grows, the
   * connection and home position stay, the bottom pen-limit entry stays,
   * an absent control stays absent, and readings without CANCEL stay so.
   */
  predicate Keeps(s: Plotter, r: Plotter) {
    && r.isConnected == s.isConnected
    && r.homePos == s.homePos
    && (|s.penState| >= 1 ==> |r.penState| >= 1 && r.penState[0] == s.penState[0])
    && (s.control.None? ==> r.control.None?)
    && (NoCancel(s.control) ==> NoCancel(r.control))
    && |s.trace| <= |r.trace| && r.trace[..|s.trace|] == s.trace
  }

  lemma KeepsTrans(a: Plotter, b: Plotter, c: Plotter)
    requires Keeps(a, b) && Keeps(b, c)
    ensures Keeps(a, c)
  {
    assert c.trace[..|a.trace|] == c.trace[..|b.trace|][..|a.trace|];
  }

  /** Appending to the trace keeps everything else. */
  lemma TraceGrowth(s: Plotter, extra: seq<Event>)
    ensures Keeps(s, s.(trace := s.trace + extra))
  {
    assert (s.trace + extra)[..|s.trace|] == s.trace;
  }

  /** One reading only drops readings: a control without CANCEL does not read one, and keeps none. */
  lemma ReadKeeps(s: Plotter)
    requires s.control.Some?
    ensures Keeps(s, ReadControl(s).s)
    ensures NoCancel(s.control) ==> ReadControl(s).state != Cancel
  {
    var samples := s.control.value;
    if |samples| > 0 && NoCancel(s.control) {
      assert samples[0] != Cancel;
      forall k | 0 <= k < |samples| - 1
        ensures samples[1..][k] != Cancel
      {
        assert samples[1..][k] == samples[k + 1];
      }
    }
    assert s.trace[..|s.trace|] == s.trace;
  }

  lemma {:induction false} PollKeeps(env: Env, s: Plotter)
    requires s.control.Some?
    ensures Keeps(s, PollSpec(env, s).s)
    ensures NoCancel(s.control) ==> PollSpec(env, s).state != Cancel
    decreases |s.control.value|
  {
    var d := Delayed(s, env.opts.refresh);
    TraceGrowth(s, [Waited(env.opts.refresh)]);
    var rd := ReadControl(d);
    ReadKeeps(d);
    KeepsTrans(s, d, rd.s);
    if rd.state == Pause {
      PollKeeps(env, rd.s);
      KeepsTrans(s, rd.s, PollSpec(env, rd.s).s);
    }
  }

  lemma PenUpKeeps(env: Env, s: Plotter, delay: Option<real>, level: Option<real>)
    ensures Keeps(s, PenUpSpec(env, s, delay, level).s)
  {
    PenMoves(env, s, delay, level);
    var r := PenUpSpec(env, s, delay, level).s;
    assert r.trace[..|s.trace|] == s.trace;
  }

  lemma PenDownKeeps(env: Env, s: Plotter, delay: Option<real>, level: Option<real>)
    ensures Keeps(s, PenDownSpec(env, s, delay, level).s)
  {
    PenMoves(env, s, delay, level);
    var r := PenDownSpec(env, s, delay, level).s;
    assert r.trace[..|s.trace|] == s.trace;
  }

  /** The control check keeps the invariant fields, and never cancels with a control that reads no CANCEL. */
  lemma ControlPointKeeps(env: Env, s: Plotter)
    requires s.control.Some?
    ensures Keeps(s, ControlPoint(env, s).s)
    ensures NoCancel(s.control) ==> !ControlPoint(env, s).cancelled
  {
    var rd := ReadControl(s);
    ReadKeeps(s);
    var s1 := rd.s;
    if rd.state == Pause {
      var penDown := rd.s.isPenDown;
      var s2 := if penDown then PenUpSpec(env, rd.s, None, None).s else rd.s;
      if penDown { PenUpKeeps(env, rd.s, None, None); }
      KeepsTrans(s, rd.s, s2);
      var p := PollSpec(env, s2);
      PollKeeps(env, s2);
      KeepsTrans(s, s2, p.s);
      s1 := if p.state == Continue && penDown then PenDownSpec(env, p.s, None, None).s else p.s;
      if p.state == Continue && penDown { PenDownKeeps(env, p.s, None, None); }
      KeepsTrans(s, p.s, s1);
    }
    var cp := ControlPoint(env, s);
    if cp.cancelled {
      PenUpKeeps(env, s1, None, None);
      KeepsTrans(s, s1, cp.s);
    }
  }

  lemma SendMoveKeeps(env: Env, s: Plotter, target: Vec2, tempo: Option<real>)
    requires env.Valid() && TempoOk(tempo)
    ensures Keeps(s, SendMoveSpec(env, s, target, tempo).s)
  {
    SendMovePosition(env, s, target, tempo);
    SendMoveEffect(env, s, target, tempo);
    var r := SendMoveSpec(env, s, target, tempo).s;
    assert r.trace[..|s.trace|] == s.trace;
  }

  lemma AfterCommandKeeps(env: Env, s: Plotter, c: DrawCommand, wait: real)
    ensures Keeps(s, AfterCommand(env, s, c, wait))
  {
    var s1 := if wait > 0.0 then Delayed(s, Max(0.0, wait - env.opts.preDelay)) else s;
    if wait > 0.0 { TraceGrowth(s, [Waited(Max(0.0, wait - env.opts.preDelay))]); }
    var r := AfterCommand(env, s, c, wait);
    if r != s1 {
      TraceGrowth(s1, r.trace[|s1.trace|..]);
      assert r == s1.(trace := s1.trace + r.trace[|s1.trace|..]);
      KeepsTrans(s, s1, r);
    }
  }

  lemma {:induction false} ExecKeeps(env: Env, s: Plotter, cmds: seq<DrawCommand>)
    requires env.Valid() && AllSupported(cmds)
    ensures Keeps(s, Exec(env, s, cmds).s)
    decreases Level(cmds), |cmds|, 2
  {
    if |cmds| == 0 {
      assert s.trace[..|s.trace|] == s.trace;
    } else {
      assert Flat(cmds) ==> Flat(cmds[1..]) && !cmds[0].Start? && !cmds[0].Stop?;
      var o := Step(env, s, cmds[0]);
      StepKeeps(env, s, cmds[0]);
      if !o.cancelled {
        ExecKeeps(env, o.s, cmds[1..]);
        KeepsTrans(s, o.s, Exec(env, o.s, cmds[1..]).s);
      }
    }
  }

  lemma {:induction false} StepKeeps(env: Env, s: Plotter, c: DrawCommand)
    requires env.Valid() && Supported(c)
    ensures Keeps(s, Step(env, s, c).s)
    decreases Rank(c), 0, 1
  {
    var cp := if s.control.Some? then ControlPoint(env, s) else Checkpoint(s, false);
    if s.control.Some? {
      ControlPointKeeps(env, s);
    } else {
      assert s.trace[..|s.trace|] == s.trace;
    }
    if !cp.cancelled {
      var d := Dispatch(env, cp.s, c);
      DispatchKeeps(env, cp.s, c);
      AfterCommandKeeps(env, d.s, c, d.wait);
      KeepsTrans(s, cp.s, d.s);
      KeepsTrans(s, d.s, AfterCommand(env, d.s, c, d.wait));
    }
  }

  lemma {:induction false} DispatchKeeps(env: Env, s: Plotter, c: DrawCommand)
    requires env.Valid() && Supported(c)
    ensures Keeps(s, Dispatch(env, s, c).s)
    decreases Rank(c), 0, 0
  {
    match c
    case Start => ExecKeeps(env, s, env.opts.start);
    case Stop => ExecKeeps(env, s, env.opts.stop);
    case Home => MoveKeeps(env, s, c);
    case MoveXY(_, _) => MoveKeeps(env, s, c);
    case MoveRel(_, _) => MoveKeeps(env, s, c);
    case PenConfig(_, _) => PenKeeps(env, s, c);
    case PenUpDown(_, _, _) => PenKeeps(env, s, c);
    case Save => StackKeeps(env, s, c);
    case Restore => StackKeeps(env, s, c);
    case Reset => OtherKeeps(env, s, c);
    case Motor(_) => OtherKeeps(env, s, c);
    case Wait(_) => OtherKeeps(env, s, c);
    case Comment(_) => OtherKeeps(env, s, c);
  }

  lemma MoveKeeps(env: Env, s: Plotter, c: DrawCommand)
    requires env.Valid() && Supported(c) && (c.Home? || c.MoveXY? || c.MoveRel?)
    ensures Keeps(s, Dispatch(env, s, c).s)
  {
    match c
    case Home => SendMoveKeeps(env, s, MulAdd(Origin, env.scale, s.homePos), None);
    case MoveXY(p, tempo) => SendMoveKeeps(env, s, MulAdd(p, env.scale, s.homePos), tempo);
    case MoveRel(delta, tempo) => SendMoveKeeps(env, s, MulAdd(delta, env.scale, s.pos), tempo);
  }

  lemma PenKeeps(env: Env, s: Plotter, c: DrawCommand)
    requires env.Valid() && (c.PenConfig? || c.PenUpDown?)
    ensures Keeps(s, Dispatch(env, s, c).s)
  {
    match c
    case PenConfig(down, up) =>
      PenConfigEffect(env, s, down, up);
      var r := PenConfigSpec(env, s, down, up);
      assert r.trace[..|s.trace|] == s.trace;
    case PenUpDown(Up, delay, level) => PenUpKeeps(env, s, delay, level);
    case PenUpDown(Down, delay, level) => PenDownKeeps(env, s, delay, level);
  }

  lemma StackKeeps(env: Env, s: Plotter, c: DrawCommand)
    requires env.Valid() && (c.Save? || c.Restore?)
    ensures Keeps(s, Dispatch(env, s, c).s)
  {
    match c
    case Save => assert s.trace[..|s.trace|] == s.trace;
    case Restore =>
      RestorePops(s);
      if |s.penState| >= 1 { RestoreKeepsSentinel(s); }
      var r := RestoreSpec(s);
      assert r.trace[..|s.trace|] == s.trace;
  }

  lemma OtherKeeps(env: Env, s: Plotter, c: DrawCommand)
    requires env.Valid() && (c.Reset? || c.Motor? || c.Wait? || c.Comment?)
    ensures Keeps(s, Dispatch(env, s, c).s)
  {
    match c
    case Reset => TraceGrowth(s.(pos := Origin, targetPos := Origin), [Sent(R)]);
    case Motor(sw) =>
      TraceGrowth(s, [Sent(if sw == On then EM(1, 1) else EM(0, 0))]);
    case Wait(_) => assert s.trace[..|s.trace|] == s.trace;
    case Comment(_) => assert s.trace[..|s.trace|] == s.trace;
  }

  // ---------------------------------------------------------------------
  // The shape of one step

  /** Without a control a command is never cancelled: it is dispatched, then waited for, and counted once. */
  lemma StepWithoutControl(env: Env, s: Plotter, c: DrawCommand)
    requires env.Valid() && Supported(c) && s.control.None?
    ensures var d := Dispatch(env, s, c);
      Step(env, s, c) == StepOut(AfterCommand(env, d.s, c, d.wait), OneCommand.Add(d.m), false)
  {
  }

  /**
   * With a control the check comes first: a cancel ends the step with the
   * command counted and nothing dispatched; otherwise the command is
   * dispatched from the state the check leaves.
   */
  lemma StepWithControl(env: Env, s: Plotter, c: DrawCommand)
    requires env.Valid() && Supported(c) && s.control.Some?
    ensures var cp := ControlPoint(env, s);
      cp.cancelled ==> Step(env, s, c) == StepOut(cp.s, OneCommand, true)
    ensures var cp := ControlPoint(env, s);
      var d := Dispatch(env, cp.s, c);
      !cp.cancelled ==> Step(env, s, c) == StepOut(AfterCommand(env, d.s, c, d.wait), OneCommand.Add(d.m), false)
  {
  }

  // ---------------------------------------------------------------------
  // Metrics

  /**
   * Pen commands are a subset of the commands, and the drawn distance is a
   * part of the total distance.
   */
  predicate Plausible(m: Metrics) {
    0 <= m.penCommands <= m.commands && 0.0 <= m.drawDist <= m.totalDist
  }

  lemma MoveDist(env: Env, s: Plotter, c: DrawCommand)
    requires env.Valid() && Supported(c) && MagNonNegative(env.mag)
    requires c.Home? || c.MoveXY? || c.MoveRel?
    ensures Dispatch(env, s, c).m.totalDist >= 0.0
  {
    match c
    case Home => SendMoveDistNonNegative(env, s, MulAdd(Origin, env.scale, s.homePos), None);
    case MoveXY(p, tempo) => SendMoveDistNonNegative(env, s, MulAdd(p, env.scale, s.homePos), tempo);
    case MoveRel(delta, tempo) => SendMoveDistNonNegative(env, s, MulAdd(delta, env.scale, s.pos), tempo);
  }

  lemma {:induction false} ExecPlausible(env: Env, s: Plotter, cmds: seq<DrawCommand>)
    requires env.Valid() && AllSupported(cmds) && MagNonNegative(env.mag)
    ensures Plausible(Exec(env, s, cmds).m)
    decreases Level(cmds), |cmds|, 2
  {
    if |cmds| > 0 {
      assert Flat(cmds) ==> Flat(cmds[1..]) && !cmds[0].Start? && !cmds[0].Stop?;
      var o := Step(env, s, cmds[0]);
      StepPlausible(env, s, cmds[0]);
      if !o.cancelled {
        ExecPlausible(env, o.s, cmds[1..]);
      }
    }
  }

  lemma {:induction false} StepPlausible(env: Env, s: Plotter, c: DrawCommand)
    requires env.Valid() && Supported(c) && MagNonNegative(env.mag)
    ensures Plausible(Step(env, s, c).m) && Step(env, s, c).m.commands >= 1
    decreases Rank(c), 0, 1
  {
    var cp := if s.control.Some? then ControlPoint(env, s) else Checkpoint(s, false);
    if !cp.cancelled {
      DispatchPlausible(env, cp.s, c);
    }
  }

  /** The metrics of the commands other than moves: sub-metrics for `start`/`stop`, one pen command for `u`/`d`, none otherwise. */
  lemma DispatchShape(env: Env, s: Plotter, c: DrawCommand)
    requires env.Valid() && Supported(c)
    requires !c.Home? && !c.MoveXY? && !c.MoveRel?
    ensures c.Start? ==> Dispatch(env, s, c).m == Exec(env, s, env.opts.start).m
    ensures c.Stop? ==> Dispatch(env, s, c).m == Exec(env, s, env.opts.stop).m
    ensures c.PenUpDown? ==> Dispatch(env, s, c).m == OnePen
    ensures !c.Start? && !c.Stop? && !c.PenUpDown? ==> Dispatch(env, s, c).m == NoMetrics
  {
  }

  lemma {:induction false} DispatchPlausible(env: Env, s: Plotter, c: DrawCommand)
    requires env.Valid() && Supported(c) && MagNonNegative(env.mag)
    ensures var m := Dispatch(env, s, c).m;
      0 <= m.penCommands <= m.commands + 1 && 0 <= m.commands && 0.0 <= m.drawDist <= m.totalDist
    decreases Rank(c), 0, 0
  {
    if c.Home? || c.MoveXY? || c.MoveRel? {
      MoveDist(env, s, c);
      MoveMetrics(env, s, c);
    } else {
      DispatchShape(env, s, c);
      if c.Start? {
        ExecPlausible(env, s, env.opts.start);
      } else if c.Stop? {
        ExecPlausible(env, s, env.opts.stop);
      }
    }
  }

  /** `draw` over any commands: `0 <= penCommands <= commands` and `0 <= drawDist <= totalDist`. */
  lemma DrawMetricsPlausible(env: Env, s: Plotter, cmds: seq<DrawCommand>)
    requires env.Valid() && AllSupported(cmds) && MagNonNegative(env.mag)
    ensures var m := Exec(env, s, cmds).m;
      0 <= m.penCommands <= m.commands && 0.0 <= m.drawDist <= m.totalDist
  {
    ExecPlausible(env, s, cmds);
  }

  /** A move adds its distance to the total, and to the drawn distance only if the pen is down. */
  lemma MoveMetrics(env: Env, s: Plotter, c: DrawCommand)
    requires env.Valid() && Supported(c)
    requires c.Home? || c.MoveXY? || c.MoveRel?
    ensures var d := Dispatch(env, s, c);
      && d.m.commands == 0 && d.m.penCommands == 0
      && d.m.drawDist == (if s.isPenDown then d.m.totalDist else 0.0)
  {
    var d := Dispatch(env, s, c);
    match c
    case Home => SendMovePosition(env, s, MulAdd(Origin, env.scale, s.homePos), None);
    case MoveXY(p, tempo) => SendMovePosition(env, s, MulAdd(p, env.scale, s.homePos), tempo);
    case MoveRel(delta, tempo) => SendMovePosition(env, s, MulAdd(delta, env.scale, s.pos), tempo);
  }

  // ---------------------------------------------------------------------
  // Command counts

  /** A command as the loop sees it: `start` and `stop` followed by their configured lists. */
  function Unfold(opts: Opts, c: DrawCommand): seq<DrawCommand> {
    if c.Start? then [c] + opts.start else if c.Stop? then [c] + opts.stop else [c]
  }

  /** The commands processed by a draw that is not cancelled, nested lists included. */
  function Expand(opts: Opts, cmds: seq<DrawCommand>): seq<DrawCommand> {
    if |cmds| == 0 then [] else Unfold(opts, cmds[0]) + Expand(opts, cmds[1..])
  }

  /** The number of `u`/`d` commands. */
  function PenCount(cmds: seq<DrawCommand>): nat {
    if |cmds| == 0 then 0 else (if cmds[0].PenUpDown? then 1 else 0) + PenCount(cmds[1..])
  }

  lemma {:induction false} PenCountAppend(a: seq<DrawCommand>, b: seq<DrawCommand>)
    ensures PenCount(a + b) == PenCount(a) + PenCount(b)
    decreases |a|
  {
    if |a| == 0 {
      assert a + b == b;
    } else {
      assert (a + b)[1..] == a[1..] + b;
      PenCountAppend(a[1..], b);
    }
  }

  /** Without `start`/`stop` nothing is unfolded. */
  lemma {:induction false} ExpandFlat(opts: Opts, cmds: seq<DrawCommand>)
    requires Flat(cmds)
    ensures Expand(opts, cmds) == cmds
    decreases |cmds|
  {
    if |cmds| > 0 {
      assert Flat(cmds[1..]);
      ExpandFlat(opts, cmds[1..]);
      assert [cmds[0]] + cmds[1..] == cmds;
    }
  }

  /** The number of commands a command unfolds to. */
  function UnfoldSize(opts: Opts, c: DrawCommand): nat {
    if c.Start? then 1 + |opts.start| else if c.Stop? then 1 + |opts.stop| else 1
  }

  /** The number of `u`/`d` commands a command unfolds to. */
  function UnfoldPens(opts: Opts, c: DrawCommand): nat {
    if c.Start? then PenCount(opts.start) else if c.Stop? then PenCount(opts.stop)
    else if c.PenUpDown? then 1 else 0
  }

  lemma UnfoldCounts(opts: Opts, c: DrawCommand)
    ensures |Unfold(opts, c)| == UnfoldSize(opts, c)
    ensures PenCount(Unfold(opts, c)) == UnfoldPens(opts, c)
  {
    PenCountAppend([c], opts.start);
    PenCountAppend([c], opts.stop);
    assert PenCount([c]) == (if c.PenUpDown? then 1 else 0) by {
      assert [c][1..] == [];
    }
  }

  /**
   * `m` counts at most the unfolded commands of `cmds` and their `u`/`d`
   * commands, and exactly those when the control of `s` never reads CANCEL.
   */
  predicate SubCounts(env: Env, s: Plotter, cmds: seq<DrawCommand>, m: Metrics) {
    && m.commands <= |Expand(env.opts, cmds)|
    && m.penCommands <= PenCount(Expand(env.opts, cmds))
    && (NoCancel(s.control) ==>
          m.commands == |Expand(env.opts, cmds)| && m.penCommands == PenCount(Expand(env.opts, cmds)))
  }

  /**
   * The counts of a draw: at most the unfolded commands and their `u`/`d`
   * commands; exactly those when the control never reads CANCEL (a pause,
   * however long, only delays the command). Pause and cancel lifts never
   * count as pen commands.
   */
  lemma {:induction false} ExecCounts(env: Env, s: Plotter, cmds: seq<DrawCommand>)
    requires env.Valid() && AllSupported(cmds)
    ensures SubCounts(env, s, cmds, Exec(env, s, cmds).m)
    decreases Level(cmds), |cmds|, 2
  {
    if |cmds| > 0 {
      assert Flat(cmds) ==> Flat(cmds[1..]) && !cmds[0].Start? && !cmds[0].Stop?;
      assert AllSupported(cmds[1..]) && Supported(cmds[0]);
      StepCounts(env, s, cmds[0]);
      var o := Step(env, s, cmds[0]);
      var rest := Exec(env, o.s, cmds[1..]);
      if !o.cancelled {
        ExecCounts(env, o.s, cmds[1..]);
      }
      CountsFirst(env, s, cmds, o.cancelled, o.m, rest.m, o.s);
      ExecFirst(env, s, cmds);
    }
  }

  /** A draw of a non-empty list: its first step, then, unless that cancels, the rest. */
  lemma ExecFirst(env: Env, s: Plotter, cmds: seq<DrawCommand>)
    requires env.Valid() && AllSupported(cmds) && |cmds| > 0
    ensures AllSupported(cmds[1..]) && Supported(cmds[0])
    ensures var o := Step(env, s, cmds[0]);
      Exec(env, s, cmds) == if o.cancelled then Run(o.s, o.m)
        else Run(Exec(env, o.s, cmds[1..]).s, o.m.Add(Exec(env, o.s, cmds[1..]).m))
  {
    assert Flat(cmds) ==> Flat(cmds[1..]) && !cmds[0].Start? && !cmds[0].Stop?;
  }

  /**
   * The invariant of the loop of `draw`: `acc` has been counted so far, and
   * running the commands from `i` on from `si` completes the draw.
   */
  ghost predicate Pending(env: Env, s0: Plotter, cmds: seq<DrawCommand>, i: nat, acc: Metrics, si: Plotter)
    requires env.Valid() && AllSupported(cmds) && i <= |cmds|
  {
    assert AllSupported(cmds[i..]);
    var rest := Exec(env, si, cmds[i..]);
    Exec(env, s0, cmds) == Run(rest.s, acc.Add(rest.m))
  }

  /** The loop starts with nothing counted and all the commands to run. */
  lemma PendingStart(env: Env, s0: Plotter, cmds: seq<DrawCommand>)
    requires env.Valid() && AllSupported(cmds)
    ensures Pending(env, s0, cmds, 0, NoMetrics, s0)
  {
    assert cmds[0..] == cmds;
    NoMetricsAdd(Exec(env, s0, cmds).m);
  }

  /**
   * One more step keeps the invariant: it either cancels, ending the draw
   * with its state and the metrics counted so far, or leaves the commands
   * from `i + 1` on to run.
   */
  lemma PendingStep(env: Env, s0: Plotter, cmds: seq<DrawCommand>, i: nat, acc: Metrics, si: Plotter, o: StepOut)
    requires env.Valid() && AllSupported(cmds) && i < |cmds|
    requires Pending(env, s0, cmds, i, acc, si)
    requires Supported(cmds[i]) && o == Step(env, si, cmds[i])
    ensures o.cancelled ==> Exec(env, s0, cmds) == Run(o.s, acc.Add(o.m))
    ensures !o.cancelled ==> Pending(env, s0, cmds, i + 1, acc.Add(o.m), o.s)
  {
    var tail := cmds[i..];
    assert tail[0] == cmds[i] && tail[1..] == cmds[i + 1..];
    assert AllSupported(tail) && AllSupported(cmds[i + 1..]);
    if !o.cancelled {
      AddAssoc(acc, o.m, Exec(env, o.s, cmds[i + 1..]).m);
    }
    ExecFirst(env, si, tail);
  }

  lemma AddAssoc(a: Metrics, b: Metrics, c: Metrics)
    ensures a.Add(b.Add(c)) == a.Add(b).Add(c)
  {
  }

  /** With every command run, the draw is complete. */
  lemma PendingDone(env: Env, s0: Plotter, cmds: seq<DrawCommand>, acc: Metrics, si: Plotter)
    requires env.Valid() && AllSupported(cmds)
    requires Pending(env, s0, cmds, |cmds|, acc, si)
    ensures Exec(env, s0, cmds) == Run(si, acc)
  {
    assert cmds[|cmds|..] == [];
    AddNoMetrics(acc);
  }

  lemma AddNoMetrics(m: Metrics)
    ensures m.Add(NoMetrics) == m
  {
  }

  lemma NoMetricsAdd(m: Metrics)
    ensures NoMetrics.Add(m) == m
  {
  }

  /** The counts of the first unfolded command and of the rest add up. */
  lemma ExpandFirst(opts: Opts, cmds: seq<DrawCommand>)
    requires |cmds| > 0
    ensures |Expand(opts, cmds)| == UnfoldSize(opts, cmds[0]) + |Expand(opts, cmds[1..])|
    ensures PenCount(Expand(opts, cmds)) == UnfoldPens(opts, cmds[0]) + PenCount(Expand(opts, cmds[1..]))
  {
    UnfoldCounts(opts, cmds[0]);
    PenCountAppend(Unfold(opts, cmds[0]), Expand(opts, cmds[1..]));
  }

  /** The arithmetic of `ExecCounts`: the first command's counts plus those of the rest. */
  lemma CountsFirst(env: Env, s: Plotter, cmds: seq<DrawCommand>, cancelled: bool, first: Metrics, rest: Metrics, s1: Plotter)
    requires |cmds| > 0
    requires first.commands <= UnfoldSize(env.opts, cmds[0]) && first.penCommands <= UnfoldPens(env.opts, cmds[0])
    requires NoCancel(s.control) ==>
      first.commands == UnfoldSize(env.opts, cmds[0]) && first.penCommands == UnfoldPens(env.opts, cmds[0])
    requires !cancelled ==> SubCounts(env, s1, cmds[1..], rest)
    requires NoCancel(s.control) ==> !cancelled && NoCancel(s1.control)
    ensures SubCounts(env, s, cmds, if cancelled then first else first.Add(rest))
  {
    ExpandFirst(env.opts, cmds);
  }

  /**
   * One step counts at most the commands its command unfolds to, and at
   * most their `u`/`d` commands; with a control that reads no CANCEL it is
   * not cancelled, counts exactly those, and leaves no CANCEL to read.
   */
  lemma {:induction false} StepCounts(env: Env, s: Plotter, c: DrawCommand)
    requires env.Valid() && Supported(c)
    ensures var o := Step(env, s, c);
      o.m.commands <= UnfoldSize(env.opts, c) && o.m.penCommands <= UnfoldPens(env.opts, c)
    ensures var o := Step(env, s, c);
      NoCancel(s.control) ==>
        && !o.cancelled && NoCancel(o.s.control)
        && o.m.commands == UnfoldSize(env.opts, c) && o.m.penCommands == UnfoldPens(env.opts, c)
    decreases Rank(c), 0, 1
  {
    StepKeeps(env, s, c);
    if s.control.None? {
      DispatchCounts(env, s, c);
      StepWithoutControl(env, s, c);
    } else {
      var cp := ControlPoint(env, s);
      ControlPointKeeps(env, s);
      if !cp.cancelled {
        DispatchCounts(env, cp.s, c);
      }
      StepWithControl(env, s, c);
    }
  }

  lemma {:induction false} DispatchCounts(env: Env, s: Plotter, c: DrawCommand)
    requires env.Valid() && Supported(c)
    ensures var d := Dispatch(env, s, c);
      && d.m.commands <= UnfoldSize(env.opts, c) - 1
      && d.m.penCommands <= UnfoldPens(env.opts, c)
      && (NoCancel(s.control) ==>
            d.m.commands == UnfoldSize(env.opts, c) - 1 && d.m.penCommands == UnfoldPens(env.opts, c))
    decreases Rank(c), 0, 0
  {
    if c.Home? || c.MoveXY? || c.MoveRel? {
      MoveMetrics(env, s, c);
    } else {
      DispatchShape(env, s, c);
      if c.Start? {
        ExecCounts(env, s, env.opts.start);
        ExpandFlat(env.opts, env.opts.start);
      } else if c.Stop? {
        ExecCounts(env, s, env.opts.stop);
        ExpandFlat(env.opts, env.opts.stop);
      }
    }
  }

  /**
   * Without a control, or with one that never reads CANCEL, `commands` and
   * `penCommands` count exactly the unfolded commands and their `u`/`d`.
   */
  lemma DrawCountsWithoutCancel(env: Env, s: Plotter, cmds: seq<DrawCommand>)
    requires env.Valid() && AllSupported(cmds) && NoCancel(s.control)
    ensures Exec(env, s, cmds).m.commands == |Expand(env.opts, cmds)|
    ensures Exec(env, s, cmds).m.penCommands == PenCount(Expand(env.opts, cmds))
  {
    ExecCounts(env, s, cmds);
  }

  // ---------------------------------------------------------------------
  // Control

  /** `n` waits of `ms` each. */
  function Waits(ms: real, n: nat): (r: seq<Event>)
    ensures |r| == n
    ensures forall k :: 0 <= k < n ==> r[k] == Waited(ms)
  {
    if n == 0 then [] else [Waited(ms)] + Waits(ms, n - 1)
  }

  /** The first `n` readings of the control are PAUSE. */
  ghost predicate PausedFor(samples: seq<AxiDrawState>, n: nat) {
    n <= |samples| && forall k :: 0 <= k < n ==> samples[k] == Pause
  }

  /**
   * The pause poll over `n` PAUSE readings followed by another reading:
   * `n + 1` waits of `refresh` ms, then that reading, with the `n + 1`
   * readings consumed.
   */
  lemma {:induction false} PollAfterPauses(env: Env, s: Plotter, n: nat)
    requires s.control.Some? && n < |s.control.value|
    requires PausedFor(s.control.value, n) && s.control.value[n] != Pause
    ensures PollSpec(env, s) == Reading(s.control.value[n],
      s.(trace := s.trace + Waits(env.opts.refresh, n + 1), control := Some(s.control.value[n + 1..])))
    decreases n
  {
    var samples := s.control.value;
    var d := Delayed(s, env.opts.refresh);
    var rd := ReadControl(d);
    if n == 0 {
      assert Waits(env.opts.refresh, 1) == [Waited(env.opts.refresh)];
    } else {
      assert rd.state == Pause;
      assert rd.s.control.value == samples[1..];
      assert PausedFor(samples[1..], n - 1);
      PollAfterPauses(env, rd.s, n - 1);
      assert samples[1..][n - 1] == samples[n] && samples[1..][n..] == samples[n + 1..];
      assert d.trace + Waits(env.opts.refresh, n) == s.trace + Waits(env.opts.refresh, n + 1);
    }
  }

  /** A CONTINUE reading lets the command through and changes nothing but the control. */
  lemma ControlContinue(env: Env, s: Plotter)
    requires s.control.Some? && |s.control.value| > 0 && s.control.value[0] == Continue
    ensures ControlPoint(env, s) == Checkpoint(s.(control := Some(s.control.value[1..])), false)
  {
  }

  /** A CANCEL reading lifts the pen (`SP,1`) and cancels. */
  lemma ControlCancel(env: Env, s: Plotter)
    requires s.control.Some? && |s.control.value| > 0 && s.control.value[0] == Cancel
    ensures var cp := ControlPoint(env, s);
      && cp.cancelled && !cp.s.isPenDown
      && cp.s.trace == s.trace + [Sent(SP(1, env.opts.delayUp))]
      && cp.s.control == Some(s.control.value[1..])
  {
  }

  /**
   * A pause of `n` PAUSE readings followed by `x`: the pen is lifted if it
   * was down, the poll waits `n` times, then a CONTINUE lowers the pen again
   * if it had been down and a CANCEL lifts it and cancels.
   */
  lemma ControlPause(env: Env, s: Plotter, n: nat)
    requires s.control.Some? && 0 < n < |s.control.value|
    requires PausedFor(s.control.value, n) && s.control.value[n] != Pause
    ensures var cp := ControlPoint(env, s);
      var x := s.control.value[n];
      var down := s.isPenDown;
      && cp.cancelled == (x == Cancel)
      && cp.s.isPenDown == (down && x == Continue)
      && cp.s.control == Some(s.control.value[n + 1..])
      && cp.s.trace == s.trace
           + (if down then [Sent(SP(1, env.opts.delayUp))] else [])
           + Waits(env.opts.refresh, n)
           + (if down && x == Continue then [Sent(SP(0, env.opts.delayDown))] else [])
           + (if x == Cancel then [Sent(SP(1, env.opts.delayUp))] else [])
  {
    var samples := s.control.value;
    var rd := ReadControl(s);
    var down := rd.s.isPenDown;
    var s2 := if down then PenUpSpec(env, rd.s, None, None).s else rd.s;
    assert s2.control.value == samples[1..];
    assert PausedFor(samples[1..], n - 1);
    assert samples[1..][n - 1] == samples[n] && samples[1..][n..] == samples[n + 1..];
    PollAfterPauses(env, s2, n - 1);
  }

  /** A draw whose first control reading is CANCEL runs nothing: it lifts the pen and counts one command. */
  lemma ExecCancelledAtOnce(env: Env, s: Plotter, cmds: seq<DrawCommand>)
    requires env.Valid() && AllSupported(cmds) && |cmds| > 0
    requires s.control.Some? && |s.control.value| > 0 && s.control.value[0] == Cancel
    ensures var r := Exec(env, s, cmds);
      && r.m == OneCommand
      && r.s.trace == s.trace + [Sent(SP(1, env.opts.delayUp))]
      && !r.s.isPenDown
  {
    ControlCancel(env, s);
    StepWithControl(env, s, cmds[0]);
    ExecFirst(env, s, cmds);
  }

  /** `draw1`: a draw of one command is one step. */
  lemma ExecSingle(env: Env, s: Plotter, c: DrawCommand)
    requires env.Valid() && Supported(c)
    ensures AllSupported([c])
    ensures Exec(env, s, [c]) == Run(Step(env, s, c).s, Step(env, s, c).m)
  {
    assert AllSupported([c]);
    AddNoMetrics(Step(env, s, c).m);
    ExecFirst(env, s, [c]);
  }

  // ---------------------------------------------------------------------
  // The square path

  /** A closed square of side 100: to (100,0), (100,100), (0,100) and back to (0,0). */
  function SquarePath(): seq<DrawCommand> {
    [MoveXY(Vec2(100.0, 0.0), None), MoveXY(Vec2(100.0, 100.0), None),
     MoveXY(Vec2(0.0, 100.0), None), MoveXY(Vec2(0.0, 0.0), None)]
  }

  /** 4000 steps/s with the pen down, 80 steps per unit, no pre-delay, A3 bounds based at [0,0]. */
  predicate ExampleEnv(env: Env) {
    && env.Valid() && env.opts.speedDown == 4000.0 && env.scale == 80.0 && env.opts.preDelay == 0.0
    && env.bounds == Some(Bounds(Origin, A3LandscapeSteps))
  }

  /** The numbers of one side: 8000 steps at 4000 steps/s take 2000 ms and cover 100 units. */
  lemma SideNumbers(env: Env, dx: int, dy: int)
    requires ExampleEnv(env)
    requires (dx == 0 && (dy == 8000 || dy == -8000)) || (dy == 0 && (dx == 8000 || dx == -8000))
    ensures Quotient(1000.0 * Max(Abs(dx as real), Abs(dy as real)), MoveSpeed(env, true, None)) == 2000.0
    ensures Quotient(8000.0, env.scale) == 100.0
    ensures ToInt32(2000.0) == 2000 && ToInt32(dx as real) == dx && ToInt32(dy as real) == dy
  {
    assert Max(Abs(dx as real), Abs(dy as real)) == 8000.0;
    assert MoveSpeed(env, true, None) == 4000.0;
    ToInt32OfInteger(2000);
    ToInt32OfInteger(dx);
    ToInt32OfInteger(dy);
  }

  /** One pen-down side as a move: `XM,2000,dx,dy`, 2000 ms, 100 units. */
  lemma SideMove(env: Env, s: Plotter, dx: int, dy: int)
    requires ExampleEnv(env) && s.isPenDown
    requires (dx == 0 && (dy == 8000 || dy == -8000)) || (dy == 0 && (dx == 8000 || dx == -8000))
    requires InBounds(Vec2(s.pos.x + dx as real, s.pos.y + dy as real), Bounds(Origin, A3LandscapeSteps))
    requires env.mag(Vec2(dx as real, dy as real)) == 8000.0
    ensures var t := Vec2(s.pos.x + dx as real, s.pos.y + dy as real);
      SendMoveSpec(env, s, t, None)
        == MoveOut(s.(pos := t, targetPos := t, trace := s.trace + [Sent(XM(2000, dx, dy))]), 2000.0, 100.0)
  {
    var t := Vec2(s.pos.x + dx as real, s.pos.y + dy as real);
    assert ClampTo(env.bounds, t) == t;
    assert Diff(t, s.pos) == Vec2(dx as real, dy as real);
    SideNumbers(env, dx, dy);
  }

  /** The state after one side by `(dx, dy)` steps: moved there, with its `XM` and its 2000 ms wait. */
  function AfterSide(s: Plotter, dx: int, dy: int): Plotter {
    var t := Vec2(s.pos.x + dx as real, s.pos.y + dy as real);
    s.(pos := t, targetPos := t, trace := s.trace + [Sent(XM(2000, dx, dy)), Waited(2000.0)])
  }

  /** The metrics of one side: one command, 100 units, all drawn. */
  const SideMetrics: Metrics := Metrics(1, 0, 100.0, 100.0)

  /** A pen-down side from `s`: 8000 steps along one axis, ending inside the bounds, with `mag` exact. */
  predicate SideFrom(env: Env, s: Plotter, p: Vec2, dx: int, dy: int) {
    && ExampleEnv(env) && s.control.None? && s.isPenDown
    && ((dx == 0 && (dy == 8000 || dy == -8000)) || (dy == 0 && (dx == 8000 || dx == -8000)))
    && MulAdd(p, 80.0, s.homePos) == Vec2(s.pos.x + dx as real, s.pos.y + dy as real)
    && InBounds(Vec2(s.pos.x + dx as real, s.pos.y + dy as real), Bounds(Origin, A3LandscapeSteps))
    && env.mag(Vec2(dx as real, dy as real)) == 8000.0
  }

  /**
   * One pen-down side of 100 units along an axis, as one iteration of the
   * draw loop without a control: `XM,2000,dx,dy`, a wait of 2000 ms, one
   * command counted and 100 units drawn.
   */
  lemma SideStep(env: Env, s: Plotter, p: Vec2, dx: int, dy: int)
    requires SideFrom(env, s, p, dx, dy)
    ensures Step(env, s, MoveXY(p, None)) == StepOut(AfterSide(s, dx, dy), SideMetrics, false)
  {
    var c := MoveXY(p, None);
    var d := Dispatched(SideMoved(s, dx, dy), 2000.0, Travel(100.0, true));
    SideDispatch(env, s, p, dx, dy);
    SideAfter(env, s, c, dx, dy);
    SideCounted();
    StepFromDispatch(env, s, c, d, AfterSide(s, dx, dy));
  }

  /** The state right after a side's `XM`, before its wait. */
  function SideMoved(s: Plotter, dx: int, dy: int): Plotter {
    var t := Vec2(s.pos.x + dx as real, s.pos.y + dy as real);
    s.(pos := t, targetPos := t, trace := s.trace + [Sent(XM(2000, dx, dy))])
  }

  lemma SideCounted()
    ensures OneCommand.Add(Travel(100.0, true)) == SideMetrics
  {
  }

  /** Without a control, a step is the dispatch followed by its wait. */
  lemma StepFromDispatch(env: Env, s: Plotter, c: DrawCommand, d: Dispatched, after: Plotter)
    requires env.Valid() && Supported(c) && s.control.None?
    requires Dispatch(env, s, c) == d && AfterCommand(env, d.s, c, d.wait) == after
    ensures Step(env, s, c) == StepOut(after, OneCommand.Add(d.m), false)
  {
    StepWithoutControl(env, s, c);
  }

  lemma SideDispatch(env: Env, s: Plotter, p: Vec2, dx: int, dy: int)
    requires SideFrom(env, s, p, dx, dy)
    ensures Dispatch(env, s, MoveXY(p, None)) == Dispatched(SideMoved(s, dx, dy), 2000.0, Travel(100.0, true))
  {
    SideMove(env, s, dx, dy);
  }

  lemma SideAfter(env: Env, s: Plotter, c: DrawCommand, dx: int, dy: int)
    requires ExampleEnv(env) && c.MoveXY?
    ensures AfterCommand(env, SideMoved(s, dx, dy), c, 2000.0) == AfterSide(s, dx, dy)
  {
    var moved := SideMoved(s, dx, dy);
    assert WaitAfter(env, 2000.0) == [Waited(2000.0)];
    AfterCommandWait(env, moved, c, 2000.0);
    assert moved.trace + [Waited(2000.0)] == AfterSide(s, dx, dy).trace;
  }

  /** A draw that starts with a side: that side, then the rest from where it ends. */
  lemma ExecSide(env: Env, s: Plotter, cmds: seq<DrawCommand>, dx: int, dy: int)
    requires |cmds| > 0 && cmds[0].MoveXY? && cmds[0].tempo.None? && AllSupported(cmds)
    requires SideFrom(env, s, cmds[0].p, dx, dy)
    ensures AllSupported(cmds[1..])
    ensures var rest := Exec(env, AfterSide(s, dx, dy), cmds[1..]);
      Exec(env, s, cmds) == Run(rest.s, SideMetrics.Add(rest.m))
  {
    SideStep(env, s, cmds[0].p, dx, dy);
    ExecFirst(env, s, cmds);
  }

  /** A side followed by a draw whose run is known. */
  lemma ExecSideThen(env: Env, s: Plotter, cmds: seq<DrawCommand>, dx: int, dy: int, after: Plotter, m: Metrics)
    requires |cmds| > 0 && cmds[0].MoveXY? && cmds[0].tempo.None? && AllSupported(cmds)
    requires SideFrom(env, s, cmds[0].p, dx, dy)
    requires AllSupported(cmds[1..]) && Exec(env, AfterSide(s, dx, dy), cmds[1..]) == Run(after, m)
    ensures Exec(env, s, cmds) == Run(after, SideMetrics.Add(m))
  {
    ExecSide(env, s, cmds, dx, dy);
  }

  lemma SquareMetrics()
    ensures SideMetrics.Add(SideMetrics.Add(SideMetrics.Add(SideMetrics.Add(NoMetrics))))
         == Metrics(4, 0, 400.0, 400.0)
  {
  }

  /** Every command of the square, and of each of its suffixes, has a usable tempo. */
  lemma SquareSupported()
    ensures AllSupported(SquarePath()) && AllSupported(SquarePath()[1..])
    ensures AllSupported(SquarePath()[2..]) && AllSupported(SquarePath()[3..])
  {
    var q := SquarePath();
    assert forall i :: 0 <= i < |q| ==> q[i].MoveXY? && q[i].tempo.None?;
  }

  /** Ready for the square's next side from `pos`: pen down, no control, home at the origin, `mag` exact on the sides. */
  predicate SquareReady(env: Env, s: Plotter, pos: Vec2) {
    && ExampleEnv(env) && s.control.None? && s.isPenDown && s.homePos == Origin && s.pos == pos
    && env.mag(Vec2(8000.0, 0.0)) == 8000.0 && env.mag(Vec2(0.0, 8000.0)) == 8000.0
    && env.mag(Vec2(-8000.0, 0.0)) == 8000.0 && env.mag(Vec2(0.0, -8000.0)) == 8000.0
  }

  /** The last side, from (0,100) back to the origin. */
  lemma SquareSide4(env: Env, s: Plotter)
    requires SquareReady(env, s, Vec2(0.0, 8000.0))
    ensures AllSupported(SquarePath()[3..])
    ensures Exec(env, s, SquarePath()[3..]) == Run(AfterSide(s, 0, -8000), SideMetrics.Add(NoMetrics))
  {
    var q := SquarePath()[3..];
    SquareSupported();
    SquareCommands();
    LastSide(env, s);
    ExecEmpty(env, AfterSide(s, 0, -8000), q[1..]);
    ExecSideThen(env, s, q, 0, -8000, AfterSide(s, 0, -8000), NoMetrics);
  }

  lemma FirstSide(env: Env, s: Plotter)
    requires SquareReady(env, s, Origin)
    ensures SideFrom(env, s, Vec2(100.0, 0.0), 8000, 0)
    ensures SquareReady(env, AfterSide(s, 8000, 0), Vec2(8000.0, 0.0))
  {
  }

  lemma SecondSide(env: Env, s: Plotter)
    requires SquareReady(env, s, Vec2(8000.0, 0.0))
    ensures SideFrom(env, s, Vec2(100.0, 100.0), 0, 8000)
    ensures SquareReady(env, AfterSide(s, 0, 8000), Vec2(8000.0, 8000.0))
  {
  }

  lemma ThirdSide(env: Env, s: Plotter)
    requires SquareReady(env, s, Vec2(8000.0, 8000.0))
    ensures SideFrom(env, s, Vec2(0.0, 100.0), -8000, 0)
    ensures SquareReady(env, AfterSide(s, -8000, 0), Vec2(0.0, 8000.0))
  {
  }

  lemma LastSide(env: Env, s: Plotter)
    requires SquareReady(env, s, Vec2(0.0, 8000.0))
    ensures SideFrom(env, s, Origin, 0, -8000)
  {
  }

  /** The square's commands one by one, as its suffixes see them. */
  lemma SquareCommands()
    ensures SquarePath()[0] == MoveXY(Vec2(100.0, 0.0), None) && SquarePath()[1..][1..] == SquarePath()[2..]
    ensures SquarePath()[1..][0] == MoveXY(Vec2(100.0, 100.0), None) && SquarePath()[1..][1..] == SquarePath()[2..]
    ensures SquarePath()[2..][0] == MoveXY(Vec2(0.0, 100.0), None) && SquarePath()[2..][1..] == SquarePath()[3..]
    ensures SquarePath()[3..][0] == MoveXY(Origin, None) && |SquarePath()[3..][1..]| == 0
  {
  }

  lemma ExecEmpty(env: Env, s: Plotter, cmds: seq<DrawCommand>)
    requires env.Valid() && |cmds| == 0
    ensures AllSupported(cmds) && Exec(env, s, cmds) == Run(s, NoMetrics)
  {
  }

  /** The last two sides, from (100,100). */
  lemma SquareSide3(env: Env, s: Plotter)
    requires SquareReady(env, s, Vec2(8000.0, 8000.0))
    ensures AllSupported(SquarePath()[2..])
    ensures Exec(env, s, SquarePath()[2..])
         == Run(AfterSide(AfterSide(s, -8000, 0), 0, -8000), SideMetrics.Add(SideMetrics.Add(NoMetrics)))
  {
    var q := SquarePath()[2..];
    SquareCommands();
    ThirdSide(env, s);
    SquareSupported();
    SquareSide4(env, AfterSide(s, -8000, 0));
    ExecSideThen(env, s, q, -8000, 0, AfterSide(AfterSide(s, -8000, 0), 0, -8000), SideMetrics.Add(NoMetrics));
  }

  /** The last three sides, from (100,0). */
  lemma SquareSide2(env: Env, s: Plotter)
    requires SquareReady(env, s, Vec2(8000.0, 0.0))
    ensures AllSupported(SquarePath()[1..])
    ensures Exec(env, s, SquarePath()[1..])
         == Run(AfterSide(AfterSide(AfterSide(s, 0, 8000), -8000, 0), 0, -8000),
                SideMetrics.Add(SideMetrics.Add(SideMetrics.Add(NoMetrics))))
  {
    var q := SquarePath()[1..];
    SquareCommands();
    SecondSide(env, s);
    SquareSupported();
    SquareSide3(env, AfterSide(s, 0, 8000));
    ExecSideThen(env, s, q, 0, 8000, AfterSide(AfterSide(AfterSide(s, 0, 8000), -8000, 0), 0, -8000),
                 SideMetrics.Add(SideMetrics.Add(NoMetrics)));
  }

  /**
   * The square drawn with the pen down from the origin, without a control:
   * one `XM` per side (`XM,2000,8000,0`, `XM,2000,0,8000`,
   * `XM,2000,-8000,0`, `XM,2000,0,-8000`), each followed by its 2000 ms
   * wait; back at the origin, with `drawDist == totalDist == 400`.
   */
  lemma SquareExample(env: Env, s: Plotter)
    requires SquareReady(env, s, Origin)
    ensures var r := Exec(env, s, SquarePath());
      && r.m == Metrics(4, 0, 400.0, 400.0)
      && r.s.pos == Origin
      && r.s.trace == s.trace
           + [Sent(XM(2000, 8000, 0)), Waited(2000.0), Sent(XM(2000, 0, 8000)), Waited(2000.0)]
           + [Sent(XM(2000, -8000, 0)), Waited(2000.0), Sent(XM(2000, 0, -8000)), Waited(2000.0)]
  {
    SquareTrace(s);
    SquareMetrics();
    SquareRun(env, s);
  }

  /** All four sides, from the origin. */
  lemma SquareRun(env: Env, s: Plotter)
    requires SquareReady(env, s, Origin)
    ensures AllSupported(SquarePath())
    ensures Exec(env, s, SquarePath())
         == Run(AfterSide(AfterSide(AfterSide(AfterSide(s, 8000, 0), 0, 8000), -8000, 0), 0, -8000),
                SideMetrics.Add(SideMetrics.Add(SideMetrics.Add(SideMetrics.Add(NoMetrics)))))
  {
    var q := SquarePath();
    SquareCommands();
    FirstSide(env, s);
    SquareSupported();
    SquareSide2(env, AfterSide(s, 8000, 0));
    ExecSideThen(env, s, q, 8000, 0, AfterSide(AfterSide(AfterSide(AfterSide(s, 8000, 0), 0, 8000), -8000, 0), 0, -8000),
                 SideMetrics.Add(SideMetrics.Add(SideMetrics.Add(NoMetrics))));
  }

  lemma SquareTrace(s: Plotter)
    ensures AfterSide(AfterSide(AfterSide(AfterSide(s, 8000, 0), 0, 8000), -8000, 0), 0, -8000).trace
         == s.trace
           + [Sent(XM(2000, 8000, 0)), Waited(2000.0), Sent(XM(2000, 0, 8000)), Waited(2000.0)]
           + [Sent(XM(2000, -8000, 0)), Waited(2000.0), Sent(XM(2000, 0, -8000)), Waited(2000.0)]
    ensures AfterSide(AfterSide(AfterSide(AfterSide(s, 8000, 0), 0, 8000), -8000, 0), 0, -8000).pos == s.pos
  {
  }

  /** The square under the default options, with `mag` exact on the four axis-aligned sides. */
  lemma DefaultSquareExample(mag: Vec2 -> real, s: Plotter)
    requires mag(Vec2(8000.0, 0.0)) == 8000.0 && mag(Vec2(0.0, 8000.0)) == 8000.0
    requires mag(Vec2(-8000.0, 0.0)) == 8000.0 && mag(Vec2(0.0, -8000.0)) == 8000.0
    requires s.control.None? && s.isPenDown && s.pos == Origin && s.homePos == Origin
    ensures var r := Exec(MakeEnv(DefaultOpts(), mag), s, SquarePath());
      && r.m.drawDist == r.m.totalDist == 400.0
      && r.s.trace == s.trace
           + [Sent(XM(2000, 8000, 0)), Waited(2000.0), Sent(XM(2000, 0, 8000)), Waited(2000.0)]
           + [Sent(XM(2000, -8000, 0)), Waited(2000.0), Sent(XM(2000, 0, -8000)), Waited(2000.0)]
  {
    DefaultEnv(mag);
    SquareExample(MakeEnv(DefaultOpts(), mag), s);
  }

  // ---------------------------------------------------------------------
  // Waiting and one-off pen levels

  /** The wait after a command: a positive wait less the pre-delay, never negative; none otherwise. */
  lemma AfterCommandWait(env: Env, s: Plotter, c: DrawCommand, wait: real)
    requires !c.PenUpDown? || c.level.None?
    ensures AfterCommand(env, s, c, wait) == s.(trace := s.trace + WaitAfter(env, wait))
  {
  }

  /** What `draw` waits after a command whose wait is `wait`. */
  function WaitAfter(env: Env, wait: real): (r: seq<Event>)
    ensures wait <= 0.0 ==> r == []
    ensures wait > 0.0 ==> r == [Waited(Max(0.0, wait - env.opts.preDelay))]
  {
    if wait > 0.0 then [Waited(Max(0.0, wait - env.opts.preDelay))] else []
  }

  /** A `w` command: only the wait, less the pre-delay. */
  lemma StepWait(env: Env, s: Plotter, ms: real)
    requires env.Valid() && s.control.None?
    ensures Step(env, s, Wait(ms)).s == s.(trace := s.trace + WaitAfter(env, ms))
  {
    assert Dispatch(env, s, Wait(ms)) == Dispatched(s, ms, NoMetrics);
    AfterCommandWait(env, s, Wait(ms), ms);
    StepWithoutControl(env, s, Wait(ms));
  }

  /**
   * `d` with a level: the level is sent for this move only, and once the
   * move and its wait are done the stored down level is sent again; the
   * stored limits do not change.
   */
  lemma StepOneOffDown(env: Env, s: Plotter, delay: Option<real>, level: real)
    requires env.Valid() && s.control.None?
    ensures var d := EffectiveDelay(delay, env.opts.delayDown);
      var r := Step(env, s, PenUpDown(Down, delay, Some(level))).s;
      && r.isPenDown && r.penLimits == s.penLimits
      && r.trace == s.trace
           + [Sent(SC(PenDownChannel, ServoValue(level))), Sent(SP(0, d))]
           + WaitAfter(env, d)
           + [Sent(SC(PenDownChannel, ServoValue(s.penLimits.down)))]
  {
    var c := PenUpDown(Down, delay, Some(level));
    var o := PenDownSpec(env, s, delay, Some(level));
    var d := EffectiveDelay(delay, env.opts.delayDown);
    assert o.s == s.(isPenDown := true,
      trace := s.trace + [Sent(SC(PenDownChannel, ServoValue(level))), Sent(SP(0, d))]);
    assert Dispatch(env, s, c) == Dispatched(o.s, o.delay, OnePen);
    OneOffRestore(env, o.s, c, o.delay);
    StepWithoutControl(env, s, c);
  }

  /** `u` with a level: the same, on the up channel with the stored up level. */
  lemma StepOneOffUp(env: Env, s: Plotter, delay: Option<real>, level: real)
    requires env.Valid() && s.control.None?
    ensures var d := EffectiveDelay(delay, env.opts.delayUp);
      var r := Step(env, s, PenUpDown(Up, delay, Some(level))).s;
      && !r.isPenDown && r.penLimits == s.penLimits
      && r.trace == s.trace
           + [Sent(SC(PenUpChannel, ServoValue(level))), Sent(SP(1, d))]
           + WaitAfter(env, d)
           + [Sent(SC(PenUpChannel, ServoValue(s.penLimits.up)))]
  {
    var c := PenUpDown(Up, delay, Some(level));
    var o := PenUpSpec(env, s, delay, Some(level));
    var d := EffectiveDelay(delay, env.opts.delayUp);
    assert o.s == s.(isPenDown := false,
      trace := s.trace + [Sent(SC(PenUpChannel, ServoValue(level))), Sent(SP(1, d))]);
    assert Dispatch(env, s, c) == Dispatched(o.s, o.delay, OnePen);
    OneOffRestore(env, o.s, c, o.delay);
    StepWithoutControl(env, s, c);
  }

  /** After a `u`/`d` with a level, the wait and then the stored level of that channel. */
  lemma OneOffRestore(env: Env, s: Plotter, c: DrawCommand, wait: real)
    requires c.PenUpDown? && c.level.Some?
    ensures AfterCommand(env, s, c, wait) == s.(trace := s.trace + WaitAfter(env, wait)
      + [Sent(if c.dir == Down then SC(PenDownChannel, ServoValue(s.penLimits.down))
              else SC(PenUpChannel, ServoValue(s.penLimits.up)))])
  {
  }
}
