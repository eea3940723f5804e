/**
 * Types of the AxiDraw driver: drawing commands, the control state, the
 * metrics a draw returns and the driver options that the core reads.
 * All values; nothing here is executed by the plotter.
 */
module Api {

  datatype Option<+T> = None | Some(value: T) {
    /** The value if present, else `default` (JavaScript's `x !== undefined ? x : d`). */
    function GetOr(default: T): T {
      match this
      case Some(v) => v
      case None => default
    }
  }

  /** A 2D vector (world units or motor steps, depending on use). */
  datatype Vec2 = Vec2(x: real, y: real)

  const Origin: Vec2 := Vec2(0.0, 0.0)

  /** `["on"]` or `["off"]`. */
  datatype MotorSwitch = On | Off

  /** `"u"` (raise) or `"d"` (lower). */
  datatype PenDir = Up | Down

  /**
   * The closed union of drawing commands: one constructor per command
   * shape, each with its fixed arguments. An omitted optional argument is
   * `None` (JavaScript `undefined`).
   */
  datatype DrawCommand =
    | Comment(text: string)
    | Home
    | Motor(switch: MotorSwitch)
    | MoveRel(delta: Vec2, tempo: Option<real>)
    | MoveXY(p: Vec2, tempo: Option<real>)
    | PenConfig(down: Option<real>, up: Option<real>)
    | PenUpDown(dir: PenDir, delay: Option<real>, level: Option<real>)
    | Reset
    | Restore
    | Save
    | Start
    | Stop
    | Wait(ms: real)

  /** The three states of the external control. */
  datatype AxiDrawState = Continue | Pause | Cancel

  /**
   * Metrics returned by a draw: processed commands, pen up/down commands,
   * total travel and pen-down travel (user units). Wall-clock duration is
   * not part of this model.
   */
  datatype Metrics = Metrics(commands: int, penCommands: int, totalDist: real, drawDist: real) {
    /** Folds sub-metrics into these. */
    function Add(other: Metrics): (r: Metrics)
      ensures r.commands == commands + other.commands
      ensures r.penCommands == penCommands + other.penCommands
      ensures r.totalDist == totalDist + other.totalDist
      ensures r.drawDist == drawDist + other.drawDist
    {
      Metrics(commands + other.commands, penCommands + other.penCommands,
              totalDist + other.totalDist, drawDist + other.drawDist)
    }
  }

  const NoMetrics: Metrics := Metrics(0, 0, 0.0, 0.0)

  /**
   * Configured bounds: a rectangle `[[minX,minY],[maxX,maxY]]` in world
   * units, or a paper size already expressed in motor steps (the unit
   * conversion of the paper-size path is not part of this model); a paper
   * size is always based at [0,0].
   */
  datatype BoundsOpt = Rect(lo: Vec2, hi: Vec2) | Paper(size: Vec2)

  /** The driver options read by the core. */
  datatype Opts = Opts(
    refresh: real,
    bounds: Option<BoundsOpt>,
    home: Vec2,
    unitsPerInch: real,
    stepsPerInch: real,
    speedDown: real,
    speedUp: real,
    up: real,
    down: real,
    upRate: real,
    downRate: real,
    delayUp: real,
    delayDown: real,
    preDelay: real,
    start: seq<DrawCommand>,
    stop: seq<DrawCommand>,
    penlift: int,
    servoMax: real,
    servoMin: real,
    servoSweepTime: real,
    servoMoveMin: real,
    servoMoveSlope: real,
    nbServoMax: real,
    nbServoMin: real,
    nbServoSweepTime: real,
    nbServoMoveMin: real,
    nbServoMoveSlope: real)

  /** DIN A3 landscape (420 x 297 mm) at 2032 steps per inch. */
  const A3LandscapeSteps: Vec2 := Vec2(33600.0, 23760.0)

  /**
   * The default options. The start sequence is `[ON, PEN(), UP()]` and the
   * stop sequence `[UP(), HOME, OFF]`, read as the commands `on`, `pen`
   * without arguments, `u` without arguments, `home` and `off`.
   */
  function DefaultOpts(): (o: Opts)
    ensures o.unitsPerInch > 0.0 && o.stepsPerInch / o.unitsPerInch == 80.0
  {
    Opts(
      refresh := 1000.0,
      bounds := Some(Paper(A3LandscapeSteps)),
      home := Origin,
      unitsPerInch := 25.4,
      stepsPerInch := 2032.0,
      speedDown := 4000.0,
      speedUp := 4000.0,
      up := 60.0,
      down := 30.0,
      upRate := 75.0,
      downRate := 50.0,
      delayUp := 0.0,
      delayDown := 0.0,
      preDelay := 0.0,
      start := [Motor(On), PenConfig(None, None), PenUpDown(Up, None, None)],
      stop := [PenUpDown(Up, None, None), Home, Motor(Off)],
      penlift := 1,
      servoMax := 27831.0,
      servoMin := 9855.0,
      servoSweepTime := 200.0,
      servoMoveMin := 45.0,
      servoMoveSlope := 2.69,
      nbServoMax := 12600.0,
      nbServoMin := 5400.0,
      nbServoSweepTime := 70.0,
      nbServoMoveMin := 20.0,
      nbServoMoveSlope := 1.28)
  }
}
