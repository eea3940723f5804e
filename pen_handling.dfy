/**
 * Pen vertical motion: the stored XYZ pen position, the travel time of a
 * pen lift or lowering, and the pen-height record that owns the timing.
 */
module PenHandling {
  import opened Api
  import opened JsNumber

  /** The stored XYZ pen position; `zUp` is unknown (`None`) until set. */
  class PenPosition {
    var xpos: real
    var ypos: real
    var zUp: Option<bool>

    constructor()
      ensures xpos == 0.0 && ypos == 0.0 && zUp == None
    {
      xpos, ypos, zUp := 0.0, 0.0, None;
    }

    /** Back to the origin with the vertical state unknown. */
    method Reset()
      modifies this
      ensures xpos == 0.0 && ypos == 0.0 && zUp == None
    {
      xpos, ypos, zUp := 0.0, 0.0, None;
    }

    /** Forget only the vertical state. */
    method ResetZ()
      modifies this
      ensures zUp == None
      ensures xpos == old(xpos) && ypos == old(ypos)
    {
      zUp := None;
    }
  }

  /** The servo constants of one servo variant. */
  datatype ServoParams = ServoParams(moveSlope: real, moveMin: real, sweepTime: real)

  /** The narrow-band servo uses its own set of constants. */
  function Variant(opts: Opts, narrowBand: bool): ServoParams {
    if narrowBand then ServoParams(opts.nbServoMoveSlope, opts.nbServoMoveMin, opts.nbServoSweepTime)
    else ServoParams(opts.servoMoveSlope, opts.servoMoveMin, opts.servoSweepTime)
  }

  function Pow4(x: real): real {
    x * x * x * x
  }

  /** Below this vertical distance the up and down positions count as equal. */
  const MinTravel: real := 0.9

  /**
   * The fourth-power blend of the transit time `slope * vDist + min` and the
   * sweep time `sweep * vDist / rate`. `root4` is the fourth root as the host
   * computes it in floating point.
   */
  function Blend(p: ServoParams, vDist: real, rate: real, root4: real -> real): real
    requires rate != 0.0
  {
    root4(Pow4(p.moveSlope * vDist + p.moveMin) + Pow4(p.sweepTime * vDist / rate))
  }

  /**
   * The travel time of one pen move over `vDist`: the truncated blend (zero
   * when the positions count as equal), plus the configured delay, never
   * negative.
   */
  function LiftTime(p: ServoParams, vDist: real, rate: real, delay: real, root4: real -> real): (t: real)
    requires vDist >= MinTravel ==> rate != 0.0
    ensures t >= 0.0
    ensures vDist < MinTravel ==> t == Max(0.0, delay)
  {
    var travel := if vDist < MinTravel then 0 else Trunc(Blend(p, vDist, rate, root4));
    Max(0.0, travel as real + delay)
  }

  /** The stored lift and lower times; unknown until the first update. */
  class PenLiftTiming {
    var raiseTime: Option<real>
    var lowerTime: Option<real>

    constructor()
      ensures raiseTime == None && lowerTime == None
    {
      raiseTime, lowerTime := None, None;
    }

    /**
     * Recompute both times from the options, the servo variant and the
     * pen-down position: the raise time uses the up rate and up delay, the
     * lower time the down rate and down delay.
     */
    method Update(opts: Opts, narrowBand: bool, penDownPos: real, root4: real -> real)
      requires Abs(opts.up - penDownPos) >= MinTravel ==> opts.upRate != 0.0 && opts.downRate != 0.0
      modifies this
      ensures raiseTime.Some? && raiseTime.value >= 0.0 && lowerTime.Some? && lowerTime.value >= 0.0
      ensures raiseTime == Some(LiftTime(Variant(opts, narrowBand), Abs(opts.up - penDownPos), opts.upRate, opts.delayUp, root4))
      ensures lowerTime == Some(LiftTime(Variant(opts, narrowBand), Abs(opts.up - penDownPos), opts.downRate, opts.delayDown, root4))
    {
      var vDist := Abs(opts.up - penDownPos);
      var servo := Variant(opts, narrowBand);
      var vTime: real;
      // raising time
      vTime := if vDist < MinTravel then 0.0 else Trunc(Blend(servo, vDist, opts.upRate, root4)) as real;
      vTime := vTime + opts.delayUp;
      vTime := Max(0.0, vTime);
      raiseTime := Some(vTime);
      // lowering time
      vTime := if vDist < MinTravel then 0.0 else Trunc(Blend(servo, vDist, opts.downRate, root4)) as real;
      vTime := vTime + opts.delayDown;
      vTime := Max(0.0, vTime);
      lowerTime := Some(vTime);
    }
  }

  /** The pen-down height settings and the timing kept up to date with them. */
  class PenHeight {
    var penPosDown: Option<real>
    var useTempPenHeight: bool
    var narrowBand: bool
    var times: PenLiftTiming

    constructor()
      ensures penPosDown == None && !useTempPenHeight && !narrowBand
      ensures fresh(times) && times.raiseTime == None && times.lowerTime == None
    {
      penPosDown := None;
      useTempPenHeight := false;
      narrowBand := false;
      times := new PenLiftTiming();
    }
  }

  // ---------------------------------------------------------------------
  // Properties

  /** A longer configured delay never shortens the time. */
  lemma LiftTimeMonotoneInDelay(p: ServoParams, vDist: real, rate: real, d1: real, d2: real, root4: real -> real)
    requires vDist >= MinTravel ==> rate != 0.0
    requires d1 <= d2
    ensures LiftTime(p, vDist, rate, d1, root4) <= LiftTime(p, vDist, rate, d2, root4)
  {
  }

  /**
   * Past the threshold, with a blend and a delay that are not negative, the
   * time is the truncated blend plus the delay.
   */
  lemma LiftTimeAboveThreshold(p: ServoParams, vDist: real, rate: real, delay: real, root4: real -> real)
    requires vDist >= MinTravel && rate != 0.0 && delay >= 0.0
    requires Blend(p, vDist, rate, root4) >= 0.0
    ensures LiftTime(p, vDist, rate, delay, root4) == Trunc(Blend(p, vDist, rate, root4)) as real + delay
  {
  }

  /** The raise time is independent of the down rate and down delay, and the lower time of the up ones. */
  lemma UpdateIndependence(o1: Opts, o2: Opts, narrowBand: bool, penDownPos: real, root4: real -> real)
    requires o1.up == o2.up && o1.upRate == o2.upRate && o1.delayUp == o2.delayUp
    requires o1.servoMoveSlope == o2.servoMoveSlope && o1.servoMoveMin == o2.servoMoveMin
    requires o1.servoSweepTime == o2.servoSweepTime
    requires o1.nbServoMoveSlope == o2.nbServoMoveSlope && o1.nbServoMoveMin == o2.nbServoMoveMin
    requires o1.nbServoSweepTime == o2.nbServoSweepTime
    requires Abs(o1.up - penDownPos) >= MinTravel ==> o1.upRate != 0.0
    ensures LiftTime(Variant(o1, narrowBand), Abs(o1.up - penDownPos), o1.upRate, o1.delayUp, root4)
         == LiftTime(Variant(o2, narrowBand), Abs(o2.up - penDownPos), o2.upRate, o2.delayUp, root4)
  {
  }

  /** The lower time is independent of the up rate and up delay. */
  lemma UpdateIndependenceLower(o1: Opts, o2: Opts, narrowBand: bool, penDownPos: real, root4: real -> real)
    requires o1.up == o2.up && o1.downRate == o2.downRate && o1.delayDown == o2.delayDown
    requires o1.servoMoveSlope == o2.servoMoveSlope && o1.servoMoveMin == o2.servoMoveMin
    requires o1.servoSweepTime == o2.servoSweepTime
    requires o1.nbServoMoveSlope == o2.nbServoMoveSlope && o1.nbServoMoveMin == o2.nbServoMoveMin
    requires o1.nbServoSweepTime == o2.nbServoSweepTime
    requires Abs(o1.up - penDownPos) >= MinTravel ==> o1.downRate != 0.0
    ensures LiftTime(Variant(o1, narrowBand), Abs(o1.up - penDownPos), o1.downRate, o1.delayDown, root4)
         == LiftTime(Variant(o2, narrowBand), Abs(o2.up - penDownPos), o2.downRate, o2.delayDown, root4)
  {
  }

  /** Equal up and down positions: both times reduce to the configured delays, floored at zero. */
  lemma EqualPositionsNoTravel(opts: Opts, narrowBand: bool, root4: real -> real)
    ensures LiftTime(Variant(opts, narrowBand), Abs(opts.up - opts.up), opts.upRate, opts.delayUp, root4)
         == Max(0.0, opts.delayUp)
    ensures LiftTime(Variant(opts, narrowBand), Abs(opts.up - opts.up), opts.downRate, opts.delayDown, root4)
         == Max(0.0, opts.delayDown)
  {
  }
}
