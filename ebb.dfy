/**
 * The EiBotBoard (EBB) serial commands the driver emits, as structured
 * values, and the events of a draw: a command written to the serial port,
 * or a wait of some milliseconds.
 */
module Ebb {
  import opened JsNumber

  datatype Cmd =
    /** `XM,<duration>,<dx>,<dy>`: stepper move, all fields already `| 0`. */
    | XM(duration: int, dx: int, dy: int)
    /** `SP,<value>,<delay>`: pen up (value 1) or down (value 0). */
    | SP(value: int, delay: real)
    /** `SC,<id>,<value>`: servo configuration. */
    | SC(id: int, value: int)
    /** `EM,<a>,<b>`: stepper motors enable. */
    | EM(a: int, b: int)
    /** `R`: reset. */
    | R

  datatype Event = Sent(cmd: Cmd) | Waited(ms: real)

  /** `SC` channel of the pen-up position. */
  const PenUpChannel: int := 4
  /** `SC` channel of the pen-down position. */
  const PenDownChannel: int := 5
  /** `SC` channel of the pen-lift rate control. */
  const RateChannel: int := 10
  const RateValue: int := 65535

  /** The servo position sent for a pen level of `x` percent: `(7500 + 175 * x) | 0`. */
  function ServoValue(x: real): (v: int)
    ensures 0.0 <= x <= 100.0 ==> 7500 <= v <= 25000 && v == Trunc(7500.0 + 175.0 * x)
  {
    ToInt32(7500.0 + 175.0 * x)
  }

  /** Over the percentage range a higher level never gives a lower servo value. */
  lemma ServoValueMonotone(a: real, b: real)
    requires 0.0 <= a <= b <= 100.0
    ensures ServoValue(a) <= ServoValue(b)
  {
    assert 7500.0 + 175.0 * a <= 7500.0 + 175.0 * b;
  }
}
