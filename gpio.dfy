/** Logic levels on the Raspberry Pi's general-purpose I/O pins, as the
    scripts read them with GPIO.input and write them with GPIO.output. */
module Gpio {

  /** GPIO.LOW and GPIO.HIGH. */
  datatype Level = Low | High

  /** The levels last written to the two inputs (IN1, IN2) that choose the
      direction of one L293D motor channel. */
  datatype Pins = Pins(in1: Level, in2: Level)

  /** Both direction inputs HIGH: the L293D brakes the motor instead of
      driving it one way or the other. */
  predicate BothHigh(p: Pins)
  {
    p.in1 == High && p.in2 == High
  }

  /** The state of the two direction inputs right after `GPIO.setup(..., GPIO.OUT)`.
      RPi.GPIO does not write a level when no `initial` is given; the model
      takes the power-on level, LOW. */
  const PowerOn: Pins := Pins(Low, Low)
}
