/** Raspberry/drive_DC_motors.py: the motor runs while the push button
    (wired to a pull-up input) is held down, polled every 100 ms; on exit
    the motor is switched off and the pins are released. */
module MotorButton {
  import opened Gpio

  /** The levels motor_on leaves on MOTOR_PIN1 and MOTOR_PIN2. */
  const OnPins: Pins := Pins(High, Low)
  /** The levels motor_off leaves. */
  const OffPins: Pins := Pins(Low, Low)

  /** The pin states right after each of the two GPIO.output calls of
      motor_on (`on`) or motor_off, starting from `from`: PIN1 is written
      first, then PIN2. */
  function MotorWrites(from: Pins, on: bool): seq<Pins>
  {
    var target := if on then OnPins else OffPins;
    [Pins(target.in1, from.in2), target]
  }

  /** The pin states one poll writes: the button reads LOW (pressed, since
      the input is pulled up) selects motor_on, any other reading motor_off. */
  function PollWrites(from: Pins, button: Level): (w: seq<Pins>)
    ensures |w| == 2
    ensures w[1] == (if button == Low then OnPins else OffPins)
  {
    MotorWrites(from, button == Low)
  }

  /** The pins after a poll depend only on the button sample just read,
      and not on anything earlier. */
  lemma PollIsMemoryless(a: Pins, b: Pins, button: Level)
    ensures PollWrites(a, button)[1] == PollWrites(b, button)[1]
    ensures PollWrites(a, button)[1].in1 == High <==> button == Low
  {
  }

  /** The pins after the polls of `samples`. */
  function PinsAfter(samples: seq<Level>): Pins
  {
    if samples == [] then PowerOn else PollWrites(PinsAfter(samples[..|samples| - 1]), samples[|samples| - 1])[1]
  }

  /** Every pin state the outputs pass through while `samples` are polled. */
  function PollTrace(samples: seq<Level>): seq<Pins>
  {
    if samples == [] then []
    else
      var prefix := samples[..|samples| - 1];
      PollTrace(prefix) + PollWrites(PinsAfter(prefix), samples[|samples| - 1])
  }

  /** PIN2 is LOW at every point: the motor is never run in reverse, and so
      the two inputs are never HIGH together. */
  lemma {:induction false} NeverReverse(samples: seq<Level>)
    ensures PinsAfter(samples).in2 == Low
    ensures forall i :: 0 <= i < |PollTrace(samples)| ==> PollTrace(samples)[i].in2 == Low
    ensures forall i :: 0 <= i < |PollTrace(samples)| ==> !BothHigh(PollTrace(samples)[i])
  {
    if samples != [] {
      var prefix := samples[..|samples| - 1];
      NeverReverse(prefix);
    }
  }

  /** After a non-empty run of polls the motor is on exactly when the last
      sample read LOW. */
  lemma LastSampleDecides(samples: seq<Level>)
    requires samples != []
    ensures PinsAfter(samples) == (if samples[|samples| - 1] == Low then OnPins else OffPins)
  {
  }

  /** The pin state the script touches. */
  class ButtonMotor {
    var pin1: Level
    var pin2: Level
    /** GPIO.cleanup() has run: RPi.GPIO no longer lets the script write
        the pins (or, with PWM, change the duty cycle). */
    var released: bool
    /** The pin levels right after every GPIO.output, in order. */
    ghost var trace: seq<Pins>

    /** GPIO.setup of the two motor pins (outputs) and the button (pulled-up input). */
    constructor ()
      ensures Pins(pin1, pin2) == PowerOn && !released && trace == []
    {
      pin1, pin2, released := PowerOn.in1, PowerOn.in2, false;
      trace := [];
    }

    /** GPIO.output(MOTOR_PIN1, level). */
    method Output1(level: Level)
      requires !released
      modifies this
      ensures pin1 == level && pin2 == old(pin2) && released == old(released)
      ensures trace == old(trace) + [Pins(pin1, pin2)]
    {
      pin1 := level;
      trace := trace + [Pins(pin1, pin2)];
    }

    /** GPIO.output(MOTOR_PIN2, level). */
    method Output2(level: Level)
      requires !released
      modifies this
      ensures pin2 == level && pin1 == old(pin1) && released == old(released)
      ensures trace == old(trace) + [Pins(pin1, pin2)]
    {
      pin2 := level;
      trace := trace + [Pins(pin1, pin2)];
    }

    /** motor_on(). */
    method MotorOn()
      requires !released
      modifies this
      ensures Pins(pin1, pin2) == OnPins && released == old(released)
      ensures trace == old(trace) + MotorWrites(Pins(old(pin1), old(pin2)), true)
    {
      Output1(High);
      Output2(Low);
    }

    /** motor_off(). */
    method MotorOff()
      requires !released
      modifies this
      ensures Pins(pin1, pin2) == OffPins && released == old(released)
      ensures trace == old(trace) + MotorWrites(Pins(old(pin1), old(pin2)), false)
    {
      Output1(Low);
      Output2(Low);
    }

    /** GPIO.cleanup(). */
    method Cleanup()
      modifies this
      ensures released && pin1 == old(pin1) && pin2 == old(pin2) && trace == old(trace)
    {
      released := true;
    }
  }

  /** The whole script: one poll per sample of `samples`, then Ctrl+C during
      the sleep; the `finally` block switches the motor off and only then
      releases the pins, leaving both LOW. */
  method RunScript(samples: seq<Level>) returns (m: ButtonMotor)
    ensures fresh(m)
    ensures m.trace == PollTrace(samples) + MotorWrites(PinsAfter(samples), false)
    ensures Pins(m.pin1, m.pin2) == OffPins && m.released
  {
    m := new ButtonMotor();
    for i := 0 to |samples|
      invariant m.trace == PollTrace(samples[..i]) && Pins(m.pin1, m.pin2) == PinsAfter(samples[..i])
      invariant !m.released
    {
      assert samples[..i + 1][..i] == samples[..i];
      if samples[i] == Low {                    // button pressed
        m.MotorOn();
      } else {
        m.MotorOff();
      }
    }
    assert samples[..|samples|] == samples;
    m.MotorOff();
    m.Cleanup();
  }
}
