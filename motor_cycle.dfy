/** Raspberry/dc_motors/drive_dc_motors.py: an L293D channel run forward,
    then in reverse, then stopped, over and over until Ctrl+C, after which
    the pins are released with GPIO.cleanup(). */
module MotorCycle {
  import opened Gpio
  import opened HBridge

  /** The pin states right after each `GPIO.output` of phase `p`, starting
      from `from`. The stop phase writes IN1 LOW, then IN2 LOW. */
  function PhaseWrites(from: Pins, p: Phase): seq<Pins>
  {
    match p
    case Forward => DirectionWrites(from, true)
    case Reverse => DirectionWrites(from, false)
    case Stop => [Pins(Low, from.in2), Pins(Low, Low)]
  }

  /** The levels a phase leaves on the two inputs. */
  function PhasePins(p: Phase): Pins
  {
    match p
    case Forward => DirectionPins(true)
    case Reverse => DirectionPins(false)
    case Stop => Pins(Low, Low)
  }

  /** In forward and in reverse exactly one input is HIGH, and the two are
      mirror images; the stop phase drives both LOW. */
  lemma PhasePinsShape()
    ensures PhasePins(Forward) == Pins(High, Low)
    ensures PhasePins(Reverse) == Pins(PhasePins(Forward).in2, PhasePins(Forward).in1)
    ensures PhasePins(Stop) == Pins(Low, Low)
  {
  }

  /** The pins after `k` phases have run. */
  function PinsAfter(k: nat): Pins
  {
    if k == 0 then PowerOn else PhasePins(PhaseAt(k - 1))
  }

  /** Every pin state the outputs pass through during the first `n` phases. */
  function CycleTrace(n: nat): seq<Pins>
  {
    if n == 0 then [] else CycleTrace(n - 1) + PhaseWrites(PinsAfter(n - 1), PhaseAt(n - 1))
  }

  /** A phase ends at the levels it is meant to leave. */
  lemma PhaseWritesEnd(k: nat)
    ensures var w := PhaseWrites(PinsAfter(k), PhaseAt(k));
            |w| == 2 && w[1] == PinsAfter(k + 1)
  {
  }

  /** Every forward phase starts with both inputs LOW: at power-on or right
      after a stop. */
  lemma ForwardStartsLow(k: nat)
    requires PhaseAt(k) == Forward
    ensures PinsAfter(k) == Pins(Low, Low)
  {
    if k > 0 {
      assert PhaseAt(k - 1) == Stop;
    }
  }

  /** The two inputs are never HIGH together at any point of the cycle, not
      even between the two writes of one phase. */
  lemma {:induction false} CycleNeverBothHigh(n: nat)
    ensures forall i :: 0 <= i < |CycleTrace(n)| ==> !BothHigh(CycleTrace(n)[i])
  {
    if n > 0 {
      CycleNeverBothHigh(n - 1);
      var k := n - 1;
      var from := PinsAfter(k);
      var w := PhaseWrites(from, PhaseAt(k));
      match PhaseAt(k)
      case Forward =>
        ForwardStartsLow(k);
        DirectionWritesSafe(from, true);
      case Reverse =>
        assert !BothHigh(from) by {
          if k > 0 { assert PhaseAt(k - 1) == Forward; }
        }
        DirectionWritesSafe(from, false);
      case Stop =>
      assert forall i :: 0 <= i < |w| ==> !BothHigh(w[i]);
      assert CycleTrace(n) == CycleTrace(k) + w;
    }
  }

  /** The GPIO state the script touches. */
  class Motor {
    var in1: Level
    var in2: Level
    /** GPIO.cleanup() has run: RPi.GPIO no longer lets the script write
        the pins (or, with PWM, change the duty cycle). */
    var released: bool
    /** The pin levels right after every GPIO.output, in order. */
    ghost var trace: seq<Pins>

    /** GPIO.setup of IN1 and IN2 as outputs. */
    constructor ()
      ensures Pins(in1, in2) == PowerOn && !released && trace == []
    {
      in1, in2, released := PowerOn.in1, PowerOn.in2, false;
      trace := [];
    }

    /** GPIO.output(IN1, level). */
    method Output1(level: Level)
      requires !released
      modifies this
      ensures in1 == level && in2 == old(in2) && released == old(released)
      ensures trace == old(trace) + [Pins(in1, in2)]
    {
      in1 := level;
      trace := trace + [Pins(in1, in2)];
    }

    /** GPIO.output(IN2, level). */
    method Output2(level: Level)
      requires !released
      modifies this
      ensures in2 == level && in1 == old(in1) && released == old(released)
      ensures trace == old(trace) + [Pins(in1, in2)]
    {
      in2 := level;
      trace := trace + [Pins(in1, in2)];
    }

    /** set_motor_direction(forward). */
    method SetMotorDirection(forward: bool)
      requires !released
      modifies this
      ensures Pins(in1, in2) == DirectionPins(forward) && released == old(released)
      ensures trace == old(trace) + DirectionWrites(Pins(old(in1), old(in2)), forward)
    {
      if forward {
        Output1(High);
        Output2(Low);
      } else {
        Output1(Low);
        Output2(High);
      }
    }

    /** GPIO.cleanup(): the pins are handed back; the last levels written stay. */
    method Cleanup()
      modifies this
      ensures released && in1 == old(in1) && in2 == old(in2) && trace == old(trace)
    {
      released := true;
    }
  }

  /** One more phase appends its writes to the trace. */
  lemma TraceStep(k: nat)
    ensures CycleTrace(k + 1) == CycleTrace(k) + PhaseWrites(PinsAfter(k), PhaseAt(k))
  {
  }

  /** The forward block of the loop: `set_motor_direction(True)`. */
  method ForwardPhase(m: Motor, ghost k: nat)
    requires PhaseAt(k) == Forward && m.trace == CycleTrace(k) && Pins(m.in1, m.in2) == PinsAfter(k) && !m.released
    modifies m
    ensures m.trace == CycleTrace(k + 1) && Pins(m.in1, m.in2) == PinsAfter(k + 1) && m.released == old(m.released)
  {
    TraceStep(k);
    m.SetMotorDirection(true);
  }

  /** The reverse block: `set_motor_direction(False)`. */
  method ReversePhase(m: Motor, ghost k: nat)
    requires PhaseAt(k) == Reverse && m.trace == CycleTrace(k) && Pins(m.in1, m.in2) == PinsAfter(k) && !m.released
    modifies m
    ensures m.trace == CycleTrace(k + 1) && Pins(m.in1, m.in2) == PinsAfter(k + 1) && m.released == old(m.released)
  {
    TraceStep(k);
    m.SetMotorDirection(false);
  }

  /** The stop block: IN1 LOW, then IN2 LOW. */
  method StopPhase(m: Motor, ghost k: nat)
    requires PhaseAt(k) == Stop && m.trace == CycleTrace(k) && Pins(m.in1, m.in2) == PinsAfter(k) && !m.released
    modifies m
    ensures m.trace == CycleTrace(k + 1) && Pins(m.in1, m.in2) == PinsAfter(k + 1) && m.released == old(m.released)
  {
    TraceStep(k);
    m.Output1(Low);
    m.Output2(Low);
  }

  /** The whole script, interrupted by Ctrl+C during the sleep that follows
      its `n`-th phase. */
  method RunScript(n: nat) returns (m: Motor)
    ensures fresh(m)
    ensures m.trace == CycleTrace(n)
    ensures Pins(m.in1, m.in2) == PinsAfter(n)
    ensures m.released
  {
    m := new Motor();
    var k := 0;
    while k < n
      invariant k <= n
      invariant k < n ==> k % 3 == 0
      invariant m.trace == CycleTrace(k) && Pins(m.in1, m.in2) == PinsAfter(k) && !m.released
    {
      ForwardPhase(m, k);                       // then time.sleep(5)
      k := k + 1;
      if k < n {
        ReversePhase(m, k);                     // then time.sleep(5)
        k := k + 1;
        if k < n {
          StopPhase(m, k);                      // then time.sleep(2)
          k := k + 1;
        }
      }
    }
    m.Cleanup();
  }
}
