/** Raspberry/dc_motors/drive_dc_motor_with_speed.py: an L293D channel
    whose enable input EN1 carries a 1000 Hz PWM signal. The loop runs
    forward at `vitesse` percent, reverse at `vitesse` percent, then stops
    by setting the duty cycle to 0; on exit the PWM is stopped and the pins
    are released. */
module MotorWithSpeed {
  import opened Gpio
  import opened HBridge

  /** `vitesse`: the speed, as a duty-cycle percentage. */
  const Vitesse: int := 25

  /** The PWM on EN1: started with a duty cycle, or stopped. */
  datatype Pwm = Running(duty: int) | Stopped

  /** Direction inputs and PWM together. */
  datatype MotorState = MotorState(pins: Pins, pwm: Pwm)

  /** The motor is being driven: the PWM runs with a non-zero duty cycle. */
  predicate Driven(s: MotorState)
  {
    s.pwm.Running? && s.pwm.duty > 0
  }

  /** After setup: pins at their power-on level and `pwm.start(0)`. */
  const Initial: MotorState := MotorState(PowerOn, Running(0))

  /** The states right after each GPIO.output and each ChangeDutyCycle of
      phase `p`, starting from `from`. Forward and reverse set the direction,
      then the speed; stop only sets the duty cycle to 0. */
  function PhaseWrites(from: MotorState, p: Phase): (w: seq<MotorState>)
    ensures |w| == (if p == Stop then 1 else 3)
  {
    match p
    case Forward => DirectionSteps(from, true) + [MotorState(DirectionPins(true), Running(Vitesse))]
    case Reverse => DirectionSteps(from, false) + [MotorState(DirectionPins(false), Running(Vitesse))]
    case Stop => [from.(pwm := Running(0))]
  }

  /** The two states of `set_motor_direction(forward)`, the PWM untouched. */
  function DirectionSteps(from: MotorState, forward: bool): seq<MotorState>
  {
    var d := DirectionWrites(from.pins, forward);
    [MotorState(d[0], from.pwm), MotorState(d[1], from.pwm)]
  }

  /** The state after `k` phases have run. */
  function StateAfter(k: nat): MotorState
  {
    if k == 0 then Initial
    else match PhaseAt(k - 1)
      case Forward => MotorState(DirectionPins(true), Running(Vitesse))
      case Reverse => MotorState(DirectionPins(false), Running(Vitesse))
      case Stop => MotorState(DirectionPins(false), Running(0))
  }

  /** Every state the outputs pass through during the first `n` phases. */
  function SpeedTrace(n: nat): seq<MotorState>
  {
    if n == 0 then [] else SpeedTrace(n - 1) + PhaseWrites(StateAfter(n - 1), PhaseAt(n - 1))
  }

  /** One more phase appends its writes to the trace. */
  lemma TraceStep(k: nat)
    ensures SpeedTrace(k + 1) == SpeedTrace(k) + PhaseWrites(StateAfter(k), PhaseAt(k))
  {
  }

  /** A phase ends in the state it is meant to leave. */
  lemma PhaseWritesEnd(k: nat)
    ensures var w := PhaseWrites(StateAfter(k), PhaseAt(k));
            w[|w| - 1] == StateAfter(k + 1)
  {
    if PhaseAt(k) == Stop {
      assert k > 0 && PhaseAt(k - 1) == Reverse;
    }
  }

  /** Between phases: the PWM runs at duty 0 before the first phase and in
      the stop phase, at `vitesse` in forward and reverse; the duty cycle is
      within 0..100 and the direction inputs are never both HIGH. */
  lemma PhaseBoundary(k: nat)
    ensures var s := StateAfter(k);
      && s.pwm.Running? && 0 <= s.pwm.duty <= 100
      && !BothHigh(s.pins)
      && (k == 0 ==> s.pwm.duty == 0)
      && (k > 0 && PhaseAt(k - 1) == Forward ==> s.pins == Pins(High, Low) && s.pwm.duty == Vitesse)
      && (k > 0 && PhaseAt(k - 1) == Reverse ==> s.pins == Pins(Low, High) && s.pwm.duty == Vitesse)
      && (k > 0 && PhaseAt(k - 1) == Stop ==> s.pwm.duty == 0)
  {
  }

  /** The stop phase changes only the duty cycle: the direction inputs keep
      their reverse setting. */
  lemma StopKeepsDirection(k: nat)
    requires PhaseAt(k) == Stop
    ensures StateAfter(k + 1).pins == StateAfter(k).pins == DirectionPins(false)
    ensures StateAfter(k + 1).pwm == Running(0)
  {
    assert k > 0 && PhaseAt(k - 1) == Reverse;
  }

  /** At every point of the loop the duty cycle stays within 0..100, and the
      motor is never driven while both direction inputs are HIGH. */
  lemma {:induction false} SpeedTraceSafe(n: nat)
    ensures forall i :: 0 <= i < |SpeedTrace(n)| ==>
      SpeedTrace(n)[i].pwm.Running? && 0 <= SpeedTrace(n)[i].pwm.duty <= 100 &&
      (BothHigh(SpeedTrace(n)[i].pins) ==> !Driven(SpeedTrace(n)[i]))
  {
    if n > 0 {
      var k := n - 1;
      SpeedTraceSafe(k);
      var from := StateAfter(k);
      PhaseBoundary(k);
      if PhaseAt(k) == Forward && BothHigh(DirectionWrites(from.pins, true)[0]) {
        // IN1 goes HIGH while IN2 still holds its reverse level: this only
        // happens after a stop, when the duty cycle is 0.
        assert k > 0 && PhaseAt(k - 1) == Stop;
      }
      assert SpeedTrace(n) == SpeedTrace(k) + PhaseWrites(from, PhaseAt(k));
    }
  }

  /** Unlike the script without PWM, whose stop phase drives both inputs
      LOW, this one does pass through "both HIGH": the first write of the
      second forward phase raises IN1 while IN2 is still HIGH from reverse.
      The duty cycle is 0 at that moment. */
  lemma TransientBothHigh()
    ensures |SpeedTrace(4)| == 10
    ensures BothHigh(SpeedTrace(4)[7].pins) && SpeedTrace(4)[7].pwm == Running(0)
  {
    assert PhaseAt(3) == Forward;
    assert SpeedTrace(4) == SpeedTrace(3) + PhaseWrites(StateAfter(3), Forward);
    assert StateAfter(3) == MotorState(Pins(Low, High), Running(0));
  }

  /** The GPIO and PWM state the script touches. */
  class SpeedMotor {
    var in1: Level
    var in2: Level
    var pwm: Pwm
    /** GPIO.cleanup() has run: RPi.GPIO no longer lets the script write
        the pins (or, with PWM, change the duty cycle). */
    var released: bool
    /** The state right after every GPIO.output and PWM call, in order. */
    ghost var trace: seq<MotorState>

    /** Current motor state. */
    function State(): MotorState
      reads this
    {
      MotorState(Pins(in1, in2), pwm)
    }

    /** GPIO.setup of IN1, IN2, EN1, then `pwm = GPIO.PWM(EN1, 1000)` and `pwm.start(0)`. */
    constructor ()
      ensures State() == Initial && !released && trace == []
    {
      in1, in2 := PowerOn.in1, PowerOn.in2;
      pwm := Running(0);
      released := false;
      trace := [];
    }

    /** GPIO.output(IN1, level). */
    method Output1(level: Level)
      requires !released
      modifies this
      ensures State() == old(State()).(pins := Pins(level, old(in2))) && released == old(released)
      ensures trace == old(trace) + [State()]
    {
      in1 := level;
      trace := trace + [State()];
    }

    /** GPIO.output(IN2, level). */
    method Output2(level: Level)
      requires !released
      modifies this
      ensures State() == old(State()).(pins := Pins(old(in1), level)) && released == old(released)
      ensures trace == old(trace) + [State()]
    {
      in2 := level;
      trace := trace + [State()];
    }

    /** set_motor_direction(forward). */
    method SetMotorDirection(forward: bool)
      requires !released
      modifies this
      ensures State() == old(State()).(pins := DirectionPins(forward)) && released == old(released)
      ensures trace == old(trace) + DirectionSteps(old(State()), forward)
    {
      if forward {
        Output1(High);
        Output2(Low);
      } else {
        Output1(Low);
        Output2(High);
      }
    }

    /** set_motor_speed(duty_cycle), that is pwm.ChangeDutyCycle. RPi.GPIO
        refuses a duty cycle outside 0..100, and the script calls it only
        while the PWM is started. */
    method SetMotorSpeed(dutyCycle: int)
      requires !released && pwm.Running? && 0 <= dutyCycle <= 100
      modifies this
      ensures State() == old(State()).(pwm := Running(dutyCycle)) && released == old(released)
      ensures trace == old(trace) + [State()]
    {
      pwm := Running(dutyCycle);
      trace := trace + [State()];
    }

    /** pwm.stop(). */
    method StopPwm()
      requires !released
      modifies this
      ensures State() == old(State()).(pwm := Stopped) && released == old(released)
      ensures trace == old(trace) + [State()]
    {
      pwm := Stopped;
      trace := trace + [State()];
    }

    /** GPIO.cleanup(). */
    method Cleanup()
      modifies this
      ensures released && State() == old(State()) && trace == old(trace)
    {
      released := true;
    }
  }

  /** The forward block of the loop: `set_motor_direction(True)`, then
      `set_motor_speed(vitesse)`. */
  method ForwardPhase(m: SpeedMotor, ghost k: nat)
    requires PhaseAt(k) == Forward && m.trace == SpeedTrace(k) && m.State() == StateAfter(k) && !m.released
    modifies m
    ensures m.trace == SpeedTrace(k + 1) && m.State() == StateAfter(k + 1) && m.released == old(m.released)
  {
    TraceStep(k);
    m.SetMotorDirection(true);
    m.SetMotorSpeed(Vitesse);
  }

  /** The reverse block: `set_motor_direction(False)`, then `set_motor_speed(vitesse)`. */
  method ReversePhase(m: SpeedMotor, ghost k: nat)
    requires PhaseAt(k) == Reverse && m.trace == SpeedTrace(k) && m.State() == StateAfter(k) && !m.released
    modifies m
    ensures m.trace == SpeedTrace(k + 1) && m.State() == StateAfter(k + 1) && m.released == old(m.released)
  {
    TraceStep(k);
    PhaseBoundary(k);
    m.SetMotorDirection(false);
    m.SetMotorSpeed(Vitesse);
  }

  /** The stop block: `set_motor_speed(0)`. */
  method StopPhase(m: SpeedMotor, ghost k: nat)
    requires PhaseAt(k) == Stop && m.trace == SpeedTrace(k) && m.State() == StateAfter(k) && !m.released
    modifies m
    ensures m.trace == SpeedTrace(k + 1) && m.State() == StateAfter(k + 1) && m.released == old(m.released)
  {
    TraceStep(k);
    PhaseWritesEnd(k);
    PhaseBoundary(k);
    m.SetMotorSpeed(0);
  }

  /** The whole script, interrupted by Ctrl+C during the sleep that follows
      its `n`-th phase; the `finally` block stops the PWM, then releases the
      pins. */
  method RunScript(n: nat) returns (m: SpeedMotor)
    ensures fresh(m)
    ensures m.trace == SpeedTrace(n) + [StateAfter(n).(pwm := Stopped)]
    ensures m.State() == StateAfter(n).(pwm := Stopped) && m.released
  {
    m := new SpeedMotor();
    var k := 0;
    while k < n
      invariant k <= n
      invariant k < n ==> k % 3 == 0
      invariant m.trace == SpeedTrace(k) && m.State() == StateAfter(k) && !m.released
    {
      ForwardPhase(m, k);                       // then time.sleep(5)
      k := k + 1;
      if k < n {
        ReversePhase(m, k);                     // then time.sleep(5)
        k := k + 1;
        if k < n {
          StopPhase(m, k);                      // then time.sleep(2)
          k := k + 1;
        }
      }
    }
    m.StopPwm();
    m.Cleanup();
  }
}
