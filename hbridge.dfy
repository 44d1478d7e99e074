/** What the two L293D direction scripts share: `set_motor_direction`,
    written identically in Raspberry/dc_motors/drive_dc_motors.py and
    Raspberry/dc_motors/drive_dc_motor_with_speed.py, and the
    forward, reverse, stop order in which their endless loops run. */
module HBridge {
  import opened Gpio

  /** The levels `set_motor_direction(forward)` leaves on IN1 and IN2. */
  function DirectionPins(forward: bool): (p: Pins)
    ensures p.in1 != p.in2                // exactly one input is HIGH
    ensures p.in1 == High <==> forward    // IN1 for forward, IN2 for reverse
  {
    if forward then Pins(High, Low) else Pins(Low, High)
  }

  /** The two settings are mirror images of each other. */
  lemma DirectionMirror()
    ensures DirectionPins(false) == Pins(DirectionPins(true).in2, DirectionPins(true).in1)
  {
  }

  /** The pin states right after each of the two `GPIO.output` calls of
      `set_motor_direction(forward)`, starting from `from`: IN1 is written
      first, then IN2. */
  function DirectionWrites(from: Pins, forward: bool): seq<Pins>
  {
    var target := DirectionPins(forward);
    [Pins(target.in1, from.in2), target]
  }

  /** Changing direction passes through "both HIGH" exactly when the motor
      is switched to forward while IN2 is still HIGH (IN1 goes up before
      IN2 comes down). */
  lemma DirectionWritesSafe(from: Pins, forward: bool)
    requires !BothHigh(from)
    ensures (forall k :: 0 <= k < 2 ==> !BothHigh(DirectionWrites(from, forward)[k]))
            <==> (!forward || from.in2 == Low)
  {
    var w := DirectionWrites(from, forward);
    if forward && from.in2 == High {
      assert BothHigh(w[0]);
    }
  }

  /** One step of the endless loop of either cycle script. */
  datatype Phase = Forward | Reverse | Stop

  /** The phase that comes after `p`. */
  function Next(p: Phase): Phase
  {
    match p
    case Forward => Reverse
    case Reverse => Stop
    case Stop => Forward
  }

  /** The phase the loop runs as its `k`-th step, counting from 0: each pass
      of `while True` runs forward, then reverse, then stop. */
  function PhaseAt(k: nat): Phase
  {
    if k % 3 == 0 then Forward else if k % 3 == 1 then Reverse else Stop
  }

  /** The phases repeat in the fixed order forward, reverse, stop. */
  lemma PhaseOrder(k: nat)
    ensures PhaseAt(k + 1) == Next(PhaseAt(k))
    ensures PhaseAt(k + 3) == PhaseAt(k)
  {
  }
}
