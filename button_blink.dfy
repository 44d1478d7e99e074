/** Raspberry/button_blinking_led.py: a push button (pull-up input, so LOW
    while pressed) polled every 200 ms switches a blinking LED on and off.
    A press is a HIGH-to-LOW change between two polls. The blinking itself
    runs in a worker thread, which this model does not contain: it keeps
    only the flag the thread watches and the LED level the main thread
    writes when blinking stops. */
module ButtonBlink {
  import opened Gpio

  /** Who sets the LED pin: nobody yet, the main thread (LOW), or the blink thread. */
  datatype Led = Undriven | DrivenLow | Blinking

  /** A poll that sees `sample` after `last` detects a press. */
  predicate IsPress(last: Level, sample: Level)
  {
    sample == Low && last == High
  }

  /** The sample seen last after polling `samples`, having started from `prev`. */
  function LastSample(prev: Level, samples: seq<Level>): Level
  {
    if samples == [] then prev else samples[|samples| - 1]
  }

  /** The number of presses (HIGH-to-LOW changes) in `samples` when the
      sample before them was `prev`. */
  function Presses(prev: Level, samples: seq<Level>): nat
  {
    if samples == [] then 0
    else
      var before := samples[..|samples| - 1];
      Presses(prev, before) + (if IsPress(LastSample(prev, before), samples[|samples| - 1]) then 1 else 0)
  }

  /** Holding the button down over consecutive polls is one press at most:
      exactly one when the button was up before, none otherwise. */
  lemma {:induction false} HeldLowIsOnePress(prev: Level, samples: seq<Level>)
    requires forall i :: 0 <= i < |samples| ==> samples[i] == Low
    ensures Presses(prev, samples) == if prev == High && samples != [] then 1 else 0
  {
    if samples != [] {
      var before := samples[..|samples| - 1];
      HeldLowIsOnePress(prev, before);
      assert before != [] ==> LastSample(prev, before) == Low;
    }
  }

  /** Two presses need a release between them: at most one press in every
      two polls, rounded up. */
  lemma {:induction false} PressesNeedRelease(prev: Level, samples: seq<Level>)
    ensures 2 * Presses(prev, samples)
            <= |samples| + (if prev == High then 1 else 0) - (if LastSample(prev, samples) == High then 1 else 0)
    ensures 2 * Presses(prev, samples) <= |samples| + 1
  {
    if samples != [] {
      PressesNeedRelease(prev, samples[..|samples| - 1]);
    }
  }

  /** The script's globals and the LED pin. */
  class Blinker {
    /** `clignotement_actif`. */
    var active: bool
    /** `derniere_etat_bouton`. */
    var last: Level
    var led: Led
    /** GPIO.cleanup() has run; the pins may no longer be written. */
    var released: bool

    /** The blink thread runs exactly while the flag is set. */
    predicate Valid()
      reads this
    {
      active <==> led == Blinking
    }

    /** GPIO.setup, then `clignotement_actif = False` and
        `derniere_etat_bouton = GPIO.HIGH`. */
    constructor ()
      ensures Valid() && !active && last == High && led == Undriven && !released
    {
      active, last, led, released := false, High, Undriven, false;
    }

    /** toggle_clignotement(): switching off clears the flag, waits for the
        thread and drives the LED LOW; switching on sets the flag and starts
        the thread. */
    method ToggleClignotement()
      requires Valid() && !released
      modifies this
      ensures Valid() && active == !old(active)
      ensures !active ==> led == DrivenLow
      ensures last == old(last) && released == old(released)
    {
      if active {
        active := false;
        led := DrivenLow;                       // after joining the thread
      } else {
        active := true;
        led := Blinking;
      }
    }

    /** One pass of the polling loop with button level `sample`. */
    method Poll(sample: Level) returns (toggled: bool)
      requires Valid() && !released
      modifies this
      ensures Valid()
      ensures toggled <==> IsPress(old(last), sample)
      ensures active == (old(active) != toggled)
      ensures !toggled ==> led == old(led)
      ensures toggled && !active ==> led == DrivenLow
      ensures last == sample && released == old(released)
    {
      toggled := sample == Low && last == High;
      if toggled {
        ToggleClignotement();
      }
      last := sample;
    }

    /** GPIO.cleanup(). */
    method Cleanup()
      modifies this
      ensures released && active == old(active) && last == old(last) && led == old(led)
    {
      released := true;
    }
  }

  /** The whole script: one poll per sample of `samples`, then Ctrl+C
      during a sleep and GPIO.cleanup(). Blinking is active exactly when the
      number of presses is odd, and the last state remembered is the last
      sample read. */
  method RunScript(samples: seq<Level>) returns (b: Blinker)
    ensures fresh(b) && b.Valid() && b.released
    ensures b.active <==> Presses(High, samples) % 2 == 1
    ensures b.last == LastSample(High, samples)
    ensures Presses(High, samples) > 0 && !b.active ==> b.led == DrivenLow
  {
    b := new Blinker();
    for i := 0 to |samples|
      invariant b.Valid() && !b.released
      invariant b.active <==> Presses(High, samples[..i]) % 2 == 1
      invariant b.last == LastSample(High, samples[..i])
      invariant Presses(High, samples[..i]) > 0 && !b.active ==> b.led == DrivenLow
    {
      assert samples[..i + 1][..i] == samples[..i];
      var _ := b.Poll(samples[i]);
    }
    assert samples[..|samples|] == samples;
    b.Cleanup();
  }

  /** A button already held down at the first poll counts as a press,
      because the remembered state starts HIGH. */
  lemma FirstPollPressed()
    ensures Presses(High, [Low]) == 1
  {
    assert [Low][..0] == [];
  }
}
