# Sobschack/IoT hobby scripts, modelled in Dafny

The repository is a set of small Python scripts for a Raspberry Pi and an ESP32. This project models the parts of them that make decisions, and proves what those parts promise.

- **OpenTHC Alpha torch-height gauge** (`Raspberry/THC/THC_Alpha_v0.0.py`). A potentiometer on ADS1115 channel A2 sets a plate thickness of 1 to 14 mm. That thickness becomes a target on a 0 to 1.22 scale. The target is compared, with a ±0.05 tolerance, against the corrected voltage of channel A3. Four centred lines (title, thickness, advice, voltage) are stacked on a 128x64 SSD1306 OLED.
- **Simple voltmeter** (`Raspberry/voltmetre/simple_voltmeter.py`). Channel A1 is read, corrected, and shown centred on both axes of the OLED. Its `read_voltage` is the same computation as the gauge's (lines 72-83 of the THC script). It is modelled once, as `Voltmeter.ReadVoltage`, and the gauge uses it.
- **"Hello World" on the ESP32** (`ESP32/MicroPython/main.py`). Two words in the built-in 8x8 font. Each is centred horizontally, and the two lines are 5 pixels apart.
- **Button-toggled blinking LED** (`Raspberry/button_blinking_led.py`). A pulled-up push button is polled every 200 ms. Each HIGH-to-LOW change flips the "blinking active" flag.
- **Three L293D motor scripts**:
  - `Raspberry/dc_motors/drive_dc_motors.py`: a forward, reverse, stop cycle.
  - `Raspberry/dc_motors/drive_dc_motor_with_speed.py`: the same cycle with a PWM duty cycle on the enable pin.
  - `Raspberry/drive_DC_motors.py`: the motor runs while a button is held.

How the scripts are modelled:

- In every script except the ESP32 one, the global hardware state is a class: the pins, the PWM, the display driver and the PIL image. Each class has the methods the script calls on that state. A ghost field records every state the outputs pass through: every `GPIO.output` and every duty-cycle change for the motors, and every command sent for the screen. Pure functions of the inputs specify those recorded traces (`CycleTrace`, `SpeedTrace`, `PollTrace`, `Refreshes`). The safety properties are proved about those functions.
- The screen is seen through the commands the scripts send it: clear the picture, draw a text box, show the picture. `Oled.Run` replays a command log, and `Display.Valid()` ties the driver's state to the replay of its log.
- An endless `while True` loop ended by Ctrl+C is modelled as a loop over a finite input: the number of phases, or the sequence of button or ADC samples. The loop is followed by the script's exit code (`except` / `finally`).
- Once `GPIO.cleanup()` has run, none of the pin-write, duty-cycle or PWM-stop methods may be called. Each requires that the pins are not yet released, so any exit sequence that releases the pins before its last write does not verify.
- The ESP32 script has no loop and no state beyond its screen. It is modelled as a pure function: the list of commands it sends, replayed by `Oled.Run`.

Module layout:

- `gpio.dfy`: levels and the pair of motor direction pins.
- `hbridge.dfy`: `set_motor_direction`, which two scripts share, and the phase cycle.
- `motor_cycle.dfy`, `motor_speed.dfy` and `motor_button.dfy`: the three motor scripts.
- `button_blink.dfy`: the button-toggled LED.
- `oled.dfy`: bounding boxes, centring, the command log and the `Display` class.
- `voltmeter.dfy` and `thc.dfy`: the two ADC scripts.
- `hello_world.dfy`: the ESP32 script.

External inputs are parameters:

- ADC samples are integers.
- Button readings are `Level`s.
- `draw.textbbox` with the loaded font is a function `measure: string -> BBox`.
- `f'{voltage:.2f} V'` is a function `format: real -> string`.

## Model

| member | source | states |
|---|---|---|
| HBridge.DirectionPins | Raspberry/dc_motors/drive_dc_motors.py:12-18 | exactly one direction input is HIGH, and IN1 is HIGH exactly when `forward` |
| HBridge.DirectionMirror | Raspberry/dc_motors/drive_dc_motor_with_speed.py:24-30 | the reverse setting is the forward setting with IN1 and IN2 swapped |
| HBridge.DirectionWritesSafe | Raspberry/dc_motors/drive_dc_motor_with_speed.py:24-30 | from a state that is not both-HIGH, neither write of `set_motor_direction` gives both HIGH, if and only if the call is not a switch to forward while IN2 is still HIGH |
| HBridge.PhaseOrder | Raspberry/dc_motors/drive_dc_motors.py:21-33 | the phases follow forward → reverse → stop, repeating with period 3 |
| MotorCycle.PhasePinsShape | Raspberry/dc_motors/drive_dc_motors.py:12-32 | forward is (HIGH, LOW); reverse is its mirror image; stop drives both inputs LOW |
| MotorCycle.ForwardStartsLow | Raspberry/dc_motors/drive_dc_motors.py:21-33 | every forward phase starts with both inputs LOW, at power-on or after a stop |
| MotorCycle.CycleNeverBothHigh | Raspberry/dc_motors/drive_dc_motors.py:12-33 | at no pin state of any number of phases, including between the two writes of a phase, are both inputs HIGH |
| MotorCycle.Motor.constructor | Raspberry/dc_motors/drive_dc_motors.py:9-10 | both inputs at the power-on level LOW, not released, nothing written yet |
| MotorCycle.Motor.SetMotorDirection | Raspberry/dc_motors/drive_dc_motors.py:12-18 | leaves the direction's levels; records IN1's write, then IN2's |
| MotorCycle.ForwardPhase | Raspberry/dc_motors/drive_dc_motors.py:22-24 | `set_motor_direction(True)`: extends the trace by one forward phase and ends at the forward levels |
| MotorCycle.ReversePhase | Raspberry/dc_motors/drive_dc_motors.py:26-28 | `set_motor_direction(False)`: extends the trace by one reverse phase and ends at the reverse levels |
| MotorCycle.StopPhase | Raspberry/dc_motors/drive_dc_motors.py:30-33 | IN1 LOW, then IN2 LOW; extends the trace by one stop phase |
| MotorCycle.Motor.Cleanup | Raspberry/dc_motors/drive_dc_motors.py:38 | releases the pins, keeping the last levels written and the trace |
| MotorCycle.RunScript | Raspberry/dc_motors/drive_dc_motors.py:20-38 | after `n` phases and the exit: every pin state written is the cycle's trace, the pins hold the last phase's levels, and the GPIO is released |
| MotorWithSpeed.PhaseBoundary | Raspberry/dc_motors/drive_dc_motor_with_speed.py:10-46 | between phases the PWM runs at a duty in 0..100: 0 at start and after stop, 25 after forward (IN1 HIGH) and after reverse (IN2 HIGH); never both HIGH |
| MotorWithSpeed.StopKeepsDirection | Raspberry/dc_motors/drive_dc_motor_with_speed.py:40-45 | the stop phase sets only the duty cycle to 0; the direction inputs keep their reverse setting |
| MotorWithSpeed.SpeedTraceSafe | Raspberry/dc_motors/drive_dc_motor_with_speed.py:24-46 | at every state of any number of phases, the duty cycle is within 0..100, and whenever both inputs are HIGH the motor is not driven (duty 0) |
| MotorWithSpeed.TransientBothHigh | Raspberry/dc_motors/drive_dc_motor_with_speed.py:24-46 | the second forward phase does pass through (HIGH, HIGH), with duty 0 |
| MotorWithSpeed.SpeedMotor.constructor | Raspberry/dc_motors/drive_dc_motor_with_speed.py:12-19 | pins at power-on level and the PWM started at duty 0 |
| MotorWithSpeed.SpeedMotor.SetMotorSpeed | Raspberry/dc_motors/drive_dc_motor_with_speed.py:21-22 | changes the duty cycle and nothing else |
| MotorWithSpeed.SpeedMotor.SetMotorDirection | Raspberry/dc_motors/drive_dc_motor_with_speed.py:24-30 | sets the direction's levels and leaves the PWM alone |
| MotorWithSpeed.SpeedMotor.StopPwm | Raspberry/dc_motors/drive_dc_motor_with_speed.py:51 | stops the PWM, keeps the pins, records the stopped state; only allowed before release |
| MotorWithSpeed.SpeedMotor.Cleanup | Raspberry/dc_motors/drive_dc_motor_with_speed.py:52 | releases the pins, keeping the state and the trace |
| MotorWithSpeed.ForwardPhase | Raspberry/dc_motors/drive_dc_motor_with_speed.py:34-37 | `set_motor_direction(True)`, then `set_motor_speed(vitesse)`: extends the trace by one forward phase and ends at (HIGH, LOW) with duty 25 |
| MotorWithSpeed.ReversePhase | Raspberry/dc_motors/drive_dc_motor_with_speed.py:39-42 | `set_motor_direction(False)`, then `set_motor_speed(vitesse)`: extends the trace by one reverse phase and ends at (LOW, HIGH) with duty 25 |
| MotorWithSpeed.StopPhase | Raspberry/dc_motors/drive_dc_motor_with_speed.py:44-46 | `set_motor_speed(0)`: extends the trace by one stop phase, ending at duty 0 with the pins kept |
| MotorWithSpeed.RunScript | Raspberry/dc_motors/drive_dc_motor_with_speed.py:32-52 | after `n` phases, the trace is the speed cycle's trace followed by the stopped PWM, and the pins are released; since `StopPwm` requires unreleased pins, `pwm.stop()` comes before `GPIO.cleanup()` |
| MotorButton.PollWrites | Raspberry/drive_DC_motors.py:28-31 | a LOW reading ends in (HIGH, LOW), any other in (LOW, LOW) |
| MotorButton.PollIsMemoryless | Raspberry/drive_DC_motors.py:28-31 | the pins after a poll depend only on that poll's reading; PIN1 is HIGH exactly when the button reads LOW |
| MotorButton.NeverReverse | Raspberry/drive_DC_motors.py:18-24 | PIN2 is LOW at every state of any run, so the motor never reverses and the pins are never both HIGH |
| MotorButton.LastSampleDecides | Raspberry/drive_DC_motors.py:26-32 | after a non-empty run the motor is on exactly when the last sample read LOW |
| MotorButton.ButtonMotor.constructor | Raspberry/drive_DC_motors.py:14-16 | both motor pins at the power-on level LOW, not released, nothing written yet |
| MotorButton.ButtonMotor.MotorOn | Raspberry/drive_DC_motors.py:18-20 | PIN1 HIGH, then PIN2 LOW |
| MotorButton.ButtonMotor.MotorOff | Raspberry/drive_DC_motors.py:22-24 | PIN1 LOW, then PIN2 LOW |
| MotorButton.ButtonMotor.Cleanup | Raspberry/drive_DC_motors.py:39 | releases the pins, keeping the last levels written and the trace |
| MotorButton.RunScript | Raspberry/drive_DC_motors.py:26-39 | the trace is the polls' trace followed by `motor_off`'s two writes, and on exit both pins are LOW and released; since the writes require unreleased pins, `motor_off()` comes before `GPIO.cleanup()` |
| ButtonBlink.HeldLowIsOnePress | Raspberry/button_blinking_led.py:41-45 | holding the button LOW over consecutive polls is exactly one press if it was up before, none otherwise |
| ButtonBlink.PressesNeedRelease | Raspberry/button_blinking_led.py:41-45 | two presses need a release in between: twice the presses is at most the polls plus one |
| ButtonBlink.FirstPollPressed | Raspberry/button_blinking_led.py:37-45 | a button already held at the first poll counts as a press, because the remembered state starts HIGH |
| ButtonBlink.Blinker.constructor | Raspberry/button_blinking_led.py:13-16 | blinking inactive, last state HIGH |
| ButtonBlink.Blinker.ToggleClignotement | Raspberry/button_blinking_led.py:25-35 | flips the flag; switching off leaves the LED driven LOW; the thread runs exactly while the flag is set |
| ButtonBlink.Blinker.Poll | Raspberry/button_blinking_led.py:39-46 | toggles if and only if the sample is LOW and the last one was HIGH; then remembers the sample |
| ButtonBlink.Blinker.Cleanup | Raspberry/button_blinking_led.py:48-49 | releases the pins, keeping the flag, the last state and the LED |
| ButtonBlink.RunScript | Raspberry/button_blinking_led.py:37-49 | after a run, blinking is active exactly when the number of presses is odd; the last state is the last sample; once switched off, the LED is LOW |
| Oled.Centre | Raspberry/voltmetre/simple_voltmeter.py:60-61 | `(extent - size) // 2`: the two margins differ by at most one pixel; a box that fits lies within the extent |
| Oled.FrameReplacesScreen | Raspberry/voltmetre/simple_voltmeter.py:50-66 | clearing, drawing, then showing leaves exactly the drawn items on the glass, whatever was shown before |
| Oled.RefreshesShowLast | Raspberry/voltmetre/simple_voltmeter.py:72-77 | after one or more refreshes the glass shows the last picture only |
| Oled.Display.constructor | Raspberry/voltmetre/simple_voltmeter.py:12-16 | a blank image and a blank screen, with an empty command log |
| Oled.Display.Clear | Raspberry/voltmetre/simple_voltmeter.py:50 | empties the picture, keeps the glass, logs the command |
| Oled.Display.Text | Raspberry/voltmetre/simple_voltmeter.py:62 | adds one item to the picture, keeps the glass, logs the command |
| Oled.Display.Show | Raspberry/voltmetre/simple_voltmeter.py:65-66 | puts the picture on the glass, logs the command |
| Voltmeter.ReadVoltage | Raspberry/voltmetre/simple_voltmeter.py:34-45 | code 0 reads 0 V; the voltage is positive or negative exactly when the code is |
| Voltmeter.VoltageIsLinear | Raspberry/voltmetre/simple_voltmeter.py:39-44 | each code is worth (1.024 / 32767) · 1.188679245283019 V, and readings add up |
| Voltmeter.VoltageStrictlyIncreasing | Raspberry/voltmetre/simple_voltmeter.py:41-44 | a larger code reads a strictly higher voltage |
| Voltmeter.VoltageRange | Raspberry/voltmetre/simple_voltmeter.py:39-44 | over the signed 16-bit codes the reading stays within the corrected ±1.024 V range: code 32767 reads the most, between 1.2172 and 1.2173 V, and code −32768 reads at most one count below its negation |
| Voltmeter.VoltageLine | Raspberry/voltmetre/simple_voltmeter.py:53-62 | the box is the bbox's right−left by bottom−top; it is centred on both axes; it lies on screen when it is at most 128x64 |
| Voltmeter.DisplayVoltage | Raspberry/voltmetre/simple_voltmeter.py:48-66 | clears, draws the centred voltage line, then shows it: one refresh, and the glass shows that line |
| Voltmeter.RunMain | Raspberry/voltmetre/simple_voltmeter.py:69-88 | one refresh per sample read, then the exit clears the screen and shows it blank |
| Thc.Thickness | Raspberry/THC/THC_Alpha_v0.0.py:86-97 | for every code, the result is the real formula of line 96 truncated toward zero, as Python's `int()` does |
| Thc.ThicknessRange | Raspberry/THC/THC_Alpha_v0.0.py:91-96 | codes 0..32767 give 1..14 mm; 0 gives 1 and 32767 gives 14 |
| Thc.ThicknessBelowGround | Raspberry/THC/THC_Alpha_v0.0.py:95-96 | a negative code gives 0 down to −12 mm, below the intended 1 mm minimum |
| Thc.ThicknessMonotone | Raspberry/THC/THC_Alpha_v0.0.py:96 | a larger code never gives a smaller thickness |
| Thc.Scale | Raspberry/THC/THC_Alpha_v0.0.py:100-106 | 1 mm maps to 0, 14 mm maps to 1.22, and 1..14 maps into 0..1.22 |
| Thc.ScaleStrictlyIncreasing | Raspberry/THC/THC_Alpha_v0.0.py:105 | strictly increasing, by 1.22/13 per millimetre |
| Thc.Compare | Raspberry/THC/THC_Alpha_v0.0.py:133-141 | "Up" iff scale > voltage + 0.05; "Down" iff scale < voltage − 0.05; "Level ok" iff the scale is within 0.05 of the voltage |
| Thc.ComparisonText | Raspberry/THC/THC_Alpha_v0.0.py:136-141 | `comparison_text` is "Up" exactly when the scale exceeds voltage + 0.05, "Down" exactly when it is below voltage − 0.05, and "Level ok" exactly when it is within 0.05 |
| Thc.EndsOfTravelLevelOk | Raspberry/THC/THC_Alpha_v0.0.py:91-141 | code 0 (1 mm, scale 0) against 0 V, and code 32767 (14 mm, scale 1.22) against the full-scale voltage, both give "Level ok" |
| Thc.CompareAntitoneInVoltage | Raspberry/THC/THC_Alpha_v0.0.py:136-141 | as the voltage rises for a fixed setting, the advice only goes from Up towards Down |
| Thc.IntTextRoundTrip | Raspberry/THC/THC_Alpha_v0.0.py:124 | the printed thickness reads back as the thickness |
| Thc.ThicknessTextRoundTrip | Raspberry/THC/THC_Alpha_v0.0.py:124 | `f'Thick : {thickness_mm} mm'` is the fixed prefix and suffix around the number, and the number reads back as the thickness |
| Thc.Lines | Raspberry/THC/THC_Alpha_v0.0.py:111-159 | one refresh draws exactly four lines; their texts and positions are stated by `Thc.LinesLayout` |
| Thc.LinesLayout | Raspberry/THC/THC_Alpha_v0.0.py:109-159 | the four lines are title, thickness, advice and voltage; each is its bbox, centred horizontally with margins within one pixel; the title is at y = 0 and each later line starts 4 pixels below the one above |
| Thc.LinesDescend | Raspberry/THC/THC_Alpha_v0.0.py:120-158 | with non-negative heights the lines go strictly down the screen and do not overlap |
| Thc.LinesOnScreen | Raspberry/THC/THC_Alpha_v0.0.py:119-159 | lines no wider than 128, whose heights and gaps total at most 64, all lie on the screen |
| Thc.DisplayVoltageAndThickness | Raspberry/THC/THC_Alpha_v0.0.py:109-163 | clears, draws the four lines in order, then shows the picture: one refresh, and the glass shows the four lines |
| Thc.Pass | Raspberry/THC/THC_Alpha_v0.0.py:169-177 | reads A3 as a voltage and A2 as a thickness, then refreshes with that reading's picture |
| Thc.RunMain | Raspberry/THC/THC_Alpha_v0.0.py:166-188 | one refresh per reading, then the exit clears the screen and shows it blank |
| HelloWorld.Layout | ESP32/MicroPython/main.py:23-32 | one item per word; its positions are stated by `HelloWorld.LayoutShape` |
| HelloWorld.LayoutShape | ESP32/MicroPython/main.py:23-32 | widths are 8 per character and heights 8; both lines are centred within one pixel; the second line is at height // 2, 5 pixels below the first |
| HelloWorld.LayoutFits | ESP32/MicroPython/main.py:23-32 | texts at most 128 pixels wide fit on any screen 26 to 64 pixels tall |
| HelloWorld.HelloWorldPositions | ESP32/MicroPython/main.py:15-32 | "Hello" and "World" are 40 pixels wide at x = 44; y is 19 and 32; both lie on the 128x64 screen |
| HelloWorld.Program | ESP32/MicroPython/main.py:12-41 | four commands: the screen is cleared first, then "Hello" and "World" are drawn in that order, then the screen is shown |
| HelloWorld.ProgramShowsBothLines | ESP32/MicroPython/main.py:12-41 | the script is one refresh (clear, both texts, show), so whatever was on the screen, it leaves exactly the two lines showing |

## Left out

- Hardware drivers are not modelled: the I2C bus, the ADS1115, the SSD1306, RPi.GPIO and `machine`. ADC reads and button reads are inputs, and pin writes and screen operations are state updates recorded in a log.
- Font loading and `draw.textbbox` are left out because they are foreign library calls. Their result is the parameter `measure`. The model places each text's box at the position given to `draw.text`. It ignores the bbox's left and top offset of the glyphs.
- Float formatting (`f'{voltage:.2f} V'`) is the parameter `format`. The `font_size * 1.3` computation is not modelled.
- Voltmeter.ReadVoltage: idealised over `real`; IEEE double rounding of the voltage is not modelled.
- Thc.Scale: idealised over `real`; IEEE rounding is not modelled.
- Thc.Compare: idealised over `real`; IEEE rounding of the tolerance comparison is not modelled. A float value that lands exactly on `voltage ± 0.05` may fall on the other side.
- Thickness is exact, not idealised: the quotient passed to `int()` is a whole number only at three codes, so float rounding cannot change the result.
- Timing is left out because it is wall-clock and float arithmetic: every `time.sleep`, and the 10 Hz pacing with float modulo.
- Ctrl+C is modelled only while the script sleeps, so an interrupt always falls between whole phases or polls. The `print` calls are left out.
- The `led_blink` thread, its start and its `join` are not modelled, because their point is concurrency. The model keeps the flag the thread watches, and the fact that the LED is driven LOW once blinking stops. A pin toggled by a thread that is still running after `GPIO.cleanup()` is not modelled.
- The power-on level of an output pin set up without an `initial` value is taken to be LOW (`Gpio.PowerOn`).
- The PIL image and the SSD1306 driver's buffer are one canvas in the model. So the exit's `oled.fill(0)` followed by `oled.show()` is modelled as clearing that canvas and showing it, which blanks the glass. This is what the hardware shows.
- MotorWithSpeed.SpeedMotor.SetMotorSpeed: requires a duty within 0..100 and a started PWM. RPi.GPIO raises an error otherwise, and that error path is not modelled. The script only calls it with 25 or 0 while the PWM runs.
- `Raspberry/simple_blinking_led.py` is not part of this model. It is an unconditional HIGH/LOW toggle with sleeps and has no decisions to model.
