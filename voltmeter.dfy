/** Raspberry/voltmetre/simple_voltmeter.py: reads ADS1115 channel A1 at
    gain 4 (a +-1.024 V range), corrects the reading, and shows it centred
    on the OLED ten times a second until Ctrl+C, which blanks the screen.
    Its `read_voltage` is also, line for line, the one of
    Raspberry/THC/THC_Alpha_v0.0.py (lines 72-83); both use this one. */
module Voltmeter {
  import opened Oled

  /** `max_adc_value`: the largest code of the 16-bit converter. */
  const MaxAdc: int := 32767
  /** `max_voltage`: the full-scale input at gain 4, in volts. */
  const MaxVoltage: real := 1.024
  /** `correction_factor`. */
  const CorrectionFactor: real := 1.188679245283019

  /** The volts each ADC code stands for, after correction. */
  const VoltsPerCount: real := (MaxVoltage / MaxAdc as real) * CorrectionFactor

  /** `voltage = (value / max_adc_value) * max_voltage`, over the reals. */
  function RawVoltage(value: int): real
  {
    (value as real / MaxAdc as real) * MaxVoltage
  }

  /** read_voltage after the ADC read: the raw voltage times the correction
      factor. Code 0 reads 0 V, and the sign of the result is the sign of
      the code. */
  function ReadVoltage(value: int): (v: real)
    ensures value == 0 ==> v == 0.0
    ensures v > 0.0 <==> value > 0
    ensures v < 0.0 <==> value < 0
  {
    RawVoltage(value) * CorrectionFactor
  }

  /** The conversion is linear: each code is worth `VoltsPerCount` volts,
      and readings add up. */
  lemma VoltageIsLinear(a: int, b: int)
    ensures ReadVoltage(a) == a as real * VoltsPerCount
    ensures ReadVoltage(a + b) == ReadVoltage(a) + ReadVoltage(b)
  {
  }

  /** A larger code always reads a higher voltage. */
  lemma VoltageStrictlyIncreasing(a: int, b: int)
    requires a < b
    ensures ReadVoltage(a) < ReadVoltage(b)
  {
  }

  /** Over the converter's signed 16-bit codes -32768..32767 the reading
      stays within the corrected +-1.024 V range: the full-scale code reads
      the highest voltage, about 1.2172 V, and no code reads more than that
      in magnitude by more than one count. */
  lemma VoltageRange(value: int)
    requires -32768 <= value <= MaxAdc
    ensures 1.2172 < ReadVoltage(MaxAdc) < 1.2173
    ensures ReadVoltage(value) <= ReadVoltage(MaxAdc)
    ensures -ReadVoltage(MaxAdc) - VoltsPerCount <= ReadVoltage(value)
  {
    VoltageIsLinear(value, 0);
    VoltageIsLinear(MaxAdc, 0);
  }

  /** The one line display_voltage draws: its box is the text's bounding
      box, centred on both axes. */
  function VoltageLine(text: string, box: BBox): (it: Item)
    ensures it.text == text && it.w == box.right - box.left && it.h == box.bottom - box.top
    ensures it.x <= ScreenWidth - (it.x + it.w) <= it.x + 1
    ensures it.y <= ScreenHeight - (it.y + it.h) <= it.y + 1
    ensures 0 <= it.w <= ScreenWidth && 0 <= it.h <= ScreenHeight ==> OnScreen(it)
  {
    Item(text, Centre(ScreenWidth, box.Width()), Centre(ScreenHeight, box.Height()), box.Width(), box.Height())
  }

  /** The picture of one refresh. `format` stands for `f'{voltage:.2f} V'`
      and `measure` for `draw.textbbox` with the loaded font. */
  function Picture(voltage: real, format: real -> string, measure: string -> BBox): seq<Item>
  {
    [VoltageLine(format(voltage), measure(format(voltage)))]
  }

  /** display_voltage(voltage): clear the image, draw the centred text,
      then show the image. */
  method DisplayVoltage(d: Display, voltage: real, format: real -> string, measure: string -> BBox)
    requires d.Valid()
    modifies d
    ensures d.Valid() && d.shown == Picture(voltage, format, measure)
    ensures d.log == old(d.log) + Frame(Picture(voltage, format, measure))
  {
    d.Clear();
    var text := format(voltage);
    var bbox := measure(text);
    var line := Item(text, (ScreenWidth - bbox.Width()) / 2, (ScreenHeight - bbox.Height()) / 2,
                     bbox.Width(), bbox.Height());
    d.Text(line);
    d.Show();
  }

  /** The pictures of a run over the raw samples of channel A1, one per sample. */
  function Pictures(samples: seq<int>, format: real -> string, measure: string -> BBox): (ps: seq<seq<Item>>)
    ensures |ps| == |samples|
  {
    if samples == [] then []
    else Pictures(samples[..|samples| - 1], format, measure) + [Picture(ReadVoltage(samples[|samples| - 1]), format, measure)]
  }

  /** A run over one more sample sends one more refresh. */
  lemma RefreshesStep(samples: seq<int>, i: nat, format: real -> string, measure: string -> BBox)
    requires i < |samples|
    ensures Refreshes(Pictures(samples[..i + 1], format, measure))
         == Refreshes(Pictures(samples[..i], format, measure)) + Frame(Picture(ReadVoltage(samples[i]), format, measure))
  {
    assert samples[..i + 1][..i] == samples[..i];
  }

  /** main(): one refresh per sample read from channel A1, then Ctrl+C
      during a sleep, which fills the screen with 0 and shows it. */
  method RunMain(d: Display, samples: seq<int>, format: real -> string, measure: string -> BBox)
    requires d.Valid()
    modifies d
    ensures d.Valid() && d.shown == []
    ensures d.log == old(d.log) + Refreshes(Pictures(samples, format, measure)) + [ClearCanvas, ShowCanvas]
  {
    for i := 0 to |samples|
      invariant d.Valid()
      invariant d.log == old(d.log) + Refreshes(Pictures(samples[..i], format, measure))
    {
      var voltage := ReadVoltage(samples[i]);                    // channel A1
      DisplayVoltage(d, voltage, format, measure);
      RefreshesStep(samples, i, format, measure);
      AppendAssoc(old(d.log), Refreshes(Pictures(samples[..i], format, measure)), Frame(Picture(voltage, format, measure)));
    }
    assert samples[..|samples|] == samples;
    d.Clear();
    d.Show();
  }
}
