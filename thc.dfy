/** Raspberry/THC/THC_Alpha_v0.0.py: a torch-height-control gauge. A
    potentiometer on ADS1115 channel A2 sets a thickness of 1 to 14 mm;
    the thickness is turned into a target on a 0 to 1.22 scale and compared
    with the corrected voltage of channel A3; four centred lines (title,
    thickness, advice, voltage) are stacked on the OLED ten times a second
    until Ctrl+C, which blanks the screen. */
module Thc {
  import opened Oled
  import Voltmeter

  const MinAdc: int := 0
  const MinMm: int := 1
  const MaxMm: int := 14
  const MinScale: real := 0.0
  const MaxScale: real := 1.22
  /** `tolerance`. */
  const Tolerance: real := 0.05

  // ---------------------------------------------------------------------
  // read_potentiometer, after the ADC read

  /** The thickness as the real number line 96 computes before `int()`. */
  ghost function ThicknessReal(value: int): real
  {
    ((value - MinAdc) as real / (Voltmeter.MaxAdc - MinAdc) as real) * (MaxMm - MinMm) as real + MinMm as real
  }

  /** `t` is Python's `int(x)`: `x` truncated toward zero. */
  ghost predicate Truncates(x: real, t: int)
  {
    if x >= 0.0 then t as real <= x < t as real + 1.0 else t as real - 1.0 < x <= t as real
  }

  /** The denominator of line 96, `max_adc_value - min_adc_value`. */
  const Span: int := Voltmeter.MaxAdc - MinAdc

  /** `int(n / Span)`: integer division truncating toward zero. */
  function TruncDiv(n: int): int
  {
    if n >= 0 then n / Span else -((-n) / Span)
  }

  lemma TruncDivTruncates(n: int)
    ensures Truncates(n as real / Span as real, TruncDiv(n))
  {
    var m := if n >= 0 then n else -n;
    var q, r := m / Span, m % Span;
    assert m == q * Span + r && 0 <= r < Span;
    assert m as real / Span as real == q as real + r as real / Span as real;
    if n < 0 {
      assert n as real / Span as real == -(m as real / Span as real);
    }
  }

  /** read_potentiometer(channel) for a raw sample `value`: the exact
      integer form of `int((value / 32767) * 13 + 1)`. The quotient (13 *
      value + 32767) / 32767 is a whole number only at the codes -32767, 0
      and 32767, so the truncation of the idealised real formula is what
      the floating-point one yields. */
  function Thickness(value: int): (t: int)
    ensures Truncates(ThicknessReal(value), t)
  {
    var n := (value - MinAdc) * (MaxMm - MinMm) + MinMm * Span;
    assert ThicknessReal(value) == n as real / Span as real;
    TruncDivTruncates(n);
    TruncDiv(n)
  }

  /** Over the potentiometer's codes 0..32767 the thickness is 1..14 mm, the
      ends of the travel giving the ends of the range. */
  lemma ThicknessRange(value: int)
    requires MinAdc <= value <= Voltmeter.MaxAdc
    ensures MinMm <= Thickness(value) <= MaxMm
    ensures value == MinAdc ==> Thickness(value) == MinMm
    ensures value == Voltmeter.MaxAdc ==> Thickness(value) == MaxMm
  {
    var t := Thickness(value);
    assert 1.0 <= ThicknessReal(value) <= 14.0;
  }

  /** The ADS1115 returns signed codes; a negative one (a few counts below
      ground) gives a thickness of 0 down to -12 mm, below the 1 mm the
      comment of line 95 intends. */
  lemma ThicknessBelowGround(value: int)
    requires -32768 <= value < MinAdc
    ensures -12 <= Thickness(value) <= 0
    ensures value == -1 ==> Thickness(value) == 0
  {
    var t := Thickness(value);
    assert -12.1 < ThicknessReal(value) < 1.0;
  }

  lemma TruncDivMonotone(a: int, b: int)
    requires a <= b
    ensures TruncDiv(a) <= TruncDiv(b)
  {
  }

  /** Turning the potentiometer further never lowers the thickness. */
  lemma ThicknessMonotone(a: int, b: int)
    requires a <= b
    ensures Thickness(a) <= Thickness(b)
  {
    TruncDivMonotone(13 * a + Span, 13 * b + Span);
  }

  // ---------------------------------------------------------------------
  // convert_thickness_to_scale

  /** convert_thickness_to_scale(thickness_mm), over the reals: 1 mm is 0,
      14 mm is 1.22, and the range maps into the scale. */
  function Scale(thickness: int): (s: real)
    ensures thickness == MinMm ==> s == MinScale
    ensures thickness == MaxMm ==> s == MaxScale
    ensures MinMm <= thickness <= MaxMm ==> MinScale <= s <= MaxScale
  {
    ((thickness - MinMm) as real / (MaxMm - MinMm) as real) * (MaxScale - MinScale) + MinScale
  }

  /** A thicker setting always gives a larger scale value, by the same step
      of 1.22 / 13 per millimetre. */
  lemma ScaleStrictlyIncreasing(a: int, b: int)
    requires a < b
    ensures Scale(a) < Scale(b)
    ensures Scale(b) - Scale(a) == (b - a) as real * (MaxScale - MinScale) / (MaxMm - MinMm) as real
  {
  }

  // ---------------------------------------------------------------------
  // the comparison in display_voltage_and_thickness

  /** The three messages. */
  datatype Advice = Up | Down | LevelOk

  /** The if / elif / else of lines 136-141. Exactly one message holds:
      "Up" when the scale is above the voltage by more than the tolerance,
      "Down" when below by more than the tolerance, "Level ok" when within
      the tolerance either way. */
  function Compare(scale: real, voltage: real): (a: Advice)
    ensures a == Up <==> scale > voltage + Tolerance
    ensures a == Down <==> scale < voltage - Tolerance
    ensures a == LevelOk <==> -Tolerance <= scale - voltage <= Tolerance
  {
    if scale > voltage + Tolerance then Up
    else if scale < voltage - Tolerance then Down
    else LevelOk
  }

  /** `comparison_text`. */
  function AdviceText(a: Advice): (s: string)
  {
    match a
    case Up => "Up"
    case Down => "Down"
    case LevelOk => "Level ok"
  }

  /** Rank of a message: Down < Level ok < Up. */
  function Rank(a: Advice): int
  {
    match a
    case Down => 0
    case LevelOk => 1
    case Up => 2
  }

  /** As the measured voltage rises for a fixed setting, the message moves
      from "Up" through "Level ok" to "Down", never back. */
  lemma CompareAntitoneInVoltage(scale: real, v1: real, v2: real)
    requires v1 <= v2
    ensures Rank(Compare(scale, v2)) <= Rank(Compare(scale, v1))
  {
  }

  /** The two ends of the potentiometer's travel agree with the two ends of
      the voltage range: code 0 (1 mm) against a 0 V reading, and code 32767
      (14 mm) against a full-scale reading, both read "Level ok". */
  lemma EndsOfTravelLevelOk()
    ensures Compare(Scale(Thickness(MinAdc)), Voltmeter.ReadVoltage(MinAdc)) == LevelOk
    ensures Compare(Scale(Thickness(Voltmeter.MaxAdc)), Voltmeter.ReadVoltage(Voltmeter.MaxAdc)) == LevelOk
  {
    ThicknessRange(MinAdc);
    ThicknessRange(Voltmeter.MaxAdc);
    Voltmeter.VoltageRange(Voltmeter.MaxAdc);
  }

  /** `comparison_text` names the comparison's outcome: "Up" exactly when
      the scale is above the voltage by more than the tolerance, "Down"
      exactly when below by more, "Level ok" otherwise. */
  lemma ComparisonText(scale: real, voltage: real)
    ensures AdviceText(Compare(scale, voltage)) == "Up" <==> scale > voltage + Tolerance
    ensures AdviceText(Compare(scale, voltage)) == "Down" <==> scale < voltage - Tolerance
    ensures AdviceText(Compare(scale, voltage)) == "Level ok" <==> -Tolerance <= scale - voltage <= Tolerance
  {
    assert |AdviceText(Up)| == 2 && |AdviceText(Down)| == 4 && |AdviceText(LevelOk)| == 8;
  }

  // ---------------------------------------------------------------------
  // str() of an int, for the thickness line

  function DigitChar(d: int): char
    requires 0 <= d < 10
  {
    ('0' as int + d) as char
  }

  /** The decimal digits of `n`, most significant first. */
  function NatText(n: nat): (s: string)
    ensures |s| >= 1
    ensures forall i :: 0 <= i < |s| ==> '0' <= s[i] <= '9'
  {
    if n < 10 then [DigitChar(n)] else NatText(n / 10) + [DigitChar(n % 10)]
  }

  /** `str(n)`. */
  function IntText(n: int): string
  {
    if n < 0 then "-" + NatText(-n) else NatText(n)
  }

  /** The number a string of decimal digits stands for. */
  function NatValue(s: string): int
  {
    if s == [] then 0 else NatValue(s[..|s| - 1]) * 10 + (s[|s| - 1] as int - '0' as int)
  }

  /** The number an optionally signed string of digits stands for. */
  function IntValue(s: string): int
  {
    if |s| > 0 && s[0] == '-' then -NatValue(s[1..]) else NatValue(s)
  }

  lemma {:induction false} NatTextRoundTrip(n: nat)
    ensures NatValue(NatText(n)) == n
  {
    if n >= 10 {
      NatTextRoundTrip(n / 10);
      var s := NatText(n);
      assert s[..|s| - 1] == NatText(n / 10);
    }
  }

  /** Reading back the text of a thickness gives the thickness. */
  lemma IntTextRoundTrip(n: int)
    ensures IntValue(IntText(n)) == n
  {
    if n < 0 {
      NatTextRoundTrip(-n);
      assert IntText(n)[1..] == NatText(-n);
    } else {
      NatTextRoundTrip(n);
    }
  }

  // ---------------------------------------------------------------------
  // the layout of display_voltage_and_thickness

  const HeaderText: string := "OpenTHC Alpha"
  /** The space between two lines, in pixels. */
  const LineGap: int := 4

  /** `f'Thick : {thickness_mm} mm'`. */
  function ThicknessText(thickness: int): string
  {
    "Thick : " + IntText(thickness) + " mm"
  }

  /** The thickness line is the fixed prefix and suffix around the number,
      and the number in it reads back as the thickness. */
  lemma ThicknessTextRoundTrip(thickness: int)
    ensures var t := ThicknessText(thickness);
      && |t| >= 12 && t[..8] == "Thick : " && t[|t| - 3..] == " mm"
      && IntValue(t[8..|t| - 3]) == thickness
  {
    var t := ThicknessText(thickness);
    IntTextRoundTrip(thickness);
    assert t[8..|t| - 3] == IntText(thickness);
  }

  /** A line of text with bounding box `box`, centred horizontally, at height `y`. */
  function Line(text: string, box: BBox, y: int): Item
  {
    Item(text, Centre(ScreenWidth, box.Width()), y, box.Width(), box.Height())
  }

  /** The four lines of one refresh. `voltageText` stands for
      `f'{voltage:.2f} V'` and `measure` for `draw.textbbox` with the
      loaded font. */
  function Lines(voltage: real, thickness: int, voltageText: string, measure: string -> BBox): (r: seq<Item>)
    ensures |r| == 4
  {
    var header := Line(HeaderText, measure(HeaderText), 0);
    var thick := Line(ThicknessText(thickness), measure(ThicknessText(thickness)), header.h + LineGap);
    var advice := AdviceText(Compare(Scale(thickness), voltage));
    var comparison := Line(advice, measure(advice), thick.y + thick.h + LineGap);
    var volts := Line(voltageText, measure(voltageText), comparison.y + comparison.h + LineGap);
    [header, thick, comparison, volts]
  }

  /** What the four lines say, and where they go: each box is its text's
      bounding box, centred horizontally with margins that differ by at most
      one pixel; the title is at the top and every other line starts four
      pixels below the line above it. */
  lemma LinesLayout(voltage: real, thickness: int, voltageText: string, measure: string -> BBox)
    ensures var r := Lines(voltage, thickness, voltageText, measure);
      && r[0].text == HeaderText
      && r[1].text == ThicknessText(thickness)
      && r[2].text == AdviceText(Compare(Scale(thickness), voltage))
      && r[3].text == voltageText
      && r[0].y == 0
      && (forall k :: 0 <= k < 3 ==> r[k + 1].y == r[k].y + r[k].h + LineGap)
      && (forall k :: 0 <= k < 4 ==>
            r[k].w == measure(r[k].text).Width() && r[k].h == measure(r[k].text).Height()
            && r[k].x <= ScreenWidth - (r[k].x + r[k].w) <= r[k].x + 1)
  {
  }

  /** With boxes of non-negative height the lines go strictly down the
      screen and never overlap. */
  lemma LinesDescend(voltage: real, thickness: int, voltageText: string, measure: string -> BBox)
    requires forall k :: 0 <= k < 4 ==> Lines(voltage, thickness, voltageText, measure)[k].h >= 0
    ensures var r := Lines(voltage, thickness, voltageText, measure);
      forall j, k :: 0 <= j < k < 4 ==> r[j].y + r[j].h < r[k].y
  {
    LinesLayout(voltage, thickness, voltageText, measure);
  }

  /** Four lines no wider than the screen whose heights and gaps add up to
      at most 64 pixels all lie on the screen. */
  lemma LinesOnScreen(voltage: real, thickness: int, voltageText: string, measure: string -> BBox)
    requires var r := Lines(voltage, thickness, voltageText, measure);
      && (forall k :: 0 <= k < 4 ==> 0 <= r[k].w <= ScreenWidth && 0 <= r[k].h)
      && r[0].h + r[1].h + r[2].h + r[3].h + 3 * LineGap <= ScreenHeight
    ensures forall k :: 0 <= k < 4 ==> OnScreen(Lines(voltage, thickness, voltageText, measure)[k])
  {
    LinesLayout(voltage, thickness, voltageText, measure);
  }

  /** display_voltage_and_thickness(voltage, thickness_mm): clear the
      image, draw the four lines top to bottom, then show the image. */
  method DisplayVoltageAndThickness(d: Display, voltage: real, thickness: int,
                                    format: real -> string, measure: string -> BBox)
    requires d.Valid()
    modifies d
    ensures d.Valid() && d.shown == Lines(voltage, thickness, format(voltage), measure)
    ensures d.log == old(d.log) + Frame(Lines(voltage, thickness, format(voltage), measure))
  {
    d.Clear();

    var headerBox := measure(HeaderText);
    var header := Line(HeaderText, headerBox, 0);
    d.Text(header);

    var thicknessText := ThicknessText(thickness);
    var thicknessBox := measure(thicknessText);
    var thicknessY := headerBox.Height() + LineGap;
    d.Text(Line(thicknessText, thicknessBox, thicknessY));

    var comparisonText := AdviceText(Compare(Scale(thickness), voltage));
    var comparisonBox := measure(comparisonText);
    var comparisonY := thicknessY + thicknessBox.Height() + LineGap;
    d.Text(Line(comparisonText, comparisonBox, comparisonY));

    var text := format(voltage);
    var textBox := measure(text);
    var y := comparisonY + comparisonBox.Height() + LineGap;
    d.Text(Line(text, textBox, y));

    d.Show();
    ghost var items := Lines(voltage, thickness, format(voltage), measure);
    assert Draws(items) == [DrawText(items[0]), DrawText(items[1]), DrawText(items[2]), DrawText(items[3])];
  }

  /** One pass of the main loop: the raw codes of channels A3 (voltage) and
      A2 (potentiometer). */
  datatype Reading = Reading(voltageCode: int, potentiometerCode: int)

  /** The picture one reading produces. */
  function Picture(reading: Reading, format: real -> string, measure: string -> BBox): seq<Item>
  {
    var voltage := Voltmeter.ReadVoltage(reading.voltageCode);
    Lines(voltage, Thickness(reading.potentiometerCode), format(voltage), measure)
  }

  /** The pictures of a run over `readings`, one per reading. */
  function Pictures(readings: seq<Reading>, format: real -> string, measure: string -> BBox): (ps: seq<seq<Item>>)
    ensures |ps| == |readings|
  {
    if readings == [] then []
    else Pictures(readings[..|readings| - 1], format, measure) + [Picture(readings[|readings| - 1], format, measure)]
  }

  /** One pass of the `while True` loop: read channel A3 as a voltage and
      A2 as a thickness, then refresh the screen. */
  method Pass(d: Display, reading: Reading, format: real -> string, measure: string -> BBox)
    requires d.Valid()
    modifies d
    ensures d.Valid() && d.shown == Picture(reading, format, measure)
    ensures d.log == old(d.log) + Frame(Picture(reading, format, measure))
  {
    var voltage := Voltmeter.ReadVoltage(reading.voltageCode);       // channel A3
    var thickness := Thickness(reading.potentiometerCode);           // channel A2
    DisplayVoltageAndThickness(d, voltage, thickness, format, measure);
  }

  /** A run over one more reading sends one more refresh. */
  lemma RefreshesStep(readings: seq<Reading>, i: nat, format: real -> string, measure: string -> BBox)
    requires i < |readings|
    ensures Refreshes(Pictures(readings[..i + 1], format, measure))
         == Refreshes(Pictures(readings[..i], format, measure)) + Frame(Picture(readings[i], format, measure))
  {
    assert readings[..i + 1][..i] == readings[..i];
  }

  /** main(): one refresh per reading, then Ctrl+C during a sleep, which
      fills the screen with 0 and shows it. */
  method RunMain(d: Display, readings: seq<Reading>, format: real -> string, measure: string -> BBox)
    requires d.Valid()
    modifies d
    ensures d.Valid() && d.shown == []
    ensures d.log == old(d.log) + Refreshes(Pictures(readings, format, measure)) + [ClearCanvas, ShowCanvas]
  {
    for i := 0 to |readings|
      invariant d.Valid()
      invariant d.log == old(d.log) + Refreshes(Pictures(readings[..i], format, measure))
    {
      Pass(d, readings[i], format, measure);
      RefreshesStep(readings, i, format, measure);
      AppendAssoc(old(d.log), Refreshes(Pictures(readings[..i], format, measure)), Frame(Picture(readings[i], format, measure)));
    }
    assert readings[..|readings|] == readings;
    d.Clear();
    d.Show();
  }
}
