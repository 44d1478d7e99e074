/** ESP32/MicroPython/main.py: "Hello" and "World" centred on a 128x64
    SSD1306 in MicroPython's built-in 8x8 font, the two lines 5 pixels
    apart. The script is straight-line arithmetic followed by one
    clear / draw / draw / show sequence. */
module HelloWorld {
  import opened Oled

  /** The built-in font is 8 pixels wide and 8 pixels tall per character. */
  const CharSize: int := 8
  /** The space between the two lines. */
  const LineGap: int := 5

  const Text1: string := "Hello"
  const Text2: string := "World"

  /** `len(text) * 8`. */
  function TextWidth(text: string): int
  {
    |text| * CharSize
  }

  /** The two lines on a `width` by `height` screen: each centred
      horizontally; the first at `height // 2 - 8 - 5`, the second 8 + 5
      pixels lower. */
  function Layout(width: int, height: int, text1: string, text2: string): (r: seq<Item>)
    ensures |r| == 2
  {
    var y1 := height / 2 - CharSize - LineGap;
    var y2 := y1 + CharSize + LineGap;
    [Item(text1, Centre(width, TextWidth(text1)), y1, TextWidth(text1), CharSize),
     Item(text2, Centre(width, TextWidth(text2)), y2, TextWidth(text2), CharSize)]
  }

  /** Both lines are centred horizontally, margins differing by at most a
      pixel; the second line starts at the vertical middle of the screen,
      leaving a 5-pixel gap below the 8-pixel first line. */
  lemma LayoutShape(width: int, height: int, text1: string, text2: string)
    ensures var r := Layout(width, height, text1, text2);
      && r[0].text == text1 && r[1].text == text2
      && r[0].w == 8 * |text1| && r[1].w == 8 * |text2| && r[0].h == r[1].h == 8
      && (forall k :: 0 <= k < 2 ==> r[k].x <= width - (r[k].x + r[k].w) <= r[k].x + 1)
      && r[1].y == height / 2
      && r[1].y - (r[0].y + r[0].h) == LineGap
  {
  }

  /** Both lines fit when each text is no wider than the screen and the
      screen is at least 26 pixels tall. */
  lemma LayoutFits(height: int, text1: string, text2: string)
    requires 8 * |text1| <= ScreenWidth && 8 * |text2| <= ScreenWidth
    requires 26 <= height <= ScreenHeight
    ensures forall k :: 0 <= k < 2 ==> OnScreen(Layout(ScreenWidth, height, text1, text2)[k])
  {
  }

  /** On the 128x64 screen: each word is 40 pixels wide and starts at x = 44;
      "Hello" is at y = 19 and "World" at y = 32. */
  lemma HelloWorldPositions()
    ensures TextWidth(Text1) == 40 && TextWidth(Text2) == 40
    ensures Layout(ScreenWidth, ScreenHeight, Text1, Text2)
         == [Item(Text1, 44, 19, 40, 8), Item(Text2, 44, 32, 40, 8)]
    ensures forall k :: 0 <= k < 2 ==> OnScreen(Layout(ScreenWidth, ScreenHeight, Text1, Text2)[k])
  {
  }

  /** The commands the script sends: `oled.fill(0)`, the two `oled.text`
      calls, then `oled.show()`: the screen is cleared before either word
      is drawn, "Hello" is drawn before "World", and the screen is shown
      last. */
  function Program(): (p: seq<Cmd>)
    ensures |p| == 4 && p[0] == ClearCanvas && p[3] == ShowCanvas
    ensures p[1].DrawText? && p[1].item.text == Text1 && p[2].DrawText? && p[2].item.text == Text2
  {
    var r := Layout(ScreenWidth, ScreenHeight, Text1, Text2);
    [ClearCanvas, DrawText(r[0]), DrawText(r[1]), ShowCanvas]
  }

  /** The screen is cleared before either line is drawn and shown only
      after both are, so whatever was on it before, the script leaves
      exactly the two lines on the glass. */
  lemma ProgramShowsBothLines(s: Screen)
    ensures Program() == Frame(Layout(ScreenWidth, ScreenHeight, Text1, Text2))
    ensures Run(s, Program()) == Screen([Item(Text1, 44, 19, 40, 8), Item(Text2, 44, 32, 40, 8)],
                                        [Item(Text1, 44, 19, 40, 8), Item(Text2, 44, 32, 40, 8)])
  {
    var r := Layout(ScreenWidth, ScreenHeight, Text1, Text2);
    assert Draws(r) == [DrawText(r[0]), DrawText(r[1])];
    FrameReplacesScreen(s, r);
    HelloWorldPositions();
  }
}
