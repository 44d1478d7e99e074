/** The 128x64 SSD1306 OLED screen the display scripts draw on, seen
    through the commands they send it: clear the picture, draw a line of
    text into it, show the picture. Pixels and fonts are not modelled: a
    drawn text is the box it occupies. */
module Oled {

  /** SSD1306_I2C(128, 64, ...): the screen's size in pixels. */
  const ScreenWidth: int := 128
  const ScreenHeight: int := 64

  /** A bounding box as PIL's `draw.textbbox((0, 0), text, font)` returns
      it: (left, top, right, bottom). The font metrics that produce it are
      not modelled. */
  datatype BBox = BBox(left: int, top: int, right: int, bottom: int) {
    /** `bbox[2] - bbox[0]`. */
    function Width(): int { right - left }
    /** `bbox[3] - bbox[1]`. */
    function Height(): int { bottom - top }
  }

  /** The offset `(extent - size) // 2` that centres `size` pixels in
      `extent`: the margin after is the margin before or one pixel more, so
      the two margins differ by at most one. When the text fits, it lies
      within the screen. */
  function Centre(extent: int, size: int): (p: int)
    ensures p <= extent - (p + size) <= p + 1
    ensures 0 <= size <= extent ==> 0 <= p && p + size <= extent
  {
    (extent - size) / 2
  }

  /** A text drawn with its origin at (x, y) and a box of w by h pixels. */
  datatype Item = Item(text: string, x: int, y: int, w: int, h: int)

  /** The item's box lies within the screen. */
  predicate OnScreen(it: Item)
  {
    0 <= it.x && it.x + it.w <= ScreenWidth && 0 <= it.y && it.y + it.h <= ScreenHeight
  }

  /** The commands the scripts send:
      ClearCanvas: `draw.rectangle((0, 0, width, height), fill=0)` or `oled.fill(0)`;
      DrawText: `draw.text(...)` or `oled.text(...)`;
      ShowCanvas: `oled.image(image)` followed by `oled.show()`, or `oled.show()`. */
  datatype Cmd = ClearCanvas | DrawText(item: Item) | ShowCanvas

  /** The picture being drawn and the picture on the glass. */
  datatype Screen = Screen(canvas: seq<Item>, shown: seq<Item>)

  /** The screen at power-on: nothing drawn, nothing shown. */
  const Dark: Screen := Screen([], [])

  function Step(s: Screen, c: Cmd): Screen
  {
    match c
    case ClearCanvas => s.(canvas := [])
    case DrawText(it) => s.(canvas := s.canvas + [it])
    case ShowCanvas => s.(shown := s.canvas)
  }

  /** The screen after the commands `cmds`, in order, from `s`. */
  function Run(s: Screen, cmds: seq<Cmd>): Screen
  {
    if cmds == [] then s else Step(Run(s, cmds[..|cmds| - 1]), cmds[|cmds| - 1])
  }

  /** Running two command sequences one after the other is running their
      concatenation. */
  lemma {:induction false} RunAppend(s: Screen, a: seq<Cmd>, b: seq<Cmd>)
    ensures Run(s, a + b) == Run(Run(s, a), b)
  {
    if b == [] {
      assert a + b == a;
    } else {
      var b' := b[..|b| - 1];
      assert (a + b)[..|a + b| - 1] == a + b';
      RunAppend(s, a, b');
    }
  }

  /** Appending commands in two steps or in one gives the same log. Calling
      it in a loop names the one regrouping the loop needs, which keeps the
      solver from searching for it. */
  lemma AppendAssoc(a: seq<Cmd>, b: seq<Cmd>, c: seq<Cmd>)
    ensures a + (b + c) == (a + b) + c
  {
  }

  /** One DrawText per item, in order. */
  function Draws(items: seq<Item>): (cmds: seq<Cmd>)
    ensures |cmds| == |items|
    ensures forall k :: 0 <= k < |items| ==> cmds[k] == DrawText(items[k])
  {
    if items == [] then [] else Draws(items[..|items| - 1]) + [DrawText(items[|items| - 1])]
  }

  /** A refresh: clear the picture, draw every item, then show it. */
  function Frame(items: seq<Item>): seq<Cmd>
  {
    [ClearCanvas] + Draws(items) + [ShowCanvas]
  }

  /** Drawing adds the items to the picture in order and leaves the glass alone. */
  lemma {:induction false} DrawsExtendCanvas(s: Screen, items: seq<Item>)
    ensures Run(s, Draws(items)) == s.(canvas := s.canvas + items)
  {
    if items != [] {
      var before := items[..|items| - 1];
      var cmds := Draws(items);
      assert cmds[..|cmds| - 1] == Draws(before);
      DrawsExtendCanvas(s, before);
      assert s.canvas + before + [items[|items| - 1]] == s.canvas + items;
    }
  }

  /** Because a refresh clears before drawing and shows only after drawing,
      what it leaves on the glass is exactly its own items, whatever was
      there before. */
  lemma FrameReplacesScreen(s: Screen, items: seq<Item>)
    ensures Run(s, Frame(items)) == Screen(items, items)
  {
    RunAppend(s, [ClearCanvas] + Draws(items), [ShowCanvas]);
    RunAppend(s, [ClearCanvas], Draws(items));
    assert Run(s, [ClearCanvas]) == s.(canvas := []) by {
      assert [ClearCanvas][..0] == [];
    }
    DrawsExtendCanvas(s.(canvas := []), items);
    assert [] + items == items;
  }

  /** The commands of one refresh per picture, in order: what a display
      loop sends over its passes. */
  function Refreshes(pictures: seq<seq<Item>>): seq<Cmd>
  {
    if pictures == [] then []
    else Refreshes(pictures[..|pictures| - 1]) + Frame(pictures[|pictures| - 1])
  }

  /** After any number of refreshes the glass shows the last picture and
      nothing left over from earlier ones. */
  lemma RefreshesShowLast(s: Screen, pictures: seq<seq<Item>>)
    requires pictures != []
    ensures Run(s, Refreshes(pictures)) == Screen(pictures[|pictures| - 1], pictures[|pictures| - 1])
  {
    var before := pictures[..|pictures| - 1];
    RunAppend(s, Refreshes(before), Frame(pictures[|pictures| - 1]));
    FrameReplacesScreen(Run(s, Refreshes(before)), pictures[|pictures| - 1]);
  }

  /** The screen driver together with the PIL image the scripts draw into. */
  class Display {
    var canvas: seq<Item>
    var shown: seq<Item>
    /** Every command sent so far. */
    ghost var log: seq<Cmd>

    /** The state is what the commands sent so far produce from a dark screen. */
    ghost predicate Valid()
      reads this
    {
      Run(Dark, log) == Screen(canvas, shown)
    }

    /** SSD1306_I2C(128, 64, i2c) and Image.new('1', (128, 64)). */
    constructor ()
      ensures Valid() && canvas == [] && shown == [] && log == []
    {
      canvas, shown := [], [];
      log := [];
    }

    method Clear()
      requires Valid()
      modifies this
      ensures Valid() && canvas == [] && shown == old(shown)
      ensures log == old(log) + [ClearCanvas]
    {
      canvas := [];
      log := log + [ClearCanvas];
      assert log[..|log| - 1] == old(log);
    }

    method Text(it: Item)
      requires Valid()
      modifies this
      ensures Valid() && canvas == old(canvas) + [it] && shown == old(shown)
      ensures log == old(log) + [DrawText(it)]
    {
      canvas := canvas + [it];
      log := log + [DrawText(it)];
      assert log[..|log| - 1] == old(log);
    }

    method Show()
      requires Valid()
      modifies this
      ensures Valid() && canvas == old(canvas) && shown == old(canvas)
      ensures log == old(log) + [ShowCanvas]
    {
      shown := canvas;
      log := log + [ShowCanvas];
      assert log[..|log| - 1] == old(log);
    }
  }
}
