/**
 * Console panel geometry (UIRenderer.cpp): the one-slot layout cache
 * ConsoleLayout, the window of scrollback lines DrawConsole renders and the
 * input-box rectangle of DrawConsoleInputBox. Drawing calls are left out;
 * what is kept is the integer arithmetic and which lines go where.
 */
module Layout {
  import opened Wrappers
  import opened CppInt
  import Scrollback

  /** Gap added to the text font size to get the line pitch (UIRenderer.h:9). */
  const CONSOLE_LINE_SPACING: int := 4
  const LEFT_MARGIN: int := 10
  const TOP_WITH_FPS: int := 40
  const TOP_WITHOUT_FPS: int := 10

  /** The four display parameters the cache is keyed on. */
  datatype Params = Params(showFPS: bool, width: int, height: int, fontSize: int)

  /** The derived pixel geometry of the console panel. */
  datatype Geometry = Geometry(
    x: int, y: int, width: int, height: int,
    titleFontSize: int, textFontSize: int, lineHeight: int, padding: int,
    titleHeight: int, availableHeight: int, maxDisplayLines: int)

  /** The line pitch is a divisor, so it must not be zero. */
  predicate Computable(p: Params) {
    p.fontSize + CONSOLE_LINE_SPACING != 0
  }

  /**
   * The geometry ConsoleLayout::update derives from p: at least one line is
   * always shown, and the title block, the content area and the bottom
   * padding together make up the console's height.
   */
  function Compute(p: Params): (g: Geometry)
    requires Computable(p)
    ensures g.maxDisplayLines >= 1
    ensures g.width == p.width && g.height == p.height
    ensures g.titleHeight + g.availableHeight + g.padding == p.height
  {
    var titleFontSize := p.fontSize + 2;
    var lineHeight := p.fontSize + CONSOLE_LINE_SPACING;
    var padding := Quot(p.fontSize, 2);
    var titleHeight := titleFontSize + padding;
    var availableHeight := p.height - titleHeight - padding;
    var fitting := Quot(availableHeight, lineHeight);
    Geometry(
      LEFT_MARGIN, if p.showFPS then TOP_WITH_FPS else TOP_WITHOUT_FPS, p.width, p.height,
      titleFontSize, p.fontSize, lineHeight, padding,
      titleHeight, availableHeight, if fitting < 1 then 1 else fitting)
  }

  /**
   * When the content area holds a whole line, maxDisplayLines is the largest
   * number of line pitches that fit in it; otherwise it is the minimum, 1.
   */
  lemma ComputeFits(p: Params)
    requires Computable(p)
    ensures var g := Compute(p);
      g.lineHeight > 0 && g.availableHeight >= g.lineHeight ==>
        g.maxDisplayLines * g.lineHeight <= g.availableHeight < (g.maxDisplayLines + 1) * g.lineHeight
    ensures var g := Compute(p);
      g.lineHeight > 0 && g.availableHeight < g.lineHeight ==> g.maxDisplayLines == 1
  {
    var g := Compute(p);
    FitsInHeight(g.availableHeight, g.lineHeight);
  }

  /** The C++ quotient of a height by a positive pitch counts the whole pitches that fit. */
  lemma FitsInHeight(h: int, pitch: int)
    requires pitch != 0
    ensures pitch > 0 && h >= pitch ==>
      Quot(h, pitch) >= 1 && Quot(h, pitch) * pitch <= h < (Quot(h, pitch) + 1) * pitch
    ensures pitch > 0 && h < pitch ==> Quot(h, pitch) < 1
  {
    if pitch > 0 && h >= pitch {
      QuotFloor(h, pitch);
      var q := Quot(h, pitch);
      assert (q + 1) * pitch == q * pitch + pitch;
      if q < 1 {
        MulNonPositive(q, pitch);
        assert false;
      }
    } else if pitch > 0 && 0 <= h {
      QuotFloor(h, pitch);
      if Quot(h, pitch) >= 1 {
        MulAtLeast(Quot(h, pitch), pitch);
        assert false;
      }
    }
  }

  /** Top-left corner, size and text origin of the input box. */
  datatype InputBox = InputBox(x: int, y: int, width: int, height: int, textX: int, textY: int)

  /**
   * The input box of DrawConsoleInputBox: one text line plus padding above
   * and below, spanning the console's width, flush with its bottom edge.
   */
  function InputBoxOf(g: Geometry): (b: InputBox)
    ensures b.y + b.height == g.y + g.height
    ensures b.height == g.textFontSize + 2 * g.padding
    ensures b.x == g.x && b.width == g.width
    ensures b.textX == g.x + g.padding && b.textY == b.y + g.padding
  {
    var boxHeight := g.textFontSize + g.padding * 2;
    var boxY := g.y + g.height - boxHeight;
    InputBox(g.x, boxY, g.width, boxHeight, g.x + g.padding, boxY + g.padding)
  }

  /** One scrollback line as drawn: its index in the buffer, its text and baseline y. */
  datatype TextRow = TextRow(index: int, text: string, y: int)

  /** How many lines DrawConsole renders: min(n, maxDisplayLines), none when that is not positive. */
  function ShownCount(n: nat, maxDisplayLines: int): (k: nat)
    ensures k <= n && (maxDisplayLines >= 1 ==> k >= 1 || n == 0)
    ensures maxDisplayLines >= 1 ==> k <= maxDisplayLines && (k == n || k == maxDisplayLines)
    ensures maxDisplayLines <= 0 ==> k == 0
  {
    if maxDisplayLines <= 0 then 0 else if n < maxDisplayLines then n else maxDisplayLines
  }

  /**
   * The visible window of DrawConsole: the last ShownCount lines in
   * chronological order, every index within the buffer, one line pitch apart
   * starting under the title block.
   */
  method VisibleRows(g: Geometry, lines: seq<string>) returns (rows: seq<TextRow>)
    ensures |rows| == ShownCount(|lines|, g.maxDisplayLines)
    ensures forall i :: 0 <= i < |rows| ==>
      && 0 <= rows[i].index < |lines|
      && rows[i].index == |lines| - |rows| + i
      && rows[i].text == lines[rows[i].index]
      && rows[i].y == g.y + g.titleHeight + i * g.lineHeight
  {
    var n := |lines|;
    var startY := g.y + g.titleHeight;
    var linesToShow := if n < g.maxDisplayLines then n else g.maxDisplayLines;
    var startIndex := if n - linesToShow > 0 then n - linesToShow else 0;
    rows := [];
    var i := 0;
    while i < linesToShow
      invariant 0 <= i <= (if linesToShow > 0 then linesToShow else 0)
      invariant linesToShow <= n
      invariant linesToShow > 0 ==> startIndex == n - linesToShow
      invariant |rows| == i
      invariant forall j :: 0 <= j < i ==>
        rows[j] == TextRow(startIndex + j, lines[startIndex + j], startY + j * g.lineHeight)
    {
      var lineIndex := startIndex + i;
      var textY := startY + i * g.lineHeight;
      rows := rows + [TextRow(lineIndex, lines[lineIndex], textY)];
      i := i + 1;
    }
  }

  /**
   * The console layout cache: the geometry last derived and the parameters
   * it was derived from. The source keeps these as sixteen scalar fields;
   * here the eleven derived ones form `geometry` and the four cached
   * parameters form `last`.
   */
  class ConsoleLayout {
    var geometry: Geometry
    var last: Params
    var needsUpdate: bool

    /** Unless a recompute is pending, the cached geometry is that of the cached parameters. */
    ghost predicate Valid()
      reads this
    {
      !needsUpdate ==> Computable(last) && geometry == Compute(last)
    }

    /** A fresh cache has nothing applied yet and asks for a recompute. */
    constructor ()
      ensures Valid() && needsUpdate
    {
      geometry := Geometry(0, 0, 0, 0, 0, 0, 0, 0, 0, 0, 0);
      last := Params(false, 0, 0, 0);
      needsUpdate := true;
    }

    /**
     * ConsoleLayout::shouldUpdate: a recompute is due exactly when one is
     * pending or p differs from the cached parameters in some field.
     */
    predicate ShouldUpdate(p: Params): (b: bool)
      reads this
      ensures b <==> needsUpdate || p != last
    {
      needsUpdate || last.showFPS != p.showFPS || last.width != p.width
        || last.height != p.height || last.fontSize != p.fontSize
    }

    /**
     * ConsoleLayout::update: derive the geometry of p step by step and cache
     * p. Afterwards only a different parameter set asks for a recompute.
     */
    method Update(p: Params)
      requires Computable(p)
      modifies this
      ensures geometry == Compute(p) && last == p && !needsUpdate
      ensures Valid()
      ensures forall q :: ShouldUpdate(q) <==> q != p
    {
      var x := LEFT_MARGIN;
      var y := if p.showFPS then TOP_WITH_FPS else TOP_WITHOUT_FPS;
      var width := p.width;
      var height := p.height;

      var titleFontSize := p.fontSize + 2;
      var textFontSize := p.fontSize;
      var lineHeight := textFontSize + CONSOLE_LINE_SPACING;
      var padding := Quot(p.fontSize, 2);

      var titleHeight := titleFontSize + padding;
      var availableHeight := height - titleHeight - padding;
      var fitting := Quot(availableHeight, lineHeight);
      var maxDisplayLines := if fitting < 1 then 1 else fitting;

      geometry := Geometry(x, y, width, height, titleFontSize, textFontSize, lineHeight, padding,
                           titleHeight, availableHeight, maxDisplayLines);
      last := p;
      needsUpdate := false;
    }
  }

  /**
   * DrawConsole without the drawing: refresh the cache when due, then pick
   * the rows to render and, when there is at least one line, the input box.
   * Whether or not the cache was refreshed, the geometry used is that of p.
   */
  method DrawConsole(layout: ConsoleLayout, p: Params, capture: Scrollback.ConsoleCapture)
    returns (rows: seq<TextRow>, box: Option<InputBox>)
    requires layout.Valid() && Computable(p)
    modifies layout
    ensures layout.Valid() && !layout.needsUpdate && layout.last == p
    ensures layout.geometry == Compute(p)
    ensures !old(layout.ShouldUpdate(p)) ==> unchanged(layout)
    ensures capture.lines == [] ==> rows == [] && box == None
    ensures capture.lines != [] ==> box == Some(InputBoxOf(Compute(p)))
    ensures |rows| == ShownCount(|capture.lines|, Compute(p).maxDisplayLines)
    ensures forall i :: 0 <= i < |rows| ==>
      && rows[i].index == |capture.lines| - |rows| + i
      && rows[i].text == capture.lines[rows[i].index]
      && rows[i].y == Compute(p).y + Compute(p).titleHeight + i * Compute(p).lineHeight
  {
    if layout.ShouldUpdate(p) {
      layout.Update(p);
    }
    var lines := capture.GetLines();
    if lines == [] {
      return [], None;
    }
    rows := VisibleRows(layout.geometry, lines);
    box := Some(InputBoxOf(layout.geometry));
  }
}
