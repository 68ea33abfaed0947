/** The terminal window the interface draws into: two border lines, and every
    content line framed by padding glyphs and padded with spaces to the window's
    width. Drawing keeps a log of the frames written and of how far the cursor
    was moved back up. */
module Window {
  import opened Base
  import opened Text
  import opened Components
  import Tree

  const U16_MAX: nat := 0xFFFF

  /** The top and bottom border lines: empty without borders, otherwise a corner,
      `width + 2` horizontal rules and a corner. */
  function Borders(width: nat, borderless: bool): (r: (string, string))
    ensures borderless ==> r == ("", "")
    ensures !borderless ==>
              |r.0| == width + 4 && |r.1| == width + 4 &&
              r.0[0] == '┌' && r.0[width + 3] == '┐' && r.1[0] == '└' && r.1[width + 3] == '┘' &&
              forall i :: 0 < i < width + 3 ==> r.0[i] == '─' && r.1[i] == '─'
  {
    if borderless then ("", "")
    else
      var middle := Repeat('─', width + 2);
      (['┌'] + middle + ['┐'], ['└'] + middle + ['┘'])
  }

  function Padding(borderless: bool): char
  {
    if borderless then ' ' else '│'
  }

  /** One framed content line: padding, a space, the line, filler spaces up to the
      width (when asked to space), a space, padding and a line break. */
  function FrameLine(line: string, width: nat, borderless: bool, space: bool): (r: string)
    ensures |r| == |line| + 6 + (if space then SatSub(width, |line|) else 0)
    ensures space && |line| <= width ==> |r| == width + 6
    ensures r[0] == Padding(borderless) && r[1] == ' ' && r[2..2 + |line|] == line
    ensures r[|r| - 4] == ' ' && r[|r| - 3] == Padding(borderless) && r[|r| - 2..] == "\r\n"
    ensures forall i :: 2 + |line| <= i < |r| - 4 ==> r[i] == ' '
  {
    var filler := if space then Spaces(SatSub(width, |line|)) else "";
    var r := [Padding(borderless)] + " " + line + filler + " " + [Padding(borderless)] + "\r\n";
    assert r[2..2 + |line|] == line;
    r
  }

  /** The fold over the content lines, in order. */
  function Menu(lines: seq<string>, width: nat, borderless: bool, space: bool): (r: string)
    ensures r == "" <==> |lines| == 0
    ensures |r| >= 6 * |lines|
    ensures |lines| > 0 ==> r[|r| - 2..] == "\r\n"
  {
    if |lines| == 0 then ""
    else Menu(lines[..|lines| - 1], width, borderless, space) + FrameLine(lines[|lines| - 1], width, borderless, space)
  }

  /** With spacing, every line no wider than the window becomes a framed line of
      exactly `width + 6` characters. */
  lemma {:induction false} MenuLength(lines: seq<string>, width: nat, borderless: bool)
    requires forall i :: 0 <= i < |lines| ==> |lines[i]| <= width
    ensures |Menu(lines, width, borderless, true)| == |lines| * (width + 6)
  {
    if |lines| > 0 {
      var n := |lines| - 1;
      var front := lines[..n];
      assert |Menu(front, width, borderless, true)| == n * (width + 6) by {
        assert forall i :: 0 <= i < |front| ==> front[i] == lines[i];
        MenuLength(front, width, borderless);
      }
      assert |FrameLine(lines[n], width, borderless, true)| == width + 6;
      MulSucc(n, width + 6);
    }
  }

  lemma MulSucc(n: nat, k: nat)
    ensures n * k + k == (n + 1) * k
  {
  }

  datatype UIError = Conversion

  /** The outcome of a draw: the text written and how many rows the cursor moves
      back up, or the conversion error for more lines than a `u16` holds. */
  datatype DrawOutcome = Drawn(frame: string, moveUp: nat) | Failed(error: UIError)

  /** `draw` on a non-Windows terminal. The line count is converted to `u16`
      first; the cursor then moves up one more row than there are lines, the sum
      taken in `u16` arithmetic. */
  function DrawFrame(content: seq<string>, width: nat, borderless: bool, borders: (string, string), space: bool)
    : (r: DrawOutcome)
    ensures |content| > U16_MAX <==> r.Failed?
    ensures |content| < U16_MAX ==> r.Drawn? && r.moveUp == |content| + 1
    ensures |content| == U16_MAX ==> r.Drawn? && r.moveUp == 0
    ensures |content| <= U16_MAX ==>
              r.Drawn? && r.frame == borders.0 + "\r\n" + Menu(content, width, borderless, space) + borders.1
  {
    if |content| > U16_MAX then Failed(Conversion)
    else
      var menu := Menu(content, width, borderless, space);
      Drawn(borders.0 + "\r\n" + menu + borders.1, (|content| + 1) % (U16_MAX + 1))
  }

  class ComponentWindow {
    var borderless: bool
    var borders: (string, string)
    var width: nat
    var root: Tree.Component
    var context: RenderContext
    var written: seq<DrawOutcome>

    /** `ComponentWindow::new`: the borders for the width, the default layout as
        root, and a context that says loading, with no track, full volume and
        position zero. */
    constructor (width: nat, borderless: bool)
      ensures this.width == width && this.borderless == borderless
      ensures borders == Borders(width, borderless)
      ensures root == Tree.DefaultLayout(false)
      ensures context == RenderContext(width, Loading, None, 1.0, 0, false, borderless)
      ensures written == []
    {
      this.width := width;
      this.borderless := borderless;
      borders := Borders(width, borderless);
      root := Tree.DefaultLayout(false);
      context := RenderContext(width, Loading, None, 1.0, 0, false, borderless);
      written := [];
    }

    method SetRoot(c: Tree.Component)
      modifies this
      ensures root == c
      ensures borderless == old(borderless) && borders == old(borders) && width == old(width)
      ensures context == old(context) && written == old(written)
    {
      root := c;
    }

    /** `update_context`: the closure's result replaces the context. */
    method UpdateContext(ctx: RenderContext)
      modifies this
      ensures context == ctx
      ensures borderless == old(borderless) && borders == old(borders) && width == old(width)
      ensures root == old(root) && written == old(written)
    {
      context := ctx;
    }

    /** `draw`: convert the line count, fold the lines into the menu, write the
        borders around it. A failed conversion writes nothing. */
    method Draw(content: seq<string>, space: bool) returns (outcome: DrawOutcome)
      modifies this
      ensures outcome == DrawFrame(content, width, borderless, borders, space)
      ensures outcome.Drawn? ==> written == old(written) + [outcome]
      ensures outcome.Failed? ==> written == old(written)
      ensures borderless == old(borderless) && borders == old(borders) && width == old(width)
      ensures root == old(root) && context == old(context)
    {
      if |content| > U16_MAX {
        return Failed(Conversion);
      }
      var menu := "";
      var i := 0;
      while i < |content|
        invariant 0 <= i <= |content|
        invariant menu == Menu(content[..i], width, borderless, space)
      {
        assert content[..i + 1][..i] == content[..i];
        var padding := if borderless then " " else "│";
        var filler := if space then Spaces(SatSub(width, |content[i]|)) else "";
        menu := menu + (padding + " " + content[i] + filler + " " + padding + "\r\n");
        i := i + 1;
      }
      assert content[..i] == content;
      var height := (|content| + 1) % (U16_MAX + 1);
      outcome := Drawn(borders.0 + "\r\n" + menu + borders.1, height);
      written := written + [outcome];
    }

    /** `render`: the root drawn in the current context, split into lines, and
        drawn with spacing. */
    method Render() returns (outcome: DrawOutcome)
      requires Tree.CanRender(root, context)
      modifies this
      ensures borderless == old(borderless) && borders == old(borders) && width == old(width)
      ensures root == old(root) && context == old(context)
      ensures outcome == DrawFrame(Lines(Tree.Render(root, context)), width, borderless, borders, true)
      ensures outcome.Drawn? ==> written == old(written) + [outcome]
      ensures outcome.Failed? ==> written == old(written)
    {
      var text := Tree.Render(root, context);
      outcome := Draw(Lines(text), true);
    }
  }

  /** Every drawn frame of a bordered window whose lines fit is a border line,
      `width + 6` characters for each line of content, and a border line. */
  lemma FrameSize(content: seq<string>, width: nat)
    requires |content| < U16_MAX
    requires forall i :: 0 <= i < |content| ==> |content[i]| <= width
    ensures var r := DrawFrame(content, width, false, Borders(width, false), true);
            r.Drawn? && |r.frame| == (width + 4) + 2 + |content| * (width + 6) + (width + 4)
  {
    MenuLength(content, width, false);
  }
}
