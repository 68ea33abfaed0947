/** The component tree. Every component the library and its examples define is one
    constructor here; a container holds its children as values. Rendering,
    visibility, height, minimum width and event handling dispatch on the
    constructor, as the trait's methods dispatch on the boxed component. */
module Tree {
  import opened Base
  import opened Text
  import opened Components
  import opened CustomWidgets

  datatype Component =
    | LabelNode(text: string, style: TextStyle)
    | ProgressBarNode(fill: char, empty: char, showTime: bool)
    | VolumeBarNode(fill: char, empty: char, showPercentage: bool)
    | StatusBarNode(showBookmarkIndicator: bool)
    | ControlBarNode(controls: seq<(string, string)>)
    | VStackNode(children: seq<Component>, spacing: nat)
    | DynamicNode(currentState: nat, states: seq<Component>)
    | SpectrumNode(bars: nat, heights: seq<real>, characters: seq<char>)
    | PlaylistNode(tracks: seq<string>, currentIndex: nat, maxVisible: nat)
    | LyricsNode(lyrics: seq<(Duration, string)>, currentLine: Option<nat>, showTimestamp: bool)
    | NetworkStatusNode(status: ConnectionStatus, showDetails: bool)
    | EqualizerNode(presets: seq<string>, current: nat)
    | HStackNode(items: seq<Component>)

  /** The default widgets, as their `new()` constructors build them. */
  function NewProgressBar(): Component { ProgressBarNode('/', ' ', true) }
  function NewVolumeBar(): Component { VolumeBarNode('/', ' ', true) }
  function NewStatusBar(): Component { StatusBarNode(true) }
  function NewControlBar(): Component { ControlBarNode(DefaultControls()) }

  /** `is_visible`: only a dynamic component can be hidden, when its current
      state is missing or hidden itself. */
  predicate IsVisible(c: Component): (r: bool)
    ensures !c.DynamicNode? ==> r
    ensures c.DynamicNode? && c.currentState >= |c.states| ==> !r
    ensures c.DynamicNode? && c.currentState < |c.states| ==> (r <==> IsVisible(c.states[c.currentState]))
    decreases c
  {
    match c
    case DynamicNode(current, states) => current < |states| && IsVisible(states[current])
    case _ => true
  }

  /** The context an `HStack` gives each of its `n` children. */
  function ChildContext(ctx: RenderContext, n: nat): (r: RenderContext)
    requires n > 0
    ensures r.width * n <= ctx.width
    ensures r == ctx.(width := r.width)
  {
    ctx.(width := ctx.width / n)
  }

  /** Rendering does not panic: the leaf conditions, for every child that is
      actually rendered. */
  predicate CanRender(c: Component, ctx: RenderContext)
    decreases c
  {
    match c
    case StatusBarNode(indicator) => StatusBarRenders(indicator, ctx)
    case ControlBarNode(controls) => ControlBarRenders(controls, ctx.width)
    case VStackNode(children, _) =>
      forall i :: 0 <= i < |children| ==> IsVisible(children[i]) ==> CanRender(children[i], ctx)
    case DynamicNode(current, states) => current < |states| ==> CanRender(states[current], ctx)
    case SpectrumNode(bars, _, characters) => SpectrumRenders(bars, characters)
    case PlaylistNode(tracks, current, maxVisible) => PlaylistRenders(tracks, current, maxVisible, ctx.width)
    case EqualizerNode(presets, current) => current < |presets|
    case HStackNode(items) =>
      forall i :: 0 <= i < |items| ==> CanRender(items[i], ctx.(width := ctx.width / |items|))
    case _ => true
  }

  predicate AllRender(ks: seq<Component>, ctx: RenderContext)
  {
    forall i :: 0 <= i < |ks| ==> CanRender(ks[i], ctx)
  }

  predicate VisibleRender(ks: seq<Component>, ctx: RenderContext)
  {
    forall i :: 0 <= i < |ks| ==> IsVisible(ks[i]) ==> CanRender(ks[i], ctx)
  }

  /** `UIComponent::render`. */
  function Render(c: Component, ctx: RenderContext): (r: string)
    requires CanRender(c, ctx)
    ensures c.DynamicNode? && c.currentState >= |c.states| ==> r == ""
    ensures c.HStackNode? && |c.items| == 0 ==> r == ""
    decreases c
  {
    match c
    case LabelNode(text, style) => RenderLabel(text, style)
    case ProgressBarNode(fill, empty, showTime) => RenderProgressBar(fill, empty, showTime, ctx)
    case VolumeBarNode(fill, empty, showPercentage) => RenderVolumeBar(fill, empty, showPercentage, ctx)
    case StatusBarNode(indicator) => RenderStatusBar(indicator, ctx)
    case ControlBarNode(controls) => RenderControlBar(controls, ctx.width)
    case VStackNode(children, spacing) => Join(PopN(Pushed(children, spacing, ctx), spacing), "\n")
    case DynamicNode(current, states) => if current < |states| then Render(states[current], ctx) else ""
    case SpectrumNode(bars, heights, characters) => RenderSpectrum(bars, heights, characters, ctx.width)
    case PlaylistNode(tracks, current, maxVisible) => RenderPlaylist(tracks, current, maxVisible, ctx.width)
    case LyricsNode(lyrics, _, showTimestamp) => RenderLyrics(lyrics, showTimestamp, ctx.position)
    case NetworkStatusNode(status, showDetails) => RenderNetworkStatus(status, showDetails)
    case EqualizerNode(presets, current) => RenderEqualizer(presets, current)
    case HStackNode(items) =>
      if |items| == 0 then "" else Join(RenderAll(items, ChildContext(ctx, |items|)), " ")
  }

  // ---------------------------------------------------------------------------
  // Vertical stacking

  function Blank(n: nat): (r: seq<string>)
    ensures |r| == n && forall i :: 0 <= i < n ==> r[i] == ""
  {
    seq(n, _ => "")
  }

  /** The lines a `VStack` pushes: each visible child's render followed by
      `spacing` empty lines, in order. */
  function Pushed(ks: seq<Component>, spacing: nat, ctx: RenderContext): seq<string>
    requires VisibleRender(ks, ctx)
    decreases ks
  {
    if |ks| == 0 then []
    else
      var last := ks[|ks| - 1];
      Pushed(ks[..|ks| - 1], spacing, ctx) + (if IsVisible(last) then [Render(last, ctx)] + Blank(spacing) else [])
  }

  /** `Vec::pop` repeated `n` times: popping an empty vector does nothing. */
  function PopN(lines: seq<string>, n: nat): (r: seq<string>)
    ensures r == lines[..SatSub(|lines|, n)]
  {
    if n == 0 || |lines| == 0 then lines else PopN(lines[..|lines| - 1], n - 1)
  }

  /** The lines a `VStack` joins: what it pushed, less the trailing spacing. */
  function StackLines(ks: seq<Component>, spacing: nat, ctx: RenderContext): seq<string>
    requires VisibleRender(ks, ctx)
  {
    PopN(Pushed(ks, spacing, ctx), spacing)
  }

  /** The renders of the visible children, in order. */
  function VisibleRenders(ks: seq<Component>, ctx: RenderContext): seq<string>
    requires VisibleRender(ks, ctx)
  {
    if |ks| == 0 then []
    else
      var last := ks[|ks| - 1];
      VisibleRenders(ks[..|ks| - 1], ctx) + (if IsVisible(last) then [Render(last, ctx)] else [])
  }

  /** The independent description of a stack's lines: the renders with `spacing`
      empty lines between consecutive ones, none before the first or after the
      last. */
  function Interleave(rs: seq<string>, spacing: nat): (r: seq<string>)
    ensures |rs| > 0 ==> |r| == |rs| + spacing * (|rs| - 1) && r[|r| - 1] == rs[|rs| - 1]
    ensures |rs| == 0 ==> r == []
  {
    if |rs| <= 1 then rs
    else Interleave(rs[..|rs| - 1], spacing) + Blank(spacing) + [rs[|rs| - 1]]
  }

  /** The push/pop loop of `VStack::render` yields exactly the interleaved
      visible renders: the trailing spacing is removed and nothing else. */
  lemma {:induction false} StackLinesInterleave(ks: seq<Component>, spacing: nat, ctx: RenderContext)
    requires VisibleRender(ks, ctx)
    ensures StackLines(ks, spacing, ctx) == Interleave(VisibleRenders(ks, ctx), spacing)
  {
    var rs := VisibleRenders(ks, ctx);
    PushedExpands(ks, spacing, ctx);
    if |rs| == 0 {
    } else {
      assert Pushed(ks, spacing, ctx) == Interleave(rs, spacing) + Blank(spacing);
    }
  }

  /** What was pushed is the interleaving followed by one trailing run of blanks
      (nothing at all when no child is visible). */
  lemma {:induction false} PushedExpands(ks: seq<Component>, spacing: nat, ctx: RenderContext)
    requires VisibleRender(ks, ctx)
    ensures var rs := VisibleRenders(ks, ctx);
            Pushed(ks, spacing, ctx) == if |rs| == 0 then [] else Interleave(rs, spacing) + Blank(spacing)
  {
    if |ks| > 0 {
      var init := ks[..|ks| - 1];
      assert VisibleRender(init, ctx);
      PushedExpands(init, spacing, ctx);
      var last := ks[|ks| - 1];
      var rs0 := VisibleRenders(init, ctx);
      if IsVisible(last) {
        var rs := rs0 + [Render(last, ctx)];
        assert VisibleRenders(ks, ctx) == rs;
        assert Pushed(ks, spacing, ctx) == Pushed(init, spacing, ctx) + [Render(last, ctx)] + Blank(spacing);
        assert rs[..|rs| - 1] == rs0;
        if |rs0| == 0 {
          assert Interleave(rs, spacing) == [Render(last, ctx)];
        } else {
          assert Interleave(rs, spacing) == Interleave(rs0, spacing) + Blank(spacing) + [Render(last, ctx)];
        }
      } else {
        assert VisibleRenders(ks, ctx) == rs0;
        assert Pushed(ks, spacing, ctx) == Pushed(init, spacing, ctx);
      }
    }
  }

  /** `VStack::height`: the visible children's heights plus `spacing` for every
      gap between children, hidden ones included. */
  function Height(c: Component): (r: nat)
    ensures c.VStackNode? ==> r >= c.spacing * SatSub(|c.children|, 1)
    ensures c.PlaylistNode? ==> r == PlaylistHeight(|c.tracks|, c.maxVisible)
    ensures !c.VStackNode? && !c.PlaylistNode? ==> r == 1
    decreases c
  {
    match c
    case VStackNode(children, spacing) => VisibleHeights(children) + spacing * SatSub(|children|, 1)
    case PlaylistNode(tracks, _, maxVisible) => PlaylistHeight(|tracks|, maxVisible)
    case _ => 1
  }

  function VisibleHeights(ks: seq<Component>): nat
    decreases ks
  {
    if |ks| == 0 then 0
    else
      var last := ks[|ks| - 1];
      VisibleHeights(ks[..|ks| - 1]) + (if IsVisible(last) then Height(last) else 0)
  }

  /** The height a stack's render actually has: spacing only between visible
      children. */
  function CorrectedHeight(c: Component): (r: nat)
    ensures c.VStackNode? ==> r >= c.spacing * SatSub(VisibleCount(c.children), 1)
    ensures c.PlaylistNode? ==> r == PlaylistHeight(|c.tracks|, c.maxVisible)
    ensures !c.VStackNode? && !c.PlaylistNode? ==> r == 1
    decreases c
  {
    match c
    case VStackNode(children, spacing) =>
      CorrectedVisibleHeights(children) + spacing * SatSub(VisibleCount(children), 1)
    case PlaylistNode(tracks, _, maxVisible) => PlaylistHeight(|tracks|, maxVisible)
    case _ => 1
  }

  function CorrectedVisibleHeights(ks: seq<Component>): nat
    decreases ks
  {
    if |ks| == 0 then 0
    else
      var last := ks[|ks| - 1];
      CorrectedVisibleHeights(ks[..|ks| - 1]) + (if IsVisible(last) then CorrectedHeight(last) else 0)
  }

  function VisibleCount(ks: seq<Component>): nat
  {
    if |ks| == 0 then 0
    else VisibleCount(ks[..|ks| - 1]) + (if IsVisible(ks[|ks| - 1]) then 1 else 0)
  }

  /** A child drawn on exactly one line of its own. */
  predicate SingleLine(c: Component, ctx: RenderContext)
  {
    CanRender(c, ctx) && CorrectedHeight(c) == 1 && Render(c, ctx) != "" && PlainLine(Render(c, ctx))
  }

  lemma {:induction false} VisibleRendersSingle(ks: seq<Component>, ctx: RenderContext)
    requires forall i :: 0 <= i < |ks| ==> IsVisible(ks[i]) ==> SingleLine(ks[i], ctx)
    ensures VisibleRender(ks, ctx)
    ensures |VisibleRenders(ks, ctx)| == VisibleCount(ks) == CorrectedVisibleHeights(ks)
    ensures forall j :: 0 <= j < |VisibleRenders(ks, ctx)| ==>
              VisibleRenders(ks, ctx)[j] != "" && PlainLine(VisibleRenders(ks, ctx)[j])
  {
    if |ks| > 0 {
      VisibleRendersSingle(ks[..|ks| - 1], ctx);
    }
  }

  lemma {:induction false} InterleavePlain(rs: seq<string>, spacing: nat)
    requires forall j :: 0 <= j < |rs| ==> PlainLine(rs[j])
    ensures forall j :: 0 <= j < |Interleave(rs, spacing)| ==> PlainLine(Interleave(rs, spacing)[j])
  {
    if |rs| > 1 {
      InterleavePlain(rs[..|rs| - 1], spacing);
      assert forall j :: 0 <= j < spacing ==> PlainLine(Blank(spacing)[j]);
    }
  }

  /** With the corrected height, a stack of one-line children renders to exactly
      as many lines as its height says. */
  lemma StackLinesMatchCorrectedHeight(ks: seq<Component>, spacing: nat, ctx: RenderContext)
    requires forall i :: 0 <= i < |ks| ==> IsVisible(ks[i]) ==> SingleLine(ks[i], ctx)
    ensures CanRender(VStackNode(ks, spacing), ctx)
    ensures |Lines(Render(VStackNode(ks, spacing), ctx))| == CorrectedHeight(VStackNode(ks, spacing))
  {
    VisibleRendersSingle(ks, ctx);
    var rs := VisibleRenders(ks, ctx);
    var lines := Interleave(rs, spacing);
    assert Render(VStackNode(ks, spacing), ctx) == Join(lines, "\n") by {
      StackLinesInterleave(ks, spacing, ctx);
    }
    assert Lines(Join(lines, "\n")) == lines by {
      InterleavePlain(rs, spacing);
      LinesOfJoin(lines);
    }
    assert |lines| == CorrectedHeight(VStackNode(ks, spacing));
  }

  /** As written, `height` also counts the gap before a hidden child: a label
      followed by an empty dynamic component, one line apart, claims two lines
      and renders one. */
  lemma StackHeightOvercounts()
    ensures var stack := VStackNode([LabelNode("a", Normal), DynamicNode(0, [])], 1);
            var ctx := RenderContext(10, Playing, None, 1.0, 0, false, false);
            CanRender(stack, ctx) &&
            Height(stack) == 2 && |Lines(Render(stack, ctx))| == 1
  {
    var ks := [LabelNode("a", Normal), DynamicNode(0, [])];
    var ctx := RenderContext(10, Playing, None, 1.0, 0, false, false);
    assert ks[..1] == [LabelNode("a", Normal)] && ks[..1][..0] == [];
    assert VisibleHeights(ks) == 1;
    StackLinesMatchCorrectedHeight(ks, 1, ctx);
    assert VisibleCount(ks) == 1;
    assert CorrectedHeight(VStackNode(ks, 1)) == 1;
  }

  /** With no spacing the interleaving is the renders themselves. */
  lemma {:induction false} InterleaveNoSpacing(rs: seq<string>)
    ensures Interleave(rs, 0) == rs
  {
    if |rs| > 1 {
      InterleaveNoSpacing(rs[..|rs| - 1]);
      assert rs[..|rs| - 1] + [rs[|rs| - 1]] == rs;
    }
  }

  /** When every child is visible, the visible renders are all the renders. */
  lemma {:induction false} AllVisibleRenders(ks: seq<Component>, ctx: RenderContext)
    requires forall i :: 0 <= i < |ks| ==> IsVisible(ks[i])
    requires AllRender(ks, ctx)
    ensures VisibleRender(ks, ctx)
    ensures VisibleRenders(ks, ctx) == RenderAll(ks, ctx)
  {
    if |ks| > 0 {
      AllVisibleRenders(ks[..|ks| - 1], ctx);
    }
  }

  /** A stack without spacing whose children are all visible draws their renders
      one per line. */
  lemma AllVisibleStack(ks: seq<Component>, ctx: RenderContext)
    requires forall i :: 0 <= i < |ks| ==> IsVisible(ks[i])
    requires AllRender(ks, ctx)
    ensures CanRender(VStackNode(ks, 0), ctx)
    ensures Render(VStackNode(ks, 0), ctx) == Join(RenderAll(ks, ctx), "\n")
  {
    AllVisibleRenders(ks, ctx);
    StackLinesInterleave(ks, 0, ctx);
    InterleaveNoSpacing(RenderAll(ks, ctx));
    assert Render(VStackNode(ks, 0), ctx) == Join(StackLines(ks, 0, ctx), "\n");
  }

  // ---------------------------------------------------------------------------
  // Horizontal stacking

  /** The children's renders, in order, each at the given context. */
  function RenderAll(ks: seq<Component>, ctx: RenderContext): (r: seq<string>)
    requires AllRender(ks, ctx)
    ensures |r| == |ks|
    ensures forall i :: 0 <= i < |ks| ==> r[i] == Render(ks[i], ctx)
    decreases ks
  {
    if |ks| == 0 then []
    else RenderAll(ks[..|ks| - 1], ctx) + [Render(ks[|ks| - 1], ctx)]
  }

  /** When every child keeps to its share of the width, an `HStack` line is no
      wider than the context plus the single spaces between children. */
  lemma HStackWidth(ks: seq<Component>, ctx: RenderContext)
    requires |ks| > 0 && CanRender(HStackNode(ks), ctx)
    requires forall i :: 0 <= i < |ks| ==> |Render(ks[i], ChildContext(ctx, |ks|))| <= ctx.width / |ks|
    ensures |Render(HStackNode(ks), ctx)| <= ctx.width + |ks| - 1
  {
    var parts := RenderAll(ks, ChildContext(ctx, |ks|));
    JoinLength(parts, " ");
    SumLengthsAtMost(parts, ctx.width / |ks|);
  }

  // ---------------------------------------------------------------------------
  // Minimum width

  /** `min_width`: only the bars, labels, the spectrum and the network indicator
      ask for any width. */
  function MinWidth(c: Component): (r: nat)
    ensures c.LabelNode? ==> r == |c.text|
    ensures c.ProgressBarNode? ==> r == (if c.showTime then 20 else 5)
    ensures c.VolumeBarNode? ==> r == (if c.showPercentage then 20 else 12)
    ensures c.SpectrumNode? ==> r == 2 * c.bars
    ensures c.VStackNode? || c.HStackNode? || c.DynamicNode? || c.StatusBarNode? || c.ControlBarNode? ==> r == 0
  {
    match c
    case LabelNode(text, _) => |text|
    case ProgressBarNode(_, _, showTime) => ProgressBarMinWidth(showTime)
    case VolumeBarNode(_, _, showPercentage) => VolumeBarMinWidth(showPercentage)
    case SpectrumNode(bars, _, _) => SpectrumMinWidth(bars)
    case NetworkStatusNode(_, showDetails) => NetworkMinWidth(showDetails)
    case _ => 0
  }

  /** At its minimum width, a label, a network indicator, a spectrum with one
      height per bar, a progress bar with short times or a volume bar with its
      percentage fits on the line. */
  lemma FitsAtMinWidth(c: Component, ctx: RenderContext)
    requires ctx.width == MinWidth(c) && CanRender(c, ctx)
    requires || c.LabelNode?
             || c.NetworkStatusNode?
             || (c.SpectrumNode? && |c.heights| == c.bars)
             || (c.ProgressBarNode? && c.showTime && ShortTimes(ctx))
             || (c.VolumeBarNode? && c.showPercentage && VolumePercent(ctx.volume) < 1000)
    ensures |Render(c, ctx)| <= ctx.width
  {
    if c.SpectrumNode? {
      SpectrumFitsWidth(c.bars, c.heights, c.characters, ctx.width);
    }
  }

  // ---------------------------------------------------------------------------
  // Events

  /** `handle_event` as a value: the result and the component afterwards. Only a
      dynamic component forwards the event (to its current state); stacks keep it
      from their children. */
  function HandleEvent(c: Component, event: ComponentEvent): (r: (EventResult, Component))
    ensures r.0 != Redraw ==> r.1 == c
    ensures IsVisible(r.1) == IsVisible(c)
    ensures c.DynamicNode? && c.currentState >= |c.states| ==> r.0 == Ignored
    ensures !(c.DynamicNode? || c.SpectrumNode? || c.LyricsNode?) ==> r == (Ignored, c)
    decreases c
  {
    match c
    case DynamicNode(current, states) =>
      if current < |states| then
        var (result, state) := HandleEvent(states[current], event);
        assert result != Redraw ==> states[current := state] == states;
        (result, DynamicNode(current, states[current := state]))
      else (Ignored, c)
    case SpectrumNode(_, _, _) => (SpectrumHandleEvent(event), c)
    case LyricsNode(lyrics, currentLine, showTimestamp) =>
      var (result, line) := LyricsHandleEvent(lyrics, currentLine, event);
      (result, LyricsNode(lyrics, line, showTimestamp))
    case _ => (Ignored, c)
  }

  // ---------------------------------------------------------------------------
  // Factory

  /** `ComponentFactory::create_default_layout`: the status line, a dynamic
      component with no states yet, and the control hints unless minimalist. */
  function DefaultLayout(minimalist: bool): (r: Component)
    ensures r.VStackNode? && r.spacing == 0
    ensures |r.children| == (if minimalist then 2 else 3)
    ensures r.children[0] == NewStatusBar() && r.children[1] == DynamicNode(0, [])
    ensures !IsVisible(r.children[1])
    ensures !minimalist ==> r.children[2] == NewControlBar()
  {
    VStackNode([NewStatusBar(), DynamicNode(0, [])] + (if minimalist then [] else [NewControlBar()]), 0)
  }

  /** The renders of the visible children when the second of them is an empty
      dynamic component. */
  lemma VisibleAroundEmptyDynamic(a: Component, ctx: RenderContext)
    requires CanRender(a, ctx) && IsVisible(a)
    ensures VisibleRender([a, DynamicNode(0, [])], ctx)
    ensures VisibleRenders([a, DynamicNode(0, [])], ctx) == [Render(a, ctx)]
  {
    var ks := [a, DynamicNode(0, [])];
    assert ks[..1] == [a] && ks[..1][..0] == [];
    assert VisibleRenders(ks[..1], ctx) == [Render(a, ctx)];
  }

  /** An empty dynamic component after a child leaves no trace in the stack's
      lines. */
  lemma SkipsTrailingEmptyDynamic(a: Component, ctx: RenderContext)
    requires CanRender(a, ctx) && IsVisible(a)
    ensures VisibleRender([a, DynamicNode(0, [])], ctx)
    ensures StackLines([a, DynamicNode(0, [])], 0, ctx) == [Render(a, ctx)]
  {
    VisibleAroundEmptyDynamic(a, ctx);
    StackLinesInterleave([a, DynamicNode(0, [])], 0, ctx);
  }

  /** An empty dynamic component between two children leaves no trace in the
      stack's lines. */
  lemma SkipsInnerEmptyDynamic(a: Component, b: Component, ctx: RenderContext)
    requires CanRender(a, ctx) && CanRender(b, ctx) && IsVisible(a) && IsVisible(b)
    ensures VisibleRender([a, DynamicNode(0, []), b], ctx)
    ensures StackLines([a, DynamicNode(0, []), b], 0, ctx) == [Render(a, ctx), Render(b, ctx)]
  {
    var ks := [a, DynamicNode(0, []), b];
    VisibleAroundEmptyDynamic(a, ctx);
    assert ks[..2] == [a, DynamicNode(0, [])];
    var rs := [Render(a, ctx), Render(b, ctx)];
    assert VisibleRenders(ks, ctx) == rs;
    StackLinesInterleave(ks, 0, ctx);
    assert rs[..1] == [Render(a, ctx)];
    assert Interleave(rs, 0) == rs;
  }

  /** The default layout's empty dynamic component is skipped: the layout shows
      the status line, then the control hints unless minimalist. */
  lemma DefaultLayoutRender(minimalist: bool, ctx: RenderContext)
    requires StatusBarRenders(true, ctx) && ControlBarRenders(DefaultControls(), ctx.width)
    ensures CanRender(DefaultLayout(minimalist), ctx)
    ensures Render(DefaultLayout(minimalist), ctx) ==
            if minimalist then RenderStatusBar(true, ctx)
            else RenderStatusBar(true, ctx) + "\n" + RenderControlBar(DefaultControls(), ctx.width)
  {
    if minimalist {
      assert DefaultLayout(minimalist).children == [NewStatusBar(), DynamicNode(0, [])];
      SkipsTrailingEmptyDynamic(NewStatusBar(), ctx);
    } else {
      assert DefaultLayout(minimalist).children == [NewStatusBar(), DynamicNode(0, []), NewControlBar()];
      SkipsInnerEmptyDynamic(NewStatusBar(), NewControlBar(), ctx);
      var status := RenderStatusBar(true, ctx);
      var controls := RenderControlBar(DefaultControls(), ctx.width);
      assert [status, controls][1..] == [controls];
      assert Join([status, controls], "\n") == status + "\n" + controls;
      assert Render(DefaultLayout(minimalist), ctx) == Join(StackLines(DefaultLayout(minimalist).children, 0, ctx), "\n");
    }
  }
}
