/** The interface's refresh logic: the volume-flash countdown that picks the
    volume bar or the progress bar, the render context built from the player's
    state, the filter that decides which events redraw, and the manager that owns
    the window and shares its middle component with the layout. */
module PlayerUI {
  import opened Base
  import opened Text
  import opened Components
  import opened Protocol
  import Tree
  import Window
  import Containers
  import PlayerCore

  /** How many updates past the first the volume bar stays up after a change. */
  const AUDIO_BAR_DURATION: nat := 10

  // ---------------------------------------------------------------------------
  // The volume flash

  /** The `VOLUME_TIMER` counter: 0 when idle; otherwise one more than the number
      of updates since the volume was last flashed. */
  class VolumeTimer {
    var value: nat

    constructor ()
      ensures value == 0
    {
      value := 0;
    }

    /** `flash_audio`. */
    method FlashAudio()
      modifies this
      ensures value == 1
    {
      value := 1;
    }
  }

  /** What one update does with the counter: whether it selects the volume bar,
      and the counter's next value. Whatever it starts from, the counter is at
      most `AUDIO_BAR_DURATION + 1` afterwards, and an idle counter stays idle. */
  function TimerStep(timer: nat): (r: (bool, nat))
    ensures r.0 <==> timer > 0
    ensures r.1 <= AUDIO_BAR_DURATION + 1
    ensures timer == 0 ==> r.1 == 0
    ensures 0 < timer <= AUDIO_BAR_DURATION ==> r.1 == timer + 1
    ensures timer > AUDIO_BAR_DURATION ==> r.1 == 0
  {
    if timer == 0 then (false, 0)
    else if timer <= AUDIO_BAR_DURATION then (true, timer + 1)
    else (true, 0)
  }

  /** For `k` updates in a row starting from `timer`: whether each one shows the
      volume bar. */
  function Shows(timer: nat, k: nat): (r: seq<bool>)
    ensures |r| == k
    decreases k
  {
    if k == 0 then [] else [TimerStep(timer).0] + Shows(TimerStep(timer).1, k - 1)
  }

  lemma {:induction false} CountdownShows(t: nat)
    requires 1 <= t <= AUDIO_BAR_DURATION + 1
    ensures Shows(t, AUDIO_BAR_DURATION + 3 - t) == seq(AUDIO_BAR_DURATION + 2 - t, _ => true) + [false]
    decreases AUDIO_BAR_DURATION + 1 - t
  {
    if t == AUDIO_BAR_DURATION + 1 {
      assert Shows(0, 1) == [false];
      assert Shows(t, 2) == [true] + Shows(0, 1);
    } else {
      CountdownShows(t + 1);
      assert Shows(t, AUDIO_BAR_DURATION + 3 - t) == [true] + Shows(t + 1, AUDIO_BAR_DURATION + 2 - t);
      assert [true] + seq(AUDIO_BAR_DURATION + 1 - t, _ => true) == seq(AUDIO_BAR_DURATION + 2 - t, _ => true);
    }
  }

  /** After one flash, exactly `AUDIO_BAR_DURATION + 1` updates in a row show the
      volume bar, and the next one shows the progress bar again. */
  lemma FlashShowsVolumeBar()
    ensures Shows(1, AUDIO_BAR_DURATION + 2) == seq(AUDIO_BAR_DURATION + 1, _ => true) + [false]
  {
    CountdownShows(1);
  }

  /** Without a flash every update shows the progress bar. */
  lemma {:induction false} IdleShowsProgress(k: nat)
    ensures Shows(0, k) == seq(k, _ => false)
  {
    if k > 0 {
      IdleShowsProgress(k - 1);
      assert [false] + seq(k - 1, _ => false) == seq(k, _ => false);
    }
  }

  // ---------------------------------------------------------------------------
  // The render context

  /** `Loading` without a track; otherwise paused or playing by the sink. */
  function PlaybackStateOf(hasTrack: bool, paused: bool): (r: PlaybackState)
    ensures r == Loading <==> !hasTrack
    ensures r == Paused <==> hasTrack && paused
    ensures r == Playing <==> hasTrack && !paused
  {
    if !hasTrack then Loading else if paused then Paused else Playing
  }

  /** The interface shows "playing" exactly when the player reports it plays. */
  lemma PlayingMatchesPlaybackInfo(player: PlayerCore.Player, position: Duration)
    ensures PlaybackStateOf(player.CurrentExists(), player.paused) == Playing <==>
            player.GetPlaybackInfo(position).isPlaying
  {
  }

  /** The track as the components see it. The released interface fills `name`
      from the display name; the draft fills it from the track's own name. */
  function TrackInfoOf(track: TrackMeta, nameFromDisplay: bool): (r: TrackInfo)
    ensures r.displayName == track.displayName && r.width == track.width && r.duration == track.duration
    ensures r.name == if nameFromDisplay then track.displayName else track.name
  {
    TrackInfo(if nameFromDisplay then track.displayName else track.name, track.displayName, track.width, track.duration)
  }

  /** The closure `update` hands to `update_context`: state, track, volume,
      position (zero without a track) and bookmark flag from the player; the
      width and the border setting stay. */
  function UpdatedContext(ctx: RenderContext, current: Option<TrackMeta>, paused: bool, volume: real,
                          bookmarked: bool, position: Duration, nameFromDisplay: bool): (r: RenderContext)
    ensures r.width == ctx.width && r.borderless == ctx.borderless
    ensures r.playbackState == PlaybackStateOf(current.Some?, paused)
    ensures r.trackInfo.Some? <==> current.Some?
    ensures current.Some? ==> r.trackInfo.value == TrackInfoOf(current.value, nameFromDisplay)
    ensures current.None? ==> r.position == 0
    ensures current.Some? ==> r.position == position
    ensures r.volume == volume && r.isBookmarked == bookmarked
  {
    ctx.(playbackState := PlaybackStateOf(current.Some?, paused),
         trackInfo := if current.Some? then Some(TrackInfoOf(current.value, nameFromDisplay)) else None,
         volume := volume,
         position := if current.Some? then position else 0,
         isBookmarked := bookmarked)
  }

  // ---------------------------------------------------------------------------
  // The redraw filter

  /** `handle_event`: a progress update redraws only while a track plays; every
      other event redraws. */
  function RedrawNeeded(event: UIEvent, paused: bool, hasTrack: bool): (r: bool)
    ensures event != UIEvent.ProgressUpdate ==> r
    ensures event == UIEvent.ProgressUpdate ==> (r <==> !paused && hasTrack)
  {
    if event.ProgressUpdate? then !paused && hasTrack else true
  }

  /** Every progress update the player's ticker sends is drawn, as long as the
      player's state has not changed in between. */
  lemma TickerUpdatesAreDrawn(player: PlayerCore.Player)
    requires player.ProgressDue()
    ensures RedrawNeeded(UIEvent.ProgressUpdate, player.paused, player.CurrentExists())
  {
  }

  // ---------------------------------------------------------------------------
  // The layout

  /** The interface width for the `--width` argument. */
  function InterfaceWidth(w: nat): (r: nat)
    ensures r % 2 == 1
    ensures 21 <= r <= 85
    ensures w <= 32 ==> r == 21 + 2 * w
  {
    21 + Min(w, 32) * 2
  }

  /** The middle component: a progress bar (state 0) and a volume bar (state 1). */
  function MiddleNode(state: nat): Tree.Component
  {
    Tree.DynamicNode(state, [Tree.NewProgressBar(), Tree.NewVolumeBar()])
  }

  /** The manager's layout: the status line, the middle component, and the
      control hints unless minimalist, with no spacing. */
  function Layout(middle: Tree.Component, minimalist: bool): Tree.Component
  {
    Tree.VStackNode([Tree.NewStatusBar(), middle] + (if minimalist then [] else [Tree.NewControlBar()]), 0)
  }

  /** Widths at which the layout renders: the status line can be cut and the
      control hints fit. */
  predicate LayoutFits(width: nat, minimalist: bool)
  {
    width >= 3 && (minimalist || ControlBarRenders(DefaultControls(), width))
  }

  /** Every width the interface is started with fits the full layout, and the
      control line spans it exactly. */
  lemma InterfaceWidthFits(w: nat, minimalist: bool)
    ensures LayoutFits(InterfaceWidth(w), minimalist)
    ensures |RenderControlBar(DefaultControls(), InterfaceWidth(w))| == InterfaceWidth(w)
  {
    assert ControlsLength(DefaultControls()) == 19;
    DefaultControlBarFillsWidth(InterfaceWidth(w));
  }

  function MiddleLine(state: nat, ctx: RenderContext): string
  {
    if state == 1 then RenderVolumeBar('/', ' ', true, ctx) else RenderProgressBar('/', ' ', true, ctx)
  }

  /** What the layout draws: the status line, the bar the middle component has
      selected, and the control hints unless minimalist, one per line. */
  function Screen(state: nat, minimalist: bool, ctx: RenderContext): string
    requires LayoutFits(ctx.width, minimalist)
  {
    if minimalist then RenderStatusBar(true, ctx) + "\n" + MiddleLine(state, ctx)
    else RenderStatusBar(true, ctx) + "\n" + MiddleLine(state, ctx) + "\n" + RenderControlBar(DefaultControls(), ctx.width)
  }

  lemma JoinTwo(a: string, b: string, sep: string)
    ensures Join([a, b], sep) == a + sep + b
  {
    assert [a, b][1..] == [b];
  }

  lemma JoinThree(a: string, b: string, c: string, sep: string)
    ensures Join([a, b, c], sep) == a + sep + b + sep + c
  {
    assert [a, b, c][1..] == [b, c];
    JoinTwo(b, c, sep);
  }

  /** With either state selected the middle component is visible and draws that
      state's bar. */
  lemma MiddleRender(state: nat, ctx: RenderContext)
    requires state < 2
    ensures Tree.IsVisible(MiddleNode(state)) && Tree.CanRender(MiddleNode(state), ctx)
    ensures Tree.Render(MiddleNode(state), ctx) == MiddleLine(state, ctx)
  {
  }

  lemma StatusNodeRender(ctx: RenderContext)
    requires ctx.width >= 3
    ensures Tree.CanRender(Tree.NewStatusBar(), ctx)
    ensures Tree.Render(Tree.NewStatusBar(), ctx) == RenderStatusBar(true, ctx)
  {
  }

  lemma ControlNodeRender(ctx: RenderContext)
    requires ControlBarRenders(DefaultControls(), ctx.width)
    ensures Tree.CanRender(Tree.NewControlBar(), ctx)
    ensures Tree.Render(Tree.NewControlBar(), ctx) == RenderControlBar(DefaultControls(), ctx.width)
  {
  }

  /** A stack without spacing of visible children draws them one per line. */
  lemma StackOfTwo(a: Tree.Component, b: Tree.Component, ctx: RenderContext)
    requires Tree.IsVisible(a) && Tree.IsVisible(b) && Tree.CanRender(a, ctx) && Tree.CanRender(b, ctx)
    ensures Tree.CanRender(Tree.VStackNode([a, b], 0), ctx)
    ensures Tree.Render(Tree.VStackNode([a, b], 0), ctx) == Tree.Render(a, ctx) + "\n" + Tree.Render(b, ctx)
  {
    var ks := [a, b];
    assert Tree.AllRender(ks, ctx);
    Tree.AllVisibleStack(ks, ctx);
    var rs := Tree.RenderAll(ks, ctx);
    assert rs == [rs[0], rs[1]];
    JoinTwo(rs[0], rs[1], "\n");
  }

  lemma StackOfThree(a: Tree.Component, b: Tree.Component, c: Tree.Component, ctx: RenderContext)
    requires Tree.IsVisible(a) && Tree.IsVisible(b) && Tree.IsVisible(c)
    requires Tree.CanRender(a, ctx) && Tree.CanRender(b, ctx) && Tree.CanRender(c, ctx)
    ensures Tree.CanRender(Tree.VStackNode([a, b, c], 0), ctx)
    ensures Tree.Render(Tree.VStackNode([a, b, c], 0), ctx) ==
            Tree.Render(a, ctx) + "\n" + Tree.Render(b, ctx) + "\n" + Tree.Render(c, ctx)
  {
    var ks := [a, b, c];
    assert Tree.AllRender(ks, ctx);
    Tree.AllVisibleStack(ks, ctx);
    var rs := Tree.RenderAll(ks, ctx);
    assert rs == [rs[0], rs[1], rs[2]];
    JoinThree(rs[0], rs[1], rs[2], "\n");
  }

  lemma MinimalLayoutRender(state: nat, ctx: RenderContext)
    requires state < 2 && LayoutFits(ctx.width, true)
    ensures Tree.CanRender(Layout(MiddleNode(state), true), ctx)
    ensures Tree.Render(Layout(MiddleNode(state), true), ctx) == Screen(state, true, ctx)
  {
    MiddleRender(state, ctx);
    StatusNodeRender(ctx);
    assert [Tree.NewStatusBar(), MiddleNode(state)] + [] == [Tree.NewStatusBar(), MiddleNode(state)];
    StackOfTwo(Tree.NewStatusBar(), MiddleNode(state), ctx);
  }

  lemma FullLayoutRender(state: nat, ctx: RenderContext)
    requires state < 2 && LayoutFits(ctx.width, false)
    ensures Tree.CanRender(Layout(MiddleNode(state), false), ctx)
    ensures Tree.Render(Layout(MiddleNode(state), false), ctx) == Screen(state, false, ctx)
  {
    MiddleRender(state, ctx);
    StatusNodeRender(ctx);
    ControlNodeRender(ctx);
    assert [Tree.NewStatusBar(), MiddleNode(state)] + [Tree.NewControlBar()] ==
           [Tree.NewStatusBar(), MiddleNode(state), Tree.NewControlBar()];
    StackOfThree(Tree.NewStatusBar(), MiddleNode(state), Tree.NewControlBar(), ctx);
  }

  /** The layout renders as its screen: the status line, the selected bar and
      (unless minimalist) the control hints. */
  lemma ManagerLayoutRender(state: nat, minimalist: bool, ctx: RenderContext)
    requires state < 2 && LayoutFits(ctx.width, minimalist)
    ensures Tree.CanRender(Layout(MiddleNode(state), minimalist), ctx)
    ensures Tree.Render(Layout(MiddleNode(state), minimalist), ctx) == Screen(state, minimalist, ctx)
  {
    if minimalist {
      MinimalLayoutRender(state, ctx);
    } else {
      FullLayoutRender(state, ctx);
    }
  }

  /** `render` on a window whose root is the layout around the given state: the
      frame drawn is that of the screen. */
  method RenderLayout(w: Window.ComponentWindow, state: nat, minimalist: bool) returns (outcome: Window.DrawOutcome)
    requires state < 2 && LayoutFits(w.context.width, minimalist)
    requires w.root == Layout(MiddleNode(state), minimalist)
    modifies w
    ensures w.borderless == old(w.borderless) && w.borders == old(w.borders) && w.width == old(w.width)
    ensures w.root == old(w.root) && w.context == old(w.context)
    ensures outcome == Window.DrawFrame(Lines(Screen(state, minimalist, w.context)),
                                        w.width, w.borderless, w.borders, true)
    ensures outcome.Drawn? ==> w.written == old(w.written) + [outcome]
    ensures outcome.Failed? ==> w.written == old(w.written)
  {
    ManagerLayoutRender(state, minimalist, w.context);
    outcome := w.Render();
  }

  /** The two bars never draw the same line: the progress bar opens with `" ["`,
      the volume bar with `" volume: ["`. */
  lemma BarsDiffer(ctx: RenderContext)
    ensures |MiddleLine(1, ctx)| >= 2 && |MiddleLine(0, ctx)| >= 2
    ensures MiddleLine(1, ctx)[1] != MiddleLine(0, ctx)[1]
  {
  }

  lemma DifferAfter(p: string, x: string, y: string)
    requires |x| >= 2 && |y| >= 2 && x[1] != y[1]
    ensures p + x != p + y
  {
    assert (p + x)[|p| + 1] == x[1];
    assert (p + y)[|p| + 1] == y[1];
  }

  lemma DifferBetween(p: string, x: string, y: string, q: string, t: string)
    requires |x| >= 2 && |y| >= 2 && x[1] != y[1]
    ensures p + x + q + t != p + y + q + t
  {
    assert (p + x + q + t)[|p| + 1] == x[1];
    assert (p + y + q + t)[|p| + 1] == y[1];
  }

  /** So the screen with the volume bar selected differs from the screen with the
      progress bar selected. */
  lemma ScreensDiffer(minimalist: bool, ctx: RenderContext)
    requires LayoutFits(ctx.width, minimalist)
    ensures Screen(1, minimalist, ctx) != Screen(0, minimalist, ctx)
  {
    BarsDiffer(ctx);
    var p := RenderStatusBar(true, ctx) + "\n";
    if minimalist {
      DifferAfter(p, MiddleLine(1, ctx), MiddleLine(0, ctx));
    } else {
      DifferBetween(p, MiddleLine(1, ctx), MiddleLine(0, ctx), "\n", RenderControlBar(DefaultControls(), ctx.width));
    }
  }

  // ---------------------------------------------------------------------------
  // The manager

  /** The counter's part of `update`: a running counter selects the volume bar
      and counts on, or stops after `AUDIO_BAR_DURATION + 1` updates; an idle
      one selects the progress bar. */
  method SelectBar(middle: Containers.DynamicComponent, timer: VolumeTimer, progressBarIdx: nat, volumeBarIdx: nat)
    requires progressBarIdx == 0 && volumeBarIdx == 1
    requires middle.components == [Tree.NewProgressBar(), Tree.NewVolumeBar()]
    modifies middle, timer
    ensures middle.components == old(middle.components)
    ensures middle.currentState == (if TimerStep(old(timer.value)).0 then volumeBarIdx else progressBarIdx)
    ensures timer.value == TimerStep(old(timer.value)).1
  {
    var t := timer.value;
    if t > 0 {
      middle.SetState(volumeBarIdx);
      if t <= AUDIO_BAR_DURATION {
        timer.value := t + 1;
      } else {
        timer.value := 0;
      }
    } else {
      middle.SetState(progressBarIdx);
    }
  }

  /** The middle component of `UIManager::new`: the progress bar and the volume
      bar added in turn, the progress bar selected. */
  method NewMiddle() returns (mid: Containers.DynamicComponent, progressIdx: nat, volumeIdx: nat)
    ensures fresh(mid)
    ensures mid.components == [Tree.NewProgressBar(), Tree.NewVolumeBar()]
    ensures progressIdx == 0 && volumeIdx == 1 && mid.currentState == progressIdx
  {
    mid := new Containers.DynamicComponent();
    progressIdx := mid.AddState(Tree.NewProgressBar());
    volumeIdx := mid.AddState(Tree.NewVolumeBar());
    mid.SetState(progressIdx);
  }

  /** The layout of `UIManager::new`: a stack without spacing of the status bar,
      the given middle component and, unless minimalist, the control bar. */
  method NewLayout(middle: Tree.Component, minimalist: bool) returns (root: Tree.Component)
    ensures root == Layout(middle, minimalist)
  {
    var layout := new Containers.VStack(0);
    layout.AddChild(Tree.NewStatusBar());
    layout.AddChild(middle);
    if !minimalist {
      layout.AddChild(Tree.NewControlBar());
    }
    root := layout.AsComponent();
  }

  class UIManager {
    const window: Window.ComponentWindow
    const player: PlayerCore.Player
    const timer: VolumeTimer
    const middle: Containers.DynamicComponent
    const minimalist: bool
    const progressBarIdx: nat
    const volumeBarIdx: nat

    /** The middle component holds the two bars with one selected, and the
        window's root is the layout around the middle component's current value
        (the layout holds a shared handle to it). */
    predicate Valid()
      reads this, window, middle
    {
      progressBarIdx == 0 && volumeBarIdx == 1 &&
      middle.components == [Tree.NewProgressBar(), Tree.NewVolumeBar()] && middle.currentState < 2 &&
      window.root == Layout(middle.AsComponent(), minimalist) &&
      window.context.width == window.width && window.context.borderless == window.borderless
    }

    /** `UIManager::new`: a window, the middle component with the progress bar
        selected, and the layout around it set as the window's root. */
    constructor (player: PlayerCore.Player, timer: VolumeTimer, width: nat, borderless: bool, minimalist: bool)
      ensures Valid()
      ensures this.player == player && this.timer == timer && this.minimalist == minimalist
      ensures fresh(window) && fresh(middle)
      ensures window.width == width && window.borderless == borderless && window.written == []
      ensures window.borders == Window.Borders(width, borderless)
      ensures window.context == RenderContext(width, Loading, None, 1.0, 0, false, borderless)
      ensures middle.currentState == progressBarIdx
    {
      var w := new Window.ComponentWindow(width, borderless);
      var mid, p, v := NewMiddle();
      var layout := NewLayout(mid.AsComponent(), minimalist);
      w.SetRoot(layout);
      window := w;
      this.player := player;
      this.timer := timer;
      middle := mid;
      this.minimalist := minimalist;
      progressBarIdx := p;
      volumeBarIdx := v;
    }

    /** `update`: refresh the context from the player, let the counter pick the
        bar, and render. The sink's position is an input. */
    method Update(position: Duration) returns (outcome: Window.DrawOutcome)
      requires Valid() && LayoutFits(window.width, minimalist)
      modifies window, middle, timer
      ensures Valid()
      ensures window.width == old(window.width) && window.borderless == old(window.borderless)
      ensures window.borders == old(window.borders)
      ensures window.context == UpdatedContext(old(window.context), player.current, player.paused,
                                               player.volume, player.bookmarked, position, true)
      ensures middle.currentState == (if TimerStep(old(timer.value)).0 then volumeBarIdx else progressBarIdx)
      ensures timer.value == TimerStep(old(timer.value)).1
      ensures outcome == Window.DrawFrame(Lines(Screen(middle.currentState, minimalist, window.context)),
                                          window.width, window.borderless, window.borders, true)
      ensures outcome.Drawn? ==> window.written == old(window.written) + [outcome]
      ensures outcome.Failed? ==> window.written == old(window.written)
    {
      var ctx := UpdatedContext(window.context, player.current, player.paused, player.volume,
                                player.bookmarked, position, true);
      window.UpdateContext(ctx);
      SelectBar(middle, timer, progressBarIdx, volumeBarIdx);
      var state := middle.currentState;
      assert middle.AsComponent() == MiddleNode(state);
      // The layout reaches the middle component through the shared handle, so it
      // draws the state just selected.
      var root := Layout(MiddleNode(state), minimalist);
      window.SetRoot(root);
      outcome := RenderLayout(window, state, minimalist);
    }

    /** `handle_event`: update on every event but a progress update while
        nothing plays. */
    method HandleEvent(event: UIEvent, position: Duration) returns (outcome: Option<Window.DrawOutcome>)
      requires Valid() && LayoutFits(window.width, minimalist)
      modifies window, middle, timer
      ensures Valid()
      ensures outcome.Some? <==> RedrawNeeded(event, player.paused, player.CurrentExists())
      ensures outcome.None? ==> unchanged(window, middle, timer)
      ensures window.width == old(window.width) && window.borderless == old(window.borderless)
      ensures window.borders == old(window.borders)
      ensures outcome.Some? ==> timer.value == TimerStep(old(timer.value)).1
      ensures outcome.Some? ==>
                outcome.value == Window.DrawFrame(Lines(Screen(middle.currentState, minimalist, window.context)),
                                                  window.width, window.borderless, window.borders, true)
      ensures outcome.Some? ==>
                middle.currentState == (if TimerStep(old(timer.value)).0 then volumeBarIdx else progressBarIdx)
    {
      if RedrawNeeded(event, player.paused, player.CurrentExists()) {
        var drawn := Update(position);
        outcome := Some(drawn);
      } else {
        outcome := None;
      }
    }
  }

  /** How many of `events` redraw for a player whose state stays put. */
  function RedrawCount(events: seq<UIEvent>, paused: bool, hasTrack: bool): (r: nat)
    ensures r <= |events|
  {
    if |events| == 0 then 0
    else RedrawCount(events[..|events| - 1], paused, hasTrack) +
         (if RedrawNeeded(events[|events| - 1], paused, hasTrack) then 1 else 0)
  }

  /** `handle_event` as the interface loop sees it: whether it redrew, whether
      the volume bar was drawn, and whether the draw failed. */
  method Dispatch(m: UIManager, event: UIEvent, position: Duration) returns (drew: bool, volume: bool, failed: bool)
    requires m.Valid() && LayoutFits(m.window.width, m.minimalist)
    modifies m.window, m.middle, m.timer
    ensures m.Valid() && LayoutFits(m.window.width, m.minimalist)
    ensures drew <==> RedrawNeeded(event, m.player.paused, m.player.CurrentExists())
    ensures drew ==> volume == TimerStep(old(m.timer.value)).0 && m.timer.value == TimerStep(old(m.timer.value)).1
    ensures !drew ==> m.timer.value == old(m.timer.value) && !failed
  {
    var outcome := m.HandleEvent(event, position);
    drew := outcome.Some?;
    volume := m.middle.currentState == m.volumeBarIdx;
    failed := outcome.Some? && outcome.value.Failed?;
  }

  /** The interface loop: one update, then every event in turn, stopping at the
      first failed draw. `shown` records, for each update, whether it drew the
      volume bar; `positions` are the sink positions each update reads. The
      player does not change while the loop runs. */
  method InterfaceLoop(m: UIManager, events: seq<UIEvent>, positions: seq<Duration>) returns (shown: seq<bool>, failed: bool)
    requires m.Valid() && LayoutFits(m.window.width, m.minimalist)
    requires |positions| == |events| + 1
    modifies m.window, m.middle, m.timer
    ensures m.Valid()
    ensures |shown| >= 1 && shown == Shows(old(m.timer.value), |shown|)
    ensures !failed ==> |shown| == 1 + RedrawCount(events, m.player.paused, m.player.CurrentExists())
  {
    ghost var start := m.timer.value;
    // The first `update` is what a `Redraw` event does.
    var _, volume, firstFailed := Dispatch(m, UIEvent.Redraw, positions[0]);
    ShowsAppend(start, [], start, volume);
    shown := [volume];
    if firstFailed {
      return shown, true;
    }
    shown, failed := EventLoop(m, events, positions[1..], start, shown);
  }

  /** The `loop` of the interface loop, after the first update. */
  method EventLoop(m: UIManager, events: seq<UIEvent>, positions: seq<Duration>, ghost start: nat, shown0: seq<bool>)
    returns (shown: seq<bool>, failed: bool)
    requires m.Valid() && LayoutFits(m.window.width, m.minimalist)
    requires |positions| == |events|
    requires shown0 == Shows(start, |shown0|) && m.timer.value == TimerAfter(start, |shown0|)
    modifies m.window, m.middle, m.timer
    ensures m.Valid()
    ensures |shown| >= |shown0| && shown == Shows(start, |shown|)
    ensures !failed ==> |shown| == |shown0| + RedrawCount(events, m.player.paused, m.player.CurrentExists())
  {
    var paused, hasTrack := m.player.paused, m.player.CurrentExists();
    shown := shown0;
    var i := 0;
    while i < |events|
      invariant 0 <= i <= |events|
      invariant m.Valid() && LayoutFits(m.window.width, m.minimalist)
      invariant |shown| == |shown0| + RedrawCount(events[..i], paused, hasTrack)
      invariant shown == Shows(start, |shown|) && m.timer.value == TimerAfter(start, |shown|)
    {
      assert events[..i + 1][..i] == events[..i];
      ghost var before := m.timer.value;
      var drew, v, f := Dispatch(m, events[i], positions[i]);
      if drew {
        ShowsAppend(start, shown, before, v);
        shown := shown + [v];
        if f {
          return shown, true;
        }
      }
      i := i + 1;
    }
    assert events[..i] == events;
    failed := false;
  }

  /** The counter after `k` updates from `timer`. */
  function TimerAfter(timer: nat, k: nat): nat
    decreases k
  {
    if k == 0 then timer else TimerAfter(TimerStep(timer).1, k - 1)
  }

  /** One more update extends the record by what the counter then says. */
  lemma {:induction false} ShowsExtend(timer: nat, k: nat)
    ensures Shows(timer, k + 1) == Shows(timer, k) + [TimerStep(TimerAfter(timer, k)).0]
    ensures TimerAfter(timer, k + 1) == TimerStep(TimerAfter(timer, k)).1
    decreases k
  {
    if k > 0 {
      ShowsExtend(TimerStep(timer).1, k - 1);
    }
  }

  /** The record so far, extended by what the next update shows. */
  lemma ShowsAppend(start: nat, shown: seq<bool>, before: nat, v: bool)
    requires shown == Shows(start, |shown|) && before == TimerAfter(start, |shown|)
    requires v == TimerStep(before).0
    ensures shown + [v] == Shows(start, |shown| + 1)
    ensures TimerStep(before).1 == TimerAfter(start, |shown| + 1)
  {
    ShowsExtend(start, |shown|);
  }
}
