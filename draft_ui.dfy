/** The draft of the component interface. It builds the same window, layout and
    counter as the released interface, with two differences: the track's `name`
    comes from the track's own name rather than its display name, and the layout
    is handed a copy of the middle component taken when the manager is built,
    while the manager keeps switching its own copy. */
module DraftUI {
  import opened Base
  import opened Text
  import opened Components
  import opened Protocol
  import Tree
  import Window
  import Containers
  import PlayerCore
  import PlayerUI

  /** The layout the draft hands the window: the middle component as it was when
      copied, with the progress bar selected. Whatever the counter says, it draws
      the progress bar, never the volume bar. */
  lemma FrozenLayoutDrawsProgress(minimalist: bool, ctx: RenderContext)
    requires PlayerUI.LayoutFits(ctx.width, minimalist)
    ensures Tree.CanRender(PlayerUI.Layout(PlayerUI.MiddleNode(0), minimalist), ctx)
    ensures Tree.Render(PlayerUI.Layout(PlayerUI.MiddleNode(0), minimalist), ctx) == PlayerUI.Screen(0, minimalist, ctx)
    ensures Tree.Render(PlayerUI.Layout(PlayerUI.MiddleNode(0), minimalist), ctx) != PlayerUI.Screen(1, minimalist, ctx)
  {
    PlayerUI.ManagerLayoutRender(0, minimalist, ctx);
    PlayerUI.ScreensDiffer(minimalist, ctx);
  }

  class UIManager {
    const window: Window.ComponentWindow
    const player: PlayerCore.Player
    const timer: PlayerUI.VolumeTimer
    const middle: Containers.DynamicComponent
    const minimalist: bool
    const progressBarIdx: nat
    const volumeBarIdx: nat

    /** The manager's middle component holds the two bars with one selected; the
        window's root is the layout around the copy taken at construction, which
        has the progress bar selected. */
    predicate Valid()
      reads this, window, middle
    {
      progressBarIdx == 0 && volumeBarIdx == 1 &&
      middle.components == [Tree.NewProgressBar(), Tree.NewVolumeBar()] && middle.currentState < 2 &&
      window.root == PlayerUI.Layout(PlayerUI.MiddleNode(0), minimalist) &&
      window.context.width == window.width && window.context.borderless == window.borderless
    }

    /** `UIManager::new` of the draft: the layout receives a copy of the middle
        component, with the progress bar selected. */
    constructor (player: PlayerCore.Player, timer: PlayerUI.VolumeTimer, width: nat, borderless: bool, minimalist: bool)
      ensures Valid()
      ensures this.player == player && this.timer == timer && this.minimalist == minimalist
      ensures fresh(window) && fresh(middle)
      ensures window.width == width && window.borderless == borderless && window.written == []
      ensures window.borders == Window.Borders(width, borderless)
      ensures window.context == RenderContext(width, Loading, None, 1.0, 0, false, borderless)
      ensures middle.currentState == progressBarIdx
    {
      var w := new Window.ComponentWindow(width, borderless);
      var mid, p, v := PlayerUI.NewMiddle();
      // The copy: the layout holds the component's value, not the object.
      var layout := PlayerUI.NewLayout(mid.AsComponent(), minimalist);
      w.SetRoot(layout);
      window := w;
      this.player := player;
      this.timer := timer;
      middle := mid;
      this.minimalist := minimalist;
      progressBarIdx := p;
      volumeBarIdx := v;
    }

    /** `update` of the draft: the context takes the track's own name, the
        counter switches the manager's copy of the middle component, and the
        window draws its root, which still shows the progress bar. */
    method Update(position: Duration) returns (outcome: Window.DrawOutcome)
      requires Valid() && PlayerUI.LayoutFits(window.width, minimalist)
      modifies window, middle, timer
      ensures Valid()
      ensures window.width == old(window.width) && window.borderless == old(window.borderless)
      ensures window.borders == old(window.borders)
      ensures window.context == PlayerUI.UpdatedContext(old(window.context), player.current, player.paused,
                                                        player.volume, player.bookmarked, position, false)
      ensures middle.currentState ==
              (if PlayerUI.TimerStep(old(timer.value)).0 then volumeBarIdx else progressBarIdx)
      ensures timer.value == PlayerUI.TimerStep(old(timer.value)).1
      ensures outcome == Window.DrawFrame(Lines(PlayerUI.Screen(progressBarIdx, minimalist, window.context)),
                                          window.width, window.borderless, window.borders, true)
      ensures outcome.Drawn? ==> window.written == old(window.written) + [outcome]
      ensures outcome.Failed? ==> window.written == old(window.written)
    {
      var ctx := PlayerUI.UpdatedContext(window.context, player.current, player.paused, player.volume,
                                         player.bookmarked, position, false);
      window.UpdateContext(ctx);
      PlayerUI.SelectBar(middle, timer, progressBarIdx, volumeBarIdx);
      outcome := PlayerUI.RenderLayout(window, progressBarIdx, minimalist);
    }

    /** `handle_event` of the draft: the same filter as the released interface. */
    method HandleEvent(event: UIEvent, position: Duration) returns (outcome: Option<Window.DrawOutcome>)
      requires Valid() && PlayerUI.LayoutFits(window.width, minimalist)
      modifies window, middle, timer
      ensures Valid() && PlayerUI.LayoutFits(window.width, minimalist)
      ensures window.width == old(window.width) && window.borderless == old(window.borderless)
      ensures window.borders == old(window.borders)
      ensures outcome.Some? <==> PlayerUI.RedrawNeeded(event, player.paused, player.CurrentExists())
      ensures outcome.None? ==> unchanged(window, middle, timer)
      ensures outcome.Some? ==> timer.value == PlayerUI.TimerStep(old(timer.value)).1
      ensures outcome.Some? ==>
                outcome.value == Window.DrawFrame(Lines(PlayerUI.Screen(progressBarIdx, minimalist, window.context)),
                                                  window.width, window.borderless, window.borders, true)
    {
      if PlayerUI.RedrawNeeded(event, player.paused, player.CurrentExists()) {
        var drawn := Update(position);
        outcome := Some(drawn);
      } else {
        outcome := None;
      }
    }
  }

  /** Right after `flash_audio`, the draft's update selects the volume bar in the
      manager's copy, yet the window draws the progress bar: the screen drawn is
      not the one for the selected bar. */
  method FlashIsNotShown(m: UIManager, position: Duration) returns (outcome: Window.DrawOutcome)
    requires m.Valid() && PlayerUI.LayoutFits(m.window.width, m.minimalist)
    modifies m.window, m.middle, m.timer
    ensures m.Valid() && PlayerUI.LayoutFits(m.window.width, m.minimalist)
    ensures m.middle.currentState == m.volumeBarIdx
    ensures outcome == Window.DrawFrame(Lines(PlayerUI.Screen(0, m.minimalist, m.window.context)),
                                        m.window.width, m.window.borderless, m.window.borders, true)
    ensures PlayerUI.Screen(0, m.minimalist, m.window.context) !=
            PlayerUI.Screen(m.middle.currentState, m.minimalist, m.window.context)
  {
    m.timer.FlashAudio();
    outcome := m.Update(position);
    PlayerUI.ScreensDiffer(m.minimalist, m.window.context);
  }
}
