/** The containers whose children change in place: the vertical and horizontal
    stacks and the dynamic component that shows one of several states. Each keeps
    its children as component values and can be viewed as the `Tree` component
    it stands for. */
module Containers {
  import opened Base
  import opened Text
  import opened Components
  import Tree
  import CustomWidgets

  /** The children after `Vec::remove(index)`: the others, in order. */
  function Without(ks: seq<Tree.Component>, index: nat): (r: seq<Tree.Component>)
    requires index < |ks|
    ensures |r| == |ks| - 1
    ensures forall i :: 0 <= i < index ==> r[i] == ks[i]
    ensures forall i :: index <= i < |r| ==> r[i] == ks[i + 1]
  {
    ks[..index] + ks[index + 1..]
  }

  /** `Container::get_child_mut` as a read: the child at `index`, if there is one. */
  function ChildAt(ks: seq<Tree.Component>, index: nat): (r: Option<Tree.Component>)
    ensures r.Some? <==> index < |ks|
    ensures r.Some? ==> r.value == ks[index]
  {
    if index < |ks| then Some(ks[index]) else None
  }

  /** The pop loop of `VStack::render`: drop up to `n` trailing lines. */
  method PopLines(pushed: seq<string>, n: nat) returns (lines: seq<string>)
    ensures lines == Tree.PopN(pushed, n)
  {
    lines := pushed;
    var k := 0;
    while k < n
      invariant 0 <= k <= n
      invariant lines == Tree.PopN(pushed, k)
    {
      if |lines| > 0 {
        lines := lines[..|lines| - 1];
      }
      k := k + 1;
    }
  }

  class VStack {
    var children: seq<Tree.Component>
    var spacing: nat

    /** `VStack::new().with_spacing(spacing)`. */
    constructor (spacing: nat)
      ensures children == [] && this.spacing == spacing
    {
      children := [];
      this.spacing := spacing;
    }

    function AsComponent(): Tree.Component
      reads this
    {
      Tree.VStackNode(children, spacing)
    }

    function ChildCount(): (r: nat)
      reads this
      ensures r == |children|
    {
      |children|
    }

    method AddChild(c: Tree.Component)
      modifies this
      ensures children == old(children) + [c] && spacing == old(spacing)
      ensures ChildCount() == old(ChildCount()) + 1
    {
      children := children + [c];
    }

    /** Removes and returns the child at `index`; out of range, nothing changes. */
    method RemoveChild(index: nat) returns (removed: Option<Tree.Component>)
      modifies this
      ensures index < |old(children)| ==> removed == Some(old(children)[index]) && children == Without(old(children), index)
      ensures index >= |old(children)| ==> removed == None && children == old(children)
      ensures removed.Some? <==> ChildCount() == old(ChildCount()) - 1
      ensures spacing == old(spacing)
    {
      if index < |children| {
        removed := Some(children[index]);
        children := Without(children, index);
      } else {
        removed := None;
      }
    }

    /** `VStack::render`: push each visible child's render and `spacing` empty
        lines, pop `spacing` lines, join with newlines. The result is the visible
        renders with `spacing` empty lines between consecutive ones. */
    method Render(ctx: RenderContext) returns (r: string)
      requires Tree.CanRender(AsComponent(), ctx)
      ensures r == Tree.Render(AsComponent(), ctx)
      ensures r == Join(Tree.Interleave(Tree.VisibleRenders(children, ctx), spacing), "\n")
    {
      var pushed := PushChildren(ctx);
      var lines := PopLines(pushed, spacing);
      Tree.StackLinesInterleave(children, spacing, ctx);
      r := Join(lines, "\n");
    }

    /** The push loop of `render`: each visible child's render followed by
        `spacing` empty lines. */
    method PushChildren(ctx: RenderContext) returns (lines: seq<string>)
      requires Tree.CanRender(AsComponent(), ctx)
      ensures Tree.VisibleRender(children, ctx)
      ensures lines == Tree.Pushed(children, spacing, ctx)
    {
      lines := [];
      var i := 0;
      while i < |children|
        invariant 0 <= i <= |children|
        invariant Tree.VisibleRender(children[..i], ctx)
        invariant lines == Tree.Pushed(children[..i], spacing, ctx)
      {
        assert children[..i + 1][..i] == children[..i];
        var child := children[i];
        if Tree.IsVisible(child) {
          lines := lines + [Tree.Render(child, ctx)];
          var k := 0;
          while k < spacing
            invariant 0 <= k <= spacing
            invariant lines == Tree.Pushed(children[..i], spacing, ctx) + [Tree.Render(child, ctx)] + Tree.Blank(k)
          {
            lines := lines + [""];
            k := k + 1;
          }
        }
        i := i + 1;
      }
      assert children[..i] == children;
    }
  }

  class HStack {
    var children: seq<Tree.Component>

    constructor ()
      ensures children == []
    {
      children := [];
    }

    function AsComponent(): Tree.Component
      reads this
    {
      Tree.HStackNode(children)
    }

    function ChildCount(): (r: nat)
      reads this
      ensures r == |children|
    {
      |children|
    }

    method AddChild(c: Tree.Component)
      modifies this
      ensures children == old(children) + [c]
      ensures ChildCount() == old(ChildCount()) + 1
    {
      children := children + [c];
    }

    method RemoveChild(index: nat) returns (removed: Option<Tree.Component>)
      modifies this
      ensures index < |old(children)| ==> removed == Some(old(children)[index]) && children == Without(old(children), index)
      ensures index >= |old(children)| ==> removed == None && children == old(children)
      ensures removed.Some? <==> ChildCount() == old(ChildCount()) - 1
    {
      if index < |children| {
        removed := Some(children[index]);
        children := Without(children, index);
      } else {
        removed := None;
      }
    }

    /** `HStack::render`: nothing without children; otherwise every child drawn
        at `width / n`, in order, joined by single spaces. */
    method Render(ctx: RenderContext) returns (r: string)
      requires Tree.CanRender(AsComponent(), ctx)
      ensures r == Tree.Render(AsComponent(), ctx)
      ensures |children| == 0 ==> r == ""
      ensures |children| > 0 ==>
                r == Join(Tree.RenderAll(children, Tree.ChildContext(ctx, |children|)), " ")
    {
      if |children| == 0 {
        return "";
      }
      var childContext := ctx.(width := ctx.width / |children|);
      var parts: seq<string> := [];
      var i := 0;
      while i < |children|
        invariant 0 <= i <= |children|
        invariant Tree.AllRender(children[..i], childContext)
        invariant parts == Tree.RenderAll(children[..i], childContext)
      {
        assert children[..i + 1][..i] == children[..i];
        parts := parts + [Tree.Render(children[i], childContext)];
        i := i + 1;
      }
      assert children[..i] == children;
      r := Join(parts, " ");
    }
  }

  class DynamicComponent {
    var currentState: nat
    var components: seq<Tree.Component>

    constructor ()
      ensures currentState == 0 && components == []
    {
      currentState := 0;
      components := [];
    }

    function AsComponent(): Tree.Component
      reads this
    {
      Tree.DynamicNode(currentState, components)
    }

    /** Appends a state and returns its index. */
    method AddState(c: Tree.Component) returns (index: nat)
      modifies this
      ensures components == old(components) + [c] && currentState == old(currentState)
      ensures index == |components| - 1 && components[index] == c
    {
      components := components + [c];
      index := |components| - 1;
    }

    /** Selects state `s` when it exists; otherwise keeps the current one. */
    method SetState(s: nat)
      modifies this
      ensures s < |components| ==> currentState == s
      ensures s >= |components| ==> currentState == old(currentState)
      ensures components == old(components)
    {
      if s < |components| {
        currentState := s;
      }
    }

    /** Forwards the event to the current state, which may change in place. */
    method HandleEvent(event: ComponentEvent) returns (result: EventResult)
      modifies this
      ensures (result, AsComponent()) == Tree.HandleEvent(old(AsComponent()), event)
      ensures currentState == old(currentState) && |components| == |old(components)|
      ensures old(currentState) >= |old(components)| ==> result == Ignored && components == old(components)
    {
      if currentState < |components| {
        var (res, state) := Tree.HandleEvent(components[currentState], event);
        components := components[currentState := state];
        result := res;
      } else {
        result := Ignored;
      }
    }
  }

  /** A dynamic component whose current state is missing draws nothing, ignores
      every event and is hidden. */
  lemma DynamicOutOfRange(c: Tree.Component, ctx: RenderContext, event: ComponentEvent)
    requires c.DynamicNode? && c.currentState >= |c.states|
    ensures Tree.CanRender(c, ctx) && Tree.Render(c, ctx) == ""
    ensures Tree.HandleEvent(c, event) == (Ignored, c)
    ensures !Tree.IsVisible(c)
  {
  }

  /** Adding a state and selecting the returned index makes it current. */
  method AddAndSelect(d: DynamicComponent, c: Tree.Component) returns (index: nat)
    modifies d
    ensures d.components == old(d.components) + [c]
    ensures index == |d.components| - 1 && d.currentState == index && d.components[index] == c
  {
    index := d.AddState(c);
    d.SetState(index);
  }

  /** Three states added in turn get the indices 0, 1 and 2, and selecting each
      one makes it current. */
  method SwitchBetweenStates() returns (progressIndex: nat, volumeIndex: nat, spectrumIndex: nat, current: nat)
    ensures (progressIndex, volumeIndex, spectrumIndex) == (0, 1, 2)
    ensures current == spectrumIndex
  {
    var d := new DynamicComponent();
    progressIndex := d.AddState(Tree.NewProgressBar());
    volumeIndex := d.AddState(Tree.NewVolumeBar());
    spectrumIndex := d.AddState(Tree.SpectrumNode(10, seq(10, _ => 0.0), CustomWidgets.SPECTRUM_CHARS));
    d.SetState(progressIndex);
    assert d.currentState == progressIndex;
    d.SetState(volumeIndex);
    assert d.currentState == volumeIndex;
    d.SetState(spectrumIndex);
    current := d.currentState;
  }
}
