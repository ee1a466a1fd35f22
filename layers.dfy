/**
 * The two command layers: the base layer, in call order, and the overlay
 * layer that popups move their commands into, drained after the base layer.
 */
module Layering {
  import opened GuiTypes

  datatype Layers = Layers(graphics: seq<GuiCmd>, hoveringGraphics: seq<GuiCmd>)

  /** The order in which `drain` hands the commands to the renderer. */
  function Flatten(l: Layers): (r: seq<GuiCmd>)
    ensures |r| == |l.graphics| + |l.hoveringGraphics|
    ensures r[..|l.graphics|] == l.graphics && r[|l.graphics|..] == l.hoveringGraphics
  {
    l.graphics + l.hoveringGraphics
  }

  /**
   * The layer surgery of `show_popup`: the base commands from index `n` on are
   * split off and appended to the overlay after the popup's `window` command.
   */
  function MoveToOverlay(l: Layers, n: nat, window: GuiCmd): (r: Layers)
    requires n <= |l.graphics|
    ensures |r.graphics| == n && |r.hoveringGraphics| == |l.hoveringGraphics| + 1 + |l.graphics| - n
    ensures r.hoveringGraphics[..|l.hoveringGraphics|] == l.hoveringGraphics
    ensures r.hoveringGraphics[|l.hoveringGraphics|] == window
    ensures r.graphics + r.hoveringGraphics[|l.hoveringGraphics| + 1..] == l.graphics
  {
    Layers(l.graphics[..n], l.hoveringGraphics + [window] + l.graphics[n..])
  }

  /** What happens to the layers during a frame: a plain draw, or a whole popup. */
  datatype LayerEvent =
    | Draw(cmd: GuiCmd)
    | Popup(window: GuiCmd, contents: seq<GuiCmd>)

  /** One event: a draw pushes onto the base layer; a popup draws its contents, then moves them. */
  function Apply(l: Layers, e: LayerEvent): Layers {
    match e
    case Draw(c) => l.(graphics := l.graphics + [c])
    case Popup(w, cs) => MoveToOverlay(l.(graphics := l.graphics + cs), |l.graphics|, w)
  }

  function ApplyAll(l: Layers, es: seq<LayerEvent>): Layers
    decreases |es|
  {
    if |es| == 0 then l else ApplyAll(Apply(l, es[0]), es[1..])
  }

  /** The plain draws of a frame, in order. */
  function BaseOf(es: seq<LayerEvent>): seq<GuiCmd>
    decreases |es|
  {
    if |es| == 0 then []
    else match es[0]
      case Draw(c) => [c] + BaseOf(es[1..])
      case Popup(_, _) => BaseOf(es[1..])
  }

  /** The popups of a frame, each as its window command followed by its contents, in order. */
  function OverlayOf(es: seq<LayerEvent>): seq<GuiCmd>
    decreases |es|
  {
    if |es| == 0 then []
    else match es[0]
      case Draw(_) => OverlayOf(es[1..])
      case Popup(w, cs) => [w] + cs + OverlayOf(es[1..])
  }

  /** Whatever the interleaving of draws and popups, base and overlay each keep their own order. */
  lemma {:induction false} ApplyAllSeparates(l: Layers, es: seq<LayerEvent>)
    ensures ApplyAll(l, es) == Layers(l.graphics + BaseOf(es), l.hoveringGraphics + OverlayOf(es))
    decreases |es|
  {
    if |es| > 0 {
      var l1 := Apply(l, es[0]);
      ApplyAllSeparates(l1, es[1..]);
      match es[0]
      case Draw(c) =>
        assert l1.graphics + BaseOf(es[1..]) == l.graphics + BaseOf(es);
      case Popup(w, cs) =>
        assert (l.graphics + cs)[..|l.graphics|] == l.graphics;
        assert (l.graphics + cs)[|l.graphics|..] == cs;
        assert l1.hoveringGraphics + OverlayOf(es[1..]) == l.hoveringGraphics + OverlayOf(es);
    }
  }

  /** Popup contents come after every base command in the drained output, wherever the popup was shown. */
  lemma PopupsDrainLast(es: seq<LayerEvent>)
    ensures Flatten(ApplyAll(Layers([], []), es)) == BaseOf(es) + OverlayOf(es)
  {
    ApplyAllSeparates(Layers([], []), es);
  }

  class GraphicLayers {
    var graphics: seq<GuiCmd>
    var hoveringGraphics: seq<GuiCmd>

    constructor ()
      ensures graphics == [] && hoveringGraphics == []
    {
      graphics, hoveringGraphics := [], [];
    }

    function Value(): Layers
      reads this
    {
      Layers(graphics, hoveringGraphics)
    }

    /** All commands, base layer first, leaving both layers empty. */
    method Drain() returns (allCommands: seq<GuiCmd>)
      modifies this
      ensures allCommands == Flatten(old(Value()))
      ensures graphics == [] && hoveringGraphics == []
    {
      allCommands := graphics;
      graphics := [];
      allCommands := allCommands + hoveringGraphics;
      hoveringGraphics := [];
    }
  }
}
