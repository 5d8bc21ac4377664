/**
 * Usable size of the graph canvas: the raw viewport size minus the fixed
 * canvas margins, and its "expanse", the shorter of the two dimensions,
 * which normalises every scale and radius of the focus layout.
 */
module Viewport {
  import opened Common

  /** The fixed canvas margins (CANVAS_MARGINS); only these three sides are used. */
  datatype CanvasMargins = CanvasMargins(top: real, left: real, right: real)

  function ViewportWidth(width: real, margins: CanvasMargins): (w: real)
    ensures w + margins.left + margins.right == width
  {
    width - margins.left - margins.right
  }

  function ViewportHeight(height: real, margins: CanvasMargins): (h: real)
    ensures h + margins.top == height
  {
    height - margins.top
  }

  /** The narrower usable dimension of the viewport. */
  function ViewportExpanse(width: real, height: real, margins: CanvasMargins): (e: real)
    ensures e <= ViewportWidth(width, margins) && e <= ViewportHeight(height, margins)
    ensures e == ViewportWidth(width, margins) || e == ViewportHeight(height, margins)
  {
    Min(ViewportWidth(width, margins), ViewportHeight(height, margins))
  }

  /** Growing the window in either direction never shrinks the expanse. */
  lemma ExpanseMonotone(w1: real, h1: real, w2: real, h2: real, margins: CanvasMargins)
    requires w1 <= w2 && h1 <= h2
    ensures ViewportExpanse(w1, h1, margins) <= ViewportExpanse(w2, h2, margins)
  {
  }
}
