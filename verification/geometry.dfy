/**
 Sizing of the hidden export canvas and the single scale factor applied to
 caption font sizes when a meme is downloaded.

 Pixel dimensions are natural numbers; the scale factor is an exact rational
 (`real`), so the floating-point rounding of the browser's division is not
 modelled.
 */
module Geometry {

  /** Largest side, in pixels, the export canvas may take on either axis. */
  const MaxExportSide: nat := 1920

  /** Side of the reference frame in which caption font sizes are expressed. */
  const ReferenceSide: real := 500.0

  function MinNat(a: nat, b: nat): nat {
    if a <= b then a else b
  }

  function MinReal(a: real, b: real): real {
    if a <= b then a else b
  }

  /** One side of the export canvas: the image's natural side, capped at 1920. */
  function CanvasSide(natural: nat): (side: nat)
    ensures side <= MaxExportSide && side <= natural
    ensures side == natural || side == MaxExportSide
    ensures side == natural <==> natural <= MaxExportSide
  {
    MinNat(natural, MaxExportSide)
  }

  /**
   The export scale factor. The source takes the smaller of the two per-axis
   ratios; that is the same as the smaller side over the reference side, and
   it is positive exactly when the canvas has no empty side.
   */
  function Scale(width: nat, height: nat): (s: real)
    ensures s == MinNat(width, height) as real / ReferenceSide
    ensures s >= 0.0
    ensures s > 0.0 <==> width >= 1 && height >= 1
  {
    MinReal(width as real / ReferenceSide, height as real / ReferenceSide)
  }

  /** Capping never turns a larger image into a smaller canvas. */
  lemma CanvasSideMonotone(a: nat, b: nat)
    requires a <= b
    ensures CanvasSide(a) <= CanvasSide(b)
  {
  }

  /** A canvas that is at least as large on both axes has at least the same scale. */
  lemma ScaleMonotone(w1: nat, h1: nat, w2: nat, h2: nat)
    requires w1 <= w2 && h1 <= h2
    ensures Scale(w1, h1) <= Scale(w2, h2)
  {
  }

  /** Doubling both sides of the canvas doubles the scale factor. */
  lemma ScaleDoubles(w: nat, h: nat)
    ensures Scale(2 * w, 2 * h) == 2.0 * Scale(w, h)
  {
  }
}
