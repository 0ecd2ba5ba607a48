/**
 * The box rescaling loop of `FaceSystem.detect_faces`: detection runs on a
 * frame shrunk by `scale_factor`, and every returned coordinate is mapped
 * back by `int(c / scale_factor)`.
 */
module Rescaling {

  /** The factor `detect_faces` shrinks the frame by when the caller gives none. */
  const DEFAULT_SCALE: real := 0.25

  /** A face location as the library reports it: `(top, right, bottom, left)`. */
  datatype Box = Box(top: int, right: int, bottom: int, left: int)

  /** Python's `int(x)` on a float: rounds toward zero. */
  function Trunc(x: real): (r: int)
    ensures 0.0 <= x ==> r as real <= x < r as real + 1.0
    ensures x < 0.0 ==> r as real - 1.0 < x <= r as real
  {
    if x >= 0.0 then x.Floor else -((-x).Floor)
  }

  /** Truncation keeps the order of its arguments. */
  lemma TruncMonotone(x: real, y: real)
    requires x <= y
    ensures Trunc(x) <= Trunc(y)
  {
  }

  /**
   * One coordinate mapped back to the full-size frame: the integer part of
   * `c / scaleFactor`, rounded toward zero.
   */
  function ScaleCoord(c: int, scaleFactor: real): (r: int)
    requires scaleFactor > 0.0
    ensures 0 <= c ==> r as real <= c as real / scaleFactor < r as real + 1.0
    ensures c < 0 ==> r as real - 1.0 < c as real / scaleFactor <= r as real
  {
    Trunc(c as real / scaleFactor)
  }

  /** Rescaling one coordinate keeps the order of coordinates. */
  lemma ScaleCoordMonotone(c: int, d: int, scaleFactor: real)
    requires scaleFactor > 0.0
    ensures c <= d ==> ScaleCoord(c, scaleFactor) <= ScaleCoord(d, scaleFactor)
  {
    if c <= d {
      assert c as real / scaleFactor <= d as real / scaleFactor;
      TruncMonotone(c as real / scaleFactor, d as real / scaleFactor);
    }
  }

  /**
   * One box mapped back coordinate by coordinate; a well-formed box
   * (`top <= bottom`, `left <= right`) stays well formed.
   */
  function ScaleBox(b: Box, scaleFactor: real): (r: Box)
    requires scaleFactor > 0.0
    ensures b.top <= b.bottom ==> r.top <= r.bottom
    ensures b.left <= b.right ==> r.left <= r.right
  {
    ScaleCoordMonotone(b.top, b.bottom, scaleFactor);
    ScaleCoordMonotone(b.left, b.right, scaleFactor);
    Box(ScaleCoord(b.top, scaleFactor), ScaleCoord(b.right, scaleFactor),
        ScaleCoord(b.bottom, scaleFactor), ScaleCoord(b.left, scaleFactor))
  }

  /** A scale factor `1/n` multiplies every coordinate by `n` exactly. */
  lemma ScaleCoordReciprocal(c: int, n: nat)
    requires n > 0
    ensures ScaleCoord(c, 1.0 / n as real) == c * n
  {
  }

  /** With the default factor 0.25 every coordinate is multiplied by 4. */
  lemma ScaleCoordDefault(c: int)
    ensures ScaleCoord(c, DEFAULT_SCALE) == 4 * c
  {
  }

  /** The worked case: at factor 0.5, (10, 20, 30, 5) becomes (20, 40, 60, 10). */
  lemma ScaleBoxHalfExample()
    ensures ScaleBox(Box(10, 20, 30, 5), 0.5) == Box(20, 40, 60, 10)
  {
  }
}
