/**
 * Orientation of the panel: normalising a requested rotation, the screen
 * dimensions each rotation implies, and the per-point coordinate transform.
 * Coordinates and dimensions are unsigned 16-bit words, so every
 * subtraction wraps modulo 2^16.
 */
module Rotation {
  import opened Registers

  /** `a - b` in 16-bit unsigned arithmetic. */
  function Sub16(a: Word, b: Word): (d: Word)
    ensures b <= a ==> d == a - b
    ensures a < b ==> d == a - b + 0x1_0000
  {
    (a - b) % 0x1_0000
  }

  /** Subtracting the same word twice from `a` gives back the original word. */
  lemma Sub16Twice(a: Word, b: Word)
    ensures Sub16(a, Sub16(a, b)) == b
  {
  }

  /** A requested rotation reduced to a quarter-turn count 0..3. */
  function NormalizeRotation(r: Byte): (q: Byte)
    ensures q < 4 && (r - q) % 4 == 0
    ensures r < 4 ==> q == r
  {
    r % 4
  }

  /** True for the quarter turns (90 and 270 degrees) that swap the panel's axes. */
  predicate SwapsAxes(rotation: Byte)
  {
    rotation == 1 || rotation == 3
  }

  /**
   * The current (width, height) for a rotation: the native dimensions for
   * 0 and 180 degrees, the native dimensions exchanged for 90 and 270.
   */
  function Dimensions(rotation: Byte, nativeWidth: Word, nativeHeight: Word): (d: (Word, Word))
    requires rotation < 4
    ensures SwapsAxes(rotation) ==> d == (nativeHeight, nativeWidth)
    ensures !SwapsAxes(rotation) ==> d == (nativeWidth, nativeHeight)
  {
    if rotation == 0 || rotation == 2 then (nativeWidth, nativeHeight)
    else (nativeHeight, nativeWidth)
  }

  /**
   * Screen coordinates of a raw point for a rotation, given the CURRENT
   * (already swapped) width and height. A mirrored coordinate is the one
   * that, added to the raw coordinate, wraps to the dimension. Rotations
   * outside 0..3 leave the point as it is.
   */
  function Rotate(rotation: Byte, width: Word, height: Word, x: Word, y: Word): (r: (Word, Word))
    ensures rotation == 0 || rotation >= 4 ==> r == (x, y)
    ensures rotation == 1 ==> r.0 == y && (r.1 + x) % 0x1_0000 == height
    ensures rotation == 2 ==> (r.0 + x) % 0x1_0000 == width && (r.1 + y) % 0x1_0000 == height
    ensures rotation == 3 ==> (r.0 + y) % 0x1_0000 == width && r.1 == x
  {
    if rotation == 0 then (x, y)
    else if rotation == 1 then (y, Sub16(height, x))
    else if rotation == 2 then (Sub16(width, x), Sub16(height, y))
    else if rotation == 3 then (Sub16(width, y), x)
    else (x, y)
  }

  /** The raw point a screen point came from: the inverse of Rotate. */
  function Unrotate(rotation: Byte, width: Word, height: Word, sx: Word, sy: Word): (Word, Word)
  {
    if rotation == 1 then (Sub16(height, sy), sx)
    else if rotation == 2 then (Sub16(width, sx), Sub16(height, sy))
    else if rotation == 3 then (sy, Sub16(width, sx))
    else (sx, sy)
  }

  /**
   * The transform loses nothing: for every rotation, dimensions and point,
   * Unrotate undoes Rotate and Rotate undoes Unrotate, wrap-around included.
   */
  lemma RotateRoundTrip(rotation: Byte, width: Word, height: Word, x: Word, y: Word)
    ensures var (sx, sy) := Rotate(rotation, width, height, x, y);
            Unrotate(rotation, width, height, sx, sy) == (x, y)
    ensures var (rx, ry) := Unrotate(rotation, width, height, x, y);
            Rotate(rotation, width, height, rx, ry) == (x, y)
  {
    Sub16Twice(width, x);
    Sub16Twice(width, y);
    Sub16Twice(height, x);
    Sub16Twice(height, y);
  }

  /**
   * A raw point inside the native panel lands inside the current screen
   * without wrapping around, when width and height are the dimensions the
   * rotation implies.
   */
  lemma RotateStaysOnScreen(rotation: Byte, nativeWidth: Word, nativeHeight: Word, x: Word, y: Word)
    requires rotation < 4
    requires x <= nativeWidth && y <= nativeHeight
    ensures var (w, h) := Dimensions(rotation, nativeWidth, nativeHeight);
            var (sx, sy) := Rotate(rotation, w, h, x, y);
            sx <= w && sy <= h &&
            (rotation == 1 ==> sy == h - x) &&
            (rotation == 2 ==> sx == w - x && sy == h - y) &&
            (rotation == 3 ==> sx == w - y)
  {
  }

  /** Two half turns on the same screen give the raw point back. */
  lemma HalfTurnTwice(width: Word, height: Word, x: Word, y: Word)
    ensures var (sx, sy) := Rotate(2, width, height, x, y);
            Rotate(2, width, height, sx, sy) == (x, y)
  {
    Sub16Twice(width, x);
    Sub16Twice(height, y);
  }

  /**
   * A quarter turn followed by a three-quarter turn is the identity when the
   * second transform's width is the first one's height.
   */
  lemma QuarterThenThreeQuarters(w1: Word, h1: Word, h3: Word, x: Word, y: Word)
    ensures var (sx, sy) := Rotate(1, w1, h1, x, y);
            Rotate(3, h1, h3, sx, sy) == (x, y)
  {
    Sub16Twice(h1, x);
  }
}
