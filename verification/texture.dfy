/**
 * Texture.java: an image sampled at normalised coordinates. The image is
 * never written after construction, so a texture is a value: a grid of
 * Java colour `int`s, row `y` then column `x`.
 */
module Textures {
  import opened JavaMath

  datatype Texture = Texture(image: seq<seq<int>>) {

    /** What a `BufferedImage` guarantees: at least one pixel, rows of equal length, `int` sizes. */
    predicate Valid() {
      0 < |image| <= IntMax && 0 < |image[0]| <= IntMax &&
      forall r :: 0 <= r < |image| ==> |image[r]| == |image[0]|
    }

    function Width(): int
      requires Valid()
    {
      |image[0]|
    }

    function Height(): int
      requires Valid()
    {
      |image|
    }

    /** The column `getPixel` reads: `(int)(x * (width - 1))`. */
    function Column(x: real): int
      requires Valid()
    {
      IntCast(x * (Width() - 1) as real)
    }

    /** The row `getPixel` reads: `(int)(y * (height - 1))`. */
    function Row(y: real): int
      requires Valid()
    {
      IntCast(y * (Height() - 1) as real)
    }

    /**
     * `getPixel(x, y)`: the colour of the pixel at column `Column(x)` and
     * row `Row(y)`, as the 24-bit RGB value the renderer stores. Java's
     * `getRGB` throws for an index outside the image, hence the requirement.
     */
    function GetPixel(x: real, y: real): (c: int)
      requires Valid()
      requires 0 <= Column(x) < Width() && 0 <= Row(y) < Height()
      ensures 0 <= c < 0x100_0000
      ensures c == Rgb(image[Row(y)][Column(x)])
    {
      Rgb(image[Row(y)][Column(x)])
    }
  }

  /** Coordinates in `[0, 1]` always address a pixel of the image. */
  lemma UnitCoordinatesInRange(t: Texture, x: real, y: real)
    requires t.Valid() && 0.0 <= x <= 1.0 && 0.0 <= y <= 1.0
    ensures 0 <= t.Column(x) < t.Width() && 0 <= t.Row(y) < t.Height()
  {
    var w, h := t.Width(), t.Height();
    IndexInRange(x, w);
    assert t.Column(x) == IntCast(x * (w - 1) as real);
    IndexInRange(y, h);
    assert t.Row(y) == IntCast(y * (h - 1) as real);
  }

  /** `(int)(x * (n - 1))` for `x` in `[0, 1]` is an index below `n`. */
  lemma IndexInRange(x: real, n: int)
    requires 0.0 <= x <= 1.0 && 0 < n <= IntMax
    ensures 0 <= IntCast(x * (n - 1) as real) < n
  {
    var m := (n - 1) as real;
    FractionBounded(x, m);
    IntCastInRange(x * m, n - 1);
  }

  /** A fraction of a non-negative quantity lies between zero and the quantity. */
  lemma FractionBounded(x: real, m: real)
    requires 0.0 <= x <= 1.0 && 0.0 <= m
    ensures 0.0 <= x * m <= m
  {
    assert (1.0 - x) * m >= 0.0;
    assert m - x * m == (1.0 - x) * m;
  }

  /** The edges of the unit square map to the first and last column and row. */
  lemma CornersMapToEdges(t: Texture)
    requires t.Valid()
    ensures t.Column(0.0) == 0 && t.Column(1.0) == t.Width() - 1
    ensures t.Row(0.0) == 0 && t.Row(1.0) == t.Height() - 1
  {
    IntCastOfInteger(0);
    IntCastOfInteger(t.Width() - 1);
    IntCastOfInteger(t.Height() - 1);
  }
}
