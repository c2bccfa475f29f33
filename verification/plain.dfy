/** The viewport rectangle `Plain` of the `ru.gr05307.painting.convertation`
    package: a rectangle of the complex plane bound to a pixel size, with
    the derived densities `xDen`, `yDen` (pixels per unit) and the
    `aspectRatio` of the plane rectangle.

    The source's getters are computed on every read from the current
    fields and assign nothing, so the model states them as functions of an
    immutable value. Bounds are exact reals (the source's `Double`s), and
    the pixel size is a real too (the source's `Float`s, widened to
    `Double` in the divisions). */
module PlainView {

  datatype Plain = Plain(xMin: real, xMax: real, yMin: real, yMax: real, width: real, height: real)
  {
    /** Width of the plane rectangle. */
    function XSpan(): real { xMax - xMin }

    /** Height of the plane rectangle. */
    function YSpan(): real { yMax - yMin }
  }

  /** A viewport with the source's default pixel size `0 × 0`. */
  function Unsized(xMin: real, xMax: real, yMin: real, yMax: real): (p: Plain)
    ensures p.width == 0.0 && p.height == 0.0
    ensures p.xMin == xMin && p.xMax == xMax && p.yMin == yMin && p.yMax == yMax
  {
    Plain(xMin, xMax, yMin, yMax, 0.0, 0.0)
  }

  /** `xDen`: pixels per horizontal unit, so that the plane width spans
      exactly `width` pixels. The source has no fallback for a zero span
      (it would divide by zero), so the model requires a non-zero span. */
  function XDen(p: Plain): (d: real)
    requires p.XSpan() != 0.0
    ensures d * p.XSpan() == p.width
    ensures p.XSpan() > 0.0 && p.width >= 0.0 ==> d >= 0.0
  {
    p.width / (p.xMax - p.xMin)
  }

  /** `yDen`: pixels per vertical unit, so that the plane height spans
      exactly `height` pixels; like `xDen`, undefined for a zero span. */
  function YDen(p: Plain): (d: real)
    requires p.YSpan() != 0.0
    ensures d * p.YSpan() == p.height
    ensures p.YSpan() > 0.0 && p.height >= 0.0 ==> d >= 0.0
  {
    p.height / (p.yMax - p.yMin)
  }

  /** `aspectRatio`: width over height of the plane rectangle, falling back
      to `1.0` when the height is zero. */
  function AspectRatio(p: Plain): (a: real)
    ensures p.YSpan() == 0.0 ==> a == 1.0
    ensures p.YSpan() != 0.0 ==> a * p.YSpan() == p.XSpan()
    ensures p.XSpan() > 0.0 && p.YSpan() > 0.0 ==> a > 0.0
  {
    if p.yMax - p.yMin != 0.0 then (p.xMax - p.xMin) / (p.yMax - p.yMin) else 1.0
  }

  /** The densities are uniquely determined: any number of pixels per unit
      that makes the span cover `width` (resp. `height`) pixels is `xDen`
      (resp. `yDen`). */
  lemma DensityIsUnique(p: Plain, dx: real, dy: real)
    requires p.XSpan() != 0.0 && p.YSpan() != 0.0
    ensures dx * p.XSpan() == p.width <==> dx == XDen(p)
    ensures dy * p.YSpan() == p.height <==> dy == YDen(p)
  {
    var sx, sy := p.XSpan(), p.YSpan();
    if dx * sx == p.width {
      assert (dx - XDen(p)) * sx == 0.0;
    }
    if dy * sy == p.height {
      assert (dy - YDen(p)) * sy == 0.0;
    }
  }

  /** The aspect ratio is determined by the plane rectangle alone: changing
      the pixel size does not change it. */
  lemma AspectIgnoresPixelSize(p: Plain, width: real, height: real)
    ensures AspectRatio(p.(width := width, height := height)) == AspectRatio(p)
  {
  }

  /** With non-zero spans and a non-empty pixel size, the aspect ratio is
      also the ratio of the extents measured through the densities. */
  lemma AspectFromDensities(p: Plain)
    requires p.XSpan() != 0.0 && p.YSpan() != 0.0
    requires p.width != 0.0 && p.height != 0.0
    ensures AspectRatio(p) == (p.width / XDen(p)) / (p.height / YDen(p))
  {
    var dx, dy := XDen(p), YDen(p);
    assert p.width / dx == p.XSpan() by {
      assert dx * p.XSpan() == p.width;
      assert dx != 0.0;
    }
    assert p.height / dy == p.YSpan() by {
      assert dy * p.YSpan() == p.height;
      assert dy != 0.0;
    }
  }
}
