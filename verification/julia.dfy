/** The escape-time renderer `renderJulia` of the `ru.gr05307.julia`
    package: it fills a grid of `max(1, w)` columns by `max(1, h)` cells,
    mapping every pixel affinely onto `[-2, 2)²`, iterating `z ← z² + c`
    from there until 200 steps or until `|z|² ≥ 4`, and colouring the pixel
    black when the cap was reached and with a hue proportional to the step
    count otherwise. Arithmetic is exact (the source uses `Double` for the
    plane and `Float` for the colour). */
module JuliaRender {
  import opened ComplexMath

  /** A cell of the result grid: Compose's `Color.Black` or a colour given
      by hue (degrees), saturation and value. */
  datatype Colour = Black | Hsv(h: real, s: real, v: real)

  /** The iteration cap `maxIter`. */
  const MaxIter: nat := 200

  /** Half the side of the square of the plane that is drawn (`scale`). */
  const Scale: real := 2.0

  /** The escape test compares `|z|²` against `2² = 4`. */
  const Bailout: real := 4.0

  /** Saturation and value of every non-black cell. */
  const Saturation: real := 0.8
  const Brightness: real := 0.9

  /** `maxOf(1, n)`: the grid never has fewer than one row or column. */
  function SafeSize(n: int): (s: nat)
    ensures s >= 1 && s >= n
    ensures s == 1 || s == n
  {
    if n < 1 then 1 else n
  }

  /** The plane coordinate of pixel `i` out of `n`: `(i - n/2)/(n/2)·scale`.
      It is the affine map `4i/n - 2`, so the pixels cover `[-2, 2)` in
      steps of `4/n`, starting at `-2`. */
  function PlaneCoord(i: int, n: nat): (x: real)
    requires n >= 1
    ensures x * (n as real) == 4.0 * (i as real) - 2.0 * (n as real)
    ensures i == 0 ==> x == -Scale
    ensures 0 <= i < n ==> -Scale <= x < Scale
  {
    var half := n as real / 2.0;
    var x := (i as real - half) / half * Scale;
    PlaneCoordFacts(i as real, half, x);
    x
  }

  lemma PlaneCoordFacts(i: real, half: real, x: real)
    requires half > 0.0
    requires x == (i - half) / half * 2.0
    ensures x * (2.0 * half) == 4.0 * i - 2.0 * (2.0 * half)
    ensures i == 0.0 ==> x == -2.0
    ensures 0.0 <= i < 2.0 * half ==> -2.0 <= x < 2.0
  {
    var q := (i - half) / half;
    assert q * half == i - half;
    assert x * (2.0 * half) == 4.0 * (q * half);
    if 0.0 <= i < 2.0 * half {
      assert (q + 1.0) * half >= 0.0;
      assert (1.0 - q) * half > 0.0;
    }
  }

  /** The starting point of pixel `(xi, yi)` in a `w × h` grid. */
  function StartPoint(xi: int, yi: int, w: nat, h: nat): (z: Complex)
    requires w >= 1 && h >= 1
    ensures z.re * (w as real) == 4.0 * (xi as real) - 2.0 * (w as real)
    ensures z.im * (h as real) == 4.0 * (yi as real) - 2.0 * (h as real)
    ensures 0 <= xi < w && 0 <= yi < h ==>
      -Scale <= z.re < Scale && -Scale <= z.im < Scale
  {
    Complex(PlaneCoord(xi, w), PlaneCoord(yi, h))
  }

  /** One step of the iteration: `z = z * z` followed by `z = z + c`.
      Taking `c` away again leaves a square whose `abs2` is `abs2(z)²`. */
  function Step(z: Complex, c: Complex): (r: Complex)
    ensures Difference(r, c) == Product(z, z)
    ensures Abs2(Difference(r, c)) == Abs2(z) * Abs2(z)
  {
    AbsProduct(z, z);
    Sum(Product(z, z), c)
  }

  /** The `k`-th iterate of `z0` under `Step`. */
  function Orbit(z0: Complex, c: Complex, k: nat): Complex
  {
    if k == 0 then z0 else Step(Orbit(z0, c, k - 1), c)
  }

  /** The state of the escape loop when it stops. */
  datatype Escape = Escape(iter: nat, z: Complex)

  /** The escape loop started with counter `iter` at `z`: it steps while
      `iter < maxIter` and `|z|² < 4`. It stops within the cap, and when it
      stops below the cap the point has escaped. */
  function Run(z: Complex, c: Complex, iter: nat): (e: Escape)
    requires iter <= MaxIter
    ensures iter <= e.iter <= MaxIter
    ensures e.iter < MaxIter ==> Abs2(e.z) >= Bailout
    decreases MaxIter - iter
  {
    if iter < MaxIter && Abs2(z) < Bailout then Run(Step(z, c), c, iter + 1)
    else Escape(iter, z)
  }

  /** The colour for a final step count: black exactly at the cap, and
      otherwise `hsv(t·360, 0.8, 0.9)` with `t = iter/maxIter`, so the hue
      is proportional to the count and stays in `[0, 360)`. */
  function ColourOf(iter: nat): (col: Colour)
    ensures col == Black <==> iter == MaxIter
    ensures col.Hsv? ==> col.s == Saturation && col.v == Brightness
    ensures col.Hsv? ==> col.h * (MaxIter as real) == 360.0 * (iter as real)
    ensures iter < MaxIter ==> col.Hsv? && 0.0 <= col.h < 360.0
  {
    var t := iter as real / MaxIter as real;
    if iter == MaxIter then Black else Hsv(t * 360.0, Saturation, Brightness)
  }

  /** The colour the renderer gives pixel `(xi, yi)` of a `w × h` grid. */
  function PixelColour(c: Complex, xi: int, yi: int, w: nat, h: nat): (col: Colour)
    requires w >= 1 && h >= 1
    ensures col == Black <==> Run(StartPoint(xi, yi, w, h), c, 0).iter == MaxIter
    ensures col.Hsv? ==> 0.0 <= col.h < 360.0 && col.s == Saturation && col.v == Brightness
  {
    ColourOf(Run(StartPoint(xi, yi, w, h), c, 0).iter)
  }

  /** The escape loop of one pixel (the `while` loop of `renderJulia`): it
      returns the final counter and point, which agree with `Run` and with
      the orbit of the starting point. */
  method CountIterations(z0: Complex, c: Complex) returns (iter: nat, z: Complex)
    ensures Run(z0, c, 0) == Escape(iter, z)
    ensures iter <= MaxIter
    ensures z == Orbit(z0, c, iter)
    ensures iter < MaxIter ==> Abs2(z) >= Bailout
  {
    z := z0;
    iter := 0;
    while iter < MaxIter && Abs2(z) < Bailout
      invariant iter <= MaxIter
      invariant Run(z, c, iter) == Run(z0, c, 0)
      invariant z == Orbit(z0, c, iter)
      decreases MaxIter - iter
    {
      z := Product(z, z);
      z := Sum(z, c);
      iter := iter + 1;
    }
  }

  /** `renderJulia(c, w, h)`: a grid of `max(1, w)` columns of `max(1, h)`
      cells each, where cell `[xi][yi]` holds the colour of pixel
      `(xi, yi)`. The cells start black and the nested loops overwrite each
      one exactly once, in column-major order. */
  method RenderJulia(c: Complex, w: int, h: int) returns (grid: seq<seq<Colour>>)
    ensures |grid| == SafeSize(w)
    ensures forall xi :: 0 <= xi < |grid| ==> |grid[xi]| == SafeSize(h)
    ensures forall xi, yi :: 0 <= xi < |grid| && 0 <= yi < |grid[xi]| ==>
      grid[xi][yi] == PixelColour(c, xi, yi, SafeSize(w), SafeSize(h))
  {
    var width := SafeSize(w);
    var height := SafeSize(h);
    var cells := new Colour[width, height]((_, _) => Black);
    var xi := 0;
    while xi < width
      invariant 0 <= xi <= width
      invariant forall x, y :: 0 <= x < width && 0 <= y < height ==>
        cells[x, y] == if x < xi then PixelColour(c, x, y, width, height) else Black
    {
      var re := PlaneCoord(xi, width);
      var yi := 0;
      while yi < height
        invariant 0 <= yi <= height
        invariant forall x, y :: 0 <= x < width && 0 <= y < height ==>
          cells[x, y] == if x < xi || (x == xi && y < yi) then PixelColour(c, x, y, width, height) else Black
      {
        var im := PlaneCoord(yi, height);
        var iter, _ := CountIterations(Complex(re, im), c);
        cells[xi, yi] := ColourOf(iter);
        yi := yi + 1;
      }
      xi := xi + 1;
    }
    grid := seq(width, x requires 0 <= x < width reads cells =>
      seq(height, y requires 0 <= y < height reads cells => cells[x, y]));
  }

  /** `Run` is the first exit of the orbit: the loop stops at the first
      step count `n` at which the cap is reached or the iterate has
      escaped, and the point it stops at is the `n`-th iterate. */
  lemma {:induction false} RunIsFirstExit(z0: Complex, c: Complex, k: nat)
    requires k <= MaxIter
    ensures var e := Run(Orbit(z0, c, k), c, k);
      && e.z == Orbit(z0, c, e.iter)
      && (forall j :: k <= j < e.iter ==> Abs2(Orbit(z0, c, j)) < Bailout)
      && (e.iter == MaxIter || Abs2(Orbit(z0, c, e.iter)) >= Bailout)
    decreases MaxIter - k
  {
    var z := Orbit(z0, c, k);
    if k < MaxIter && Abs2(z) < Bailout {
      RunIsFirstExit(z0, c, k + 1);
      assert Orbit(z0, c, k + 1) == Step(z, c);
    }
  }

  /** The escape count of a point, characterised without the loop: every
      iterate before it stays inside the bailout circle, and the iterate at
      it is outside unless the cap was reached. */
  lemma EscapeCountCharacterised(z0: Complex, c: Complex)
    ensures var e := Run(z0, c, 0);
      && e.z == Orbit(z0, c, e.iter)
      && (forall j :: 0 <= j < e.iter ==> Abs2(Orbit(z0, c, j)) < Bailout)
      && (e.iter == MaxIter || Abs2(Orbit(z0, c, e.iter)) >= Bailout)
  {
    RunIsFirstExit(z0, c, 0);
  }

  /** Conversely, any count with the first-exit property is the one the
      loop computes. */
  lemma FirstExitIsEscapeCount(z0: Complex, c: Complex, n: nat)
    requires n <= MaxIter
    requires forall j :: 0 <= j < n ==> Abs2(Orbit(z0, c, j)) < Bailout
    requires n == MaxIter || Abs2(Orbit(z0, c, n)) >= Bailout
    ensures Run(z0, c, 0).iter == n
  {
    EscapeCountCharacterised(z0, c);
  }

  /** A pixel is black exactly when its orbit stays inside the bailout
      circle for all of the first `maxIter` iterates. */
  lemma BlackIffBounded(c: Complex, xi: int, yi: int, w: nat, h: nat)
    requires w >= 1 && h >= 1
    ensures PixelColour(c, xi, yi, w, h) == Black <==>
      forall j :: 0 <= j < MaxIter ==> Abs2(Orbit(StartPoint(xi, yi, w, h), c, j)) < Bailout
  {
    var z0 := StartPoint(xi, yi, w, h);
    EscapeCountCharacterised(z0, c);
    if forall j :: 0 <= j < MaxIter ==> Abs2(Orbit(z0, c, j)) < Bailout {
      FirstExitIsEscapeCount(z0, c, MaxIter);
    }
  }

  /** The corner pixel `(0, 0)` starts at `-2 - 2i`, already outside the
      bailout circle (`|z|² = 8`), so it takes no step and gets hue 0:
      it is never black, whatever `c` is. */
  lemma CornerPixelEscapesAtOnce(c: Complex, w: nat, h: nat)
    requires w >= 1 && h >= 1
    ensures StartPoint(0, 0, w, h) == Complex(-2.0, -2.0)
    ensures Abs2(StartPoint(0, 0, w, h)) == 8.0
    ensures Run(StartPoint(0, 0, w, h), c, 0).iter == 0
    ensures PixelColour(c, 0, 0, w, h) == Hsv(0.0, Saturation, Brightness)
  {
  }
}
