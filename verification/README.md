# Fractal2025 core in Dafny

A model of the three pieces of pure logic in the Fractal2025 viewer
(Kotlin, package `ru.gr05307`):

- **Complex arithmetic** (`math/Complex.kt`, module `ComplexMath`). The
  value operators `plus`, `minus`, `times`, `div`, `abs2`, `conjugate`,
  `equals` and the layout choice of `toString` are functions on an immutable
  datatype `Complex`. The in-place operators `plusAssign` … `divAssign`, and
  the pure operators as seen on objects, are methods of the class
  `ComplexRef`, whose fields may be aliased (`a *= a`).
- **Viewport rectangle** (`painting/convertation/Plain.kt`, module
  `PlainView`). It has plane bounds plus a pixel size, the densities
  `xDen`/`yDen` (pixels per unit) and `aspectRatio` with its zero-height
  fallback.
- **Julia escape-time renderer** (`renderJulia` in `julia/JuliaWindow.kt`,
  module `JuliaRender`). The method fills an `array2` with nested loops and
  returns it as a sequence of columns. Its cells are specified by a
  functional reference: the pixel→plane map, the escape loop `Run`, the
  orbit `Orbit` and the colour rule `ColourOf`.

Arithmetic is over Dafny `real`. This idealises the source's `Double`
(plane coordinates) and `Float` (pixel size, colour components) values.
The renderer calls `z.absoluteValue2`, which `Complex.kt` does not define; it
is modelled as `re*re + im*im`, i.e. `Abs2`. Colours are `Black` or
`Hsv(h, s, v)`. The double formatting used by `toString` is a parameter
`show: real -> string`.

## Model

| member | source | states |
|---|---|---|
| ComplexMath.Abs2 | src/main/kotlin/ru/gr05307/math/Complex.kt:43 | `abs2` is never negative |
| ComplexMath.Sum | src/main/kotlin/ru/gr05307/math/Complex.kt:8-9 | subtracting the addend from `a + b` gives `a` back |
| ComplexMath.Difference | src/main/kotlin/ru/gr05307/math/Complex.kt:9 | adding the subtrahend back, component for component, gives the minuend |
| ComplexMath.DifferenceUndoesSum | src/main/kotlin/ru/gr05307/math/Complex.kt:8-9 | `(a + b) - b == a` and `(a - b) + b == a`, component for component |
| ComplexMath.SumCommutes | src/main/kotlin/ru/gr05307/math/Complex.kt:8 | `plus` is commutative |
| ComplexMath.ProductCommutes | src/main/kotlin/ru/gr05307/math/Complex.kt:10 | `times` is commutative |
| ComplexMath.ProductDistributes | src/main/kotlin/ru/gr05307/math/Complex.kt:8-10 | `times` distributes over `plus`: `a * (b + c) == a * b + a * c` |
| ComplexMath.ProductWithConjugate | src/main/kotlin/ru/gr05307/math/Complex.kt:10 | `a * a.conjugate()` is `(a.abs2, 0)` |
| ComplexMath.AbsProduct | src/main/kotlin/ru/gr05307/math/Complex.kt:10 | `abs2` of a product is the product of the `abs2`s |
| ComplexMath.Quotient | src/main/kotlin/ru/gr05307/math/Complex.kt:11-17 | for a divisor with non-zero `abs2`, `(a / b) * b == a` |
| ComplexMath.QuotientViaConjugate | src/main/kotlin/ru/gr05307/math/Complex.kt:11-17 | the denominator of `div` is exactly `b.abs2`: `a / b` is `a * b.conjugate()` scaled by `1 / b.abs2` |
| ComplexMath.QuotientUndoesProduct | src/main/kotlin/ru/gr05307/math/Complex.kt:11-17 | `(a * b) / b == a` for a divisor with non-zero `abs2` |
| ComplexMath.ProductWithZeroFactor | src/main/kotlin/ru/gr05307/math/Complex.kt:10 | a product with a factor of non-zero `abs2` is zero only if the other factor is zero |
| ComplexMath.ConjugateInvolution | src/main/kotlin/ru/gr05307/math/Complex.kt:45 | conjugating twice is the identity, and conjugation keeps `abs2` |
| ComplexMath.ConjugateHomomorphism | src/main/kotlin/ru/gr05307/math/Complex.kt:45 | conjugation commutes with `plus` and `times` |
| ComplexMath.Equals | src/main/kotlin/ru/gr05307/math/Complex.kt:47 | `equals` holds exactly when `other` is a `Complex` with both components equal |
| ComplexMath.EqualsIsEquivalence | src/main/kotlin/ru/gr05307/math/Complex.kt:47 | `equals` is reflexive, symmetric and transitive, and false for a non-`Complex` |
| ComplexMath.LayoutOf | src/main/kotlin/ru/gr05307/math/Complex.kt:50-57 | each of the four `toString` layouts is taken exactly under its condition; a zero imaginary part wins over a zero real part |
| ComplexMath.ToString | src/main/kotlin/ru/gr05307/math/Complex.kt:50-57 | a non-zero imaginary part is printed last, followed by `i`; the real part is printed first unless the value is purely imaginary; the exact text is `im + "i"` for a zero real part, `re + "+" + im + "i"` for a positive imaginary part and `re + im + "i"` for a negative one |
| ComplexMath.ZeroImaginaryPrintsReal | src/main/kotlin/ru/gr05307/math/Complex.kt:52 | a value with zero imaginary part, `0 + 0i` included, prints its real part alone |
| ComplexMath.UnitSuffixIffImaginary | src/main/kotlin/ru/gr05307/math/Complex.kt:50-57 | when no formatted number ends in `i`, the text ends in `i` exactly when the imaginary part is non-zero |
| ComplexMath.DefaultIsZero | src/main/kotlin/ru/gr05307/math/Complex.kt:6 | a `Complex()` built with the default arguments `re = 0.0, im = 0.0` holds zero |
| ComplexMath.ComplexRef.Plus | src/main/kotlin/ru/gr05307/math/Complex.kt:8 | `plus` returns a fresh object holding the sum and modifies no existing object |
| ComplexMath.ComplexRef.Minus | src/main/kotlin/ru/gr05307/math/Complex.kt:9 | `minus` returns a fresh object holding the difference and modifies no existing object |
| ComplexMath.ComplexRef.Times | src/main/kotlin/ru/gr05307/math/Complex.kt:10 | `times` returns a fresh object holding the product and modifies no existing object |
| ComplexMath.ComplexRef.Div | src/main/kotlin/ru/gr05307/math/Complex.kt:11-17 | `div` returns a fresh object holding the quotient and modifies no existing object |
| ComplexMath.ComplexRef.PlusAssign | src/main/kotlin/ru/gr05307/math/Complex.kt:19-22 | `this` ends equal to the old `this + other`, also when aliased; a distinct `other` is unchanged |
| ComplexMath.ComplexRef.MinusAssign | src/main/kotlin/ru/gr05307/math/Complex.kt:24-27 | `this` ends equal to the old `this - other`, also when aliased; a distinct `other` is unchanged |
| ComplexMath.ComplexRef.TimesAssign | src/main/kotlin/ru/gr05307/math/Complex.kt:29-33 | `this` ends equal to the old `this * other` even when `other` is `this` (`a *= a` squares the old `a`) |
| ComplexMath.ComplexRef.DivAssign | src/main/kotlin/ru/gr05307/math/Complex.kt:35-40 | `this` ends equal to the old `this / other` even when `other` is `this` |
| ComplexMath.StagingIsNeeded | src/main/kotlin/ru/gr05307/math/Complex.kt:29-33 | writing the real part before computing the imaginary part, without the temporary `r`, would, for `a *= a`, read the new real part as both `re` and `other.re` and square `1 + i` to `0` instead of `2i` |
| PlainView.Unsized | src/main/kotlin/ru/gr05307/painting/convertation/Plain.kt:3-10 | a viewport built with the default pixel size is `0 × 0` and keeps the given bounds |
| PlainView.XDen | src/main/kotlin/ru/gr05307/painting/convertation/Plain.kt:11 | for a non-zero span, `xDen * (xMax - xMin) == width`, and it is non-negative for a positive span and `width >= 0` |
| PlainView.YDen | src/main/kotlin/ru/gr05307/painting/convertation/Plain.kt:12 | for a non-zero span, `yDen * (yMax - yMin) == height`, and it is non-negative for a positive span and `height >= 0` |
| PlainView.DensityIsUnique | src/main/kotlin/ru/gr05307/painting/convertation/Plain.kt:11-12 | a density makes the span cover the pixel extent if and only if it equals `xDen` (resp. `yDen`) |
| PlainView.AspectRatio | src/main/kotlin/ru/gr05307/painting/convertation/Plain.kt:14-15 | `1.0` when `yMax == yMin`, otherwise the ratio of the spans; positive when both spans are positive |
| PlainView.AspectIgnoresPixelSize | src/main/kotlin/ru/gr05307/painting/convertation/Plain.kt:14-15 | `aspectRatio` depends only on the plane bounds, not on the pixel size |
| PlainView.AspectFromDensities | src/main/kotlin/ru/gr05307/painting/convertation/Plain.kt:11-15 | with non-zero spans and pixel size, `aspectRatio == (width / xDen) / (height / yDen)` |
| JuliaRender.SafeSize | src/main/kotlin/ru/gr05307/julia/JuliaWindow.kt:120-121 | the size used is `max(1, n)`: at least 1, at least `n`, and either 1 or `n` |
| JuliaRender.PlaneCoord | src/main/kotlin/ru/gr05307/julia/JuliaWindow.kt:126-130 | pixel `i` of `n` maps to `4i/n - 2`: pixel 0 to `-2`, and every pixel into `[-2, 2)` |
| JuliaRender.StartPoint | src/main/kotlin/ru/gr05307/julia/JuliaWindow.kt:127-131 | pixel `(xi, yi)` starts at `(4xi/w - 2, 4yi/h - 2)`, inside `[-2, 2)²` for every pixel of the grid |
| JuliaRender.Step | src/main/kotlin/ru/gr05307/julia/JuliaWindow.kt:134-135 | one step leaves `z * z` once `c` is taken away again, and that square has `abs2(z)²` as its `abs2` |
| JuliaRender.Run | src/main/kotlin/ru/gr05307/julia/JuliaWindow.kt:132-137 | the escape loop ends with a count in `[start, 200]`, and below 200 only once `abs2 >= 4` |
| JuliaRender.ColourOf | src/main/kotlin/ru/gr05307/julia/JuliaWindow.kt:138-140 | black exactly at the cap; otherwise `hsv(t·360, 0.8, 0.9)` with hue proportional to the count and in `[0, 360)` |
| JuliaRender.PixelColour | src/main/kotlin/ru/gr05307/julia/JuliaWindow.kt:127-140 | a pixel is black exactly when its escape loop reaches the cap; otherwise its hue is in `[0, 360)` with saturation 0.8 and value 0.9 |
| JuliaRender.CountIterations | src/main/kotlin/ru/gr05307/julia/JuliaWindow.kt:131-137 | the loop `z = z*z; z = z + c; iter++` ends at the count and point of `Run`; the point is the `iter`-th iterate; `iter <= 200`, and below 200 the point has `abs2 >= 4` |
| JuliaRender.RenderJulia | src/main/kotlin/ru/gr05307/julia/JuliaWindow.kt:118-144 | the grid has `max(1, w)` columns of `max(1, h)` cells, and every cell `[xi][yi]` holds the colour of pixel `(xi, yi)` |
| JuliaRender.RunIsFirstExit | src/main/kotlin/ru/gr05307/julia/JuliaWindow.kt:132-137 | the loop stops at the first iterate that has escaped, or at the cap, and its final point is that iterate |
| JuliaRender.EscapeCountCharacterised | src/main/kotlin/ru/gr05307/julia/JuliaWindow.kt:131-137 | the escape count from the start point is the first-exit index of the orbit |
| JuliaRender.FirstExitIsEscapeCount | src/main/kotlin/ru/gr05307/julia/JuliaWindow.kt:131-137 | any count with the first-exit property is the escape count, so the count is unique |
| JuliaRender.BlackIffBounded | src/main/kotlin/ru/gr05307/julia/JuliaWindow.kt:131-140 | a pixel is black exactly when its first 200 iterates all have `abs2 < 4` |
| JuliaRender.CornerPixelEscapesAtOnce | src/main/kotlin/ru/gr05307/julia/JuliaWindow.kt:128-140 | pixel `(0, 0)` starts at `-2 - 2i` with `abs2 = 8`, takes no step and gets hue 0, so it is never black |

## Left out

- ComplexMath.Quotient: requires a divisor with non-zero `abs2`. The source divides regardless and gets IEEE infinities or NaN, which reals cannot represent.
- ComplexMath.ComplexRef.Div: requires a divisor with non-zero `abs2`, for the same reason as `Quotient`.
- ComplexMath.ComplexRef.DivAssign: requires a divisor with non-zero `abs2`, for the same reason as `Quotient`.
- PlainView.XDen: requires `xMax != xMin`. The source divides by the zero span and gets an infinity or NaN.
- PlainView.YDen: requires `yMax != yMin`, for the same reason.
- ComplexMath.ToString: models only which layout is chosen and where the parts go. How a `Double` is formatted is the parameter `show`.
- ComplexMath.Abs2: states non-negativity but not that `abs2` is zero only at the origin. Divisors are guarded by `abs2 != 0` directly, as the source's denominator is.
- IEEE-754 behaviour is not modelled: rounding, NaN, infinities, `NaN != NaN` in `equals`, signed zero. The `Float`-to-`Double` widening of `width`/`height` and the `Float` colour arithmetic are also idealised as exact reals.
- `Complex.abs` (a square root) and `Complex.hashCode` (built on `Double.hashCode` bit patterns) are not modelled.
- The getters of `Plain` are modelled as functions of an immutable value. They assign no field in the source, so "reading changes nothing" holds by construction and has no separate member. The `var` fields' setters and the data-class `copy`/`equals` are not modelled.
- The `JuliaPanel` composable (coroutine launch, the `isRendering` flag, `LaunchedEffect`, canvas drawing) is UI and concurrency and is not modelled.
- `Main.kt` (Compose layout, button wiring) and the audio player `MusicForSleep.kt` are not part of this model. Nor are the view-model, selection, undo and palette code they import from `ru.gr05307.viewmodels` and `ru.gr05307.ui`, which is outside this model.
- Compose's `Color.hsv` conversion to RGB is not modelled; a cell keeps its hue, saturation and value.
