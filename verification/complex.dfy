/** Complex numbers with real components, after the `Complex` class of the
    `ru.gr05307.math` package.

    The value semantics (`plus`, `minus`, `times`, `div`, `abs2`, `conjugate`,
    `equals`, `toString`) are pure functions on the datatype `Complex`; the
    in-place operators (`plusAssign` … `divAssign`) live on the mutable
    class `ComplexRef`, whose fields can be aliased. Components are exact
    reals, an idealisation of the source's `Double` fields. */
module ComplexMath {

  /** The value `re + im·i`. */
  datatype Complex = Complex(re: real, im: real)

  /** `0 + 0i`, the default of the source's constructor. */
  const Zero: Complex := Complex(0.0, 0.0)

  /** Squared magnitude `re² + im²` (`abs2`): never negative. */
  function Abs2(z: Complex): (r: real)
    ensures r >= 0.0
  {
    SquareNonNegative(z.re);
    SquareNonNegative(z.im);
    z.re * z.re + z.im * z.im
  }

  /** `plus`: component-wise sum; subtracting the addend again gives the
      original value back. */
  function Sum(z: Complex, w: Complex): (r: Complex)
    ensures Difference(r, w) == z
  {
    Complex(z.re + w.re, z.im + w.im)
  }

  /** `minus`: component-wise difference; adding the subtrahend back to
      each component recovers the minuend. */
  function Difference(z: Complex, w: Complex): (r: Complex)
    ensures r.re + w.re == z.re && r.im + w.im == z.im
  {
    Complex(z.re - w.re, z.im - w.im)
  }

  /** `times`: the complex product. */
  function Product(z: Complex, w: Complex): Complex
  {
    Complex(z.re * w.re - z.im * w.im, z.re * w.im + z.im * w.re)
  }

  /** `div`: the complex quotient, over the denominator `abs2` of the
      divisor. Multiplying the quotient by the divisor gives the dividend
      back. The source divides even by zero (an IEEE infinity or NaN); the
      model demands a non-zero divisor. */
  function Quotient(z: Complex, w: Complex): (q: Complex)
    requires Abs2(w) != 0.0
    ensures Product(q, w) == z
  {
    var d := w.re * w.re + w.im * w.im;
    var q := Complex((z.re * w.re + z.im * w.im) / d, (z.im * w.re - z.re * w.im) / d);
    QuotientTimesDivisor(z, w, q);
    q
  }

  /** `conjugate`: the mirror image in the real axis. */
  function Conjugate(z: Complex): Complex
  {
    Complex(z.re, -z.im)
  }

  /** The argument of `equals(other: Any?)`: either some other object
      (including `null`) or a `Complex`. */
  datatype Operand = NotComplex | IsComplex(value: Complex)

  /** `equals`: true exactly when `other` is a `Complex` with the same
      components, i.e. structurally the same value. */
  function Equals(z: Complex, other: Operand): (b: bool)
    ensures b <==> other == IsComplex(z)
  {
    other.IsComplex? && z.re == other.value.re && z.im == other.value.im
  }

  /** The four layouts `toString` chooses between. */
  datatype Layout =
    | RealOnly       // "$re"
    | ImaginaryOnly  // "${im}i"
    | PlusJoined     // "$re+${im}i"
    | SignJoined     // "$re${im}i", the sign comes from the imaginary part

  /** The branch `toString` takes. The tests run in source order, so a zero
      imaginary part wins over a zero real part. */
  function LayoutOf(z: Complex): (l: Layout)
    ensures l == RealOnly <==> z.im == 0.0
    ensures l == ImaginaryOnly <==> z.im != 0.0 && z.re == 0.0
    ensures l == PlusJoined <==> z.im > 0.0 && z.re != 0.0
    ensures l == SignJoined <==> z.im < 0.0 && z.re != 0.0
  {
    if z.im == 0.0 then RealOnly
    else if z.re == 0.0 then ImaginaryOnly
    else if z.im > 0.0 then PlusJoined
    else SignJoined
  }

  /** True when `s` ends with the imaginary unit `i`. */
  predicate EndsWithUnit(s: string)
  {
    |s| > 0 && s[|s| - 1] == 'i'
  }

  /** True when `t` is a suffix of `s`. */
  predicate EndsWith(s: string, t: string)
  {
    |t| <= |s| && s[|s| - |t|..] == t
  }

  /** `toString`, with the formatting of a single `Double` left as the
      parameter `show`. Only the layout is modelled: the imaginary unit is
      appended exactly when the imaginary part is shown, and the real part,
      when shown, comes first. */
  function ToString(z: Complex, show: real -> string): (s: string)
    ensures z.im != 0.0 ==> EndsWithUnit(s)
    ensures LayoutOf(z) != ImaginaryOnly ==> show(z.re) <= s
    ensures z.im != 0.0 ==> EndsWith(s, show(z.im) + "i")
    ensures z.im != 0.0 && z.re == 0.0 ==> s == show(z.im) + "i"
    ensures z.im > 0.0 && z.re != 0.0 ==> s == show(z.re) + "+" + show(z.im) + "i"
    ensures z.im < 0.0 && z.re != 0.0 ==> s == show(z.re) + show(z.im) + "i"
  {
    match LayoutOf(z)
    case RealOnly => show(z.re)
    case ImaginaryOnly => show(z.im) + "i"
    case PlusJoined => show(z.re) + "+" + show(z.im) + "i"
    case SignJoined => show(z.re) + show(z.im) + "i"
  }

  /** The mutable `Complex` object of the source: two fields that the
      in-place operators overwrite. */
  class ComplexRef {
    var re: real
    var im: real

    /** `Complex(re = 0.0, im = 0.0)`: both components default to zero. */
    constructor (re: real := 0.0, im: real := 0.0)
      ensures Value() == Complex(re, im)
    {
      this.re := re;
      this.im := im;
    }

    /** The value currently held. */
    function Value(): Complex
      reads this
    {
      Complex(re, im)
    }

    /** `plus`: a fresh object; having no `modifies` clause, it changes
        neither operand. */
    method Plus(other: ComplexRef) returns (r: ComplexRef)
      ensures fresh(r)
      ensures r.Value() == Sum(Value(), other.Value())
    {
      r := new ComplexRef(re + other.re, im + other.im);
    }

    /** `minus`: a fresh object; neither operand changes. */
    method Minus(other: ComplexRef) returns (r: ComplexRef)
      ensures fresh(r)
      ensures r.Value() == Difference(Value(), other.Value())
    {
      r := new ComplexRef(re - other.re, im - other.im);
    }

    /** `times`: a fresh object; neither operand changes. */
    method Times(other: ComplexRef) returns (r: ComplexRef)
      ensures fresh(r)
      ensures r.Value() == Product(Value(), other.Value())
    {
      r := new ComplexRef(re * other.re - im * other.im, re * other.im + im * other.re);
    }

    /** `div`: a fresh object; neither operand changes. */
    method Div(other: ComplexRef) returns (r: ComplexRef)
      requires Abs2(other.Value()) != 0.0
      ensures fresh(r)
      ensures r.Value() == Quotient(Value(), other.Value())
    {
      var denom := other.re * other.re + other.im * other.im;
      r := new ComplexRef((re * other.re + im * other.im) / denom, (im * other.re - re * other.im) / denom);
    }

    /** `plusAssign`: `this` becomes the sum of the old values, also when
        `other` is `this` itself; a distinct `other` is left alone. */
    method PlusAssign(other: ComplexRef)
      modifies this
      ensures Value() == Sum(old(Value()), old(other.Value()))
      ensures other != this ==> other.Value() == old(other.Value())
    {
      re := re + other.re;
      im := im + other.im;
    }

    /** `minusAssign`: as `plusAssign`, for the difference. */
    method MinusAssign(other: ComplexRef)
      modifies this
      ensures Value() == Difference(old(Value()), old(other.Value()))
      ensures other != this ==> other.Value() == old(other.Value())
    {
      re := re - other.re;
      im := im - other.im;
    }

    /** `timesAssign`: `this` becomes the product of the old values. The new
        real part is staged in `r` until the new imaginary part has been
        computed, so `a *= a` squares the old `a`. */
    method TimesAssign(other: ComplexRef)
      modifies this
      ensures Value() == Product(old(Value()), old(other.Value()))
      ensures other != this ==> other.Value() == old(other.Value())
    {
      var r := re * other.re - im * other.im;
      im := re * other.im + im * other.re;
      re := r;
    }

    /** `divAssign`: `this` becomes the quotient of the old values, with the
        same staging as `timesAssign`, so `a /= a` gives one. */
    method DivAssign(other: ComplexRef)
      requires Abs2(other.Value()) != 0.0
      modifies this
      ensures Value() == Quotient(old(Value()), old(other.Value()))
      ensures other != this ==> other.Value() == old(other.Value())
    {
      ghost var q := Quotient(Value(), other.Value());
      var denom := other.re * other.re + other.im * other.im;
      var r := (re * other.re + im * other.im) / denom;
      assert r == q.re;
      im := (im * other.re - re * other.im) / denom;
      assert im == q.im;
      re := r;
    }
  }

  /** What `a *= a` would compute if `timesAssign` wrote the real part
      before computing the imaginary part (no temporary `r`): the second
      assignment would then read the new real part both as `re` and, since
      `other` is `this`, as `other.re`. */
  function UnstagedSelfProduct(z: Complex): Complex
  {
    var re' := z.re * z.re - z.im * z.im;
    Complex(re', re' * z.im + z.im * re')
  }

  /** Without the temporary, squaring in place would be wrong: at `1 + i`
      it yields `0` instead of `2i`. */
  lemma StagingIsNeeded()
    ensures UnstagedSelfProduct(Complex(1.0, 1.0)) == Zero
    ensures UnstagedSelfProduct(Complex(1.0, 1.0)) != Product(Complex(1.0, 1.0), Complex(1.0, 1.0))
    ensures Product(Complex(1.0, 1.0), Complex(1.0, 1.0)) == Complex(0.0, 2.0)
  {
  }

  // ---------------------------------------------------------------------
  // Algebraic identities

  lemma SquareNonNegative(x: real)
    ensures x * x >= 0.0
  {
    if x < 0.0 {
      assert x * x == (-x) * (-x);
    }
  }

  /** The quotient formula undoes multiplication by the divisor. */
  lemma QuotientTimesDivisor(z: Complex, w: Complex, q: Complex)
    requires w.re * w.re + w.im * w.im != 0.0
    requires q.re == (z.re * w.re + z.im * w.im) / (w.re * w.re + w.im * w.im)
    requires q.im == (z.im * w.re - z.re * w.im) / (w.re * w.re + w.im * w.im)
    ensures Product(q, w) == z
  {
    var d := w.re * w.re + w.im * w.im;
    var x := z.re * w.re + z.im * w.im;
    var y := z.im * w.re - z.re * w.im;
    assert q.re * d == x;
    assert q.im * d == y;
    calc {
      (q.re * w.re - q.im * w.im) * d;
      (q.re * d) * w.re - (q.im * d) * w.im;
      x * w.re - y * w.im;
      z.re * d;
    }
    calc {
      (q.re * w.im + q.im * w.re) * d;
      (q.re * d) * w.im + (q.im * d) * w.re;
      x * w.im + y * w.re;
      z.im * d;
    }
    CancelFactor(q.re * w.re - q.im * w.im, z.re, d);
    CancelFactor(q.re * w.im + q.im * w.re, z.im, d);
  }

  lemma CancelFactor(a: real, b: real, d: real)
    requires d != 0.0
    requires a * d == b * d
    ensures a == b
  {
    assert (a - b) * d == 0.0;
  }

  /** `plus` is commutative. */
  lemma SumCommutes(z: Complex, w: Complex)
    ensures Sum(z, w) == Sum(w, z)
  {
  }

  /** `minus` undoes `plus`: `(a + b) - b` has the components of `a`. */
  lemma DifferenceUndoesSum(z: Complex, w: Complex)
    ensures Difference(Sum(z, w), w) == z
    ensures Sum(Difference(z, w), w) == z
  {
  }

  /** `times` is commutative. */
  lemma ProductCommutes(z: Complex, w: Complex)
    ensures Product(z, w) == Product(w, z)
  {
  }

  /** A value times its conjugate is the real number `abs2`. */
  lemma ProductWithConjugate(z: Complex)
    ensures Product(z, Conjugate(z)) == Complex(Abs2(z), 0.0)
  {
  }

  /** `conjugate` is an involution and keeps `abs2`. */
  lemma ConjugateInvolution(z: Complex)
    ensures Conjugate(Conjugate(z)) == z
    ensures Abs2(Conjugate(z)) == Abs2(z)
  {
  }

  /** The denominator of `div` is exactly `abs2` of the divisor: the
      quotient is the dividend times the divisor's conjugate, scaled down
      by that `abs2`. */
  lemma QuotientViaConjugate(z: Complex, w: Complex)
    requires Abs2(w) != 0.0
    ensures var p := Product(z, Conjugate(w));
      Quotient(z, w) == Complex(p.re / Abs2(w), p.im / Abs2(w))
  {
  }

  /** Dividing a product by one factor recovers the other. */
  lemma QuotientUndoesProduct(z: Complex, w: Complex)
    requires Abs2(w) != 0.0
    ensures Quotient(Product(z, w), w) == z
  {
    var p := Product(z, w);
    var q := Quotient(p, w);
    assert Product(q, w) == Product(z, w);
    var d := Abs2(w);
    // (q - z)·w == 0 with w != 0 forces q == z.
    var e := Difference(q, z);
    assert Product(e, w) == Zero by {
      assert Product(e, w).re == Product(q, w).re - Product(z, w).re;
      assert Product(e, w).im == Product(q, w).im - Product(z, w).im;
    }
    ProductWithZeroFactor(e, w);
  }

  /** The complex numbers have no zero divisors. */
  lemma ProductWithZeroFactor(e: Complex, w: Complex)
    requires Abs2(w) != 0.0
    requires Product(e, w) == Zero
    ensures e == Zero
  {
    var c, d := w.re, w.im;
    var n := c * c + d * d;
    var u := e.re * c - e.im * d;
    var v := e.re * d + e.im * c;
    assert u == 0.0 && v == 0.0;
    assert e.re * n == c * u + d * v;
    assert e.im * n == c * v - d * u;
    CancelFactor(e.re, 0.0, n);
    CancelFactor(e.im, 0.0, n);
  }

  /** `abs2` is multiplicative. */
  lemma AbsProduct(z: Complex, w: Complex)
    ensures Abs2(Product(z, w)) == Abs2(z) * Abs2(w)
  {
    var a, b, c, d := z.re, z.im, w.re, w.im;
    calc {
      Abs2(Product(z, w));
      (a * c - b * d) * (a * c - b * d) + (a * d + b * c) * (a * d + b * c);
      a * a * c * c + b * b * d * d + a * a * d * d + b * b * c * c;
      (a * a + b * b) * (c * c + d * d);
    }
  }

  /** `times` distributes over `plus`. */
  lemma ProductDistributes(z: Complex, w: Complex, v: Complex)
    ensures Product(z, Sum(w, v)) == Sum(Product(z, w), Product(z, v))
  {
  }

  /** `conjugate` commutes with `plus` and `times`. */
  lemma ConjugateHomomorphism(z: Complex, w: Complex)
    ensures Conjugate(Sum(z, w)) == Sum(Conjugate(z), Conjugate(w))
    ensures Conjugate(Product(z, w)) == Product(Conjugate(z), Conjugate(w))
  {
  }

  /** A fresh `ComplexRef` built with the default arguments holds zero. */
  method DefaultIsZero() returns (r: ComplexRef)
    ensures r.Value() == Zero
  {
    r := new ComplexRef();
  }

  /** `equals` is an equivalence relation. */
  lemma EqualsIsEquivalence(z: Complex, w: Complex, v: Complex)
    ensures Equals(z, IsComplex(z))
    ensures Equals(z, IsComplex(w)) ==> Equals(w, IsComplex(z))
    ensures Equals(z, IsComplex(w)) && Equals(w, IsComplex(v)) ==> Equals(z, IsComplex(v))
    ensures !Equals(z, NotComplex)
  {
  }

  /** A value with zero imaginary part, `0 + 0i` included, prints its real
      part alone. */
  lemma ZeroImaginaryPrintsReal(z: Complex, show: real -> string)
    requires z.im == 0.0
    ensures ToString(z, show) == show(z.re)
    ensures ToString(Zero, show) == show(0.0)
  {
  }

  /** When no formatted number ends in `i` (Kotlin's `Double.toString`
      never does), the text ends in `i` exactly when the imaginary part is
      non-zero. */
  lemma UnitSuffixIffImaginary(z: Complex, show: real -> string)
    requires forall x :: !EndsWithUnit(show(x))
    ensures EndsWithUnit(ToString(z, show)) <==> z.im != 0.0
  {
  }
}
