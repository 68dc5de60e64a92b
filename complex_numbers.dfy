/**
 * Complex numbers over exact reals, with the two per-element quantities the
 * visualiser derives from a function's output: the modulus (here its square)
 * and the phase (here a rational pseudo-angle, see Phase).
 */
module ComplexNumbers {

  datatype Complex = Complex(re: real, im: real)

  const Zero := Complex(0.0, 0.0)
  const One := Complex(1.0, 0.0)
  /** The imaginary unit, Python's `1j`. */
  const J := Complex(0.0, 1.0)

  /** A real number seen as a complex one. */
  function Of(x: real): Complex {
    Complex(x, 0.0)
  }

  function Add(z: Complex, w: Complex): Complex {
    Complex(z.re + w.re, z.im + w.im)
  }

  function Sub(z: Complex, w: Complex): Complex {
    Complex(z.re - w.re, z.im - w.im)
  }

  function Mul(z: Complex, w: Complex): Complex {
    Complex(z.re * w.re - z.im * w.im, z.re * w.im + z.im * w.re)
  }

  function Conj(z: Complex): Complex {
    Complex(z.re, -z.im)
  }

  /** Squared Euclidean modulus |z|^2 = re^2 + im^2. */
  function ModulusSq(z: Complex): (m: real)
    ensures m >= 0.0
  {
    NonNegativeSquare(z.re);
    NonNegativeSquare(z.im);
    z.re * z.re + z.im * z.im
  }

  lemma NonNegativeSquare(x: real)
    ensures x * x >= 0.0
  {
    if x < 0.0 { assert x * x == (-x) * (-x); }
  }

  /** Only zero has modulus zero. */
  lemma ModulusSqPositive(z: Complex)
    requires z != Zero
    ensures ModulusSq(z) > 0.0
  {
    assert z.re != 0.0 || z.im != 0.0;
    calc {
      ModulusSq(z);
    ==
      z.re * z.re + z.im * z.im;
    >
      0.0;
    }
  }

  lemma ModulusSqZero(z: Complex)
    ensures ModulusSq(z) == 0.0 <==> z == Zero
  {
    if z != Zero { ModulusSqPositive(z); }
  }

  /**
   * Complex division: z / w is the number q with q * w == z. Exact arithmetic
   * has no inf or nan, so the divisor must not be zero; for every other
   * divisor the quotient exists (Divisible) and is unique (MulCancel), and
   * DivFormula shows it is the familiar z * conj(w) / |w|^2.
   */
  function Div(z: Complex, w: Complex): (q: Complex)
    requires w != Zero
    ensures Mul(q, w) == z
  {
    Divisible(z, w);
    MulCancel(w);
    var q :| Mul(q, w) == z; q
  }

  /** Any q with q * w == z is the quotient z / w. */
  lemma DivBy(z: Complex, w: Complex, q: Complex)
    requires w != Zero && Mul(q, w) == z
    ensures Div(z, w) == q
  {
    MulCancel(w);
  }

  /** The quotient in closed form: z * conj(w) / |w|^2. */
  lemma DivFormula(z: Complex, w: Complex)
    requires w != Zero
    ensures ModulusSq(w) > 0.0
    ensures Div(z, w) == Complex((z.re * w.re + z.im * w.im) / ModulusSq(w), (z.im * w.re - z.re * w.im) / ModulusSq(w))
  {
    ModulusSqPositive(w);
    var d := ModulusSq(w);
    DivCancels(z, w, d);
    DivBy(z, w, Complex((z.re * w.re + z.im * w.im) / d, (z.im * w.re - z.re * w.im) / d));
  }

  lemma Divisible(z: Complex, w: Complex)
    requires w != Zero
    ensures exists q :: Mul(q, w) == z
  {
    ModulusSqPositive(w);
    var d := ModulusSq(w);
    DivCancels(z, w, d);
  }

  /** A non-zero factor cancels: q1 * w == q2 * w only when q1 == q2. */
  lemma MulCancel(w: Complex)
    requires w != Zero
    ensures forall q1, q2 :: Mul(q1, w) == Mul(q2, w) ==> q1 == q2
  {
    forall q1, q2 | Mul(q1, w) == Mul(q2, w)
      ensures q1 == q2
    {
      MulCancelPair(q1, q2, w);
    }
  }

  lemma MulCancelPair(q1: Complex, q2: Complex, w: Complex)
    requires w != Zero && Mul(q1, w) == Mul(q2, w)
    ensures q1 == q2
  {
    MulSub(q1, q2, w);
    ZeroFactor(Sub(q1, q2), w);
    SubZero(q1, q2);
  }

  /** A product with a non-zero factor is zero only when the other factor is. */
  lemma ZeroFactor(e: Complex, w: Complex)
    requires w != Zero && Mul(e, w) == Zero
    ensures e == Zero
  {
    ModulusSqMul(e, w);
    ModulusSqPositive(w);
    ZeroProduct(ModulusSq(e), ModulusSq(w));
    ModulusSqZero(e);
  }

  lemma SubZero(q1: Complex, q2: Complex)
    requires Sub(q1, q2) == Zero
    ensures q1 == q2
  {
  }

  /** Multiplication distributes over subtraction. */
  lemma MulSub(q1: Complex, q2: Complex, w: Complex)
    ensures Mul(Sub(q1, q2), w) == Sub(Mul(q1, w), Mul(q2, w))
  {
    var a, b, c, d := q1.re, q1.im, q2.re, q2.im;
    assert (a - c) * w.re - (b - d) * w.im == (a * w.re - b * w.im) - (c * w.re - d * w.im);
    assert (a - c) * w.im + (b - d) * w.re == (a * w.im + b * w.re) - (c * w.im + d * w.re);
  }

  lemma ZeroProduct(x: real, y: real)
    requires y > 0.0 && x * y == 0.0
    ensures x == 0.0
  {
  }

  /** The modulus is multiplicative: |z w|^2 == |z|^2 |w|^2. */
  lemma ModulusSqMul(z: Complex, w: Complex)
    ensures ModulusSq(Mul(z, w)) == ModulusSq(z) * ModulusSq(w)
  {
    var a, b, c, d := z.re, z.im, w.re, w.im;
    calc {
      ModulusSq(Mul(z, w));
    ==
      (a * c - b * d) * (a * c - b * d) + (a * d + b * c) * (a * d + b * c);
    ==
      (a * a + b * b) * (c * c + d * d);
    ==
      ModulusSq(z) * ModulusSq(w);
    }
  }

  lemma DivCancels(z: Complex, w: Complex, d: real)
    requires d > 0.0 && d == w.re * w.re + w.im * w.im
    ensures Mul(Complex((z.re * w.re + z.im * w.im) / d, (z.im * w.re - z.re * w.im) / d), w) == z
  {
    var a, b := z.re * w.re + z.im * w.im, z.im * w.re - z.re * w.im;
    var u, v := a / d, b / d;
    assert a == u * d && b == v * d;
    calc {
      (u * w.re - v * w.im) * d;
    ==
      a * w.re - b * w.im;
    ==
      z.re * (w.re * w.re + w.im * w.im);
    ==
      z.re * d;
    }
    calc {
      (u * w.im + v * w.re) * d;
    ==
      a * w.im + b * w.re;
    ==
      z.im * (w.re * w.re + w.im * w.im);
    ==
      z.im * d;
    }
    CancelPositive(u * w.re - v * w.im, z.re, d);
    CancelPositive(u * w.im + v * w.re, z.im, d);
  }

  /** A positive factor cancels on both sides of an equation. */
  lemma CancelPositive(x: real, y: real, d: real)
    requires d > 0.0 && x * d == y * d
    ensures x == y
  {
  }

  /**
   * The phase of z, measured in quarter turns by a pseudo-angle instead of
   * radians: the result lies in (-2, 2] just as atan2(im, re) lies in (-pi, pi],
   * along a vertical line right of the origin it grows strictly with the
   * imaginary part as atan2 does (PhaseIncreasing), it is 0 on the
   * positive real axis and at the origin, 1 on the positive imaginary axis,
   * 2 on the negative real axis (the branch cut) and -1 on the negative
   * imaginary axis. Its sign is the sign of atan2(im, re).
   */
  function Phase(z: Complex): (p: real)
    ensures -2.0 < p <= 2.0
    ensures p == 0.0 <==> z.im == 0.0 && z.re >= 0.0
    ensures p == 2.0 <==> z.im == 0.0 && z.re < 0.0
    ensures p > 0.0 <==> z.im > 0.0 || (z.im == 0.0 && z.re < 0.0)
    ensures 0.0 < p < 1.0 <==> z.re > 0.0 && z.im > 0.0
    ensures 1.0 < p < 2.0 <==> z.re < 0.0 && z.im > 0.0
    ensures -1.0 < p < 0.0 <==> z.re > 0.0 && z.im < 0.0
    ensures -2.0 < p < -1.0 <==> z.re < 0.0 && z.im < 0.0
  {
    var x, y := z.re, z.im;
    if x == 0.0 && y == 0.0 then 0.0
    else if y >= 0.0 then
      if x > 0.0 then Share(y, x) else 1.0 + Share(-x, y)
    else
      if x >= 0.0 then -Share(-y, x) else -1.0 - Share(-x, -y)
  }

  /** The share a / (a + b) of two non-negative parts, not both zero. */
  function Share(a: real, b: real): (r: real)
    requires a >= 0.0 && b >= 0.0 && a + b > 0.0
    ensures 0.0 <= r <= 1.0
    ensures r == 0.0 <==> a == 0.0
    ensures r == 1.0 <==> b == 0.0
  {
    a / (a + b)
  }

  /** Right of the origin, moving up a vertical line turns the phase counter-clockwise. */
  lemma PhaseIncreasing(x: real, y1: real, y2: real)
    requires x > 0.0 && y1 < y2
    ensures Phase(Complex(x, y1)) < Phase(Complex(x, y2))
  {
    if 0.0 <= y1 {
      ShareIncreasing(y1, y2, x);
    } else if y2 <= 0.0 {
      ShareIncreasing(-y2, -y1, x);
    }
  }

  /** The share a / (a + b) grows strictly with a. */
  lemma ShareIncreasing(a1: real, a2: real, b: real)
    requires 0.0 <= a1 < a2 && b > 0.0
    ensures Share(a1, b) < Share(a2, b)
  {
    var u, v := a1 + b, a2 + b;
    var s1, s2 := a1 / u, a2 / v;
    assert s1 * u == a1 && s2 * v == a2;
    calc {
      s1 * u * v;
    ==
      a1 * v;
    ==
      a1 * a2 + a1 * b;
    <
      a1 * a2 + a2 * b;
    ==
      a2 * u;
    ==
      s2 * v * u;
    }
    CancelBelow(s1, s2, u * v);
  }

  /** A positive factor cancels on both sides of a strict inequality. */
  lemma CancelBelow(x: real, y: real, d: real)
    requires d > 0.0 && x * d < y * d
    ensures x < y
  {
  }

  /** Phase on the four half-axes: the quarter-turn values of 0, pi/2, pi and -pi/2. */
  lemma PhaseOnAxes(t: real)
    requires t > 0.0
    ensures Phase(Of(t)) == 0.0
    ensures Phase(Complex(0.0, t)) == 1.0
    ensures Phase(Of(-t)) == 2.0
    ensures Phase(Complex(0.0, -t)) == -1.0
  {
  }

  /** Conjugation negates the phase everywhere off the branch cut. */
  lemma PhaseConj(z: Complex)
    requires !(z.im == 0.0 && z.re < 0.0)
    ensures Phase(Conj(z)) == -Phase(z)
  {
  }

  /** x and y are reciprocal reals. */
  predicate AreReciprocal(x: real, y: real) {
    x * y == 1.0
  }

  /** The modulus of a reciprocal: |1/w|^2 * |w|^2 == 1. */
  lemma ModulusSqReciprocal(w: Complex)
    requires w != Zero
    ensures AreReciprocal(ModulusSq(Div(One, w)), ModulusSq(w))
  {
    ModulusSqMul(Div(One, w), w);
  }

  /** Conjugation commutes with the reciprocal. */
  lemma ReciprocalConj(w: Complex)
    requires w != Zero
    ensures Conj(w) != Zero
    ensures Div(One, Conj(w)) == Conj(Div(One, w))
  {
    var q := Div(One, w);
    assert Mul(Conj(q), Conj(w)) == Conj(Mul(q, w));
    DivBy(One, Conj(w), Conj(q));
  }

  /** Conjugates have the same modulus. */
  lemma ModulusSqConj(z: Complex)
    ensures ModulusSq(Conj(z)) == ModulusSq(z)
  {
  }

  /** The reciprocal of a number off the real axis is off the real axis. */
  lemma ReciprocalOffRealAxis(w: Complex)
    requires w.im != 0.0
    ensures w != Zero && Div(One, w).im != 0.0
  {
  }
}
