/**
 * The two example subclasses shipped with the visualiser: `EulerFunction`,
 * whose f is 1 / (s - a) with a pole at a, and `impulseFunction`, whose f
 * is the constant 1 returned as a scalar. Each is fed through the Bode and
 * Laplace pipelines of the core.
 */
module Examples {
  import opened ComplexNumbers
  import opened NdArrays
  import opened Sampling
  import opened Grafical

  /** No sample of s sits on the pole a. */
  predicate NoPole(s: Array<Complex>, a: Complex) {
    forall i | 0 <= i < |s.data| :: s.data[i] != a
  }

  /** `EulerFunction.f`: 1 / (s - a), element by element, wherever s avoids the pole. */
  function EulerF(a: Complex): (f: Array<Complex> --> Array<Complex>)
    ensures forall s: Array<Complex> | NoPole(s, a) ::
      f.requires(s) && f(s).shape == s.shape &&
      forall k | 0 <= k < |s.data| :: f(s).data[k] == PoleReciprocal(a)(s.data[k])
  {
    (s: Array<Complex>) requires NoPole(s, a) => MapElements(s, PoleReciprocal(a))
  }

  /** The scalar 1 / (z - a), defined for z != a. */
  function PoleReciprocal(a: Complex): Complex --> Complex {
    z requires z != a => Div(One, Sub(z, a))
  }

  /** `impulseFunction.f`: the constant 1, whatever the input. */
  function ImpulseF(): (f: Array<Complex> -> Array<Complex>)
    ensures forall s: Array<Complex> :: f(s).shape == [] && f(s).data == [One]
  {
    s => Scalar(One)
  }

  /**
   * Away from the pole Euler's f answers with an array of the input's shape
   * whose element k is 1 / (s_k - a), so that |f(s_k)|^2 |s_k - a|^2 == 1.
   */
  lemma EulerPointwise(a: Complex, s: Array<Complex>, k: nat)
    requires NoPole(s, a) && k < |s.data|
    ensures EulerF(a).requires(s)
    ensures EulerF(a)(s).shape == s.shape && |EulerF(a)(s).data| == |s.data|
    ensures Sub(s.data[k], a) != Zero
    ensures EulerF(a)(s).data[k] == Div(One, Sub(s.data[k], a))
    ensures AreReciprocal(ModulusSq(EulerF(a)(s).data[k]), ModulusSq(Sub(s.data[k], a)))
  {
    assert PoleReciprocal(a)(s.data[k]) == Div(One, Sub(s.data[k], a));
    ModulusSqReciprocal(Sub(s.data[k], a));
  }

  /**
   * On a Bode line that misses the pole, the magnitude at frequency w is
   * 1 / |cut + j w - a|^2: the squared-magnitude curve of a first-order system.
   * LineAvoidsPole and EvenLineMissesRealPole say when the line misses it.
   */
  lemma EulerBodeMagnitude(c: ComplexFunction, a: Complex, cut: real, k: nat)
    requires k < c.resolution && NoPole(SampleLine(c, cut).value.domain, a)
    ensures SampleLine(c, cut).Ok?
    ensures var r := PlotBode(c, EulerF(a), cut);
      r.Ok? && |r.value.mag.data| == c.resolution &&
      AreReciprocal(r.value.mag.data[k], ModulusSq(Sub(Complex(cut, r.value.freq[k]), a)))
  {
    var line := SampleLine(c, cut).value;
    EulerPointwise(a, line.domain, k);
  }

  /** A Bode line whose real part differs from the pole's misses the pole. */
  lemma LineAvoidsPole(c: ComplexFunction, a: Complex, cut: real)
    requires a.re != cut && c.resolution >= 0
    ensures SampleLine(c, cut).Ok? && NoPole(SampleLine(c, cut).value.domain, a)
  {
  }

  /**
   * For a real pole, conjugate inputs give conjugate outputs, and an input
   * off the real axis gives an output off the real axis.
   */
  lemma EulerConjugate(a: Complex, z: Complex)
    requires a.im == 0.0 && z != a
    ensures Conj(z) != a
    ensures PoleReciprocal(a)(Conj(z)) == Conj(PoleReciprocal(a)(z))
    ensures z.im != 0.0 ==> PoleReciprocal(a)(z).im != 0.0
  {
    var d := Sub(z, a);
    assert d != Zero;
    assert Sub(Conj(z), a) == Conj(d);
    ReciprocalConj(d);
    if z.im != 0.0 {
      ReciprocalOffRealAxis(d);
    }
  }

  /** Conjugates have equal magnitudes and, off the real axis, opposite phases. */
  lemma ConjugateFields(q: Complex, p: Complex)
    requires p == Conj(q)
    ensures ModulusSq(p) == ModulusSq(q)
    ensures q.im != 0.0 ==> Phase(p) == -Phase(q)
  {
    ModulusSqConj(q);
    if q.im != 0.0 {
      PhaseConj(q);
    }
  }

  /**
   * On a Laplace grid that misses the pole, the surface height at grid point
   * (i, j) is 1 / |real_domain[j] + j freq[i] - a|^2.
   */
  lemma EulerLaplaceMagnitude(c: ComplexFunction, a: Complex, m: nat, i: nat, j: nat)
    requires i < m && j < m && NoPole(SampleGrid(c, m).value.domain, a)
    ensures var r := PlotLaplace(c, EulerF(a), m);
      var xs := LinspaceValues(c.realRange.0, c.realRange.1, m);
      var ys := LinspaceValues(c.imagRange.0, c.imagRange.1, m);
      r.Ok? && r.value.mag.shape == [m, m] &&
      AreReciprocal(At(r.value.mag, i, j), ModulusSq(Sub(Complex(xs[j], ys[i]), a)))
  {
    var g := SampleGrid(c, m).value;
    EulerGridPoint(a, g.domain, i, j);
    PlotLaplaceAt(c, EulerF(a), m, i, j);
  }

  /** Euler's answer on a square grid off the pole: a grid of the same shape holding 1 / (s_ij - a). */
  lemma EulerGridPoint(a: Complex, d: Array<Complex>, i: nat, j: nat)
    requires |d.shape| == 2 && i < d.shape[0] && j < d.shape[1] && NoPole(d, a)
    ensures var y := EulerF(a)(d);
      y.shape == d.shape && AreReciprocal(ModulusSq(At(y, i, j)), ModulusSq(Sub(At(d, i, j), a)))
  {
    var k := AtOffset(EulerF(a)(d), d, i, j);
    EulerPointwise(a, d, k);
  }

  /**
   * A grid over ordered ranges misses the pole when the pole's real part
   * lies outside the real range or its imaginary part outside the imaginary range.
   */
  lemma GridAvoidsPole(c: ComplexFunction, a: Complex, m: nat)
    requires c.realRange.0 <= c.realRange.1 && c.imagRange.0 <= c.imagRange.1
    requires !(c.realRange.0 <= a.re <= c.realRange.1) || !(c.imagRange.0 <= a.im <= c.imagRange.1)
    ensures SampleGrid(c, m).Ok? && NoPole(SampleGrid(c, m).value.domain, a)
  {
    var d := SampleGrid(c, m).value.domain;
    forall k | 0 <= k < |d.data|
      ensures d.data[k] != a
    {
      GridPointInRanges(c, m, k);
    }
  }

  /**
   * With an even number of frequencies over a range symmetric about 0, no
   * Bode point is real, so the line misses every real pole, wherever the cut.
   */
  lemma EvenLineMissesRealPole(c: ComplexFunction, a: Complex, cut: real)
    requires a.im == 0.0 && c.imagRange.0 == -c.imagRange.1 && 0.0 < c.imagRange.1
    requires c.resolution >= 0 && c.resolution % 2 == 0
    ensures SampleLine(c, cut).Ok? && NoPole(SampleLine(c, cut).value.domain, a)
  {
    var d := SampleLine(c, cut).value.domain;
    forall k | 0 <= k < |d.data|
      ensures d.data[k] != a
    {
      NoZeroSample(c.imagRange.1, c.resolution, k);
    }
  }

  /**
   * With an even mesh resolution over an imaginary range symmetric about 0,
   * no grid row is real, so the grid misses every real pole.
   */
  lemma EvenGridMissesRealPole(c: ComplexFunction, a: Complex, m: nat)
    requires a.im == 0.0 && c.imagRange.0 == -c.imagRange.1 && 0.0 < c.imagRange.1 && m % 2 == 0
    ensures SampleGrid(c, m).Ok? && NoPole(SampleGrid(c, m).value.domain, a)
  {
    var d := SampleGrid(c, m).value.domain;
    forall k | 0 <= k < |d.data|
      ensures d.data[k] != a
    {
      GridPointOffRealAxis(c, m, k);
    }
  }

  /** Under the same conditions, grid point k lies off the real axis. */
  lemma GridPointOffRealAxis(c: ComplexFunction, m: nat, k: nat)
    requires c.imagRange.0 == -c.imagRange.1 && 0.0 < c.imagRange.1 && m % 2 == 0
    requires k < |SampleGrid(c, m).value.domain.data|
    ensures SampleGrid(c, m).value.domain.data[k].im != 0.0
  {
    var d := SampleGrid(c, m).value.domain;
    SizeOfMatrix([m, m]);
    var i, j := RowMajorIndex(k, m);
    assert d.data[k] == At(d, i, j);
    NoZeroSample(c.imagRange.1, m, i);
  }

  /**
   * The integrator 1 / s at the default settings: the default Bode line
   * (500 frequencies over (-1000, 1000) at cut 0) misses its pole at 0.
   */
  lemma IntegratorMissesPole()
    ensures SampleLine(New<int>(), 0.0).Ok? && NoPole(SampleLine(New<int>(), 0.0).value.domain, Zero)
  {
    EvenLineMissesRealPole(New<int>(), Zero, 0.0);
  }

  /**
   * The Bode plot of the example in `euler.py`: with the pole at 2,
   * resolution 1000 and both ranges (-10, 10), the line at the default cut 0
   * misses the pole, so the plot is defined at every frequency.
   */
  lemma EulerExampleBodeMissesPole(c: ComplexFunction)
    requires c.resolution == 1000 && c.realRange == (-10.0, 10.0) && c.imagRange == (-10.0, 10.0)
    ensures SampleLine(c).Ok? && NoPole(SampleLine(c).value.domain, Of(2.0))
  {
    LineAvoidsPole(c, Of(2.0), 0.0);
  }

  /**
   * The Laplace plot of the same example: the 60 x 60 grid misses the pole
   * at 2, so the surface is defined at every grid point.
   */
  lemma EulerExampleGridMissesPole(c: ComplexFunction)
    requires c.resolution == 1000 && c.realRange == (-10.0, 10.0) && c.imagRange == (-10.0, 10.0)
    ensures SampleGrid(c, 60).Ok? && NoPole(SampleGrid(c, 60).value.domain, Of(2.0))
  {
    EvenGridMissesRealPole(c, Of(2.0), 60);
  }

  /**
   * For a real pole and a frequency range symmetric about 0, Euler's answers
   * at mirrored points of the Bode line are conjugate, and off the real axis
   * wherever the frequency is not 0.
   */
  lemma EulerMirroredOutputs(c: ComplexFunction, a: Complex, cut: real, k: nat)
    requires a.im == 0.0 && c.imagRange.0 == -c.imagRange.1 && 2 <= c.resolution && k < c.resolution
    requires NoPole(SampleLine(c, cut).value.domain, a)
    ensures var line := SampleLine(c, cut).value; var y := EulerF(a)(line.domain);
      y.shape == [c.resolution] && |y.data| == c.resolution &&
      y.data[c.resolution - 1 - k] == Conj(y.data[k]) &&
      (line.freq[k] != 0.0 ==> y.data[k].im != 0.0)
  {
    var n := c.resolution;
    var mirror := n - 1 - k;
    var line := SampleLine(c, cut).value;
    LinspaceSymmetric(c.imagRange.1, n, k);
    var z := line.domain.data[k];
    assert line.domain.data[mirror] == Conj(z);
    EulerPointwise(a, line.domain, k);
    EulerPointwise(a, line.domain, mirror);
    EulerConjugate(a, z);
  }

  /**
   * For a real pole and a frequency range symmetric about 0, the Bode
   * magnitude is symmetric and the phase antisymmetric in the frequency.
   */
  lemma EulerBodeSymmetry(c: ComplexFunction, a: Complex, cut: real, k: nat)
    requires a.im == 0.0 && c.imagRange.0 == -c.imagRange.1 && 2 <= c.resolution && k < c.resolution
    requires NoPole(SampleLine(c, cut).value.domain, a)
    ensures var r := PlotBode(c, EulerF(a), cut).value; var n := c.resolution;
      |r.mag.data| == n && |r.freq| == n &&
      r.mag.data[n - 1 - k] == r.mag.data[k] &&
      (r.freq[k] != 0.0 ==> r.phase.data[n - 1 - k] == -r.phase.data[k])
  {
    EulerMirroredOutputs(c, a, cut, k);
    var y := EulerF(a)(SampleLine(c, cut).value.domain);
    ConjugateFields(y.data[k], y.data[c.resolution - 1 - k]);
  }

  /**
   * `impulseFunction.plot_bode()`: the scalar 1 is broadcast over the whole
   * line, so the magnitude is 1 and the phase 0 at every frequency.
   */
  lemma ImpulseBodeFlat(c: ComplexFunction, cut: real)
    requires c.resolution >= 0
    ensures var r := PlotBode(c, ImpulseF(), cut);
      r.Ok? && r.value.mag.shape == [c.resolution] && r.value.phase.shape == [c.resolution] &&
      |r.value.mag.data| == c.resolution &&
      forall k | 0 <= k < c.resolution :: r.value.mag.data[k] == 1.0 && r.value.phase.data[k] == 0.0
  {
    assert ModulusSq(One) == 1.0;
  }

  /**
   * `impulseFunction.plot_laplace(m)`: the scalar 1 is broadcast over the
   * m x m grid, so the surface is flat at height 1 and uniformly coloured.
   */
  lemma ImpulseLaplaceFlat(c: ComplexFunction, meshResolution: nat)
    ensures var r := PlotLaplace(c, ImpulseF(), meshResolution);
      r.Ok? && r.value.mag.shape == [meshResolution, meshResolution] &&
      |r.value.mag.data| == meshResolution * meshResolution &&
      forall k | 0 <= k < |r.value.mag.data| :: r.value.mag.data[k] == 1.0 && r.value.phase.data[k] == 0.0
  {
    SizeOfMatrix([meshResolution, meshResolution]);
    assert ModulusSq(One) == 1.0;
  }
}
