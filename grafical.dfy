/**
 * The computational core of `ComplexFunction`, the base class of the
 * grafical visualiser: its configuration, the sampling of the Bode line
 * s = cut + j w and of the Laplace grid s = x + j y, the normalisation of a
 * scalar output to the shape of the input, and the magnitude and phase
 * fields handed to the renderer. The user's function f is a parameter: a
 * subclass supplies it, and it maps the whole sampled array at once.
 */
module Grafical {
  import opened ComplexNumbers
  import opened NdArrays
  import opened Sampling

  /** A closed interval (min, max) of an axis. */
  type Range = (real, real)

  /** The state of a `ComplexFunction` instance after construction. */
  datatype ComplexFunction = ComplexFunction(resolution: int, realRange: Range, imagRange: Range)

  /**
   * `ComplexFunction.__init__`: stores the three settings as given, with
   * their defaults, validates nothing and ignores any other keyword argument.
   */
  function New<K>(resolution: int := 500, realRange: Range := (-1000.0, 1000.0),
                  imagRange: Range := (-1000.0, 1000.0), kwargs: map<string, K> := map[]): (c: ComplexFunction)
    ensures c.resolution == resolution && c.realRange == realRange && c.imagRange == imagRange
  {
    ComplexFunction(resolution, realRange, imagRange)
  }

  /** With no arguments the visualiser samples 500 points of [-1000, 1000] on both axes. */
  lemma NewDefaults<K>()
    ensures New<K>() == ComplexFunction(500, (-1000.0, 1000.0), (-1000.0, 1000.0))
  {
  }

  /** Extra keyword arguments make no difference to the stored state. */
  lemma NewIgnoresKwargs<K>(resolution: int, realRange: Range, imagRange: Range, kw1: map<string, K>, kw2: map<string, K>)
    ensures New(resolution, realRange, imagRange, kw1) == New(resolution, realRange, imagRange, kw2)
  {
  }

  /**
   * `_ensure_array`: a scalar or 0-dimensional output (a constant function
   * such as `return 1`) is broadcast to the input's shape; anything else is
   * returned as it is, whatever its shape.
   */
  function EnsureArray<T>(output: Array<T>, inputShape: seq<nat>): (r: Array<T>)
    ensures output.shape == [] ==> r.shape == inputShape && |r.data| == Size(inputShape)
    ensures output.shape == [] ==> forall i | 0 <= i < |r.data| :: r.data[i] == output.data[0]
    ensures output.shape != [] ==> r == output
  {
    if output.shape == [] then Full(inputShape, output.data[0]) else output
  }

  /** Normalising an already normalised output changes nothing. */
  lemma EnsureArrayIdempotent<T>(output: Array<T>, inputShape: seq<nat>)
    ensures EnsureArray(EnsureArray(output, inputShape), inputShape) == EnsureArray(output, inputShape)
  {
    var once := EnsureArray(output, inputShape);
    if output.shape == [] && inputShape == [] {
      assert once.data == [output.data[0]] == output.data;
    }
  }

  /**
   * `module` applied to the normalised output: the magnitude field, one
   * element per output element, here the squared modulus. It is never
   * negative and is zero exactly where the output is zero.
   */
  function ModuleField(out: Array<Complex>): (mag: Array<real>)
    ensures mag.shape == out.shape && |mag.data| == |out.data|
    ensures forall i | 0 <= i < |out.data| :: mag.data[i] == ModulusSq(out.data[i])
    ensures forall i | 0 <= i < |out.data| :: mag.data[i] >= 0.0
    ensures forall i | 0 <= i < |out.data| :: mag.data[i] == 0.0 <==> out.data[i] == Zero
  {
    var mag := MapElements(out, ModulusSq);
    assert forall i | 0 <= i < |out.data| :: mag.data[i] == 0.0 <==> out.data[i] == Zero by {
      forall i | 0 <= i < |out.data| {
        ModulusSqZero(out.data[i]);
      }
    }
    mag
  }

  /**
   * `phase` applied to the normalised output: the phase field, one element
   * per output element, in (-2, 2] quarter turns standing for (-pi, pi].
   */
  function PhaseField(out: Array<Complex>): (phase: Array<real>)
    ensures phase.shape == out.shape && |phase.data| == |out.data|
    ensures forall i | 0 <= i < |out.data| :: phase.data[i] == Phase(out.data[i])
    ensures forall i | 0 <= i < |out.data| :: -2.0 < phase.data[i] <= 2.0
  {
    MapElements(out, Phase)
  }

  /** The Bode frequencies and the line `cut + 1j * freq` over them. */
  datatype LineSamples = LineSamples(freq: seq<real>, domain: Array<Complex>)

  /** `cut + 1j * freq`, computed element-wise in complex arithmetic. */
  function LineDomain(freq: seq<real>, cut: real): (d: Array<Complex>)
    ensures d.shape == [|freq|] && |d.data| == |freq|
    ensures forall k | 0 <= k < |freq| :: d.data[k] == Complex(cut, freq[k])
  {
    SizeOfVector(|freq|);
    var w: Array<real> := NdArray([|freq|], freq);
    MapElements(w, (x: real) => Add(Of(cut), Mul(J, Of(x))))
  }

  /**
   * The sampling step of `plot_bode`: `resolution` frequencies spread over
   * `imag_range` and the vertical line through `cut` at those frequencies.
   * A negative resolution makes `linspace` fail.
   */
  function SampleLine(c: ComplexFunction, cut: real := 0.0): (r: Result<LineSamples>)
    ensures r.Err? <==> c.resolution < 0
    ensures r.Err? ==> r.error == NegativeSampleCount(c.resolution)
    ensures r.Ok? ==> r.value.freq == LinspaceValues(c.imagRange.0, c.imagRange.1, c.resolution)
    ensures r.Ok? ==> r.value.domain.shape == [c.resolution] && |r.value.domain.data| == c.resolution
    ensures r.Ok? ==> forall k | 0 <= k < c.resolution :: r.value.domain.data[k] == Complex(cut, r.value.freq[k])
  {
    match Linspace(c.imagRange.0, c.imagRange.1, c.resolution)
    case Err(e) => Err(e)
    case Ok(freq) => Ok(LineSamples(freq, LineDomain(freq, cut)))
  }

  /**
   * Point k of the Bode line is cut + j (lo + k (hi - lo) / (n - 1)); with at
   * least two points the first is cut + j lo and the last cut + j hi, a single
   * point is cut + j lo.
   */
  lemma SampleLineLaw(c: ComplexFunction, cut: real, k: nat)
    requires 0 <= k < c.resolution
    ensures SampleLine(c, cut).Ok?
    ensures var (lo, hi) := c.imagRange; var n := c.resolution;
      var s := SampleLine(c, cut).value.domain.data[k];
      s.re == cut &&
      (n >= 2 ==> s.im == lo + (k as real) * ((hi - lo) / ((n - 1) as real))) &&
      (k == 0 ==> s.im == lo) &&
      (n >= 2 && k == n - 1 ==> s.im == hi)
  {
    var (lo, hi) := c.imagRange;
    var n := c.resolution;
    LinspaceEnds(lo, hi, n);
    if n >= 2 {
      LinspaceLaw(lo, hi, n, k);
    }
  }

  /**
   * For lo < hi the imaginary parts of the Bode line increase strictly, in
   * steps of (hi - lo) / (n - 1).
   */
  lemma SampleLineIncreasing(c: ComplexFunction, cut: real, i: nat, j: nat)
    requires c.imagRange.0 < c.imagRange.1 && i < j < c.resolution
    ensures SampleLine(c, cut).Ok?
    ensures var d := SampleLine(c, cut).value.domain.data;
      d[i].im < d[j].im &&
      (j == i + 1 ==> d[j].im - d[i].im == (c.imagRange.1 - c.imagRange.0) / ((c.resolution - 1) as real))
  {
    var (lo, hi) := c.imagRange;
    LinspaceIncreasing(lo, hi, c.resolution, i, j);
    if j == i + 1 {
      LinspaceSpacing(lo, hi, c.resolution, i);
    }
  }

  /** Three samples of (-1, 1) at cut 0: the Bode line is -j, 0 and j. */
  lemma SampleLineExample()
    ensures var line := SampleLine(New<int>(resolution := 3, imagRange := (-1.0, 1.0)), 0.0);
      line.Ok? && line.value.freq == [-1.0, 0.0, 1.0] &&
      line.value.domain.data == [Complex(0.0, -1.0), Complex(0.0, 0.0), Complex(0.0, 1.0)]
  {
    assert LinspaceValues(-1.0, 1.0, 3) == [-1.0, 0.0, 1.0] by {
      LinspaceEnds(-1.0, 1.0, 3);
      LinspaceLaw(-1.0, 1.0, 3, 1);
    }
  }

  /** The real and imaginary coordinate matrices of the Laplace grid and the grid itself. */
  datatype GridSamples = GridSamples(realPart: seq<seq<real>>, imagPart: seq<seq<real>>, domain: Array<Complex>)

  /** `real_part + 1j * imag_part`, computed element-wise in complex arithmetic. */
  function GridDomain(realPart: seq<seq<real>>, imagPart: seq<seq<real>>, cols: nat): (d: Array<Complex>)
    requires |realPart| == |imagPart|
    requires forall i | 0 <= i < |realPart| :: |realPart[i]| == cols && |imagPart[i]| == cols
    ensures d.shape == [|realPart|, cols]
    ensures forall i, j | 0 <= i < |realPart| && 0 <= j < cols :: At(d, i, j) == Complex(realPart[i][j], imagPart[i][j])
  {
    FromRows(seq(|realPart|, i requires 0 <= i < |realPart| =>
               seq(cols, j requires 0 <= j < cols => Add(Of(realPart[i][j]), Mul(J, Of(imagPart[i][j]))))), cols)
  }

  /**
   * The sampling step of `plot_laplace`: `mesh_resolution` points of each
   * range, their `meshgrid` and the complex grid over it. Row i of the grid
   * has imaginary part freq[i], column j has real part real_domain[j].
   */
  function SampleGrid(c: ComplexFunction, meshResolution: int): (r: Result<GridSamples>)
    ensures r.Err? <==> meshResolution < 0
    ensures r.Err? ==> r.error == NegativeSampleCount(meshResolution)
    ensures r.Ok? ==>
      var m := meshResolution;
      var xs := LinspaceValues(c.realRange.0, c.realRange.1, m);
      var ys := LinspaceValues(c.imagRange.0, c.imagRange.1, m);
      var g := r.value;
      g.domain.shape == [m, m] && |g.realPart| == m && |g.imagPart| == m &&
      (forall i | 0 <= i < m :: |g.realPart[i]| == m && |g.imagPart[i]| == m) &&
      forall i, j | 0 <= i < m && 0 <= j < m ::
        g.realPart[i][j] == xs[j] && g.imagPart[i][j] == ys[i] && At(g.domain, i, j) == Complex(xs[j], ys[i])
  {
    match Linspace(c.realRange.0, c.realRange.1, meshResolution)
    case Err(e) => Err(e)
    case Ok(realDomain) =>
      // the frequency axis has the same, already accepted, number of samples
      var freq := LinspaceValues(c.imagRange.0, c.imagRange.1, meshResolution);
      var (realPart, imagPart) := MeshGrid(realDomain, freq);
      Ok(GridSamples(realPart, imagPart, GridDomain(realPart, imagPart, meshResolution)))
  }

  /** The grid depends on the two ranges and on `mesh_resolution` only, never on `resolution`. */
  lemma SampleGridIgnoresResolution(c: ComplexFunction, resolution: int, meshResolution: int)
    ensures SampleGrid(c, meshResolution) == SampleGrid(c.(resolution := resolution), meshResolution)
  {
  }

  /**
   * Both axes of the grid follow the Bode sampling law: with as many grid
   * rows as Bode points, row i of the grid lies at the height of Bode point
   * i, and the real axis is sampled from `real_range` the same way.
   */
  lemma SampleGridMatchesLine(c: ComplexFunction, cut: real, i: nat, j: nat)
    requires i < c.resolution && j < c.resolution
    ensures SampleLine(c, cut).Ok? && SampleGrid(c, c.resolution).Ok?
    ensures var s := At(SampleGrid(c, c.resolution).value.domain, i, j);
      s.im == SampleLine(c, cut).value.domain.data[i].im &&
      s.re == LinspaceValues(c.realRange.0, c.realRange.1, c.resolution)[j]
  {
  }

  /** What `plot_bode` hands to the renderer: the frequencies, magnitudes and phases. */
  datatype BodeData = BodeData(freq: seq<real>, mag: Array<real>, phase: Array<real>)

  /**
   * `plot_bode` up to rendering: sample the line, apply f to it, broadcast a
   * scalar answer, take the magnitude and phase fields.
   */
  function PlotBode(c: ComplexFunction, f: Array<Complex> --> Array<Complex>, cut: real := 0.0): (r: Result<BodeData>)
    requires SampleLine(c, cut).Ok? ==> f.requires(SampleLine(c, cut).value.domain)
    ensures r.Err? <==> c.resolution < 0
    ensures r.Err? ==> r.error == NegativeSampleCount(c.resolution)
    ensures r.Ok? ==>
      var y := f(SampleLine(c, cut).value.domain);
      r.value.freq == LinspaceValues(c.imagRange.0, c.imagRange.1, c.resolution) &&
      r.value.mag.shape == r.value.phase.shape &&
      (y.shape == [] ==>
         r.value.mag.shape == [c.resolution] && |r.value.mag.data| == c.resolution &&
         forall k | 0 <= k < c.resolution ::
           r.value.mag.data[k] == ModulusSq(y.data[0]) && r.value.phase.data[k] == Phase(y.data[0])) &&
      (y.shape != [] ==>
         r.value.mag.shape == y.shape && |r.value.mag.data| == |y.data| &&
         forall k | 0 <= k < |y.data| ::
           r.value.mag.data[k] == ModulusSq(y.data[k]) && r.value.phase.data[k] == Phase(y.data[k]))
  {
    match SampleLine(c, cut)
    case Err(e) => Err(e)
    case Ok(line) =>
      var out := EnsureArray(f(line.domain), line.domain.shape);
      Ok(BodeData(line.freq, ModuleField(out), PhaseField(out)))
  }

  /** What `plot_laplace` hands to the renderer: the coordinate matrices, the magnitude surface and the phase colours. */
  datatype LaplaceData = LaplaceData(realPart: seq<seq<real>>, imagPart: seq<seq<real>>, mag: Array<real>, phase: Array<real>)

  /**
   * `plot_laplace` up to rendering: sample the grid, apply f to it, broadcast
   * a scalar answer, take the magnitude and phase fields.
   */
  function PlotLaplace(c: ComplexFunction, f: Array<Complex> --> Array<Complex>, meshResolution: int := 50): (r: Result<LaplaceData>)
    requires SampleGrid(c, meshResolution).Ok? ==> f.requires(SampleGrid(c, meshResolution).value.domain)
    ensures r.Err? <==> meshResolution < 0
    ensures r.Err? ==> r.error == NegativeSampleCount(meshResolution)
    ensures r.Ok? ==>
      var g := SampleGrid(c, meshResolution).value;
      var y := f(g.domain);
      r.value.realPart == g.realPart && r.value.imagPart == g.imagPart &&
      r.value.mag.shape == r.value.phase.shape &&
      (y.shape == [] ==>
         r.value.mag.shape == [meshResolution, meshResolution] &&
         forall k | 0 <= k < |r.value.mag.data| ::
           r.value.mag.data[k] == ModulusSq(y.data[0]) && r.value.phase.data[k] == Phase(y.data[0])) &&
      (y.shape != [] ==>
         r.value.mag.shape == y.shape && |r.value.mag.data| == |y.data| &&
         forall k | 0 <= k < |y.data| ::
           r.value.mag.data[k] == ModulusSq(y.data[k]) && r.value.phase.data[k] == Phase(y.data[k]))
  {
    match SampleGrid(c, meshResolution)
    case Err(e) => Err(e)
    case Ok(grid) =>
      var out := EnsureArray(f(grid.domain), grid.domain.shape);
      Ok(LaplaceData(grid.realPart, grid.imagPart, ModuleField(out), PhaseField(out)))
  }

  /**
   * When f answers with an array of the grid's shape, the surface height at
   * grid point (i, j) is the magnitude of f's answer at (i, j).
   */
  lemma PlotLaplaceAt(c: ComplexFunction, f: Array<Complex> --> Array<Complex>, m: nat, i: nat, j: nat)
    requires i < m && j < m
    requires f.requires(SampleGrid(c, m).value.domain) && f(SampleGrid(c, m).value.domain).shape == [m, m]
    ensures var y := f(SampleGrid(c, m).value.domain);
      var r := PlotLaplace(c, f, m);
      r.Ok? && r.value.mag.shape == [m, m] && At(r.value.mag, i, j) == ModulusSq(At(y, i, j))
  {
    var y := f(SampleGrid(c, m).value.domain);
    var r := PlotLaplace(c, f, m).value;
    var k := AtOffset(r.mag, y, i, j);
  }

  /** Every point of a grid over ordered ranges lies in the rectangle of the two ranges. */
  lemma GridPointInRanges(c: ComplexFunction, m: nat, k: nat)
    requires c.realRange.0 <= c.realRange.1 && c.imagRange.0 <= c.imagRange.1
    requires k < |SampleGrid(c, m).value.domain.data|
    ensures var s := SampleGrid(c, m).value.domain.data[k];
      c.realRange.0 <= s.re <= c.realRange.1 && c.imagRange.0 <= s.im <= c.imagRange.1
  {
    var d := SampleGrid(c, m).value.domain;
    SizeOfMatrix([m, m]);
    var i, j := RowMajorIndex(k, m);
    assert d.data[k] == At(d, i, j);
    LinspaceWithin(c.realRange.0, c.realRange.1, m, j);
    LinspaceWithin(c.imagRange.0, c.imagRange.1, m, i);
  }
}
