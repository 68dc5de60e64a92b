# grafical: a verified model of the ComplexFunction core

`grafical` visualises a complex function f(s) in two ways.

- **Bode view.** It samples the vertical line s = cut + jω for `resolution` frequencies ω spread evenly over `imag_range`. Then it plots the magnitude and the phase of f along that line.
- **Laplace view.** It samples a `mesh_resolution` × `mesh_resolution` grid s = σ + jω over `real_range` × `imag_range`. Then it draws the magnitude of f as a surface, coloured by the phase.

A subclass of `ComplexFunction` supplies f. f receives the whole sampled numpy array at once. It may answer with a scalar, for example a constant function that returns `1`. `_ensure_array` then broadcasts that scalar to the shape of the input.

This project models everything in that pipeline except the drawing. It covers:

- the constructor and its defaults;
- numpy's `linspace` and `meshgrid` as the sampling uses them;
- the Bode line and the Laplace grid;
- the scalar broadcast;
- the element-wise magnitude and phase fields;
- the two data sets handed to the renderer.

It proves properties about all of them. The two example subclasses, `EulerFunction` (f(s) = 1/(s − a)) and `impulseFunction` (f(s) = 1), are modelled as instances of f. The model proves what each produces in both views: the flat answer of the impulse on the Bode line and on the grid, and for Euler's f the first-order squared magnitude 1/|s − a|² at every Bode point and every grid point that misses the pole, together with the mirror symmetry of its Bode plot. An even sample count over a symmetric range never samples the real axis, so a real pole is missed even when it lies on the plotted line or inside the plotted rectangle. This covers 1/s at the default settings and both plots of the example in `euler.py`.

The modules:

- `ComplexNumbers` (complex_numbers.dfy) holds complex numbers over exact reals. It defines:
  - the squared modulus;
  - division, defined as the unique q with q · w = z and shown equal to z·conj(w)/|w|²;
  - a phase function measured in quarter turns.
- `NdArrays` (ndarrays.dfy) models numpy arrays as a shape plus row-major data. It covers rank 0 (scalars), `full`, element-wise application, and 2-D indexing.
- `Sampling` (sampling.dfy) models `numpy.linspace`, including its `ValueError` for a negative count, and `numpy.meshgrid` with 'xy' indexing.
- `Grafical` (grafical.dfy) models `ComplexFunction` itself.
- `Examples` (example_functions.dfy) models the Euler and impulse subclasses.

f is a parameter of `PlotBode` and `PlotLaplace`: a partial function from complex arrays to complex arrays. Its precondition says where the subclass's f is defined.

The code validates nothing. The constructor stores any ranges and resolution, and `_ensure_array` passes any non-scalar output through unchanged, whatever its shape. The model follows the code:

- `Grafical.New` accepts every value.
- `Grafical.EnsureArray` passes through any output of rank at least 1, whatever its shape.
- The only error before drawing is numpy's refusal of a negative sample count, which surfaces from `plot_bode` and `plot_laplace`.

## Model

| member | source | states |
|---|---|---|
| Grafical.New | src/grafical/core.py:12-26 | The constructor stores resolution, real range and imaginary range exactly as given, with no validation |
| Grafical.NewDefaults | src/grafical/core.py:12-14 | Without arguments the settings are 500 samples and (-1000, 1000) on both axes |
| Grafical.NewIgnoresKwargs | src/grafical/core.py:15-26 | Extra keyword arguments never change the stored state |
| Grafical.EnsureArray | src/grafical/core.py:49-55 | A rank-0 output becomes an array of exactly the input shape with every element equal to it; any other output is returned unchanged |
| Grafical.EnsureArrayIdempotent | src/grafical/core.py:53-55 | Normalising twice gives the same array as normalising once |
| NdArrays.Full | src/grafical/core.py:54 | numpy's `full`: the given shape, the matching number of elements, every element the fill value |
| NdArrays.MapElements | src/grafical/core.py:74-75 | An element-wise operation keeps the shape and applies the function to each element |
| ComplexNumbers.ModulusSq | src/grafical/core.py:36-39 | The (squared) magnitude is never negative |
| ComplexNumbers.ModulusSqZero | src/grafical/core.py:36-39 | The magnitude is zero exactly for zero |
| ComplexNumbers.ModulusSqMul | src/grafical/core.py:36-39 | The magnitude is multiplicative: \|zw\|² = \|z\|²\|w\|² |
| ComplexNumbers.ModulusSqConj | src/grafical/core.py:36-39 | Conjugates have equal magnitude |
| Grafical.ModuleField | src/grafical/core.py:36-39 | The magnitude field has the output's shape, holds each element's magnitude, is ≥ 0 everywhere and 0 exactly where the output is 0 |
| ComplexNumbers.Phase | src/grafical/core.py:41-47 | The phase lies in (-2, 2] quarter turns, i.e. (-π, π]. It is 0 exactly on the non-negative real axis and 2 (π) exactly on the negative real axis. Its sign and its quadrant are those of atan2(im, re), both ways |
| ComplexNumbers.PhaseOnAxes | src/grafical/core.py:41-47 | The four half-axes have phase 0, π/2, π and -π/2 |
| ComplexNumbers.PhaseIncreasing | src/grafical/core.py:41-47 | Right of the origin, the phase grows strictly with the imaginary part along every vertical line, as atan2 does |
| ComplexNumbers.PhaseConj | src/grafical/core.py:41-47 | Off the branch cut, conjugation negates the phase |
| Grafical.PhaseField | src/grafical/core.py:41-47 | The phase field has the output's shape, holds each element's phase and stays within (-π, π] |
| Sampling.Linspace | src/grafical/core.py:64 | `linspace` fails exactly for a negative count, with that count; otherwise it gives that many samples |
| Sampling.LinspaceLaw | src/grafical/core.py:64 | With n ≥ 2, sample k is lo + k(hi − lo)/(n − 1) |
| Sampling.LinspaceEnds | src/grafical/core.py:64 | No samples for n = 0, just lo for n = 1, and for n ≥ 2 the first sample is lo and the last is hi |
| Sampling.LinspaceSpacing | src/grafical/core.py:64 | Neighbouring samples are exactly (hi − lo)/(n − 1) apart |
| Sampling.LinspaceIncreasing | src/grafical/core.py:64 | For lo < hi the samples increase strictly |
| Sampling.LinspaceWithin | src/grafical/core.py:64 | For lo ≤ hi every sample lies in [lo, hi] |
| Sampling.LinspaceReverse | src/grafical/core.py:64 | With n ≥ 2, swapping the endpoints reverses the samples |
| Sampling.LinspaceSymmetric | src/grafical/core.py:64 | With n ≥ 2 over (-w, w), mirrored samples are opposite |
| Sampling.NoZeroSample | src/grafical/core.py:64 | An even number of samples over (-w, w) with w > 0 never contains 0 |
| Sampling.MeshGrid | src/grafical/core.py:108 | 'xy' meshgrid: \|ys\| rows of \|xs\| columns; element [i][j] of the first matrix is xs[j], of the second ys[i] |
| NdArrays.FromRows | src/grafical/core.py:109 | The 2-D array built from equal rows has shape [rows, cols] and element (i, j) equal to rows[i][j] |
| NdArrays.FlattenAt | src/grafical/core.py:109 | Row-major storage: element j of row i sits at offset i·cols + j |
| Grafical.LineDomain | src/grafical/core.py:65 | `cut + 1j * freq` has one point per frequency, point k being cut + j·freq[k] |
| Grafical.SampleLine | src/grafical/core.py:57-65 | With `cut` 0 by default, the Bode line fails exactly for a negative resolution. Otherwise it has `resolution` points with real part cut, and imaginary parts are the linspace of `imag_range` |
| Grafical.SampleLineLaw | src/grafical/core.py:64-65 | Point k is cut + j(lo + k(hi − lo)/(n − 1)). The first point is cut + j·lo, and with n ≥ 2 the last is cut + j·hi |
| Grafical.SampleLineIncreasing | src/grafical/core.py:64-65 | For lo < hi the imaginary parts increase strictly, in constant steps |
| Grafical.SampleLineExample | src/grafical/core.py:64-65 | Three samples of (-1, 1) at cut 0 give the line -j, 0, j |
| Grafical.GridDomain | src/grafical/core.py:109 | `real_part + 1j * imag_part` is a matrix of the meshgrid's shape whose element (i, j) is real_part[i][j] + j·imag_part[i][j] |
| Grafical.SampleGrid | src/grafical/core.py:105-109 | The grid fails exactly for a negative mesh resolution. Otherwise it is m × m and element (i, j) is real_domain[j] + j·freq[i], so rows follow the frequency axis and columns the real axis |
| Grafical.SampleGridIgnoresResolution | src/grafical/core.py:96-109 | The grid depends on the two ranges and the mesh resolution, never on `resolution` |
| Grafical.SampleGridMatchesLine | src/grafical/core.py:105-106 | Both grid axes follow the Bode sampling law: when `mesh_resolution` equals `resolution` (500 and 50 by default, so not at the defaults), row i sits at the height of Bode point i, and column j's real part is sample j of the same linspace taken over `real_range` |
| Grafical.PlotBode | src/grafical/core.py:57-75 | With `cut` 0 by default, Bode data fails exactly for a negative resolution. Otherwise the frequencies are the linspace, and the magnitude and phase fields are those of f's answer, with a scalar answer repeated at every frequency |
| Grafical.PlotLaplace | src/grafical/core.py:96-118 | With `mesh_resolution` 50 by default, Laplace data fails exactly for a negative mesh resolution. Otherwise the coordinate matrices are the meshgrid, and the magnitude and phase fields are those of f's answer, with a scalar answer repeated over the m × m grid |
| Grafical.PlotLaplaceAt | src/grafical/core.py:111-116 | When f answers with an m × m array, the surface height at grid point (i, j) is the magnitude of f's answer at (i, j) |
| ComplexNumbers.Div | examples/euler.py:16 | Complex division: z / w is the q with q·w = z, for every w other than 0 |
| ComplexNumbers.DivBy | examples/euler.py:16 | Any q with q·w = z is z / w, so the quotient is unique |
| ComplexNumbers.DivFormula | examples/euler.py:16 | The quotient is z·conj(w)/\|w\|² |
| ComplexNumbers.MulCancel | examples/euler.py:16 | A non-zero factor cancels from q1·w = q2·w |
| ComplexNumbers.ModulusSqReciprocal | examples/euler.py:16 | \|1/w\|²·\|w\|² = 1 |
| ComplexNumbers.ReciprocalConj | examples/euler.py:16 | 1/conj(w) = conj(1/w) |
| ComplexNumbers.ReciprocalOffRealAxis | examples/euler.py:16 | The reciprocal of a number off the real axis is off the real axis |
| Examples.EulerPointwise | examples/euler.py:15-16 | Away from the pole Euler's f keeps the input's shape, and element k is 1/(s_k − a), with \|f(s_k)\|²·\|s_k − a\|² = 1 |
| Examples.EulerF | examples/euler.py:15-16 | Wherever no sample is the pole, Euler's f is defined, keeps the input's shape and maps every sample z to 1/(z − a) |
| Examples.LineAvoidsPole | examples/euler.py:15-16 | A Bode line whose real part differs from the pole's real part never hits the pole |
| Examples.EulerBodeMagnitude | examples/euler.py:15-16 | On a Bode line that misses the pole, the squared magnitude at frequency ω is 1/\|cut + jω − a\|², the square of the first-order response |
| Examples.EulerConjugate | examples/euler.py:15-16 | For a real pole and any input other than the pole, conjugate inputs give conjugate outputs, and inputs off the real axis give outputs off it |
| Examples.ConjugateFields | examples/euler.py:15-16 | Conjugate outputs have equal magnitudes and, off the real axis, opposite phases |
| Examples.EulerMirroredOutputs | examples/euler.py:15-16 | For a real pole, a frequency range symmetric about 0 and a Bode line that misses the pole, the outputs at mirrored frequencies are conjugate |
| Examples.EulerBodeSymmetry | examples/euler.py:15-16 | For a real pole, a symmetric frequency range and a Bode line that misses the pole, the Bode magnitude is even and the phase odd in the frequency |
| Examples.EulerGridPoint | examples/euler.py:15-16 | On a 2-D input that misses the pole, Euler's answer has the input's shape and \|f(s_ij)\|²·\|s_ij − a\|² = 1 at every point (i, j) |
| Examples.EulerLaplaceMagnitude | examples/euler.py:15-16 | On a Laplace grid that misses the pole, the surface height (a squared magnitude) at (i, j) is 1/\|real_domain[j] + j·freq[i] − a\|² |
| Grafical.GridPointInRanges | src/grafical/core.py:105-109 | Over ordered ranges, every grid point lies in the rectangle real_range × imag_range |
| Examples.GridAvoidsPole | examples/euler.py:15-16 | A grid over ordered ranges misses a pole whose real part lies outside the real range or whose imaginary part lies outside the imaginary range |
| Examples.EvenLineMissesRealPole | examples/euler.py:15-16 | With an even number of frequencies over a range symmetric about 0, the Bode line misses every real pole, whatever the cut; this covers 1/s at cut 0 |
| Examples.GridPointOffRealAxis | src/grafical/core.py:105-109 | With an even mesh resolution over an imaginary range symmetric about 0, no grid point is real |
| Examples.EvenGridMissesRealPole | examples/euler.py:15-16 | With an even mesh resolution over an imaginary range symmetric about 0, the grid misses every real pole, even one inside the plotted rectangle |
| Examples.IntegratorMissesPole | examples/euler.py:15-16 | 1/s at the default settings (500 frequencies over (-1000, 1000), cut 0): the Bode line misses the pole at 0 |
| Examples.EulerExampleBodeMissesPole | examples/euler.py:20-28 | The example's Bode plot (pole 2, resolution 1000, ranges (-10, 10), cut 0) misses the pole |
| Examples.EulerExampleGridMissesPole | examples/euler.py:20-31 | The example's 60 × 60 Laplace grid over (-10, 10)² misses the pole at 2, which lies inside the plotted rectangle |
| Examples.ImpulseF | examples/impulse.py:7-8 | `impulseFunction.f` answers every input with the rank-0 array holding 1 |
| Examples.ImpulseBodeFlat | examples/impulse.py:4-8 | The impulse's scalar 1 is broadcast over the whole Bode line: magnitude 1 and phase 0 at every frequency |
| Examples.ImpulseLaplaceFlat | examples/impulse.py:4-8 | The scalar 1 is broadcast over the m × m grid: a flat surface of height 1 with phase 0 everywhere |

## Left out

- Grafical.ModuleField: the field is the squared modulus re² + im², not numpy's `abs`. A square root has no exact closed form over the reals, and the squared modulus keeps every fact stated here: ≥ 0, 0 only at 0, multiplicative, and equal at conjugates.
- ComplexNumbers.Phase: the phase is a rational pseudo-angle in quarter turns, not numpy's `angle` (atan2 in radians). It agrees with atan2 on the range (-π, π], on the four half-axes, on the sign and the quadrant, on oddness under conjugation, and on growing along vertical lines right of the origin. It does not give the radian values in between.
- Grafical.PhaseField: it inherits the pseudo-angle of ComplexNumbers.Phase, so its values are quarter turns, not radians.
- Floating point: rounding, signed zeros, and numpy's inf/nan at the pole of Euler's f. Numbers are exact reals, and Euler's f is defined only where no sample equals the pole.
- numpy dtypes: `impulseFunction.f` returns the Python integer `1`. The model treats it as the complex 1, which is what `abs` and `angle` make of it.
- `linspace` given a non-integer count: `resolution` and `mesh_resolution` are integers here.
- All matplotlib drawing, in src/grafical/core.py:77-94 and 120-143. This covers the figures and subplots, the 3-D surface, the `Normalize(-π, π)` colour mapping of the phase, the viridis colours and the colour bar.
- Python's `abc` abstract-method check and the `overrides` decorator. They are runtime language machinery with no effect on values.
- `EulerFunction.__init__` storing `a`: the pole is a parameter of `Examples.EulerF`. The constructor's other arguments go to `Grafical.New`.
- The example scripts' `main` functions as entry points, and their `print` calls. The settings the Euler example passes are covered by Examples.EulerExampleBodeMissesPole and Examples.EulerExampleGridMissesPole.
- Validation of the settings: the code performs none, as described above, and neither does the model.
- The renderer's own shape checks. `plt.plot` (src/grafical/core.py:84, 91) raises ValueError when f's answer does not match the line's length, and `plot_surface` (src/grafical/core.py:127) rejects a field that does not fit the grid. Grafical.PlotBode and Grafical.PlotLaplace stop before drawing and return the data, so for such an answer they return Ok where the program fails.
- Sampling.LinspaceReverse and Sampling.LinspaceSymmetric require n ≥ 2. With one sample, `linspace(hi, lo, 1)` is [hi], not [lo], so neither law holds there.
