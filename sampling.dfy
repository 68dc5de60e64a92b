/**
 * numpy's `linspace` (evenly spaced samples of a closed interval) and
 * `meshgrid` (the coordinate matrices of a rectangular grid), which the
 * visualiser uses to sample the frequency line and the complex plane.
 */
module Sampling {

  /** numpy refuses a negative number of samples with a ValueError. */
  datatype SampleError = NegativeSampleCount(num: int)

  datatype Result<T> = Ok(value: T) | Err(error: SampleError)

  /** The distance between neighbouring samples; numpy's `delta` when there is no division to do. */
  function Step(lo: real, hi: real, n: nat): real {
    if n > 1 then (hi - lo) / ((n - 1) as real) else hi - lo
  }

  /**
   * The n samples of `linspace(lo, hi, n)` with the endpoint included:
   * sample k is lo + k * step, and the last one is set to hi exactly.
   */
  function LinspaceValues(lo: real, hi: real, n: nat): (r: seq<real>)
    ensures |r| == n
  {
    seq(n, k requires 0 <= k < n => if n > 1 && k == n - 1 then hi else lo + (k as real) * Step(lo, hi, n))
  }

  /** `numpy.linspace(lo, hi, num)`: the samples, or the error for a negative count. */
  function Linspace(lo: real, hi: real, num: int): (r: Result<seq<real>>)
    ensures r.Err? <==> num < 0
    ensures r.Err? ==> r.error == NegativeSampleCount(num)
    ensures r.Ok? ==> |r.value| == num && r.value == LinspaceValues(lo, hi, num)
  {
    if num < 0 then Err(NegativeSampleCount(num)) else Ok(LinspaceValues(lo, hi, num))
  }

  /** With at least two samples, sample k is lo + k (hi - lo) / (n - 1), the last one included. */
  lemma LinspaceLaw(lo: real, hi: real, n: nat, k: nat)
    requires 2 <= n && k < n
    ensures LinspaceValues(lo, hi, n)[k] == lo + (k as real) * ((hi - lo) / ((n - 1) as real))
  {
    var m := (n - 1) as real;
    var r := LinspaceValues(lo, hi, n);
    if k == n - 1 {
      assert r[k] == hi;
      assert (k as real) == m;
      assert m * ((hi - lo) / m) == hi - lo;
    } else {
      assert r[k] == lo + (k as real) * Step(lo, hi, n);
    }
  }

  /** The endpoints: no sample, just lo, or lo first and hi last. */
  lemma LinspaceEnds(lo: real, hi: real, n: nat)
    ensures n == 0 ==> LinspaceValues(lo, hi, n) == []
    ensures n == 1 ==> LinspaceValues(lo, hi, n) == [lo]
    ensures n >= 2 ==> LinspaceValues(lo, hi, n)[0] == lo && LinspaceValues(lo, hi, n)[n - 1] == hi
  {
    var r := LinspaceValues(lo, hi, n);
    if n == 1 {
      assert r[0] == lo + 0.0 * Step(lo, hi, n);
    } else if n >= 2 {
      assert r[0] == lo + 0.0 * Step(lo, hi, n);
      assert r[n - 1] == hi;
    }
  }

  /** Neighbouring samples are exactly (hi - lo) / (n - 1) apart. */
  lemma LinspaceSpacing(lo: real, hi: real, n: nat, k: nat)
    requires 2 <= n && k + 1 < n
    ensures LinspaceValues(lo, hi, n)[k + 1] - LinspaceValues(lo, hi, n)[k] == (hi - lo) / ((n - 1) as real)
  {
    var s := (hi - lo) / ((n - 1) as real);
    LinspaceLaw(lo, hi, n, k);
    LinspaceLaw(lo, hi, n, k + 1);
    assert ((k + 1) as real) * s - (k as real) * s == s;
  }

  /** For lo < hi the samples increase strictly. */
  lemma LinspaceIncreasing(lo: real, hi: real, n: nat, i: nat, j: nat)
    requires lo < hi && i < j < n
    ensures LinspaceValues(lo, hi, n)[i] < LinspaceValues(lo, hi, n)[j]
  {
    var r := LinspaceValues(lo, hi, n);
    var s := (hi - lo) / ((n - 1) as real);
    assert s > 0.0;
    LinspaceLaw(lo, hi, n, i);
    LinspaceLaw(lo, hi, n, j);
    calc {
      r[i];
    ==
      lo + (i as real) * s;
    <
      lo + (j as real) * s;
    ==
      r[j];
    }
  }

  /** For lo <= hi every sample lies in the closed interval [lo, hi]. */
  lemma LinspaceWithin(lo: real, hi: real, n: nat, k: nat)
    requires lo <= hi && k < n
    ensures lo <= LinspaceValues(lo, hi, n)[k] <= hi
  {
    if n >= 2 {
      var r := LinspaceValues(lo, hi, n);
      var m := (n - 1) as real;
      var s := (hi - lo) / m;
      assert s >= 0.0;
      LinspaceLaw(lo, hi, n, k);
      calc {
        lo;
      <=
        lo + (k as real) * s;
      ==
        r[k];
      }
      calc {
        r[k];
      ==
        lo + (k as real) * s;
      <=
        lo + m * s;
      ==
        hi;
      }
    }
  }

  /** With at least two samples, swapping the endpoints reverses the samples (a single sample is the start). */
  lemma LinspaceReverse(lo: real, hi: real, n: nat, k: nat)
    requires 2 <= n && k < n
    ensures LinspaceValues(hi, lo, n)[k] == LinspaceValues(lo, hi, n)[n - 1 - k]
  {
    LinspaceLaw(hi, lo, n, k);
    LinspaceLaw(lo, hi, n, n - 1 - k);
    MirrorPoint(lo, hi, (n - 1) as real, k as real);
  }

  /** lo + (m - k) s is hi - k s when s is (hi - lo) / m. */
  lemma MirrorPoint(lo: real, hi: real, m: real, k: real)
    requires m > 0.0
    ensures hi + k * ((lo - hi) / m) == lo + (m - k) * ((hi - lo) / m)
  {
    var s := (hi - lo) / m;
    calc {
      hi + k * ((lo - hi) / m);
    == { assert (lo - hi) / m == -s; }
      hi - k * s;
    == { assert m * s == hi - lo; }
      lo + m * s - k * s;
    == { Distribute(m, k, s); }
      lo + (m - k) * s;
    }
  }

  /**
   * An even number of samples of an interval (-w, w) with w > 0 never hits
   * 0: sample k would need 2k == n - 1, which is odd.
   */
  lemma NoZeroSample(w: real, n: nat, k: nat)
    requires 0.0 < w && n % 2 == 0 && k < n
    ensures LinspaceValues(-w, w, n)[k] != 0.0
  {
    LinspaceLaw(-w, w, n, k);
    var m := (n - 1) as real;
    var d := 2 * k - (n - 1);
    assert d != 0;
    ScaledSample(w, m, k as real);
    assert 2.0 * (k as real) - m == d as real;
    NonZeroProduct(w, d as real);
  }

  /** Sample k of (-w, w), scaled by m == n - 1, is w (2k - m). */
  lemma ScaledSample(w: real, m: real, k: real)
    requires m > 0.0
    ensures (-w + k * ((w - -w) / m)) * m == w * (2.0 * k - m)
  {
    var s := (w - -w) / m;
    assert s * m == 2.0 * w;
  }

  /** A product of two non-zero reals is non-zero. */
  lemma NonZeroProduct(x: real, y: real)
    requires x != 0.0 && y != 0.0
    ensures x * y != 0.0
  {
  }

  /**
   * With at least two samples of an interval symmetric about 0, mirrored
   * samples are opposite.
   */
  lemma LinspaceSymmetric(w: real, n: nat, k: nat)
    requires 2 <= n && k < n
    ensures LinspaceValues(-w, w, n)[n - 1 - k] == -LinspaceValues(-w, w, n)[k]
  {
    LinspaceLaw(-w, w, n, k);
    LinspaceLaw(-w, w, n, n - 1 - k);
    var m := (n - 1) as real;
    MirrorPoint(-w, w, m, k as real);
    calc {
      LinspaceValues(-w, w, n)[n - 1 - k];
    ==
      -w + (m - k as real) * ((w - -w) / m);
    ==
      w + (k as real) * ((-w - w) / m);
    == { NegatedQuotient(w - -w, m); }
      w - (k as real) * ((w - -w) / m);
    ==
      -LinspaceValues(-w, w, n)[k];
    }
  }

  lemma NegatedQuotient(x: real, m: real)
    requires m > 0.0
    ensures (-x) / m == -(x / m)
  {
  }

  lemma Distribute(a: real, b: real, s: real)
    ensures (a - b) * s == a * s - b * s
  {
  }

  /**
   * numpy's `meshgrid(xs, ys)` with its default 'xy' indexing: two matrices of
   * |ys| rows and |xs| columns; the first repeats xs in every row, the second
   * repeats ys[i] along row i.
   */
  function MeshGrid<T>(xs: seq<T>, ys: seq<T>): (g: (seq<seq<T>>, seq<seq<T>>))
    ensures |g.0| == |ys| && |g.1| == |ys|
    ensures forall i | 0 <= i < |ys| :: |g.0[i]| == |xs| && |g.1[i]| == |xs|
    ensures forall i, j | 0 <= i < |ys| && 0 <= j < |xs| :: g.0[i][j] == xs[j] && g.1[i][j] == ys[i]
  {
    (seq(|ys|, _ => xs), seq(|ys|, i requires 0 <= i < |ys| => seq(|xs|, _ => ys[i])))
  }
}
