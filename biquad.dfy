/** The filter stage of the subtractive demo: second-order sections designed with
    the low-pass, high-pass, band-pass (constant 0 dB peak) and notch formulas of
    R. Bristow-Johnson's "Audio EQ Cookbook", run as a direct-form-I recurrence, and
    chained in series in index order. */
module Biquad {
  import opened Dsp

  /** Sample rate of the subtractive demo. */
  const SAMPLE_RATE: int := 44100
  const MAX_FILTERS: int := 5

  // The clamps update_filter applies: cutoff in [20, SAMPLE_RATE / 2 - 100] with the
  // upper bound computed in integer arithmetic (21950), resonance at least 0.05.
  const CUTOFF_MIN: real := 20.0
  const CUTOFF_MAX: int := SAMPLE_RATE / 2 - 100
  const RES_MIN: real := 0.05

  /** The largest normalised angular frequency a clamped cutoff reaches; below PI
      because the ceiling lies under half the sample rate. */
  const MAX_W0: real := Increment(CUTOFF_MAX as real, SAMPLE_RATE as real)

  datatype FilterType = LPF | HPF | BPF | Notch

  /** `(type + 1) % 4` over the enumeration order LPF, HPF, BPF, Notch. */
  function NextType(t: FilterType): (r: FilterType)
    ensures r != t
  {
    match t
    case LPF => HPF
    case HPF => BPF
    case BPF => Notch
    case Notch => LPF
  }

  /** Four presses of the type key return to the starting type, and no fewer do. */
  lemma NextTypeCycle(t: FilterType)
    ensures NextType(NextType(NextType(NextType(t)))) == t
    ensures NextType(NextType(t)) != t && NextType(NextType(NextType(t))) != t
  {
  }

  /** The five normalised coefficients of a section (a0 is 1 after normalisation). */
  datatype Coeffs = Coeffs(b0: real, b1: real, b2: real, a1: real, a2: real)

  /** One entry of `filters[]`: design parameters, coefficients and recurrence memory. */
  datatype Filter = Filter(
    ftype: FilterType, cutoff: real, res: real,
    b0: real, b1: real, b2: real, a1: real, a2: real,
    x1: real, x2: real, y1: real, y2: real)

  function CoeffsOf(f: Filter): Coeffs
  {
    Coeffs(f.b0, f.b1, f.b2, f.a1, f.a2)
  }

  /** What the filter design assumes of the math library besides Sane: at every angular
      frequency a clamped cutoff can reach, (0, MAX_W0] within (0, PI), the sine is
      positive and the cosine lies strictly between −1 and 1. */
  ghost predicate FilterTrig(t: Trig)
  {
    Sane(t) && forall x :: 0.0 < x <= MAX_W0 ==> 0.0 < t.sin(x) && -1.0 < t.cos(x) < 1.0
  }

  /** The denominator 1 + a1·z⁻¹ + a2·z⁻² has both poles strictly inside the unit circle
      (the stability triangle of a second-order section). */
  predicate Stable(c: Coeffs)
  {
    -1.0 < c.a2 < 1.0 && -(1.0 + c.a2) < c.a1 < 1.0 + c.a2
  }

  /** The frequency response at DC is 1: numerator and denominator agree at z = 1. */
  predicate UnityAtDc(c: Coeffs)
  {
    c.b0 + c.b1 + c.b2 == 1.0 + c.a1 + c.a2
  }

  /** The frequency response at Nyquist is 1: numerator and denominator agree at z = −1. */
  predicate UnityAtNyquist(c: Coeffs)
  {
    c.b0 - c.b1 + c.b2 == 1.0 - c.a1 + c.a2
  }

  predicate ZeroAtDc(c: Coeffs)
  {
    c.b0 + c.b1 + c.b2 == 0.0
  }

  predicate ZeroAtNyquist(c: Coeffs)
  {
    c.b0 - c.b1 + c.b2 == 0.0
  }

  /** The unnormalised numerator (b0, b1, b2) of each cookbook design. */
  function Numerator(t: FilterType, cosw: real, alpha: real): (real, real, real)
  {
    match t
    case LPF => ((1.0 - cosw) / 2.0, 1.0 - cosw, (1.0 - cosw) / 2.0)
    case HPF => ((1.0 + cosw) / 2.0, -(1.0 + cosw), (1.0 + cosw) / 2.0)
    case BPF => (alpha, 0.0, -alpha)
    case Notch => (1.0, -2.0 * cosw, 1.0)
  }

  /** The cookbook design for cos ω0, sin ω0 and resonance res, with every coefficient
      divided by a0 = 1 + α where α = sin ω0 / (2·res). Each design has its
      characteristic shape and response: the low-pass passes DC and blocks Nyquist, the
      high-pass the reverse, the band-pass blocks both, the notch passes both; and every
      design is stable. */
  function Design(t: FilterType, cosw: real, sinw: real, res: real): (c: Coeffs)
    requires 0.0 < res && 0.0 < sinw && -1.0 < cosw < 1.0
    ensures Stable(c)
    ensures t == LPF ==> c.b0 == c.b2 && c.b1 == 2.0 * c.b0 && UnityAtDc(c) && ZeroAtNyquist(c)
    ensures t == HPF ==> c.b0 == c.b2 && c.b1 == -2.0 * c.b0 && ZeroAtDc(c) && UnityAtNyquist(c)
    ensures t == BPF ==> c.b1 == 0.0 && c.b2 == -c.b0 && ZeroAtDc(c) && ZeroAtNyquist(c)
    ensures t == Notch ==> c.b0 == c.b2 && c.b1 == c.a1 && UnityAtDc(c) && UnityAtNyquist(c)
  {
    var alpha := sinw / (2.0 * res);
    assert alpha > 0.0;
    var n := Numerator(t, cosw, alpha);
    StableDenominator(cosw, alpha);
    Normalise(n.0, n.1, n.2, -2.0 * cosw, 1.0 - alpha, 1.0 + alpha)
  }

  /** The coefficients of numerator (n0, n1, n2) and denominator (a0, d1, d2) divided
      by a0: DC and Nyquist sums are those of the unnormalised polynomials over a0. */
  function Normalise(n0: real, n1: real, n2: real, d1: real, d2: real, a0: real): (c: Coeffs)
    requires a0 > 0.0
    ensures c.b0 + c.b1 + c.b2 == (n0 + n1 + n2) / a0
    ensures c.b0 - c.b1 + c.b2 == (n0 - n1 + n2) / a0
    ensures 1.0 + c.a1 + c.a2 == (a0 + d1 + d2) / a0
    ensures 1.0 - c.a1 + c.a2 == (a0 - d1 + d2) / a0
    ensures n0 == n2 ==> c.b0 == c.b2
    ensures n2 == -n0 ==> c.b2 == -c.b0
    ensures n1 == 0.0 ==> c.b1 == 0.0
    ensures n1 == 2.0 * n0 ==> c.b1 == 2.0 * c.b0
    ensures n1 == -2.0 * n0 ==> c.b1 == -2.0 * c.b0
    ensures n1 == d1 ==> c.b1 == c.a1
    ensures c.a1 == d1 / a0 && c.a2 == d2 / a0
  {
    var c := Coeffs(n0 / a0, n1 / a0, n2 / a0, d1 / a0, d2 / a0);
    NormalisedSums(c, n0, n1, n2, d1, d2, a0);
    NormalisedShape(c, n0, n1, n2, d1, a0);
    c
  }

  /** The DC and Nyquist sums of the normalised coefficients. */
  lemma NormalisedSums(c: Coeffs, n0: real, n1: real, n2: real, d1: real, d2: real, a0: real)
    requires a0 > 0.0 && c == Coeffs(n0 / a0, n1 / a0, n2 / a0, d1 / a0, d2 / a0)
    ensures c.b0 + c.b1 + c.b2 == (n0 + n1 + n2) / a0
    ensures c.b0 - c.b1 + c.b2 == (n0 - n1 + n2) / a0
    ensures 1.0 + c.a1 + c.a2 == (a0 + d1 + d2) / a0
    ensures 1.0 - c.a1 + c.a2 == (a0 - d1 + d2) / a0
  {
    DivSum(c.b0, c.b1, c.b2, n0, n1, n2, a0);
    DivSum(c.b0, -c.b1, c.b2, n0, -n1, n2, a0);
    DivSum(1.0, c.a1, c.a2, a0, d1, d2, a0);
    DivSum(1.0, -c.a1, c.a2, a0, -d1, d2, a0);
  }

  /** Proportions between the numerator coefficients survive the normalisation. */
  lemma NormalisedShape(c: Coeffs, n0: real, n1: real, n2: real, d1: real, a0: real)
    requires a0 > 0.0 && c.b0 == n0 / a0 && c.b1 == n1 / a0 && c.b2 == n2 / a0 && c.a1 == d1 / a0
    ensures n0 == n2 ==> c.b0 == c.b2
    ensures n2 == -n0 ==> c.b2 == -c.b0
    ensures n1 == 0.0 ==> c.b1 == 0.0
    ensures n1 == 2.0 * n0 ==> c.b1 == 2.0 * c.b0
    ensures n1 == -2.0 * n0 ==> c.b1 == -2.0 * c.b0
    ensures n1 == d1 ==> c.b1 == c.a1
  {
    DivScaled(n2, n0, -1.0, a0);
    DivScaled(n1, n0, 0.0, a0);
    DivScaled(n1, n0, 2.0, a0);
    DivScaled(n1, n0, -2.0, a0);
  }

  /** Dividing by a positive a keeps a proportion between two values. */
  lemma DivScaled(x: real, y: real, k: real, a: real)
    requires a > 0.0
    ensures x == k * y ==> x / a == k * (y / a)
  {
    if x == k * y {
      assert (k * (y / a)) * a == k * y;
    }
  }

  /** Three quotients by the same positive a add up to the quotient of the sum. */
  lemma DivSum(p: real, q: real, r: real, x: real, y: real, z: real, a: real)
    requires a > 0.0 && p * a == x && q * a == y && r * a == z
    ensures p + q + r == (x + y + z) / a
  {
    assert (p + q + r) * a == x + y + z;
  }

  /** The normalised denominator of every design lies inside the stability triangle. */
  lemma StableDenominator(cosw: real, alpha: real)
    requires alpha > 0.0 && -1.0 < cosw < 1.0
    ensures Stable(Coeffs(0.0, 0.0, 0.0, -2.0 * cosw / (1.0 + alpha), (1.0 - alpha) / (1.0 + alpha)))
  {
    var a0 := 1.0 + alpha;
    var a1, a2 := -2.0 * cosw / a0, (1.0 - alpha) / a0;
    assert a1 * a0 == -2.0 * cosw;
    assert a2 * a0 == 1.0 - alpha;
    PositiveFactor(1.0 - a2, a0);
    PositiveFactor(1.0 + a2, a0);
    assert (1.0 + a2 - a1) * a0 == a0 + a2 * a0 - a1 * a0;
    PositiveFactor(1.0 + a2 - a1, a0);
    assert (1.0 + a2 + a1) * a0 == a0 + a2 * a0 + a1 * a0;
    PositiveFactor(1.0 + a2 + a1, a0);
  }

  lemma PositiveFactor(p: real, a: real)
    requires a > 0.0 && p * a > 0.0
    ensures p > 0.0
  {
  }

  /** The clamp of the cutoff to [CUTOFF_MIN, CUTOFF_MAX]: an in-range value is kept,
      a value outside is moved to the nearer bound. */
  function ClampCutoff(c: real): (r: real)
    ensures CUTOFF_MIN <= r <= CUTOFF_MAX as real
    ensures CUTOFF_MIN <= c <= CUTOFF_MAX as real ==> r == c
    ensures c < CUTOFF_MIN ==> r == CUTOFF_MIN
    ensures c > CUTOFF_MAX as real ==> r == CUTOFF_MAX as real
  {
    var lo := if c < CUTOFF_MIN then CUTOFF_MIN else c;
    if lo > CUTOFF_MAX as real then CUTOFF_MAX as real else lo
  }

  /** The floor on the resonance: a value of at least RES_MIN is kept, a smaller one raised to it. */
  function ClampRes(q: real): (r: real)
    ensures r >= RES_MIN
    ensures q >= RES_MIN ==> r == q
    ensures q < RES_MIN ==> r == RES_MIN
  {
    if q < RES_MIN then RES_MIN else q
  }

  /** ω0 = 2·PI·cutoff / SAMPLE_RATE; for a clamped cutoff it lies in (0, MAX_W0]. */
  function W0(cutoff: real): (w: real)
    ensures CUTOFF_MIN <= cutoff <= CUTOFF_MAX as real ==> 0.0 < w <= MAX_W0
  {
    IncrementMonotone(cutoff, CUTOFF_MAX as real, SAMPLE_RATE as real);
    Increment(cutoff, SAMPLE_RATE as real)
  }

  lemma IncrementMonotone(f: real, g: real, rate: real)
    requires rate > 0.0
    ensures f <= g ==> Increment(f, rate) <= Increment(g, rate)
    ensures 0.0 < f ==> 0.0 < Increment(f, rate)
  {
    if f <= g {
      assert f / rate <= g / rate;
    }
    if 0.0 < f {
      assert 0.0 < f / rate;
    }
  }

  /** The filter is clamped and its coefficients are the design for its parameters. */
  ghost predicate Designed(f: Filter, t: Trig)
  {
    && FilterTrig(t)
    && CUTOFF_MIN <= f.cutoff <= CUTOFF_MAX as real
    && f.res >= RES_MIN
    && CoeffsOf(f) == Design(f.ftype, t.cos(W0(f.cutoff)), t.sin(W0(f.cutoff)), f.res)
  }

  /** update_filter: clamp cutoff and resonance, then recompute the coefficients from
      type, cutoff and resonance; the recurrence memory is untouched and the result is stable. */
  function Update(f: Filter, t: Trig): (g: Filter)
    requires FilterTrig(t)
    ensures g.ftype == f.ftype
    ensures g.cutoff == ClampCutoff(f.cutoff) && g.res == ClampRes(f.res)
    ensures g.x1 == f.x1 && g.x2 == f.x2 && g.y1 == f.y1 && g.y2 == f.y2
    ensures Designed(g, t)
    ensures Stable(CoeffsOf(g))
  {
    var cutoff := ClampCutoff(f.cutoff);
    var w0 := W0(cutoff);
    var cosw, sinw := t.cos(w0), t.sin(w0);
    var res := ClampRes(f.res);
    var c := Design(f.ftype, cosw, sinw, res);
    f.(cutoff := cutoff, res := res, b0 := c.b0, b1 := c.b1, b2 := c.b2, a1 := c.a1, a2 := c.a2)
  }

  /** Recomputing with unchanged parameters changes nothing: the coefficients are a
      function of type, cutoff and resonance alone. */
  lemma UpdateIdempotent(f: Filter, t: Trig)
    requires FilterTrig(t)
    ensures Update(Update(f, t), t) == Update(f, t)
  {
  }

  /** The previous coefficients play no part in an update: two filters that agree on
      type, cutoff, resonance and memory update to the same filter. */
  lemma UpdateIgnoresCoeffs(f: Filter, g: Filter, t: Trig)
    requires FilterTrig(t)
    requires f.ftype == g.ftype && f.cutoff == g.cutoff && f.res == g.res
    requires f.x1 == g.x1 && f.x2 == g.x2 && f.y1 == g.y1 && f.y2 == g.y2
    ensures Update(f, t) == Update(g, t)
  {
  }

  /** A zero-initialised entry of the global `filters[]` array. */
  const ZERO_FILTER: Filter := Filter(LPF, 0.0, 0.0, 0.0, 0.0, 0.0, 0.0, 0.0, 0.0, 0.0, 0.0, 0.0)

  // The filter add_filter appends: a low-pass at 800 Hz with resonance 0.7.
  const NEW_CUTOFF: real := 800.0
  const NEW_RES: real := 0.7

  /** The filter add_filter appends: the designed 800 Hz low-pass with resonance 0.7, at rest. */
  function NewFilter(t: Trig): (f: Filter)
    requires FilterTrig(t)
    ensures f.ftype == LPF && f.cutoff == NEW_CUTOFF && f.res == NEW_RES
    ensures AtRest(f) && Designed(f, t)
  {
    Update(ZERO_FILTER.(cutoff := NEW_CUTOFF, res := NEW_RES), t)
  }

  /** The output of one step of the direct-form-I recurrence for input x. A filter at
      rest answers with b0 times its input: the first tap of its impulse response. */
  function Output(f: Filter, x: real): (y: real)
    ensures AtRest(f) ==> y == f.b0 * x
  {
    f.b0 * x + f.b1 * f.x1 + f.b2 * f.x2 - f.a1 * f.y1 - f.a2 * f.y2
  }

  /** The filter after one step: the input and output histories shift by one sample;
      design parameters and coefficients stay. */
  function Shifted(f: Filter, x: real): (g: Filter)
    ensures g.ftype == f.ftype && g.cutoff == f.cutoff && g.res == f.res && CoeffsOf(g) == CoeffsOf(f)
    ensures g.x1 == x && g.x2 == f.x1 && g.y1 == Output(f, x) && g.y2 == f.y1
  {
    f.(x2 := f.x1, x1 := x, y2 := f.y1, y1 := Output(f, x))
  }

  /** Recurrence memory all zero. */
  predicate AtRest(f: Filter)
  {
    f.x1 == 0.0 && f.x2 == 0.0 && f.y1 == 0.0 && f.y2 == 0.0
  }

  /** A filter at rest fed zero outputs zero and stays at rest, unchanged. */
  lemma AtRestStays(f: Filter)
    requires AtRest(f)
    ensures Output(f, 0.0) == 0.0 && Shifted(f, 0.0) == f
  {
  }

  /** The recurrence memory scaled by c. */
  function ScaleState(f: Filter, c: real): Filter
  {
    f.(x1 := c * f.x1, x2 := c * f.x2, y1 := c * f.y1, y2 := c * f.y2)
  }

  /** The recurrence is linear: scaling input and memory scales output and new memory. */
  lemma ProcessHomogeneous(f: Filter, c: real, x: real)
    ensures Output(ScaleState(f, c), c * x) == c * Output(f, x)
    ensures Shifted(ScaleState(f, c), c * x) == ScaleState(Shifted(f, x), c)
  {
    calc {
      Output(ScaleState(f, c), c * x);
      f.b0 * (c * x) + f.b1 * (c * f.x1) + f.b2 * (c * f.x2) - f.a1 * (c * f.y1) - f.a2 * (c * f.y2);
      c * (f.b0 * x + f.b1 * f.x1 + f.b2 * f.x2 - f.a1 * f.y1 - f.a2 * f.y2);
    }
  }

  /** A filter whose memory holds the constant input u on both sides reproduces u when
      its DC response is unity. */
  lemma SteadyPass(f: Filter, u: real)
    requires UnityAtDc(CoeffsOf(f)) && f.x1 == u && f.x2 == u && f.y1 == u && f.y2 == u
    ensures Output(f, u) == u
  {
    calc {
      Output(f, u);
      (f.b0 + f.b1 + f.b2) * u - (f.a1 + f.a2) * u;
      (1.0 + f.a1 + f.a2) * u - (f.a1 + f.a2) * u;
    }
  }

  /** A filter whose input memory holds u and whose output memory is silent stays
      silent when its DC response is zero. */
  lemma SteadyBlock(f: Filter, u: real)
    requires ZeroAtDc(CoeffsOf(f)) && f.x1 == u && f.x2 == u && f.y1 == 0.0 && f.y2 == 0.0
    ensures Output(f, u) == 0.0
  {
    assert Output(f, u) == (f.b0 + f.b1 + f.b2) * u;
  }

  /** A designed filter that has settled on a constant input u reproduces its DC response:
      the low-pass and the notch hold the level u, the high-pass and the band-pass hold 0. */
  lemma SettledAtDc(f: Filter, t: Trig, u: real)
    requires Designed(f, t) && f.x1 == u && f.x2 == u
    ensures (f.ftype == LPF || f.ftype == Notch) && f.y1 == u && f.y2 == u ==> Output(f, u) == u
    ensures (f.ftype == HPF || f.ftype == BPF) && f.y1 == 0.0 && f.y2 == 0.0 ==> Output(f, u) == 0.0
  {
    if (f.ftype == LPF || f.ftype == Notch) && f.y1 == u && f.y2 == u {
      SteadyPass(f, u);
    }
    if (f.ftype == HPF || f.ftype == BPF) && f.y1 == 0.0 && f.y2 == 0.0 {
      SteadyBlock(f, u);
    }
  }

  /** The output of a chain of filters applied in series in index order. A chain at
      rest answers with its input times the product of the leading taps b0. */
  function ChainOut(fs: seq<Filter>, x: real): (y: real)
    ensures (forall j :: 0 <= j < |fs| ==> AtRest(fs[j])) ==> y == LeadGain(fs) * x
    decreases |fs|
  {
    if fs == [] then x
    else
      var n := |fs| - 1;
      var u := ChainOut(fs[..n], x);
      assert (forall j :: 0 <= j < |fs| ==> AtRest(fs[j])) ==> u == LeadGain(fs[..n]) * x by {
        if forall j :: 0 <= j < |fs| ==> AtRest(fs[j]) {
          assert forall j :: 0 <= j < n ==> fs[..n][j] == fs[j];
        }
      }
      Output(fs[n], u)
  }

  /** The product of the leading taps b0 of a chain, in index order. */
  function LeadGain(fs: seq<Filter>): real
    decreases |fs|
  {
    if fs == [] then 1.0 else LeadGain(fs[..|fs| - 1]) * fs[|fs| - 1].b0
  }

  /** The chain after one sample, filter by filter in index order. */
  function ChainState(fs: seq<Filter>, x: real): (r: seq<Filter>)
    ensures |r| == |fs|
    decreases |fs|
  {
    if fs == [] then []
    else
      var n := |fs| - 1;
      ChainState(fs[..n], x) + [Shifted(fs[n], ChainOut(fs[..n], x))]
  }

  /** Filter j of the new chain has processed the output of filters 0..j−1. */
  lemma {:induction false} ChainStateAt(fs: seq<Filter>, x: real, j: int)
    requires 0 <= j < |fs|
    ensures ChainState(fs, x)[j] == Shifted(fs[j], ChainOut(fs[..j], x))
    decreases |fs|
  {
    var n := |fs| - 1;
    if j < n {
      ChainStateAt(fs[..n], x, j);
      assert fs[..n][..j] == fs[..j];
    }
  }

  /** Running two chains back to back is running their concatenation. */
  lemma {:induction false} ChainOutAppend(a: seq<Filter>, b: seq<Filter>, x: real)
    ensures ChainOut(a + b, x) == ChainOut(b, ChainOut(a, x))
    decreases |b|
  {
    if b == [] {
      assert a + b == a;
    } else {
      var n := |b| - 1;
      assert (a + b)[..|a + b| - 1] == a + b[..n];
      ChainOutAppend(a, b[..n], x);
    }
  }

  /** The state of a concatenated chain after one sample: the first part's new state,
      then the second part's new state for the first part's output. */
  lemma {:induction false} ChainStateAppend(a: seq<Filter>, b: seq<Filter>, x: real)
    ensures ChainState(a + b, x) == ChainState(a, x) + ChainState(b, ChainOut(a, x))
    decreases |b|
  {
    if b == [] {
      assert a + b == a;
    } else {
      var n := |b| - 1;
      assert (a + b)[..|a + b| - 1] == a + b[..n];
      assert (a + b)[|a + b| - 1] == b[n];
      ChainStateAppend(a, b[..n], x);
      ChainOutAppend(a, b[..n], x);
    }
  }

  /** A chain at rest fed zero outputs zero and stays unchanged. */
  lemma {:induction false} ChainAtRest(fs: seq<Filter>)
    requires forall j :: 0 <= j < |fs| ==> AtRest(fs[j])
    ensures ChainOut(fs, 0.0) == 0.0
    ensures ChainState(fs, 0.0) == fs
    decreases |fs|
  {
    if fs != [] {
      var n := |fs| - 1;
      ChainAtRest(fs[..n]);
      AtRestStays(fs[n]);
      assert fs[..n] + [fs[n]] == fs;
    }
  }

  /** Running samples through a chain never changes a filter's design. */
  lemma ChainKeepsDesign(fs: seq<Filter>, x: real, t: Trig)
    requires forall j :: 0 <= j < |fs| ==> Designed(fs[j], t)
    ensures forall j :: 0 <= j < |fs| ==> Designed(ChainState(fs, x)[j], t)
  {
    forall j | 0 <= j < |fs| ensures Designed(ChainState(fs, x)[j], t) {
      ChainStateAt(fs, x, j);
    }
  }
}
