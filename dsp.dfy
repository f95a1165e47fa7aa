/** Arithmetic shared by the three synthesis engines: the PI constant of the
    sources, the phase accumulator with its single-subtraction wrap, the naive
    saw and triangle waveforms, and the math-library functions the engines call. */
module Dsp {

  /** PI as every source file defines it: a decimal literal, slightly above the real constant. */
  const PI: real := 3.14159265359
  const TWO_PI: real := 2.0 * PI

  /** The functions of the C math library that the engines call (sin/sinf, cos/cosf, asin/asinf).
      Their values are not modelled; each engine receives them as a parameter. */
  datatype Trig = Trig(sin: real -> real, cos: real -> real, asin: real -> real)

  /** What the model assumes of the math library: sine and cosine lie in [-1, 1],
      satisfy the Pythagorean identity, and arcsine lies in [-PI/2, PI/2]. */
  ghost predicate Sane(t: Trig)
  {
    && (forall x :: -1.0 <= t.sin(x) <= 1.0)
    && (forall x :: -1.0 <= t.cos(x) <= 1.0)
    && (forall x :: t.sin(x) * t.sin(x) + t.cos(x) * t.cos(x) == 1.0)
    && (forall x :: -PI / 2.0 <= t.asin(x) <= PI / 2.0)
  }

  /** A phase within one turn; the accumulators wrap only when the phase exceeds 2·PI,
      so 2·PI itself is a reachable value. */
  predicate InTurn(phase: real)
  {
    0.0 <= phase <= TWO_PI
  }

  /** The per-sample phase increment 2·PI·freq / rate. */
  function Increment(freq: real, rate: real): real
    requires rate > 0.0
  {
    TWO_PI * (freq / rate)
  }

  /** An increment of at most one turn for a frequency of at most the sample rate. */
  lemma IncrementBounds(freq: real, rate: real)
    requires rate > 0.0
    ensures 0.0 <= freq ==> 0.0 <= Increment(freq, rate)
    ensures freq <= rate ==> Increment(freq, rate) <= TWO_PI
  {
    if 0.0 <= freq {
      assert freq / rate >= 0.0;
    }
    if freq <= rate {
      var q := freq / rate;
      assert q * rate == freq;
      assert q <= 1.0;
      assert TWO_PI * q <= TWO_PI;
    }
  }

  /** One step of a phase accumulator: add the increment, then subtract one turn
      if the result exceeds 2·PI. The step moves the phase by the increment modulo
      one turn; it keeps a non-negative phase non-negative, and keeps a phase within
      one turn when the frequency does not exceed the sample rate. */
  function PhaseStep(phase: real, freq: real, rate: real): (r: real)
    requires rate > 0.0
    ensures r == phase + Increment(freq, rate) || r == phase + Increment(freq, rate) - TWO_PI
    ensures r <= TWO_PI <== phase + Increment(freq, rate) <= 2.0 * TWO_PI
    ensures 0.0 <= phase && 0.0 <= freq ==> 0.0 <= r
    ensures InTurn(phase) && 0.0 <= freq <= rate ==> InTurn(r)
  {
    IncrementBounds(freq, rate);
    var p := phase + Increment(freq, rate);
    if p > TWO_PI then p - TWO_PI else p
  }

  /** The naive sawtooth 2·(phase / 2·PI) − 1: a ramp from −1 at phase 0 to 1 at phase 2·PI. */
  function Saw(phase: real): (r: real)
    ensures InTurn(phase) ==> -1.0 <= r <= 1.0
    ensures phase == 0.0 ==> r == -1.0
    ensures phase == TWO_PI ==> r == 1.0
  {
    2.0 * (phase / TWO_PI) - 1.0
  }

  /** The sawtooth is increasing in the phase. */
  lemma SawIncreasing(p: real, q: real)
    requires p < q
    ensures Saw(p) < Saw(q)
  {
    assert p / TWO_PI < q / TWO_PI;
  }

  /** The triangle asin(sin(phase))·2 / PI, within [−1, 1] for a sane math library. */
  function Triangle(t: Trig, phase: real): real
  {
    t.asin(t.sin(phase)) * 2.0 / PI
  }

  lemma TriangleBounded(t: Trig, phase: real)
    requires Sane(t)
    ensures -1.0 <= Triangle(t, phase) <= 1.0
  {
    var a := t.asin(t.sin(phase));
    assert -PI / 2.0 <= a <= PI / 2.0;
  }

  /** The value k·step: the points of a grid of spacing step. */
  function Steps(k: int, step: real): real
  {
    k as real * step
  }

  /** x is one of the grid points lo·step, ..., hi·step. Parameters that the user edits
      in fixed increments (modulation index, amplitude, frequency) stay on such a grid
      in exact arithmetic. */
  ghost predicate OnGrid(x: real, step: real, lo: int, hi: int)
  {
    exists k :: lo <= k <= hi && x == Steps(k, step)
  }

  /** Length of the visualisation ring buffer (WAVE_BUF in every source file). */
  const WAVE_BUF: int := 1024

  /** The visualisation buffer after the samples of out have been written one by one,
      starting at cursor pos and advancing the cursor modulo the buffer length. */
  function RingWrite(vis: seq<real>, pos: int, out: seq<real>): (r: seq<real>)
    requires |vis| == WAVE_BUF && 0 <= pos
    ensures |r| == WAVE_BUF
    decreases |out|
  {
    if out == [] then vis
    else RingWrite(vis, pos, out[..|out| - 1])[(pos + |out| - 1) % WAVE_BUF := out[|out| - 1]]
  }

  /** Every sample of a block multiplied by a gain, as written to the output stream. */
  function Scaled(xs: seq<real>, g: real): (r: seq<real>)
    ensures |r| == |xs| && forall k :: 0 <= k < |xs| ==> r[k] == xs[k] * g
  {
    seq(|xs|, k requires 0 <= k < |xs| => xs[k] * g)
  }

  /** Scaling a block sample by sample: one more sample scales to one more output. */
  lemma ScaledSnoc(xs: seq<real>, x: real, g: real)
    ensures Scaled(xs + [x], g) == Scaled(xs, g) + [x * g]
  {
    var a, b := Scaled(xs + [x], g), Scaled(xs, g) + [x * g];
    assert forall k :: 0 <= k < |a| ==> a[k] == b[k];
  }

  /** A stream buffer holding the first |out| samples scaled, followed by its earlier
      contents: writing the next scaled sample at index |out| extends the scaled part. */
  lemma ScaledWrite(b: seq<real>, b0: seq<real>, out: seq<real>, x: real, g: real)
    requires |out| < |b0| && b == Scaled(out, g) + b0[|out|..]
    ensures b[|out| := x * g] == Scaled(out + [x], g) + b0[|out| + 1..]
  {
    ScaledSnoc(out, x, g);
    assert b0[|out|..] == [b0[|out|]] + b0[|out| + 1..];
  }

  /** Each of the last WAVE_BUF samples written sits at its own cursor position. */
  lemma {:induction false} RingWriteAt(vis: seq<real>, pos: int, out: seq<real>, i: int)
    requires |vis| == WAVE_BUF && 0 <= pos
    requires 0 <= i < |out| && |out| - i <= WAVE_BUF
    ensures RingWrite(vis, pos, out)[(pos + i) % WAVE_BUF] == out[i]
    decreases |out|
  {
    var n := |out| - 1;
    if i < n {
      assert (pos + i) % WAVE_BUF != (pos + n) % WAVE_BUF by {
        ModDistinct(pos + i, pos + n);
      }
      assert out[..n][i] == out[i];
      RingWriteAt(vis, pos, out[..n], i);
    }
  }

  /** When fewer than WAVE_BUF samples are written, the entries the cursor did not reach keep their values. */
  lemma {:induction false} RingWriteUntouched(vis: seq<real>, pos: int, out: seq<real>, d: int)
    requires |vis| == WAVE_BUF && 0 <= pos
    requires 0 <= d && |out| + d < WAVE_BUF
    ensures RingWrite(vis, pos, out)[(pos + |out| + d) % WAVE_BUF] == vis[(pos + |out| + d) % WAVE_BUF]
    decreases |out|
  {
    if out != [] {
      var n := |out| - 1;
      assert (pos + n) % WAVE_BUF != (pos + |out| + d) % WAVE_BUF by {
        ModDistinct(pos + n, pos + |out| + d);
      }
      assert pos + |out| + d == pos + n + (d + 1);
      RingWriteUntouched(vis, pos, out[..n], d + 1);
    }
  }

  /** Two cursor values less than a full buffer apart name different slots. */
  lemma ModDistinct(a: int, b: int)
    requires 0 <= a < b < a + WAVE_BUF
    ensures a % WAVE_BUF != b % WAVE_BUF
  {
  }

  /** Outputs o(0), o(1), ... of lengths 0, 1, ..., each extending the one before by
      one sample: every later output extends every earlier one. */
  lemma {:induction false} StreamPrefix(o: nat -> seq<real>, m: nat, n: nat)
    requires forall k: nat :: |o(k)| == k
    requires forall k: nat :: o(k + 1)[..k] == o(k)
    requires m <= n
    ensures o(n)[..m] == o(m)
    decreases n
  {
    if m < n {
      StreamPrefix(o, m, n - 1);
      assert o(n)[..m] == o(n)[..n - 1][..m];
    }
  }
}
