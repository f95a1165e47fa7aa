/** The FM synthesizer: up to MAX_VOICES voices played from the computer keyboard,
    each a carrier oscillator with its own waveform, optionally phase-modulated by the
    single modulator `fm[0]`. The pure part fixes what one sample and a block of
    samples compute and how the modulator parameters move; the class `Synth` holds the
    program's global state and its event handlers and audio callback update it in place. */
module FmSynth {
  import opened Dsp
  import opened Keys
  import Pool
  import opened Bank
  import opened Scope

  /** Sample rate of the FM demo. */
  const SAMPLE_RATE: int := 44100

  datatype WaveType = WaveSin | WaveSaw | WaveSquare | WaveTriangle

  /** `(wave + 1) % 4` over the order sine, saw, square, triangle. */
  function NextWave(w: WaveType): (r: WaveType)
    ensures r != w
  {
    match w
    case WaveSin => WaveSaw
    case WaveSaw => WaveSquare
    case WaveSquare => WaveTriangle
    case WaveTriangle => WaveSin
  }

  /** Four presses return to the starting waveform, and no fewer do. */
  lemma NextWaveCycle(w: WaveType)
    ensures NextWave(NextWave(NextWave(NextWave(w)))) == w
    ensures NextWave(NextWave(w)) != w && NextWave(NextWave(NextWave(w))) != w
  {
  }

  /** A harmonic modulator follows the played note at a fixed ratio; an inharmonic one
      keeps its own frequency. */
  datatype FModType = Harmonic | Inharmonic

  /** `(type + 1) % 2`. */
  function NextFModType(m: FModType): (r: FModType)
    ensures r != m
  {
    if m == Harmonic then Inharmonic else Harmonic
  }

  /** Toggling the type twice restores it. */
  lemma NextFModTypeTwice(m: FModType)
    ensures NextFModType(NextFModType(m)) == m
  {
  }

  /** One entry of `voices[]`; the unused field `ang_freq` is not part of the model. */
  datatype Voice = Voice(active: bool, key: Keycode, freq: real, phase: real, wave: WaveType)

  /** A zero-initialised entry of the global `voices[]` array. */
  const SILENT_VOICE: Voice := Voice(false, 0, 0.0, 0.0, WaveSin)

  /** One entry of `fm[]`: modulator frequency, phase, modulation index β, harmonic
      ratio, waveform and type. */
  datatype FMod = FMod(freq: real, phase: real, beta: real, ratio: real, fwave: WaveType, ftype: FModType)

  /** A zero-initialised entry of the global `fm[]` array (type 0 is HARMONIC). */
  const ZERO_FMOD: FMod := FMod(0.0, 0.0, 0.0, 0.0, WaveSin, Harmonic)

  /** The modulator add_fmod installs: 20 Hz, β = 0.2, phase 0, ratio 1, sine, inharmonic. */
  const NEW_FMOD: FMod := FMod(20.0, 0.0, 0.2, 1.0, WaveSin, Inharmonic)

  /** The voices as the allocation rules see them. */
  function Slots(vs: seq<Voice>): (r: seq<Pool.Slot>)
    ensures |r| == |vs|
    ensures forall i :: 0 <= i < |vs| ==> r[i] == Pool.Slot(vs[i].active, vs[i].key)
  {
    seq(|vs|, i requires 0 <= i < |vs| => Pool.Slot(vs[i].active, vs[i].key))
  }

  /** The frequency is one a layout can produce and the phase lies within one turn. */
  predicate VoiceOk(v: Voice)
  {
    0.0 <= v.freq <= MAX_NOTE_FREQ && InTurn(v.phase)
  }

  /** The voice invariant: every voice is in range and no key sounds on two voices. */
  ghost predicate VoicesOk(vs: seq<Voice>)
  {
    (forall i :: 0 <= i < |vs| ==> VoiceOk(vs[i])) && Pool.KeysUnique(Slots(vs))
  }

  /** The carrier phase update of gen_voice and process_fmod: one increment at
      SAMPLE_RATE and a single wrap. Only the phase changes, and it stays within one turn. */
  function Advance(v: Voice): (r: Voice)
    ensures r.active == v.active && r.key == v.key && r.freq == v.freq && r.wave == v.wave
    ensures r.phase == PhaseStep(v.phase, v.freq, SAMPLE_RATE as real)
    ensures VoiceOk(v) ==> VoiceOk(r)
  {
    v.(phase := PhaseStep(v.phase, v.freq, SAMPLE_RATE as real))
  }

  /** The modulator phase update of process_fmod. Only the phase changes; a non-negative
      phase stays non-negative, and a phase within one turn stays there while the
      modulator frequency does not exceed the sample rate. */
  function ModStep(f: FMod): (g: FMod)
    ensures g == f.(phase := PhaseStep(f.phase, f.freq, SAMPLE_RATE as real))
    ensures 0.0 <= f.phase && 0.0 <= f.freq ==> 0.0 <= g.phase
    ensures InTurn(f.phase) && 0.0 <= f.freq <= SAMPLE_RATE as real ==> InTurn(g.phase)
  {
    f.(phase := PhaseStep(f.phase, f.freq, SAMPLE_RATE as real))
  }

  /** The modulator after k phase updates. */
  function ModSteps(f: FMod, k: nat): (g: FMod)
    ensures g.freq == f.freq && g.beta == f.beta && g.ratio == f.ratio && g.fwave == f.fwave && g.ftype == f.ftype
    decreases k
  {
    if k == 0 then f else ModStep(ModSteps(f, k - 1))
  }

  /** a updates followed by b updates are a + b updates. */
  lemma {:induction false} ModStepsAdd(f: FMod, a: nat, b: nat)
    ensures ModSteps(ModSteps(f, a), b) == ModSteps(f, a + b)
    decreases b
  {
    if b > 0 {
      ModStepsAdd(f, a, b - 1);
    }
  }

  /** The four waveforms at a phase, as both gen_voice and process_fmod compute them:
      sine, the square ±1 by the sign of the sine, the triangle asin(sin)·2/PI, the naive saw. */
  function Shape(t: Trig, w: WaveType, phase: real): (r: real)
    ensures w == WaveSin ==> r == t.sin(phase)
    ensures w == WaveSquare ==> (r == 1.0 <==> t.sin(phase) > 0.0) && (r == -1.0 <==> t.sin(phase) <= 0.0)
    ensures w == WaveTriangle ==> r == Triangle(t, phase)
    ensures w == WaveSaw ==> r == Saw(phase)
  {
    match w
    case WaveSin => t.sin(phase)
    case WaveSaw => Saw(phase)
    case WaveSquare => if t.sin(phase) > 0.0 then 1.0 else -1.0
    case WaveTriangle => Triangle(t, phase)
  }

  /** Sine, square and triangle lie in [−1, 1] at every phase; the saw only within one turn. */
  lemma ShapeBounded(t: Trig, w: WaveType, phase: real)
    requires Sane(t) && (w == WaveSaw ==> InTurn(phase))
    ensures -1.0 <= Shape(t, w, phase) <= 1.0
  {
    if w == WaveTriangle {
      TriangleBounded(t, phase);
    }
  }

  /** The value process_fmod returns once both phases are updated: the carrier waveform
      at the carrier phase offset by β times the modulator waveform. */
  function FmValue(t: Trig, f: FMod, v: Voice): (r: real)
    ensures f.beta == 0.0 ==> r == Shape(t, v.wave, v.phase)
  {
    Shape(t, v.wave, v.phase + f.beta * Shape(t, f.fwave, f.phase))
  }

  /** A sine, square or triangle carrier stays within [−1, 1] whatever the modulation. */
  lemma FmValueBounded(t: Trig, f: FMod, v: Voice)
    requires Sane(t) && v.wave != WaveSaw
    ensures -1.0 <= FmValue(t, f, v) <= 1.0
  {
    ShapeBounded(t, v.wave, v.phase + f.beta * Shape(t, f.fwave, f.phase));
  }

  /** What the voice loop does to one voice: advance it when active. Only the phase
      of an active voice moves, and the voice invariant is kept. */
  function Tick(v: Voice): (r: Voice)
    ensures r.active == v.active && r.key == v.key && r.freq == v.freq && r.wave == v.wave
    ensures !v.active ==> r == v
    ensures VoiceOk(v) ==> VoiceOk(r)
  {
    if v.active then Advance(v) else v
  }

  /** The number of active voices. */
  function ActiveCount(vs: seq<Voice>): (n: nat)
    ensures n <= |vs|
    decreases |vs|
  {
    if vs == [] then 0 else ActiveCount(vs[..|vs| - 1]) + (if vs[|vs| - 1].active then 1 else 0)
  }

  /** The count depends only on the slots. */
  lemma {:induction false} ActiveCountSame(vs: seq<Voice>, ws: seq<Voice>)
    requires Slots(vs) == Slots(ws)
    ensures ActiveCount(vs) == ActiveCount(ws)
    decreases |vs|
  {
    if vs != [] {
      var n := |vs| - 1;
      assert Slots(vs)[n] == Slots(ws)[n];
      assert Slots(vs[..n]) == Slots(ws[..n]) by {
        assert forall i :: 0 <= i < n ==> Slots(vs)[i] == Slots(ws)[i];
      }
      ActiveCountSame(vs[..n], ws[..n]);
    }
  }

  /** The state the voice loop of the audio callback carries: the voices visited so
      far, the shared modulator and the running sum. */
  datatype Loop = Loop(voices: seq<Voice>, mod: FMod, sum: real)

  /** The voice loop over vs from modulator m: every active voice adds process_fmod's
      value when the modulator is on (which also updates the shared modulator phase),
      and gen_voice's value otherwise; inactive voices are skipped. */
  function VoiceLoop(t: Trig, on: bool, vs: seq<Voice>, m: FMod): (r: Loop)
    ensures |r.voices| == |vs|
    decreases |vs|
  {
    if vs == [] then Loop([], m, 0.0)
    else
      var r := VoiceLoop(t, on, vs[..|vs| - 1], m);
      var v := vs[|vs| - 1];
      if !v.active then Loop(r.voices + [v], r.mod, r.sum)
      else if on then Loop(r.voices + [Advance(v)], ModStep(r.mod), r.sum + FmValue(t, ModStep(r.mod), Advance(v)))
      else Loop(r.voices + [Advance(v)], r.mod, r.sum + Shape(t, v.wave, Advance(v).phase))
  }

  /** Every active voice is advanced once, every other voice untouched. */
  lemma {:induction false} VoiceLoopAt(t: Trig, on: bool, vs: seq<Voice>, m: FMod, i: int)
    requires 0 <= i < |vs|
    ensures VoiceLoop(t, on, vs, m).voices[i] == Tick(vs[i])
    decreases |vs|
  {
    var n := |vs| - 1;
    if i < n {
      VoiceLoopAt(t, on, vs[..n], m, i);
    }
  }

  /** With the modulator on it is updated once per active voice; with it off it is
      left alone. */
  lemma {:induction false} VoiceLoopMod(t: Trig, on: bool, vs: seq<Voice>, m: FMod)
    ensures VoiceLoop(t, on, vs, m).mod == if on then ModSteps(m, ActiveCount(vs)) else m
    decreases |vs|
  {
    if vs != [] {
      VoiceLoopMod(t, on, vs[..|vs| - 1], m);
    }
  }

  /** The voice loop changes no slot and keeps the voice invariant. */
  lemma VoiceLoopKeeps(t: Trig, on: bool, vs: seq<Voice>, m: FMod)
    ensures Slots(VoiceLoop(t, on, vs, m).voices) == Slots(vs)
    ensures VoicesOk(vs) ==> VoicesOk(VoiceLoop(t, on, vs, m).voices)
  {
    var r := VoiceLoop(t, on, vs, m).voices;
    forall i | 0 <= i < |vs| ensures r[i] == Tick(vs[i]) {
      VoiceLoopAt(t, on, vs, m, i);
    }
    assert Slots(r) == Slots(vs);
  }

  /** With every voice in range the sum lies within ± the number of active voices,
      provided no saw carrier is modulated (a modulated saw can leave [−1, 1]). */
  lemma {:induction false} VoiceLoopBounded(t: Trig, on: bool, vs: seq<Voice>, m: FMod)
    requires Sane(t) && forall i :: 0 <= i < |vs| ==> VoiceOk(vs[i])
    requires on ==> forall i :: 0 <= i < |vs| ==> vs[i].wave != WaveSaw
    ensures -(ActiveCount(vs) as real) <= VoiceLoop(t, on, vs, m).sum <= ActiveCount(vs) as real
    decreases |vs|
  {
    if vs != [] {
      var n := |vs| - 1;
      VoiceLoopBounded(t, on, vs[..n], m);
      var v := vs[n];
      if v.active {
        if on {
          FmValueBounded(t, ModStep(VoiceLoop(t, on, vs[..n], m).mod), Advance(v));
        } else {
          ShapeBounded(t, v.wave, Advance(v).phase);
        }
      }
    }
  }

  /** With no voice active the loop is silent and changes nothing. */
  lemma {:induction false} VoiceLoopSilent(t: Trig, on: bool, vs: seq<Voice>, m: FMod)
    requires forall i :: 0 <= i < |vs| ==> !vs[i].active
    ensures VoiceLoop(t, on, vs, m) == Loop(vs, m, 0.0)
    decreases |vs|
  {
    if vs != [] {
      var n := |vs| - 1;
      VoiceLoopSilent(t, on, vs[..n], m);
      assert vs[..n] + [vs[n]] == vs;
    }
  }

  /** The stream receives every sample at half amplitude. */
  const OUTPUT_GAIN: real := 0.5

  /** The computed state after a block of samples, with the samples produced. */
  datatype Frame = Frame(voices: seq<Voice>, mod: FMod, out: seq<real>)

  /** One sample of the audio callback: the voice loop, whose sum is the sample. */
  function Step(t: Trig, on: bool, r: Frame): (s: Frame)
    ensures |s.voices| == |r.voices| && |s.out| == |r.out| + 1
  {
    var l := VoiceLoop(t, on, r.voices, r.mod);
    Frame(l.voices, l.mod, r.out + [l.sum])
  }

  /** n samples of the audio callback. */
  function Render(t: Trig, on: bool, vs: seq<Voice>, m: FMod, n: nat): (r: Frame)
    ensures |r.out| == n && |r.voices| == |vs|
    decreases n
  {
    if n == 0 then Frame(vs, m, []) else Step(t, on, Render(t, on, vs, m, n - 1))
  }

  /** One sample changes no slot and keeps the voice invariant; with the modulator on
      it updates the shared modulator once per active voice. */
  lemma StepKeeps(t: Trig, on: bool, r: Frame)
    ensures Slots(Step(t, on, r).voices) == Slots(r.voices)
    ensures VoicesOk(r.voices) ==> VoicesOk(Step(t, on, r).voices)
    ensures Step(t, on, r).mod == if on then ModSteps(r.mod, ActiveCount(r.voices)) else r.mod
  {
    VoiceLoopKeeps(t, on, r.voices, r.mod);
    VoiceLoopMod(t, on, r.voices, r.mod);
  }

  /** Audio never changes which keys sound and keeps the voice invariant. */
  lemma {:induction false} RenderKeeps(t: Trig, on: bool, vs: seq<Voice>, m: FMod, n: nat)
    ensures Slots(Render(t, on, vs, m, n).voices) == Slots(vs)
    ensures VoicesOk(vs) ==> VoicesOk(Render(t, on, vs, m, n).voices)
    decreases n
  {
    if n > 0 {
      RenderKeeps(t, on, vs, m, n - 1);
      StepKeeps(t, on, Render(t, on, vs, m, n - 1));
    }
  }

  /** The modulator after n blocks of c updates each. */
  function ModBlocks(f: FMod, c: nat, n: nat): (g: FMod)
    decreases n
  {
    if n == 0 then f else ModSteps(ModBlocks(f, c, n - 1), c)
  }

  /** n blocks of c updates are n·c updates. */
  lemma {:induction false} ModBlocksTotal(f: FMod, c: nat, n: nat)
    ensures ModBlocks(f, c, n) == ModSteps(f, n * c)
    decreases n
  {
    if n > 0 {
      ModBlocksTotal(f, c, n - 1);
      MulStep(n, c);
      ModStepsAdd(f, (n - 1) * c, c);
    }
  }

  /** With the modulator on, each sample updates the shared modulator once per active
      voice; with it off it never moves. */
  lemma {:induction false} RenderMod(t: Trig, on: bool, vs: seq<Voice>, m: FMod, n: nat)
    ensures Render(t, on, vs, m, n).mod == if on then ModBlocks(m, ActiveCount(vs), n) else m
    decreases n
  {
    if n > 0 {
      RenderMod(t, on, vs, m, n - 1);
      RenderCount(t, on, vs, m, n - 1);
      var r := Render(t, on, vs, m, n - 1);
      VoiceLoopMod(t, on, r.voices, r.mod);
    }
  }

  /** Phase updates change neither the ratio nor the index, so the modulator stays reachable. */
  lemma ModBlocksKeep(f: FMod, c: nat, n: nat)
    ensures ModBlocks(f, c, n).ratio == f.ratio && ModBlocks(f, c, n).beta == f.beta
  {
    ModBlocksTotal(f, c, n);
  }

  /** Audio never changes the number of active voices. */
  lemma RenderCount(t: Trig, on: bool, vs: seq<Voice>, m: FMod, n: nat)
    ensures ActiveCount(Render(t, on, vs, m, n).voices) == ActiveCount(vs)
  {
    RenderKeeps(t, on, vs, m, n);
    ActiveCountSame(Render(t, on, vs, m, n).voices, vs);
  }

  /** After n samples with the modulator on it has been updated n times per active voice. */
  lemma RenderModTotal(t: Trig, vs: seq<Voice>, m: FMod, n: nat)
    ensures Render(t, true, vs, m, n).mod == ModSteps(m, n * ActiveCount(vs))
  {
    RenderMod(t, true, vs, m, n);
    ModBlocksTotal(m, ActiveCount(vs), n);
  }

  /** The arithmetic step from n − 1 blocks of c updates to n blocks. */
  lemma MulStep(n: nat, c: nat)
    requires n > 0
    ensures 0 <= (n - 1) * c && (n - 1) * c + c == n * c
  {
  }

  /** One more sample extends the output by one. */
  lemma RenderExtends(t: Trig, on: bool, vs: seq<Voice>, m: FMod, n: nat)
    ensures Render(t, on, vs, m, n + 1).out[..n] == Render(t, on, vs, m, n).out
  {
    var r := Render(t, on, vs, m, n);
    assert Render(t, on, vs, m, n + 1) == Step(t, on, r);
    assert (r.out + [VoiceLoop(t, on, r.voices, r.mod).sum])[..n] == r.out;
  }

  /** The output is a stream: rendering more samples extends the earlier output. */
  lemma RenderPrefix(t: Trig, on: bool, vs: seq<Voice>, m: FMod, k: nat, n: nat)
    requires k <= n
    ensures Render(t, on, vs, m, n).out[..k] == Render(t, on, vs, m, k).out
  {
    forall j: nat ensures Render(t, on, vs, m, j + 1).out[..j] == Render(t, on, vs, m, j).out {
      RenderExtends(t, on, vs, m, j);
    }
    StreamPrefix((j: nat) => Render(t, on, vs, m, j).out, k, n);
  }

  /** With no voice sounding a block is all zeros and changes neither the voices nor
      the modulator. */
  lemma {:induction false} RenderSilent(t: Trig, on: bool, vs: seq<Voice>, m: FMod, n: nat)
    requires forall i :: 0 <= i < |vs| ==> !vs[i].active
    ensures Render(t, on, vs, m, n) == Frame(vs, m, seq(n, _ => 0.0))
    decreases n
  {
    if n > 0 {
      RenderSilent(t, on, vs, m, n - 1);
      var r := Render(t, on, vs, m, n - 1);
      assert Render(t, on, vs, m, n) == Step(t, on, r);
      StepSilent(t, on, r);
      assert seq(n - 1, _ => 0.0) + [0.0] == seq(n, _ => 0.0);
    }
  }

  /** With no voice active a sample is silent and changes nothing else. */
  lemma StepSilent(t: Trig, on: bool, r: Frame)
    requires forall i :: 0 <= i < |r.voices| ==> !r.voices[i].active
    ensures Step(t, on, r) == Frame(r.voices, r.mod, r.out + [0.0])
  {
    VoiceLoopSilent(t, on, r.voices, r.mod);
  }

  /** Every sample lies within ± the number of active voices when no saw carrier is modulated. */
  lemma RenderBounded(t: Trig, on: bool, vs: seq<Voice>, m: FMod, n: nat, k: int)
    requires Sane(t) && VoicesOk(vs) && 0 <= k < n
    requires on ==> forall i :: 0 <= i < |vs| ==> vs[i].wave != WaveSaw
    ensures -(ActiveCount(vs) as real) <= Render(t, on, vs, m, n).out[k] <= ActiveCount(vs) as real
  {
    RenderPrefix(t, on, vs, m, k + 1, n);
    assert Render(t, on, vs, m, n).out[k] == Render(t, on, vs, m, k + 1).out[k];
    RenderLastBounded(t, on, vs, m, k);
  }

  /** The bound for the last sample of a block. */
  lemma RenderLastBounded(t: Trig, on: bool, vs: seq<Voice>, m: FMod, k: nat)
    requires Sane(t) && VoicesOk(vs)
    requires on ==> forall i :: 0 <= i < |vs| ==> vs[i].wave != WaveSaw
    ensures -(ActiveCount(vs) as real) <= Render(t, on, vs, m, k + 1).out[k] <= ActiveCount(vs) as real
  {
    var r := Render(t, on, vs, m, k);
    RenderKeeps(t, on, vs, m, k);
    ActiveCountSame(vs, r.voices);
    WavesKept(t, on, vs, m, k);
    VoiceLoopBounded(t, on, r.voices, r.mod);
  }

  /** Audio never changes a voice's waveform. */
  lemma {:induction false} WavesKept(t: Trig, on: bool, vs: seq<Voice>, m: FMod, n: nat)
    ensures forall i :: 0 <= i < |vs| ==> Render(t, on, vs, m, n).voices[i].wave == vs[i].wave
    decreases n
  {
    if n > 0 {
      WavesKept(t, on, vs, m, n - 1);
      var r := Render(t, on, vs, m, n - 1);
      forall i | 0 <= i < |vs| ensures Render(t, on, vs, m, n).voices[i].wave == vs[i].wave {
        VoiceLoopAt(t, on, r.voices, r.mod, i);
      }
    }
  }

  // The modulation index moves in steps of 0.05 within [0, 1].
  const BETA_STEP: real := 0.05

  /** A modulation index the edit keys can reach from add_fmod's 0.2: a multiple of
      0.05 between 0 and 1. */
  ghost predicate BetaOk(b: real)
  {
    OnGrid(b, BETA_STEP, 0, 20)
  }

  /** The index after the arrow keys: RIGHT raises it by 0.05 while it is below 1,
      LEFT lowers it by 0.05 while it is positive; every other key leaves it. */
  function StepBeta(b: real, sym: Keycode): (r: real)
    ensures sym != KEY_RIGHT && sym != KEY_LEFT ==> r == b
  {
    var b1 := if sym == KEY_RIGHT && b < 1.0 then b + BETA_STEP else b;
    if sym == KEY_LEFT && b1 > 0.0 then b1 - BETA_STEP else b1
  }

  /** The arrow keys keep the index on its grid, and so within [0, 1]. */
  lemma StepBetaKeeps(b: real, sym: Keycode)
    requires BetaOk(b)
    ensures BetaOk(StepBeta(b, sym)) && 0.0 <= StepBeta(b, sym) <= 1.0
  {
    var k :| 0 <= k <= 20 && b == Steps(k, BETA_STEP);
    var r := StepBeta(b, sym);
    if sym == KEY_RIGHT && b < 1.0 {
      assert r == Steps(k + 1, BETA_STEP);
    } else if sym == KEY_LEFT && b > 0.0 {
      assert r == Steps(k - 1, BETA_STEP);
    } else {
      assert r == Steps(k, BETA_STEP);
    }
  }

  /** The index of add_fmod is on the grid. */
  lemma NewBetaOk()
    ensures BetaOk(NEW_FMOD.beta)
  {
    assert NEW_FMOD.beta == Steps(4, BETA_STEP);
  }

  /** RIGHT and LEFT undo each other inside the range where both apply. */
  lemma StepBetaRoundTrip(b: real)
    requires 0.0 <= b <= 1.0
    ensures b < 1.0 ==> StepBeta(StepBeta(b, KEY_RIGHT), KEY_LEFT) == b
    ensures b > 0.0 ==> StepBeta(StepBeta(b, KEY_LEFT), KEY_RIGHT) == b
  {
  }

  /** `pow(x, -1)`. */
  function Recip(x: real): (r: real)
    requires x != 0.0
    ensures r * x == 1.0
  {
    1.0 / x
  }

  /** The harmonic ratio after E or R, by the four tests of the handler applied one after
      the other to the updated ratio: E subtracts 1 from a ratio above 1, R adds 1 to a
      ratio of at least 1, E turns a ratio 1/n of at most 1 into 1/(n + 1), and R
      turns a ratio 1/n below 1 into 1/(n − 1). A ratio is always positive. */
  function StepRatio(r: real, sym: Keycode): (q: real)
    requires r > 0.0
    ensures q > 0.0
    ensures sym != KEY_E && sym != KEY_R ==> q == r
  {
    var r1 := if sym == KEY_E && r > 1.0 then r - 1.0 else r;
    var r2 := if sym == KEY_R && r1 >= 1.0 then r1 + 1.0 else r1;
    var r3 := if sym == KEY_E && r2 <= 1.0 then 1.0 / (Recip(r2) + 1.0) else r2;
    if sym == KEY_R && r3 < 1.0 then
      assert Recip(r3) > 1.0 by { assert Recip(r3) * r3 == 1.0; }
      1.0 / (Recip(r3) - 1.0)
    else r3
  }

  /** An independent description of the ratios the handler can reach: whole ratios n
      (n ≥ 1) and reciprocal ratios 1/n (n ≥ 2). */
  datatype Ratio = Whole(n: int) | Part(n: int)

  predicate RatioRepOk(x: Ratio)
  {
    match x
    case Whole(n) => n >= 1
    case Part(n) => n >= 2
  }

  function RatioValue(x: Ratio): (r: real)
    requires RatioRepOk(x)
    ensures r > 0.0
  {
    match x
    case Whole(n) => n as real
    case Part(n) => 1.0 / n as real
  }

  /** The ratio keys as a walk along the ratios: E goes n → n − 1 for n ≥ 3, jumps from
      2 or 1 to 1/2, and goes 1/n → 1/(n + 1); R goes n → n + 1, 1/2 → 1 and 1/n → 1/(n − 1). */
  function RatioKey(x: Ratio, sym: Keycode): (y: Ratio)
    requires RatioRepOk(x)
    ensures RatioRepOk(y)
  {
    if sym == KEY_E then
      match x
      case Whole(n) => if n >= 3 then Whole(n - 1) else Part(2)
      case Part(n) => Part(n + 1)
    else if sym == KEY_R then
      match x
      case Whole(n) => Whole(n + 1)
      case Part(n) => if n == 2 then Whole(1) else Part(n - 1)
    else x
  }

  /** The four tests agree with the walk on every reachable ratio. */
  lemma StepRatioWalk(x: Ratio, sym: Keycode)
    requires RatioRepOk(x)
    ensures StepRatio(RatioValue(x), sym) == RatioValue(RatioKey(x, sym))
  {
    match x
    case Whole(n) => StepRatioWhole(n, sym);
    case Part(n) => StepRatioPart(n, sym);
  }

  lemma StepRatioWhole(n: int, sym: Keycode)
    requires n >= 1
    ensures StepRatio(RatioValue(Whole(n)), sym) == RatioValue(RatioKey(Whole(n), sym))
  {
    if sym == KEY_E && n == 2 {
      assert StepRatio(2.0, KEY_E) == 1.0 / (Recip(1.0) + 1.0);
    }
  }

  lemma StepRatioPart(n: int, sym: Keycode)
    requires n >= 2
    ensures StepRatio(RatioValue(Part(n)), sym) == RatioValue(RatioKey(Part(n), sym))
  {
    var r := 1.0 / n as real;
    assert Recip(r) == n as real by { assert Recip(r) * r == 1.0; }
    if sym == KEY_E {
      assert StepRatio(r, sym) == 1.0 / (n as real + 1.0);
    } else if sym == KEY_R {
      assert StepRatio(r, sym) == 1.0 / (n as real - 1.0);
      assert (n - 1) as real == n as real - 1.0;
    }
  }

  /** A ratio the handler can reach: a whole ratio or the reciprocal of one. */
  ghost predicate RatioOk(r: real)
  {
    exists x :: RatioRepOk(x) && r == RatioValue(x)
  }

  /** The ratio keys keep the ratio reachable, starting from add_fmod's ratio 1. */
  lemma StepRatioKeeps(r: real, sym: Keycode)
    requires RatioOk(r)
    ensures r > 0.0 && RatioOk(StepRatio(r, sym))
  {
    var x :| RatioRepOk(x) && r == RatioValue(x);
    StepRatioWalk(x, sym);
    assert RatioRepOk(RatioKey(x, sym));
  }

  lemma NewRatioOk()
    ensures RatioOk(NEW_FMOD.ratio)
  {
    assert RatioRepOk(Whole(1)) && NEW_FMOD.ratio == RatioValue(Whole(1));
  }

  /** R undoes E everywhere except at 2, which E sends to 1/2 and R then to 1; E undoes
      R everywhere except at 1, which R sends to 2 and E then to 1/2. */
  lemma RatioKeyRoundTrip(x: Ratio)
    requires RatioRepOk(x)
    ensures RatioKey(RatioKey(x, KEY_E), KEY_R) == (if x == Whole(2) then Whole(1) else x)
    ensures RatioKey(RatioKey(x, KEY_R), KEY_E) == (if x == Whole(1) then Part(2) else x)
  {
  }

  /** The modulator fm[0] after a key-down while it is on: Q cycles its waveform, W toggles
      its type, the arrows move its index, and once the type (as possibly just toggled)
      is harmonic, E and R move its ratio. Frequency and phase are kept. */
  function ModEdited(f: FMod, sym: Keycode): (g: FMod)
    requires f.ratio > 0.0
    ensures g.freq == f.freq && g.phase == f.phase
    ensures g.fwave == (if sym == KEY_Q then NextWave(f.fwave) else f.fwave)
    ensures g.ftype == (if sym == KEY_W then NextFModType(f.ftype) else f.ftype)
    ensures g.beta == StepBeta(f.beta, sym)
    ensures g.ratio == if g.ftype == Harmonic then StepRatio(f.ratio, sym) else f.ratio
  {
    var f1 := if sym == KEY_Q then f.(fwave := NextWave(f.fwave)) else f;
    var f2 := if sym == KEY_W then f1.(ftype := NextFModType(f1.ftype)) else f1;
    var f3 := f2.(beta := StepBeta(f2.beta, sym));
    if f3.ftype == Harmonic then f3.(ratio := StepRatio(f3.ratio, sym)) else f3
  }

  /** A modulator reached from add_fmod: reachable ratio and index. */
  ghost predicate ModOk(f: FMod)
  {
    RatioOk(f.ratio) && BetaOk(f.beta)
  }

  /** add_fmod's modulator is reachable, and every edit keeps the modulator reachable. */
  lemma ModEditedKeeps(f: FMod, sym: Keycode)
    requires ModOk(f)
    ensures f.ratio > 0.0 && ModOk(ModEdited(f, sym))
    ensures 0.0 <= ModEdited(f, sym).beta <= 1.0
  {
    StepRatioKeeps(f.ratio, sym);
    StepBetaKeeps(f.beta, sym);
  }

  lemma NewModOk()
    ensures ModOk(NEW_FMOD)
  {
    NewRatioOk();
    NewBetaOk();
  }

  /** The voices after the note-on part of the key-down handler: the chosen voice is
      bound to key at freq and becomes active; its phase and waveform are kept, no other
      voice changes. */
  function VoiceOn(vs: seq<Voice>, key: Keycode, freq: real): (r: seq<Voice>)
    requires |vs| > 0
    ensures |r| == |vs|
    ensures Slots(r) == Pool.NoteOn(Slots(vs), key)
    ensures var v := Pool.Choose(Slots(vs), key);
      r[v] == Voice(true, key, freq, vs[v].phase, vs[v].wave) && forall j :: 0 <= j < |vs| && j != v ==> r[j] == vs[j]
  {
    var v := Pool.Choose(Slots(vs), key);
    var r := vs[v := vs[v].(active := true, key := key, freq := freq)];
    assert Slots(r) == Pool.NoteOn(Slots(vs), key);
    r
  }

  /** Note-on keeps the voice invariant for a frequency a layout can produce. */
  lemma VoiceOnOk(vs: seq<Voice>, key: Keycode, freq: real)
    requires |vs| > 0 && VoicesOk(vs) && 0.0 <= freq <= MAX_NOTE_FREQ
    ensures VoicesOk(VoiceOn(vs, key, freq))
    ensures Pool.IsActive(Slots(VoiceOn(vs, key, freq)), key)
  {
    Pool.NoteOnKeepsUnique(Slots(vs), key);
    var v := Pool.Choose(Slots(vs), key);
    assert Pool.Holds(Slots(VoiceOn(vs, key, freq))[v], key);
  }

  /** The voices after a key-down: for a key of the layout, note-on with that key's
      frequency; any other key changes nothing. */
  function Pressed(vs: seq<Voice>, km: seq<KeyNote>, sym: Keycode): (r: seq<Voice>)
    requires |vs| > 0
    ensures IndexOf(km, sym) < 0 ==> r == vs
    ensures IndexOf(km, sym) >= 0 ==> r == VoiceOn(vs, sym, km[IndexOf(km, sym)].freq)
  {
    var i := IndexOf(km, sym);
    if i < 0 then vs else VoiceOn(vs, sym, km[i].freq)
  }

  /** A key-down keeps the voice invariant when the layout is playable, and a layout key
      is then sounding. */
  lemma PressedOk(vs: seq<Voice>, km: seq<KeyNote>, sym: Keycode)
    requires |vs| > 0 && VoicesOk(vs) && Playable(km)
    ensures VoicesOk(Pressed(vs, km, sym))
    ensures IndexOf(km, sym) >= 0 ==> Pool.IsActive(Slots(Pressed(vs, km, sym)), sym)
  {
    var i := IndexOf(km, sym);
    if i >= 0 {
      PlayableBounded(km, i);
      VoiceOnOk(vs, sym, km[i].freq);
    }
  }

  /** A modulator entry tuned to a note: frequency note × ratio, all else kept. */
  function Tuned(f: FMod, note: real, ratio: real): (g: FMod)
    ensures g.freq == note * ratio && g == f.(freq := g.freq)
  {
    f.(freq := note * ratio)
  }

  /** The modulators after the note-on part of the key-down handler: with the modulator
      on and harmonic, the entry of fm[] with the index of the chosen voice gets the
      note's frequency times the ratio of fm[0]; otherwise nothing changes. */
  function ModsPressed(fs: seq<FMod>, on: bool, vs: seq<Voice>, km: seq<KeyNote>, sym: Keycode): (r: seq<FMod>)
    requires |vs| > 0 && |fs| == |vs|
    ensures |r| == |fs|
    ensures forall j :: 0 <= j < |fs| && j != Pool.Choose(Slots(vs), sym) ==> r[j] == fs[j]
    ensures forall j :: 0 <= j < |fs| ==> r[j] == fs[j].(freq := r[j].freq)
    ensures r != fs ==> on && fs[0].ftype == Harmonic && IndexOf(km, sym) >= 0
    ensures on && fs[0].ftype == Harmonic && IndexOf(km, sym) >= 0 ==>
      r[Pool.Choose(Slots(vs), sym)].freq == km[IndexOf(km, sym)].freq * fs[0].ratio
  {
    var i := IndexOf(km, sym);
    if i >= 0 && on && fs[0].ftype == Harmonic then
      var v := Pool.Choose(Slots(vs), sym);
      fs[v := Tuned(fs[v], km[i].freq, fs[0].ratio)]
    else fs
  }

  /** Only a note on voice 0 retunes the modulator the audio uses, fm[0]; the ratio,
      index, waveform and type of fm[0] never change on note-on. */
  lemma ModsPressedFirst(fs: seq<FMod>, on: bool, vs: seq<Voice>, km: seq<KeyNote>, sym: Keycode)
    requires |vs| > 0 && |fs| == |vs|
    ensures var r := ModsPressed(fs, on, vs, km, sym);
      && r[0].phase == fs[0].phase && r[0].ratio == fs[0].ratio && r[0].beta == fs[0].beta
      && r[0].fwave == fs[0].fwave && r[0].ftype == fs[0].ftype
      && (r[0] != fs[0] ==> Pool.Choose(Slots(vs), sym) == 0 && IndexOf(km, sym) >= 0)
      && (r[0] != fs[0] ==> r[0].freq == km[IndexOf(km, sym)].freq * fs[0].ratio)
  {
  }

  /** The voices after the release loop for key: the first active voice on key, if
      any, becomes inactive, everything else about it kept. */
  function VoiceOff(vs: seq<Voice>, key: Keycode): (r: seq<Voice>)
    ensures |r| == |vs|
    ensures Slots(r) == Pool.NoteOff(Slots(vs), key)
    ensures forall j :: 0 <= j < |vs| ==> r[j] == vs[j] || r[j] == vs[j].(active := false)
  {
    Pool.IsActiveIffFound(Slots(vs), key);
    var v := Pool.Find(Slots(vs), key);
    var r := if v < 0 then vs else vs[v := vs[v].(active := false)];
    assert Slots(r) == Pool.NoteOff(Slots(vs), key);
    r
  }

  /** Releasing keeps the voice invariant, silences the key, and a second release of
      the same key changes nothing. */
  lemma VoiceOffProps(vs: seq<Voice>, key: Keycode)
    requires VoicesOk(vs)
    ensures VoicesOk(VoiceOff(vs, key))
    ensures !Pool.IsActive(Slots(VoiceOff(vs, key)), key)
    ensures VoiceOff(VoiceOff(vs, key), key) == VoiceOff(vs, key)
  {
    var r := VoiceOff(vs, key);
    Pool.NoteOffKeepsUnique(Slots(vs), key);
    Pool.NoteOffActiveKeys(Slots(vs), key);
    Pool.IsActiveIffFound(Slots(r), key);
  }

  /** The voices after a key-up: for a key of the layout the key is released, any other
      key changes nothing. */
  function Released(vs: seq<Voice>, km: seq<KeyNote>, sym: Keycode): (r: seq<Voice>)
    ensures IndexOf(km, sym) < 0 ==> r == vs
    ensures IndexOf(km, sym) >= 0 ==> r == VoiceOff(vs, sym)
  {
    if IndexOf(km, sym) < 0 then vs else VoiceOff(vs, sym)
  }

  /** The voices after TAB: the waveform of voice 0 (and of no other voice) moves on. */
  function Tabbed(vs: seq<Voice>, sym: Keycode): (r: seq<Voice>)
    requires |vs| > 0
    ensures |r| == |vs| && Slots(r) == Slots(vs)
    ensures sym == KEY_TAB ==> r[0].wave == NextWave(vs[0].wave)
    ensures forall j :: 0 <= j < |vs| ==> r[j] == vs[j].(wave := r[j].wave)
    ensures forall j :: 0 <= j < |vs| && (j > 0 || sym != KEY_TAB) ==> r[j] == vs[j]
  {
    if sym == KEY_TAB then
      var r := vs[0 := vs[0].(wave := NextWave(vs[0].wave))];
      assert Slots(r) == Slots(vs);
      r
    else vs
  }

  /** The waveform key changes no frequency, phase or key, so it keeps the voice invariant. */
  lemma TabbedOk(vs: seq<Voice>, sym: Keycode)
    requires |vs| > 0 && VoicesOk(vs)
    ensures VoicesOk(Tabbed(vs, sym))
  {
  }

  /** The modulators after add_fmod: unless the modulator is already on, fm[0] becomes
      the fresh 20 Hz modulator. */
  function Added(fs: seq<FMod>, on: bool): (r: seq<FMod>)
    requires |fs| > 0
    ensures on ==> r == fs
    ensures |r| == |fs|
    ensures !on ==> r[0] == NEW_FMOD && r[1..] == fs[1..]
  {
    if on then fs else fs[0 := NEW_FMOD]
  }

  /** The part of the program state the event handlers change: the voices, the
      modulator entries and whether the modulator is on. */
  datatype Controls = Controls(voices: seq<Voice>, mods: seq<FMod>, on: bool)

  /** The invariant the handlers keep: full arrays, the voice invariant, and a modulator
      reached from add_fmod while it is on. */
  ghost predicate ControlsOk(c: Controls)
  {
    && |c.voices| == Pool.MAX_VOICES && |c.mods| == Pool.MAX_VOICES
    && VoicesOk(c.voices)
    && (c.on ==> ModOk(c.mods[0]))
  }

  /** add_fmod. */
  function AfterAdd(c: Controls): (d: Controls)
    requires |c.mods| > 0
    ensures d.on && d.voices == c.voices
  {
    Controls(c.voices, Added(c.mods, c.on), true)
  }

  /** The note-on loop. */
  function AfterPress(c: Controls, km: seq<KeyNote>, sym: Keycode): (d: Controls)
    requires |c.voices| > 0 && |c.mods| == |c.voices|
    ensures d.on == c.on
  {
    Controls(Pressed(c.voices, km, sym), ModsPressed(c.mods, c.on, c.voices, km, sym), c.on)
  }

  /** The modulator keys, which apply only while the modulator is on. */
  function AfterEdit(c: Controls, sym: Keycode): (d: Controls)
    requires c.on ==> |c.mods| > 0 && c.mods[0].ratio > 0.0
    ensures d.voices == c.voices
    ensures d.on == (c.on && sym != KEY_BACKSPACE)
  {
    if c.on then Controls(c.voices, c.mods[0 := ModEdited(c.mods[0], sym)], sym != KEY_BACKSPACE) else c
  }

  /** The whole key-down handler on a playable layout km (already transposed by keys
      1 and 2): '=', TAB, the note-on loop and the modulator keys, in that order. */
  function KeyDownEffect(c: Controls, km: seq<KeyNote>, sym: Keycode): (d: Controls)
    requires ControlsOk(c)
    ensures d.on == ((c.on || sym == KEY_EQUALS) && sym != KEY_BACKSPACE)
  {
    var c1 := if sym == KEY_EQUALS then AfterAdd(c) else c;
    NewModOk();
    var c2 := c1.(voices := Tabbed(c1.voices, sym));
    var c3 := AfterPress(c2, km, sym);
    if c3.on then ModOkPositive(c1.mods[0]); AfterEdit(c3, sym) else AfterEdit(c3, sym)
  }

  /** A reachable modulator has a positive ratio. */
  lemma ModOkPositive(f: FMod)
    requires ModOk(f)
    ensures f.ratio > 0.0
  {
    StepRatioKeeps(f.ratio, KEY_E);
  }

  /** Every key-down keeps the invariant. */
  lemma KeyDownKeeps(c: Controls, km: seq<KeyNote>, sym: Keycode)
    requires ControlsOk(c) && Playable(km)
    ensures ControlsOk(KeyDownEffect(c, km, sym))
  {
    var c1 := if sym == KEY_EQUALS then AfterAdd(c) else c;
    NewModOk();
    assert ControlsOk(c1);
    var c2 := c1.(voices := Tabbed(c1.voices, sym));
    TabbedOk(c1.voices, sym);
    var c3 := AfterPress(c2, km, sym);
    PressedOk(c2.voices, km, sym);
    assert ControlsOk(c3);
    if c3.on {
      ModEditedKeeps(c3.mods[0], sym);
    }
  }

  /** A key that is neither '=', TAB, a layout key nor a modulator key changes nothing. */
  lemma KeyDownOther(c: Controls, km: seq<KeyNote>, sym: Keycode)
    requires ControlsOk(c) && IndexOf(km, sym) < 0
    requires sym !in {KEY_EQUALS, KEY_TAB, KEY_Q, KEY_W, KEY_E, KEY_R, KEY_LEFT, KEY_RIGHT, KEY_BACKSPACE}
    ensures KeyDownEffect(c, km, sym) == c
  {
    if c.on {
      assert ModEdited(c.mods[0], sym) == c.mods[0];
      assert c.mods[0 := c.mods[0]] == c.mods;
    }
  }

  /** The global state of the FM program. */
  class Synth {
    const trig: Trig
    const voices: array<Voice>
    const fm: array<FMod>
    const keymap: Keymap
    const scope: WaveVis
    var fmodOn: bool

    ghost predicate Valid()
      reads this, voices, fm, keymap, keymap.notes, scope
    {
      && Sane(trig)
      && voices.Length == Pool.MAX_VOICES && fm.Length == Pool.MAX_VOICES
      && keymap.Valid() && scope.Valid()
      && ControlsOk(State())
    }

    /** The handler-visible state. */
    ghost function State(): Controls
      reads this, voices, fm
    {
      Controls(voices[..], fm[..], fmodOn)
    }

    /** The zero-initialised globals followed by init_voices. */
    constructor (t: Trig)
      requires Sane(t)
      ensures Valid()
      ensures fresh(voices) && fresh(fm) && fresh(keymap) && fresh(keymap.notes) && fresh(scope) && fresh(scope.vis)
      ensures trig == t && voices[..] == seq(Pool.MAX_VOICES, _ => SILENT_VOICE)
      ensures fm[..] == seq(Pool.MAX_VOICES, _ => ZERO_FMOD) && !fmodOn
      ensures keymap.notes[..] == INITIAL_KEYMAP && scope.pos == 0
    {
      trig := t;
      voices := new Voice[Pool.MAX_VOICES](_ => SILENT_VOICE);
      fm := new FMod[Pool.MAX_VOICES](_ => ZERO_FMOD);
      keymap := new Keymap();
      scope := new WaveVis();
      fmodOn := false;
      new;
      InitVoices();
      assert voices[..] == seq(Pool.MAX_VOICES, _ => SILENT_VOICE);
      assert fm[..] == seq(Pool.MAX_VOICES, _ => ZERO_FMOD);
    }

    /** init_voices: every voice inactive with the sine waveform, nothing else changed. */
    method InitVoices()
      requires voices.Length == Pool.MAX_VOICES
      modifies voices
      ensures forall i :: 0 <= i < voices.Length ==> voices[i] == old(voices[i]).(active := false, wave := WaveSin)
      ensures VoicesOk(old(voices[..])) ==> VoicesOk(voices[..])
      ensures forall key :: !Pool.IsActive(Slots(voices[..]), key)
    {
      var i := 0;
      while i < voices.Length
        invariant 0 <= i <= voices.Length
        invariant forall j :: 0 <= j < i ==> voices[j] == old(voices[j]).(active := false, wave := WaveSin)
        invariant forall j :: i <= j < voices.Length ==> voices[j] == old(voices[j])
      {
        voices[i] := voices[i].(active := false, wave := WaveSin);
        i := i + 1;
      }
    }

    /** find_voice. */
    method FindVoice(key: Keycode) returns (i: int)
      requires voices.Length == Pool.MAX_VOICES
      ensures i == Pool.Find(Slots(voices[..]), key)
    {
      i := 0;
      while i < voices.Length
        invariant 0 <= i <= voices.Length
        invariant forall j :: 0 <= j < i ==> !(voices[j].active && voices[j].key == key)
      {
        if voices[i].active && voices[i].key == key {
          return;
        }
        i := i + 1;
      }
      i := -1;
    }

    /** alloc_voice. */
    method AllocVoice() returns (i: int)
      requires voices.Length == Pool.MAX_VOICES
      ensures i == Pool.Alloc(Slots(voices[..]))
    {
      i := 0;
      while i < voices.Length
        invariant 0 <= i <= voices.Length
        invariant forall j :: 0 <= j < i ==> voices[j].active
      {
        if !voices[i].active {
          return;
        }
        i := i + 1;
      }
      i := 0;
    }

    /** is_key_active, which the keyboard drawing uses. */
    method IsKeyActive(key: Keycode) returns (b: bool)
      requires voices.Length == Pool.MAX_VOICES
      ensures b == Pool.IsActive(Slots(voices[..]), key)
    {
      var i := 0;
      while i < voices.Length
        invariant 0 <= i <= voices.Length
        invariant forall j :: 0 <= j < i ==> !(voices[j].active && voices[j].key == key)
      {
        if voices[i].active && voices[i].key == key {
          assert Pool.Holds(Slots(voices[..])[i], key);
          return true;
        }
        i := i + 1;
      }
      return false;
    }

    /** The voice write of the note-on loop: the voice already holding key, else a free
        voice, else voice 0, is bound to key at freq. */
    method NoteOn(key: Keycode, freq: real) returns (v: int)
      requires voices.Length == Pool.MAX_VOICES
      modifies voices
      ensures v == Pool.Choose(Slots(old(voices[..])), key)
      ensures voices[..] == VoiceOn(old(voices[..]), key, freq)
    {
      v := FindVoice(key);
      if v < 0 {
        v := AllocVoice();
      }
      Pool.IsActiveIffFound(Slots(voices[..]), key);
      voices[v] := voices[v].(active := true, key := key, freq := freq);
    }

    /** The note-on loop of the key-down handler: the first layout entry for sym, if any,
        is played, and with the modulator on and harmonic the modulator entry of the
        chosen voice is tuned to the note times fm[0]'s ratio. */
    method PressKey(sym: Keycode)
      requires Valid()
      modifies voices, fm
      ensures Valid()
      ensures State() == AfterPress(old(State()), keymap.notes[..], sym)
    {
      ghost var c, km := State(), keymap.notes[..];
      PressedOk(c.voices, km, sym);
      if fmodOn {
        ModOkPositive(fm[0]);
      }
      var i := keymap.Find(sym);
      if i >= 0 {
        var key, freq := keymap.notes[i].key, keymap.notes[i].freq;
        var v := NoteOn(key, freq);
        assert fm[..] == c.mods;
        assert key == sym && freq == km[i].freq && i == IndexOf(km, sym);
        assert v == Pool.Choose(Slots(c.voices), sym);
        Retune(v, freq);
        assert voices[..] == Pressed(c.voices, km, sym);
        assert fm[..] == ModsPressed(c.mods, c.on, c.voices, km, sym);
        assert fm[0].ratio == c.mods[0].ratio && fm[0].beta == c.mods[0].beta;
      }
    }

    /** The modulator write of the note-on loop: with the modulator on and harmonic,
        entry v of fm[] gets the note's frequency times fm[0]'s ratio. */
    method Retune(v: int, freq: real)
      requires fm.Length == Pool.MAX_VOICES && 0 <= v < fm.Length
      modifies fm
      ensures fm[..] == if fmodOn && old(fm[0]).ftype == Harmonic then old(fm[..])[v := Tuned(old(fm[v]), freq, old(fm[0]).ratio)] else old(fm[..])
    {
      if fmodOn && fm[0].ftype == Harmonic {
        fm[v] := Tuned(fm[v], freq, fm[0].ratio);
      }
    }

    /** The inner loop of the key-up handler: the first active voice on key becomes inactive. */
    method ReleaseVoice(key: Keycode)
      requires Valid()
      modifies voices
      ensures Valid()
      ensures voices[..] == VoiceOff(old(voices[..]), key)
    {
      ghost var vs := voices[..];
      VoiceOffProps(vs, key);
      var i := 0;
      while i < voices.Length
        invariant 0 <= i <= voices.Length && voices[..] == vs
        invariant forall j :: 0 <= j < i ==> !(voices[j].active && voices[j].key == key)
      {
        if voices[i].active && voices[i].key == key {
          assert Pool.Find(Slots(vs), key) == i by {
            assert Pool.Holds(Slots(vs)[i], key);
          }
          voices[i] := voices[i].(active := false);
          return;
        }
        i := i + 1;
      }
    }

    /** The key-up handler: one release per layout entry whose key is sym; with unique
        keys that is a single release. */
    method ReleaseKey(sym: Keycode)
      requires Valid()
      modifies voices
      ensures Valid()
      ensures voices[..] == Released(old(voices[..]), keymap.notes[..], sym)
    {
      ghost var vs := voices[..];
      VoiceOffProps(vs, sym);
      var i := 0;
      while i < keymap.notes.Length
        invariant 0 <= i <= keymap.notes.Length
        invariant Valid()
        invariant voices[..] == if exists j :: 0 <= j < i && keymap.notes[j].key == sym then VoiceOff(vs, sym) else vs
      {
        if keymap.notes[i].key == sym {
          ReleaseVoice(sym);
        }
        i := i + 1;
      }
      ghost var idx := IndexOf(keymap.notes[..], sym);
      if idx >= 0 {
        assert keymap.notes[idx].key == sym;
      }
    }

    /** add_fmod: unless the modulator is already on, install the fresh modulator in
        fm[0] and switch it on. */
    method AddFmod()
      requires Valid()
      modifies fm, this`fmodOn
      ensures Valid()
      ensures State() == AfterAdd(old(State()))
    {
      if fmodOn {
        return;
      }
      NewModOk();
      fm[0] := NEW_FMOD;
      fmodOn := true;
    }

    /** The modulator keys, in the handler's order, applied to fm[0] in place; BACKSPACE
        then switches the modulator off. */
    method EditModulator(sym: Keycode)
      requires Valid() && fmodOn
      modifies fm, this`fmodOn
      ensures Valid()
      ensures State() == AfterEdit(old(State()), sym)
    {
      ghost var f0 := fm[0];
      ModEditedKeeps(f0, sym);
      if sym == KEY_Q {
        fm[0] := fm[0].(fwave := NextWave(fm[0].fwave));
      }
      if sym == KEY_W {
        fm[0] := fm[0].(ftype := NextFModType(fm[0].ftype));
      }
      if sym == KEY_RIGHT && fm[0].beta < 1.0 {
        fm[0] := fm[0].(beta := fm[0].beta + BETA_STEP);
      }
      if sym == KEY_LEFT && fm[0].beta > 0.0 {
        fm[0] := fm[0].(beta := fm[0].beta - BETA_STEP);
      }
      if fm[0].ftype == Harmonic {
        EditRatio(sym);
      }
      assert fm[0] == ModEdited(f0, sym);
      if sym == KEY_BACKSPACE {
        fmodOn := false;
      }
    }

    /** The four ratio tests of a harmonic modulator, each on the ratio the one before left. */
    method EditRatio(sym: Keycode)
      requires fm.Length > 0 && fm[0].ratio > 0.0
      modifies fm
      ensures fm[..] == old(fm[..])[0 := old(fm[0]).(ratio := StepRatio(old(fm[0].ratio), sym))]
    {
      if sym == KEY_E && fm[0].ratio > 1.0 {
        fm[0] := fm[0].(ratio := fm[0].ratio - 1.0);
      }
      if sym == KEY_R && fm[0].ratio >= 1.0 {
        fm[0] := fm[0].(ratio := fm[0].ratio + 1.0);
      }
      if sym == KEY_E && fm[0].ratio <= 1.0 {
        fm[0] := fm[0].(ratio := 1.0 / (Recip(fm[0].ratio) + 1.0));
      }
      if sym == KEY_R && fm[0].ratio < 1.0 {
        assert Recip(fm[0].ratio) > 1.0 by { assert Recip(fm[0].ratio) * fm[0].ratio == 1.0; }
        fm[0] := fm[0].(ratio := 1.0 / (Recip(fm[0].ratio) - 1.0));
      }
    }

    /** The key-down handler, in its order: '=' adds the modulator, TAB cycles the waveform
        of voice 0, 1 and 2 transpose the layout, a layout key plays a note, and while the
        modulator is on the remaining keys edit it. */
    method KeyDown(sym: Keycode)
      requires Valid()
      modifies this`fmodOn, voices, fm, keymap.notes
      ensures Valid()
      ensures keymap.notes[..] == Transposed(old(keymap.notes[..]), sym)
      ensures State() == KeyDownEffect(old(State()), keymap.notes[..], sym)
    {
      if sym == KEY_EQUALS {
        AddFmod();
      }
      TabKey(sym);
      keymap.OctaveKey(sym);
      PressKey(sym);
      if fmodOn {
        EditModulator(sym);
      }
    }

    /** TAB: the waveform of voice 0 moves on. */
    method TabKey(sym: Keycode)
      requires Valid()
      modifies voices
      ensures Valid()
      ensures State() == old(State()).(voices := Tabbed(old(voices[..]), sym))
    {
      TabbedOk(voices[..], sym);
      if sym == KEY_TAB {
        voices[0] := voices[0].(wave := NextWave(voices[0].wave));
      }
    }

    /** The mouse-button handler: a click on the add button adds the modulator. */
    method Click(x: int, y: int)
      requires Valid()
      modifies fm, this`fmodOn
      ensures Valid()
      ensures State() == if OnAddButton(x, y) then AfterAdd(old(State())) else old(State())
    {
      if OnAddButton(x, y) {
        AddFmod();
      }
    }

    /** gen_voice: advance voice v by one sample and return its waveform at the new phase. */
    method GenVoice(v: int) returns (s: real)
      requires voices.Length == Pool.MAX_VOICES && 0 <= v < voices.Length
      modifies voices
      ensures voices[..] == old(voices[..])[v := Advance(old(voices[v]))]
      ensures s == Shape(trig, voices[v].wave, voices[v].phase)
    {
      var p := voices[v].phase + Increment(voices[v].freq, SAMPLE_RATE as real);
      if p > TWO_PI {
        p := p - TWO_PI;
      }
      voices[v] := voices[v].(phase := p);
      s := Shape(trig, voices[v].wave, p);
    }

    /** process_fmod with the modulator fm[0] and voice v: advance both phases by one
        sample and return the carrier waveform at its phase offset by β times the
        modulator waveform. */
    method ProcessFmod(v: int) returns (s: real)
      requires voices.Length == Pool.MAX_VOICES && fm.Length == Pool.MAX_VOICES && 0 <= v < voices.Length
      modifies voices, fm
      ensures fm[..] == old(fm[..])[0 := ModStep(old(fm[0]))]
      ensures voices[..] == old(voices[..])[v := Advance(old(voices[v]))]
      ensures s == FmValue(trig, fm[0], voices[v])
    {
      var q := fm[0].phase + Increment(fm[0].freq, SAMPLE_RATE as real);
      if q > TWO_PI {
        q := q - TWO_PI;
      }
      var f := fm[0].(phase := q);
      fm[0] := f;
      var p := voices[v].phase + Increment(voices[v].freq, SAMPLE_RATE as real);
      if p > TWO_PI {
        p := p - TWO_PI;
      }
      var w := voices[v].(phase := p);
      voices[v] := w;
      s := FmValue(trig, f, w);
    }

    /** The voice loop of the audio callback: every active voice contributes a sample,
        through the modulator when it is on. */
    method MixVoices() returns (s: real)
      requires voices.Length == Pool.MAX_VOICES && fm.Length == Pool.MAX_VOICES
      modifies voices, fm
      ensures Loop(voices[..], fm[0], s) == VoiceLoop(trig, fmodOn, old(voices[..]), old(fm[0]))
      ensures fm[1..] == old(fm[1..])
    {
      ghost var vs, m, rest := voices[..], fm[0], fm[1..];
      s := 0.0;
      var v := 0;
      while v != voices.Length
        invariant 0 <= v <= voices.Length
        invariant Mixed(vs, m, rest, v, s)
      {
        s := MixOne(vs, m, rest, v, s);
        v := v + 1;
      }
      assert vs[..v] == vs && voices[..v] == voices[..];
    }

    /** After the voice loop has visited voices 0 .. v − 1 from voices vs and modulator m:
        the visited voices, the modulator and the sum are those of the voice loop over
        them, the other voices are those of vs, and the other modulator entries are rest. */
    ghost predicate Mixed(vs: seq<Voice>, m: FMod, rest: seq<FMod>, v: int, s: real)
      reads this, voices, fm
    {
      && voices.Length == Pool.MAX_VOICES && fm.Length == Pool.MAX_VOICES
      && |vs| == voices.Length && 0 <= v <= voices.Length
      && Loop(voices[..v], fm[0], s) == VoiceLoop(trig, fmodOn, vs[..v], m)
      && (forall j :: v <= j < voices.Length ==> voices[j] == vs[j])
      && fm[1..] == rest
    }

    /** One pass of the voice loop: voice v, if active, contributes its sample. */
    method MixOne(ghost vs: seq<Voice>, ghost m: FMod, ghost rest: seq<FMod>, v: int, s: real) returns (s': real)
      requires Mixed(vs, m, rest, v, s) && v < voices.Length
      modifies voices, fm
      ensures Mixed(vs, m, rest, v + 1, s')
    {
      assert vs[..v + 1][..v] == vs[..v];
      s' := s;
      if voices[v].active {
        if fmodOn {
          var g := ProcessFmod(v);
          s' := s' + g;
        } else {
          var g := GenVoice(v);
          s' := s' + g;
        }
      }
      assert voices[..v + 1] == voices[..v] + [voices[v]];
    }

    /** audio_callback for a block of `samples` floats: each sample is the voice loop's
        sum, written to the stream at half amplitude and recorded at full amplitude in
        the oscilloscope buffer. */
    method AudioCallback(buf: array<real>, samples: int)
      requires Valid() && buf != scope.vis && 0 <= samples <= buf.Length
      modifies voices, fm, scope, scope.vis, buf
      ensures Valid()
      ensures var r := Render(trig, fmodOn, old(voices[..]), old(fm[0]), samples);
        && voices[..] == r.voices
        && fm[0] == r.mod && fm[1..] == old(fm[1..])
        && buf[..samples] == Scaled(r.out, OUTPUT_GAIN)
        && buf[samples..] == old(buf[samples..])
        && scope.vis[..] == RingWrite(old(scope.vis[..]), old(scope.pos), r.out)
        && scope.pos == Cursor(old(scope.pos), samples)
    {
      ghost var vs, m := voices[..], fm[0];
      FillBlock(buf, samples);
      RenderKeeps(trig, fmodOn, vs, m, samples);
      if fmodOn {
        RenderMod(trig, fmodOn, vs, m, samples);
        ModBlocksKeep(m, ActiveCount(vs), samples);
      }
    }

    /** The voices and the shared modulator are those of frame r, and the other
        modulator entries hold rest. */
    ghost predicate Tracks(rest: seq<FMod>, r: Frame)
      reads this, voices, fm
    {
      && voices.Length == Pool.MAX_VOICES && fm.Length == Pool.MAX_VOICES
      && voices[..] == r.voices && fm[0] == r.mod && fm[1..] == rest
    }

    /** The stream holds the samples of out at half amplitude followed by its earlier
        contents b0, and the oscilloscope buffer holds them at full amplitude written
        from cursor pos0 over its earlier contents vis0. */
    ghost predicate Shows(buf: array<real>, b0: seq<real>, vis0: seq<real>, pos0: int, out: seq<real>)
      reads scope, scope.vis, buf
    {
      && scope.Valid() && buf != scope.vis && |b0| == buf.Length && |out| <= buf.Length
      && |vis0| == WAVE_BUF && 0 <= pos0 < WAVE_BUF
      && buf[..] == Scaled(out, OUTPUT_GAIN) + b0[|out|..]
      && scope.vis[..] == RingWrite(vis0, pos0, out)
      && scope.pos == Cursor(pos0, |out|)
    }

    /** The samples of one block and their effect on the arrays. */
    method FillBlock(buf: array<real>, samples: int)
      requires voices.Length == Pool.MAX_VOICES && fm.Length == Pool.MAX_VOICES
      requires scope.Valid() && buf != scope.vis && 0 <= samples <= buf.Length
      modifies voices, fm, scope, scope.vis, buf
      ensures scope.Valid()
      ensures var r := Render(trig, fmodOn, old(voices[..]), old(fm[0]), samples);
        && voices[..] == r.voices
        && fm[0] == r.mod && fm[1..] == old(fm[1..])
        && buf[..samples] == Scaled(r.out, OUTPUT_GAIN)
        && buf[samples..] == old(buf[samples..])
        && scope.vis[..] == RingWrite(old(scope.vis[..]), old(scope.pos), r.out)
        && scope.pos == Cursor(old(scope.pos), samples)
    {
      ghost var vs, m, rest, vis0, pos0, b0 := voices[..], fm[0], fm[1..], scope.vis[..], scope.pos, buf[..];
      assert buf[..] == Scaled([], OUTPUT_GAIN) + b0[0..];
      ghost var r := SampleLoop(buf, samples, b0, vis0, pos0, rest, fmodOn, Frame(vs, m, []));
      assert buf[..] == Scaled(r.out, OUTPUT_GAIN) + b0[samples..];
      assert buf[..samples] == Scaled(r.out, OUTPUT_GAIN);
    }

    /** The sample loop of audio_callback, from frame r0 with nothing output yet. */
    method SampleLoop(buf: array<real>, samples: int, ghost b0: seq<real>, ghost vis0: seq<real>, ghost pos0: int,
                      ghost rest: seq<FMod>, ghost on: bool, ghost r0: Frame) returns (ghost r: Frame)
      requires Tracks(rest, r0) && Shows(buf, b0, vis0, pos0, r0.out) && r0.out == [] && 0 <= samples <= buf.Length
      requires on == fmodOn
      modifies voices, fm, scope, scope.vis, buf
      ensures r == Render(trig, on, r0.voices, r0.mod, samples)
      ensures Tracks(rest, r) && Shows(buf, b0, vis0, pos0, r.out)
    {
      r := r0;
      var i := 0;
      while i != samples
        invariant 0 <= i <= samples
        invariant Running(buf, b0, vis0, pos0, rest, on, r0.voices, r0.mod, r, i)
      {
        r := SampleStep(buf, i, b0, vis0, pos0, rest, on, r0.voices, r0.mod, r);
        i := i + 1;
      }
    }

    /** The state after i samples of a block started from voices vs and modulator m:
        the arrays track the frame after i samples, and the output buffers show it. */
    ghost predicate Running(buf: array<real>, b0: seq<real>, vis0: seq<real>, pos0: int, rest: seq<FMod>,
                            on: bool, vs: seq<Voice>, m: FMod, r: Frame, i: nat)
      reads this, voices, fm, scope, scope.vis, buf
    {
      && on == fmodOn && r == Render(trig, on, vs, m, i)
      && Tracks(rest, r) && Shows(buf, b0, vis0, pos0, r.out)
    }

    /** One pass of the sample loop: compute sample i and output it. */
    method SampleStep(buf: array<real>, i: nat, ghost b0: seq<real>, ghost vis0: seq<real>, ghost pos0: int,
                      ghost rest: seq<FMod>, ghost on: bool, ghost vs: seq<Voice>, ghost m: FMod, ghost r: Frame) returns (ghost r': Frame)
      requires Running(buf, b0, vis0, pos0, rest, on, vs, m, r, i) && i < buf.Length
      modifies voices, fm, scope, scope.vis, buf
      ensures Running(buf, b0, vis0, pos0, rest, on, vs, m, r', i + 1)
    {
      ghost var out := r.out;
      var s;
      r', s := Compute(rest, r, on, vs, m, i);
      Record(buf, i, s, b0, vis0, pos0, out);
    }

    /** The computation of one sample: the voices and the shared modulator move on from
        frame r, the frame after i samples, to the frame after i + 1 samples, whose last
        output is the sample. */
    method Compute(ghost rest: seq<FMod>, ghost r: Frame, ghost on: bool, ghost vs: seq<Voice>, ghost m: FMod, ghost i: nat) returns (ghost r': Frame, s: real)
      requires Tracks(rest, r) && on == fmodOn && r == Render(trig, on, vs, m, i)
      modifies voices, fm
      ensures r' == Render(trig, on, vs, m, i + 1) && r'.out == r.out + [s]
      ensures Tracks(rest, r')
    {
      s := MixVoices();
      r' := Step(trig, on, r);
    }

    /** The output of sample s, the next after out: half amplitude into the stream at
        index i, full amplitude into the oscilloscope buffer at its cursor. */
    method Record(buf: array<real>, i: int, s: real, ghost b0: seq<real>, ghost vis0: seq<real>, ghost pos0: int, ghost out: seq<real>)
      requires Shows(buf, b0, vis0, pos0, out) && i == |out| < buf.Length
      modifies buf, scope, scope.vis
      ensures Shows(buf, b0, vis0, pos0, out + [s])
    {
      ScaledWrite(buf[..], b0, out, s, OUTPUT_GAIN);
      RingWriteSnoc(vis0, pos0, out, s);
      CursorMod(pos0, i);
      buf[i] := s * OUTPUT_GAIN;
      scope.Push(s);
    }
  }
}
