/** The additive synthesizer: a bank of up to MAX_OSC free-running oscillators, each
    with its own waveform, frequency and amplitude, summed and divided by their number
    while playback is on. The pure part fixes what one sample and a block of samples
    compute and what the edit keys do to an oscillator; the class `Synth` holds the
    program's global state, which its event handlers and audio callback update in place. */
module Additive {
  import opened Dsp
  import opened Keys
  import opened Bank
  import opened Scope

  const SAMPLE_RATE: int := 22100
  const MAX_OSC: int := 8

  datatype WaveType = WaveSine | WaveSquare | WaveTriangle | WaveSaw

  /** `(type + 1) % 4` over the order sine, square, triangle, saw. */
  function NextWave(w: WaveType): (r: WaveType)
    ensures r != w
  {
    match w
    case WaveSine => WaveSquare
    case WaveSquare => WaveTriangle
    case WaveTriangle => WaveSaw
    case WaveSaw => WaveSine
  }

  /** Four presses of TAB return to the starting waveform, and no fewer do. */
  lemma NextWaveCycle(w: WaveType)
    ensures NextWave(NextWave(NextWave(NextWave(w)))) == w
    ensures NextWave(NextWave(w)) != w && NextWave(NextWave(NextWave(w))) != w
  {
  }

  /** One entry of `osc[]`. */
  datatype Oscillator = Oscillator(wave: WaveType, freq: real, amp: real, phase: real)

  /** A zero-initialised entry of the global `osc[]` array. */
  const ZERO_OSC: Oscillator := Oscillator(WaveSine, 0.0, 0.0, 0.0)

  /** The oscillator add_oscillator installs: a sine at 220 Hz, amplitude 0.5, phase 0. */
  const NEW_OSC: Oscillator := Oscillator(WaveSine, 220.0, 0.5, 0.0)

  /** gen_wave: the oscillator's waveform at its current phase. The square is ±1 by the
      sign of the sine, with +1 where the sine is zero. */
  function GenWave(t: Trig, o: Oscillator): (r: real)
    ensures o.wave == WaveSine ==> r == t.sin(o.phase)
    ensures o.wave == WaveSquare ==> (r == 1.0 <==> t.sin(o.phase) >= 0.0) && (r == -1.0 <==> t.sin(o.phase) < 0.0)
    ensures o.wave == WaveTriangle ==> r == Triangle(t, o.phase)
    ensures o.wave == WaveSaw ==> r == Saw(o.phase)
  {
    match o.wave
    case WaveSine => t.sin(o.phase)
    case WaveSquare => if t.sin(o.phase) >= 0.0 then 1.0 else -1.0
    case WaveTriangle => Triangle(t, o.phase)
    case WaveSaw => Saw(o.phase)
  }

  /** Sine, square and triangle stay within [−1, 1] at any phase, the saw at a phase within one turn. */
  lemma GenWaveBounded(t: Trig, o: Oscillator)
    requires Sane(t) && (o.wave == WaveSaw ==> InTurn(o.phase))
    ensures -1.0 <= GenWave(t, o) <= 1.0
  {
    if o.wave == WaveTriangle {
      TriangleBounded(t, o.phase);
    }
  }

  /** What oscillator o adds to the mix: its waveform times its amplitude. A muted
      oscillator adds nothing; at full amplitude it adds its waveform unscaled. */
  function Contribution(t: Trig, o: Oscillator): (r: real)
    ensures o.amp == 0.0 ==> r == 0.0
    ensures o.amp == 1.0 ==> r == GenWave(t, o)
  {
    GenWave(t, o) * o.amp
  }

  /** An amplitude within [0, 1] scales a value within [−1, 1] to a value within [−1, 1]. */
  lemma ContributionBounded(t: Trig, o: Oscillator)
    requires Sane(t) && (o.wave == WaveSaw ==> InTurn(o.phase)) && 0.0 <= o.amp <= 1.0
    ensures -1.0 <= Contribution(t, o) <= 1.0
  {
    GenWaveBounded(t, o);
    ScaleBounded(GenWave(t, o), o.amp);
  }

  lemma ScaleBounded(g: real, a: real)
    requires -1.0 <= g <= 1.0 && 0.0 <= a <= 1.0
    ensures -1.0 <= g * a <= 1.0
  {
    if g >= 0.0 {
      assert g * a <= 1.0 * a;
    } else {
      assert (-g) * a <= 1.0 * a;
    }
  }

  /** The phase update of the audio callback: one increment at SAMPLE_RATE and a single
      wrap. Only the phase changes; a non-negative phase stays non-negative, and a phase
      within one turn stays there while the frequency does not exceed the sample rate. */
  function Advance(o: Oscillator): (r: Oscillator)
    ensures Settings(r) == Settings(o)
    ensures r.phase == PhaseStep(o.phase, o.freq, SAMPLE_RATE as real)
    ensures 0.0 <= o.phase && 0.0 <= o.freq ==> 0.0 <= r.phase
    ensures InBand(o) ==> InBand(r)
  {
    o.(phase := PhaseStep(o.phase, o.freq, SAMPLE_RATE as real))
  }

  /** What the user sets on an oscillator: everything but the running phase. */
  function Settings(o: Oscillator): (WaveType, real, real)
  {
    (o.wave, o.freq, o.amp)
  }

  /** An oscillator whose samples stay within [−1, 1] for ever: its amplitude is within
      [0, 1], its frequency at most the sample rate, and its phase within one turn. */
  predicate InBand(o: Oscillator)
  {
    0.0 <= o.amp <= 1.0 && 0.0 <= o.freq <= SAMPLE_RATE as real && InTurn(o.phase)
  }

  /** The sum the oscillator loop of the audio callback accumulates, in index order. */
  function Mix(t: Trig, os: seq<Oscillator>): (r: real)
    ensures (forall i :: 0 <= i < |os| ==> os[i].amp == 0.0) ==> r == 0.0
    decreases |os|
  {
    if os == [] then 0.0 else Mix(t, os[..|os| - 1]) + Contribution(t, os[|os| - 1])
  }

  /** With every oscillator's contribution in range the mix lies within ± their number. */
  lemma {:induction false} MixBounded(t: Trig, os: seq<Oscillator>)
    requires Sane(t) && AllInBand(os)
    ensures -(|os| as real) <= Mix(t, os) <= |os| as real
    decreases |os|
  {
    if os != [] {
      var n := |os| - 1;
      MixBounded(t, os[..n]);
      ContributionBounded(t, os[n]);
    }
  }

  /** The oscillators after the oscillator loop: every one advanced. */
  function AdvanceAll(os: seq<Oscillator>): (r: seq<Oscillator>)
    ensures |r| == |os| && forall i :: 0 <= i < |os| ==> r[i] == Advance(os[i])
  {
    seq(|os|, i requires 0 <= i < |os| => Advance(os[i]))
  }

  /** The mix after the division of the audio callback: by the number of oscillators
      when there is one, otherwise left as it is. */
  function Level(mix: real, count: int): (r: real)
    ensures count > 0 && -(count as real) <= mix <= count as real ==> -1.0 <= r <= 1.0
    ensures count <= 0 ==> r == mix
    ensures mix == 0.0 ==> r == 0.0
  {
    if count > 0 then
      DivBounded(mix, count as real);
      mix / count as real
    else mix
  }

  lemma DivBounded(m: real, c: real)
    requires c > 0.0
    ensures -c <= m <= c ==> -1.0 <= m / c <= 1.0
  {
    var q := m / c;
    assert q * c == m;
    if q > 1.0 {
      assert q * c > 1.0 * c;
    }
    if q < -1.0 {
      assert q * c < -1.0 * c;
    }
  }

  /** The computed state after a block of samples, with the samples produced. */
  datatype Frame = Frame(oscs: seq<Oscillator>, out: seq<real>)

  /** One sample of the audio callback: while playing, every oscillator is sampled at its
      current phase and then advanced; the mix is divided by the number of oscillators. */
  function Step(t: Trig, playing: bool, r: Frame): (s: Frame)
    ensures |s.oscs| == |r.oscs| && |s.out| == |r.out| + 1
  {
    if playing then Frame(AdvanceAll(r.oscs), r.out + [Level(Mix(t, r.oscs), |r.oscs|)])
    else Frame(r.oscs, r.out + [Level(0.0, |r.oscs|)])
  }

  /** n samples of the audio callback. */
  function Render(t: Trig, playing: bool, os: seq<Oscillator>, n: nat): (r: Frame)
    ensures |r.out| == n && |r.oscs| == |os|
    decreases n
  {
    if n == 0 then Frame(os, []) else Step(t, playing, Render(t, playing, os, n - 1))
  }

  /** Playback is silent while paused: every sample is 0 and no phase moves. */
  lemma {:induction false} RenderPaused(t: Trig, os: seq<Oscillator>, n: nat)
    ensures Render(t, false, os, n) == Frame(os, seq(n, _ => 0.0))
    decreases n
  {
    if n > 0 {
      RenderPaused(t, os, n - 1);
      assert seq(n - 1, _ => 0.0) + [0.0] == seq(n, _ => 0.0);
    }
  }

  /** Every oscillator of os is in band. */
  predicate AllInBand(os: seq<Oscillator>)
  {
    forall i :: 0 <= i < |os| ==> InBand(os[i])
  }

  /** A sample never changes what the user set, and keeps the edit invariant and the band. */
  lemma StepKeeps(t: Trig, playing: bool, r: Frame)
    ensures forall i :: 0 <= i < |r.oscs| ==> Settings(Step(t, playing, r).oscs[i]) == Settings(r.oscs[i])
    ensures OscsOk(r.oscs) ==> OscsOk(Step(t, playing, r).oscs)
    ensures AllInBand(r.oscs) ==> AllInBand(Step(t, playing, r).oscs)
  {
    if OscsOk(r.oscs) {
      forall i | 0 <= i < |r.oscs| ensures OscOk(Step(t, playing, r).oscs[i]) {
        assert OscOk(r.oscs[i]);
      }
    }
  }

  /** Audio never changes what the user set. */
  lemma {:induction false} RenderSettings(t: Trig, playing: bool, os: seq<Oscillator>, n: nat)
    ensures forall i :: 0 <= i < |os| ==> Settings(Render(t, playing, os, n).oscs[i]) == Settings(os[i])
    decreases n
  {
    if n > 0 {
      RenderSettings(t, playing, os, n - 1);
      StepKeeps(t, playing, Render(t, playing, os, n - 1));
    }
  }

  /** Audio keeps the edit invariant and the band. */
  lemma {:induction false} RenderKeeps(t: Trig, playing: bool, os: seq<Oscillator>, n: nat)
    ensures OscsOk(os) ==> OscsOk(Render(t, playing, os, n).oscs)
    ensures AllInBand(os) ==> AllInBand(Render(t, playing, os, n).oscs)
    decreases n
  {
    if n > 0 {
      RenderKeeps(t, playing, os, n - 1);
      StepKeeps(t, playing, Render(t, playing, os, n - 1));
    }
  }

  /** One more sample extends the output by one. */
  lemma RenderExtends(t: Trig, playing: bool, os: seq<Oscillator>, n: nat)
    ensures Render(t, playing, os, n + 1).out[..n] == Render(t, playing, os, n).out
  {
    var r := Render(t, playing, os, n);
    assert Render(t, playing, os, n + 1) == Step(t, playing, r);
  }

  /** The output is a stream: rendering more samples extends the earlier output. */
  lemma RenderPrefix(t: Trig, playing: bool, os: seq<Oscillator>, m: nat, n: nat)
    requires m <= n
    ensures Render(t, playing, os, n).out[..m] == Render(t, playing, os, m).out
  {
    forall k: nat ensures Render(t, playing, os, k + 1).out[..k] == Render(t, playing, os, k).out {
      RenderExtends(t, playing, os, k);
    }
    StreamPrefix((k: nat) => Render(t, playing, os, k).out, m, n);
  }

  /** The last sample of a block from oscillators in band lies within [−1, 1]. */
  lemma RenderLastBounded(t: Trig, playing: bool, os: seq<Oscillator>, k: nat)
    requires Sane(t) && AllInBand(os)
    ensures -1.0 <= Render(t, playing, os, k + 1).out[k] <= 1.0
  {
    var r := Render(t, playing, os, k);
    RenderKeeps(t, playing, os, k);
    if playing {
      MixBounded(t, r.oscs);
    }
  }

  /** The division by the number of oscillators keeps every sample of a block from
      oscillators in band within [−1, 1], however many oscillators sound. */
  lemma RenderBounded(t: Trig, playing: bool, os: seq<Oscillator>, n: nat, k: int)
    requires Sane(t) && AllInBand(os)
    requires 0 <= k < n
    ensures -1.0 <= Render(t, playing, os, n).out[k] <= 1.0
  {
    RenderPrefix(t, playing, os, k + 1, n);
    assert Render(t, playing, os, n).out[k] == Render(t, playing, os, k + 1).out[k];
    RenderLastBounded(t, playing, os, k);
  }

  // The edit keys: UP and DOWN move the frequency by 10 Hz, DOWN only above 10 Hz;
  // RIGHT and LEFT move the amplitude by 0.05, RIGHT only below 1 and LEFT only above 0.
  const FREQ_STEP: real := 10.0
  const AMP_STEP: real := 0.05

  /** The oscillator after the edit keys of the key-down handler, tested in its order. */
  function Edited(o: Oscillator, sym: Keycode): (r: Oscillator)
    ensures r.phase == o.phase
    ensures r.wave == if sym == KEY_TAB then NextWave(o.wave) else o.wave
    ensures r.freq == if sym == KEY_UP then o.freq + FREQ_STEP
                      else if sym == KEY_DOWN && o.freq > FREQ_STEP then o.freq - FREQ_STEP
                      else o.freq
    ensures r.amp == if sym == KEY_RIGHT && o.amp < 1.0 then o.amp + AMP_STEP
                     else if sym == KEY_LEFT && o.amp > 0.0 then o.amp - AMP_STEP
                     else o.amp
  {
    if sym == KEY_TAB then o.(wave := NextWave(o.wave))
    else if sym == KEY_UP then o.(freq := o.freq + FREQ_STEP)
    else if sym == KEY_DOWN && o.freq > FREQ_STEP then o.(freq := o.freq - FREQ_STEP)
    else if sym == KEY_RIGHT && o.amp < 1.0 then o.(amp := o.amp + AMP_STEP)
    else if sym == KEY_LEFT && o.amp > 0.0 then o.(amp := o.amp - AMP_STEP)
    else o
  }

  /** The frequencies the edit keys reach from 220 Hz: the positive multiples of 10 Hz. */
  ghost predicate FreqOk(f: real)
  {
    exists k :: 1 <= k && f == Steps(k, FREQ_STEP)
  }

  /** The amplitudes the edit keys reach from 0.5: the multiples of 0.05 from 0 to 1. */
  ghost predicate AmpOk(a: real)
  {
    OnGrid(a, AMP_STEP, 0, 20)
  }

  /** The edit invariant of one oscillator: frequency and amplitude on their grids and a
      non-negative phase. */
  ghost predicate OscOk(o: Oscillator)
  {
    FreqOk(o.freq) && AmpOk(o.amp) && 0.0 <= o.phase
  }

  ghost predicate OscsOk(os: seq<Oscillator>)
  {
    forall i :: 0 <= i < |os| ==> OscOk(os[i])
  }

  /** A frequency on the grid is at least 10 Hz, and an amplitude on the grid is within [0, 1]. */
  lemma OscOkBounds(o: Oscillator)
    requires OscOk(o)
    ensures o.freq >= FREQ_STEP && 0.0 <= o.amp <= 1.0
  {
    var k :| 1 <= k && o.freq == Steps(k, FREQ_STEP);
    var j :| 0 <= j <= 20 && o.amp == Steps(j, AMP_STEP);
  }

  /** The oscillator add_oscillator installs satisfies the edit invariant. */
  lemma NewOscOk()
    ensures OscOk(NEW_OSC)
  {
    assert NEW_OSC.freq == Steps(22, FREQ_STEP);
    assert NEW_OSC.amp == Steps(10, AMP_STEP);
  }

  /** The edit keys keep the edit invariant: the guards keep the frequency at 10 Hz or
      more and the amplitude within [0, 1]. */
  lemma EditedKeeps(o: Oscillator, sym: Keycode)
    requires OscOk(o)
    ensures OscOk(Edited(o, sym))
  {
    var r := Edited(o, sym);
    var k :| 1 <= k && o.freq == Steps(k, FREQ_STEP);
    var j :| 0 <= j <= 20 && o.amp == Steps(j, AMP_STEP);
    if r.freq == o.freq + FREQ_STEP {
      assert r.freq == Steps(k + 1, FREQ_STEP);
    } else if r.freq == o.freq - FREQ_STEP && r.freq != o.freq {
      assert k > 1;
      assert r.freq == Steps(k - 1, FREQ_STEP);
    }
    if r.amp == o.amp + AMP_STEP && r.amp != o.amp {
      assert j < 20;
      assert r.amp == Steps(j + 1, AMP_STEP);
    } else if r.amp == o.amp - AMP_STEP && r.amp != o.amp {
      assert j > 0;
      assert r.amp == Steps(j - 1, AMP_STEP);
    }
  }

  /** UP then DOWN restores a positive frequency; DOWN then UP restores one above 10 Hz. */
  lemma FreqRoundTrip(o: Oscillator)
    ensures o.freq > 0.0 ==> Edited(Edited(o, KEY_UP), KEY_DOWN) == o
    ensures o.freq > FREQ_STEP ==> Edited(Edited(o, KEY_DOWN), KEY_UP) == o
    ensures o.freq <= FREQ_STEP ==> Edited(o, KEY_DOWN) == o
  {
  }

  /** RIGHT then LEFT restores an amplitude within [0, 1); LEFT then RIGHT one within (0, 1]. */
  lemma AmpRoundTrip(o: Oscillator)
    ensures 0.0 <= o.amp < 1.0 ==> Edited(Edited(o, KEY_RIGHT), KEY_LEFT) == o
    ensures 0.0 < o.amp <= 1.0 ==> Edited(Edited(o, KEY_LEFT), KEY_RIGHT) == o
    ensures o.amp >= 1.0 ==> Edited(o, KEY_RIGHT) == o
    ensures o.amp <= 0.0 ==> Edited(o, KEY_LEFT) == o
  {
  }

  /** Keys other than the edit keys leave an oscillator as it is; BACKSPACE among them. */
  lemma EditedOther(o: Oscillator, sym: Keycode)
    requires sym !in {KEY_TAB, KEY_UP, KEY_DOWN, KEY_RIGHT, KEY_LEFT}
    ensures Edited(o, sym) == o
  {
  }

  lemma OscsOkUpdate(os: seq<Oscillator>, j: int, o: Oscillator)
    requires OscsOk(os) && 0 <= j < |os| && OscOk(o)
    ensures OscsOk(os[j := o])
  {
  }

  lemma OscsOkRemove(os: seq<Oscillator>, i: int)
    requires OscsOk(os) && 0 <= i < |os|
    ensures OscsOk(RemoveAt(os, i))
  {
  }

  class Synth {
    const trig: Trig
    const osc: array<Oscillator>
    const scope: WaveVis
    var count: int
    var selected: int
    var playing: bool

    ghost predicate Valid()
      reads this, osc, scope
    {
      && osc.Length == MAX_OSC && scope.Valid()
      && 0 <= count <= MAX_OSC && SelectionOk(selected, count)
      && OscsOk(osc[..count])
    }

    /** The zero-initialised globals: no oscillator, nothing selected, paused. */
    constructor (t: Trig)
      ensures Valid()
      ensures fresh(osc) && fresh(scope) && fresh(scope.vis)
      ensures trig == t && osc[..] == seq(MAX_OSC, _ => ZERO_OSC)
      ensures count == 0 && selected == -1 && !playing && scope.pos == 0
    {
      trig := t;
      osc := new Oscillator[MAX_OSC](_ => ZERO_OSC);
      scope := new WaveVis();
      count := 0;
      selected := -1;
      playing := false;
    }

    /** add_oscillator: when there is room, append the 220 Hz sine and select it. */
    method AddOscillator()
      requires Valid()
      modifies osc, this`count, this`selected
      ensures Valid()
      ensures old(count) >= MAX_OSC ==>
        osc[..] == old(osc[..]) && count == old(count) && selected == old(selected)
      ensures old(count) < MAX_OSC ==>
        && osc[..] == old(osc[..])[old(count) := NEW_OSC]
        && selected == old(count) && count == old(count) + 1
    {
      if count >= MAX_OSC {
        return;
      }
      NewOscOk();
      osc[count] := Oscillator(WaveSine, 220.0, 0.5, 0.0);
      selected := count;
      count := count + 1;
      assert osc[..count] == old(osc[..count]) + [NEW_OSC];
    }

    /** remove_oscillator: an index outside the oscillators in use changes nothing;
        otherwise the later oscillators shift down one place, the count drops and the
        selection is kept inside the bank. The slot at the old end keeps its stale entry. */
    method RemoveOscillator(index: int)
      requires Valid()
      modifies osc, this`count, this`selected
      ensures Valid()
      ensures !(0 <= index < old(count)) ==>
        osc[..] == old(osc[..]) && count == old(count) && selected == old(selected)
      ensures 0 <= index < old(count) ==>
        && count == old(count) - 1
        && osc[..] == RemoveAt(old(osc[..count]), index) + old(osc[count - 1..])
        && selected == SelectedAfterRemove(old(selected), count)
    {
      if index < 0 || index >= count {
        return;
      }
      ghost var os := osc[..count];
      ShiftDown(index, count);
      count := count - 1;
      selected := SelectedAfterRemove(selected, count);
      OscsOkRemove(os, index);
      assert osc[..count] == RemoveAt(os, index);
    }

    /** The shift loop of remove_oscillator: the oscillators after index move down one
        slot; the last slot in use keeps its value. */
    method ShiftDown(index: int, n: int)
      requires osc.Length == MAX_OSC && 0 <= index < n <= osc.Length
      modifies osc
      ensures osc[..] == RemoveAt(old(osc[..n]), index) + old(osc[n - 1..])
    {
      ghost var os := osc[..];
      var i := index;
      while i != n - 1
        invariant index <= i <= n - 1
        invariant forall j :: 0 <= j < index ==> osc[j] == os[j]
        invariant forall j :: index <= j < i ==> osc[j] == os[j + 1]
        invariant forall j :: i <= j < osc.Length ==> osc[j] == os[j]
      {
        osc[i] := osc[i + 1];
        i := i + 1;
      }
      assert osc[..] == RemoveAt(os[..n], index) + os[n - 1..];
    }

    /** The edit keys applied in place to the selected oscillator, in the handler's order. */
    method EditSelected(sym: Keycode)
      requires Valid() && selected >= 0
      modifies osc
      ensures Valid()
      ensures osc[..] == old(osc[..])[selected := Edited(old(osc[selected]), sym)]
    {
      ghost var os, o := osc[..count], osc[selected];
      if sym == KEY_TAB {
        osc[selected] := osc[selected].(wave := NextWave(osc[selected].wave));
      }
      if sym == KEY_UP {
        osc[selected] := osc[selected].(freq := osc[selected].freq + FREQ_STEP);
      }
      if sym == KEY_DOWN && osc[selected].freq > FREQ_STEP {
        osc[selected] := osc[selected].(freq := osc[selected].freq - FREQ_STEP);
      }
      if sym == KEY_RIGHT && osc[selected].amp < 1.0 {
        osc[selected] := osc[selected].(amp := osc[selected].amp + AMP_STEP);
      }
      if sym == KEY_LEFT && osc[selected].amp > 0.0 {
        osc[selected] := osc[selected].(amp := osc[selected].amp - AMP_STEP);
      }
      assert osc[selected] == Edited(o, sym);
      EditedKeeps(o, sym);
      OscsOkUpdate(os, selected, osc[selected]);
      assert osc[..count] == os[selected := osc[selected]];
    }

    /** The key-down handler: SPACE toggles playback; with an oscillator selected, the
        edit keys change it and BACKSPACE removes it. */
    method KeyDown(sym: Keycode)
      requires Valid()
      modifies osc, this`count, this`selected, this`playing
      ensures Valid()
      ensures playing == if sym == KEY_SPACE then !old(playing) else old(playing)
      ensures old(selected) < 0 ==>
        osc[..] == old(osc[..]) && count == old(count) && selected == old(selected)
      ensures old(selected) >= 0 && sym != KEY_BACKSPACE ==>
        && osc[..] == old(osc[..])[old(selected) := Edited(old(osc[selected]), sym)]
        && count == old(count) && selected == old(selected)
      ensures old(selected) >= 0 && sym == KEY_BACKSPACE ==>
        && count == old(count) - 1
        && osc[..] == RemoveAt(old(osc[..count]), old(selected)) + old(osc[count - 1..])
        && selected == SelectedAfterRemove(old(selected), count)
    {
      if sym == KEY_SPACE {
        playing := !playing;
      }
      OscKeys(sym);
    }

    /** The oscillator part of the key-down handler: with an oscillator selected, the
        edit keys change it and BACKSPACE removes it. */
    method OscKeys(sym: Keycode)
      requires Valid()
      modifies osc, this`count, this`selected
      ensures Valid()
      ensures old(selected) < 0 ==>
        osc[..] == old(osc[..]) && count == old(count) && selected == old(selected)
      ensures old(selected) >= 0 && sym != KEY_BACKSPACE ==>
        && osc[..] == old(osc[..])[old(selected) := Edited(old(osc[selected]), sym)]
        && count == old(count) && selected == old(selected)
      ensures old(selected) >= 0 && sym == KEY_BACKSPACE ==>
        && count == old(count) - 1
        && osc[..] == RemoveAt(old(osc[..count]), old(selected)) + old(osc[count - 1..])
        && selected == SelectedAfterRemove(old(selected), count)
    {
      if selected < 0 {
        return;
      }
      ghost var os := osc[..];
      EditSelected(sym);
      if sym == KEY_BACKSPACE && selected >= 0 {
        EditedOther(os[selected], sym);
        assert osc[..] == os;
        RemoveOscillator(selected);
      }
    }

    /** The mouse-button handler: a click on the add button adds an oscillator, then a
        click on a row of the oscillator list selects that oscillator. */
    method Click(x: int, y: int)
      requires Valid()
      modifies osc, this`count, this`selected
      ensures Valid()
      ensures !OnAddButton(x, y) || old(count) >= MAX_OSC ==>
        && osc[..] == old(osc[..]) && count == old(count)
        && selected == ClickSelect(old(selected), count, y)
      ensures OnAddButton(x, y) && old(count) < MAX_OSC ==>
        && osc[..] == old(osc[..])[old(count) := NEW_OSC] && count == old(count) + 1
        && selected == ClickSelect(old(count), count, y)
    {
      if OnAddButton(x, y) {
        AddOscillator();
      }
      ghost var sel, os, n := selected, osc[..], count;
      var i := 0;
      while i < count
        invariant 0 <= i <= count
        invariant osc[..] == os && count == n
        invariant selected == ClickSelect(sel, i, y)
      {
        RowUnderSpec(y, i);
        if LIST_TOP + i * ROW_PITCH < y < LIST_TOP + i * ROW_PITCH + ROW_HEIGHT {
          selected := i;
        }
        i := i + 1;
      }
    }

    /** The body of the oscillator loop for oscillator k: its contribution at the current
        phase, then the phase update. */
    method GenOsc(k: int) returns (s: real)
      requires osc.Length == MAX_OSC && 0 <= k < osc.Length
      modifies osc
      ensures osc[..] == old(osc[..])[k := Advance(old(osc[k]))]
      ensures s == Contribution(trig, old(osc[k]))
    {
      s := Contribution(trig, osc[k]);
      var p := osc[k].phase + Increment(osc[k].freq, SAMPLE_RATE as real);
      if p > TWO_PI {
        p := p - TWO_PI;
      }
      osc[k] := osc[k].(phase := p);
    }

    /** The oscillator loop of the audio callback: each oscillator in use adds its
        contribution, then advances. */
    method MixOscillators() returns (s: real)
      requires osc.Length == MAX_OSC && 0 <= count <= MAX_OSC
      modifies osc
      ensures osc[..count] == AdvanceAll(old(osc[..count]))
      ensures osc[count..] == old(osc[count..])
      ensures s == Mix(trig, old(osc[..count]))
    {
      ghost var os, rest := osc[..count], osc[count..];
      var n := count;
      s := 0.0;
      var k := 0;
      while k != n
        invariant 0 <= k <= n && |os| == n
        invariant forall j :: 0 <= j < k ==> osc[j] == Advance(os[j])
        invariant forall j :: k <= j < n ==> osc[j] == os[j]
        invariant osc[n..] == rest
        invariant s == Mix(trig, os[..k])
      {
        assert os[..k + 1][..k] == os[..k];
        var g := GenOsc(k);
        s := s + g;
        k := k + 1;
      }
      assert os[..k] == os;
      assert osc[..n] == AdvanceAll(os);
    }

    /** The body of the sample loop of audio_callback up to the output: the oscillator
        loop while playing, then the division by the number of oscillators. */
    method NextSample() returns (s: real)
      requires osc.Length == MAX_OSC && 0 <= count <= MAX_OSC
      modifies osc
      ensures osc[..count] == if playing then AdvanceAll(old(osc[..count])) else old(osc[..count])
      ensures osc[count..] == old(osc[count..])
      ensures s == Level(if playing then Mix(trig, old(osc[..count])) else 0.0, count)
    {
      var mix := 0.0;
      if playing {
        mix := MixOscillators();
      }
      if count > 0 {
        mix := mix / count as real;
      }
      s := mix;
    }

    /** audio_callback for a block of `samples` floats: each sample is written to the
        stream and recorded in the oscilloscope buffer. */
    method AudioCallback(buf: array<real>, samples: int)
      requires Valid() && buf != scope.vis && 0 <= samples <= buf.Length
      modifies osc, scope, scope.vis, buf
      ensures Valid()
      ensures var r := Render(trig, playing, old(osc[..count]), samples);
        && osc[..count] == r.oscs
        && osc[count..] == old(osc[count..])
        && buf[..samples] == r.out
        && buf[samples..] == old(buf[samples..])
        && scope.vis[..] == RingWrite(old(scope.vis[..]), old(scope.pos), r.out)
        && scope.pos == Cursor(old(scope.pos), samples)
    {
      ghost var os := osc[..count];
      FillBlock(buf, samples);
      RenderKeeps(trig, playing, os, samples);
    }

    /** The oscillators in use are those of frame r, and the unused slots hold rest. */
    ghost predicate Tracks(rest: seq<Oscillator>, r: Frame)
      reads this, osc
    {
      && osc.Length == MAX_OSC && 0 <= count <= MAX_OSC
      && osc[..count] == r.oscs && osc[count..] == rest
    }

    /** The stream holds the samples of out followed by its earlier contents b0, and the
        oscilloscope buffer holds them written from cursor pos0 over its earlier contents vis0. */
    ghost predicate Shows(buf: array<real>, b0: seq<real>, vis0: seq<real>, pos0: int, out: seq<real>)
      reads scope, scope.vis, buf
    {
      && scope.Valid() && buf != scope.vis && |b0| == buf.Length && |out| <= buf.Length
      && |vis0| == WAVE_BUF && 0 <= pos0 < WAVE_BUF
      && buf[..] == out + b0[|out|..]
      && scope.vis[..] == RingWrite(vis0, pos0, out)
      && scope.pos == Cursor(pos0, |out|)
    }

    /** The samples of one block and their effect on the arrays. */
    method FillBlock(buf: array<real>, samples: int)
      requires osc.Length == MAX_OSC && 0 <= count <= MAX_OSC
      requires scope.Valid() && buf != scope.vis && 0 <= samples <= buf.Length
      modifies osc, scope, scope.vis, buf
      ensures scope.Valid()
      ensures var r := Render(trig, playing, old(osc[..count]), samples);
        && osc[..count] == r.oscs
        && osc[count..] == old(osc[count..])
        && buf[..samples] == r.out
        && buf[samples..] == old(buf[samples..])
        && scope.vis[..] == RingWrite(old(scope.vis[..]), old(scope.pos), r.out)
        && scope.pos == Cursor(old(scope.pos), samples)
    {
      ghost var os, rest, vis0, pos0, b0 := osc[..count], osc[count..], scope.vis[..], scope.pos, buf[..];
      assert buf[..] == [] + b0[0..];
      ghost var r := SampleLoop(buf, samples, b0, vis0, pos0, rest, playing, Frame(os, []));
      assert buf[..] == r.out + b0[samples..];
      assert buf[..samples] == r.out;
    }

    /** The sample loop of audio_callback, from frame r0 with nothing output yet. */
    method SampleLoop(buf: array<real>, samples: int, ghost b0: seq<real>, ghost vis0: seq<real>, ghost pos0: int,
                      ghost rest: seq<Oscillator>, ghost p: bool, ghost r0: Frame) returns (ghost r: Frame)
      requires Tracks(rest, r0) && Shows(buf, b0, vis0, pos0, r0.out) && r0.out == [] && 0 <= samples <= buf.Length
      requires p == playing
      modifies osc, scope, scope.vis, buf
      ensures r == Render(trig, p, r0.oscs, samples)
      ensures Tracks(rest, r) && Shows(buf, b0, vis0, pos0, r.out)
    {
      r := r0;
      var i := 0;
      while i != samples
        invariant 0 <= i <= samples
        invariant Running(buf, b0, vis0, pos0, rest, p, r0.oscs, r, i)
      {
        r := SampleStep(buf, i, b0, vis0, pos0, rest, p, r0.oscs, r);
        i := i + 1;
      }
    }

    /** The state after i samples of a block started from oscillators os: the array
        tracks the frame after i samples, and the output buffers show it. */
    ghost predicate Running(buf: array<real>, b0: seq<real>, vis0: seq<real>, pos0: int, rest: seq<Oscillator>,
                            p: bool, os: seq<Oscillator>, r: Frame, i: nat)
      reads this, osc, scope, scope.vis, buf
    {
      && p == playing && r == Render(trig, p, os, i)
      && Tracks(rest, r) && Shows(buf, b0, vis0, pos0, r.out)
    }

    /** One pass of the sample loop: compute sample i and output it. */
    method SampleStep(buf: array<real>, i: nat, ghost b0: seq<real>, ghost vis0: seq<real>, ghost pos0: int,
                      ghost rest: seq<Oscillator>, ghost p: bool, ghost os: seq<Oscillator>, ghost r: Frame) returns (ghost r': Frame)
      requires Running(buf, b0, vis0, pos0, rest, p, os, r, i) && i < buf.Length
      modifies osc, scope, scope.vis, buf
      ensures Running(buf, b0, vis0, pos0, rest, p, os, r', i + 1)
    {
      ghost var out := r.out;
      var s;
      r', s := Compute(rest, r, p, os, i);
      Record(buf, i, s, b0, vis0, pos0, out);
    }

    /** The computation of one sample: the oscillators move on from frame r, the frame
        after i samples, to the frame after i + 1 samples, whose last output is the sample. */
    method Compute(ghost rest: seq<Oscillator>, ghost r: Frame, ghost p: bool, ghost os: seq<Oscillator>, ghost i: nat) returns (ghost r': Frame, s: real)
      requires Tracks(rest, r) && p == playing && r == Render(trig, p, os, i)
      modifies osc
      ensures r' == Render(trig, p, os, i + 1) && r'.out == r.out + [s]
      ensures Tracks(rest, r')
    {
      s := NextSample();
      r' := Step(trig, p, r);
    }

    /** The output of sample s, the next after out: into the stream at index i and into
        the oscilloscope buffer at its cursor. */
    method Record(buf: array<real>, i: int, s: real, ghost b0: seq<real>, ghost vis0: seq<real>, ghost pos0: int, ghost out: seq<real>)
      requires Shows(buf, b0, vis0, pos0, out) && i == |out| < buf.Length
      modifies buf, scope, scope.vis
      ensures Shows(buf, b0, vis0, pos0, out + [s])
    {
      assert b0[|out|..] == [b0[|out|]] + b0[|out| + 1..];
      RingWriteSnoc(vis0, pos0, out, s);
      CursorMod(pos0, i);
      buf[i] := s;
      scope.Push(s);
    }
  }
}
