/** The subtractive synthesizer: up to MAX_VOICES naive-oscillator voices played from
    the computer keyboard, mixed, scaled down by a fixed headroom factor and sent
    through a series chain of up to MAX_FILTERS biquad filters. The pure part fixes
    what one sample and a block of samples compute; the class `Synth` holds the
    program's global state and its event handlers and audio callback update it in place. */
module Subtractive {
  import opened Dsp
  import opened Keys
  import Pool
  import opened Bank
  import opened Biquad
  import opened Scope

  datatype WaveType = WaveSaw | WaveSquare | WaveTriangle

  /** `(wave + 1) % 3` over the order saw, square, triangle. */
  function NextWave(w: WaveType): (r: WaveType)
    ensures r != w
  {
    match w
    case WaveSaw => WaveSquare
    case WaveSquare => WaveTriangle
    case WaveTriangle => WaveSaw
  }

  /** Three presses of TAB return to the starting waveform, and no fewer do. */
  lemma NextWaveCycle(w: WaveType)
    ensures NextWave(NextWave(NextWave(w))) == w
    ensures NextWave(NextWave(w)) != w
  {
  }

  /** One entry of `voices[]`. */
  datatype Voice = Voice(active: bool, key: Keycode, freq: real, phase: real)

  /** A zero-initialised entry of the global `voices[]` array. */
  const SILENT_VOICE: Voice := Voice(false, 0, 0.0, 0.0)

  /** The voices as the allocation rules see them. */
  function Slots(vs: seq<Voice>): (r: seq<Pool.Slot>)
    ensures |r| == |vs|
    ensures forall i :: 0 <= i < |vs| ==> r[i] == Pool.Slot(vs[i].active, vs[i].key)
  {
    seq(|vs|, i requires 0 <= i < |vs| => Pool.Slot(vs[i].active, vs[i].key))
  }

  /** The frequency is one a layout can produce and the phase lies within one turn. */
  predicate VoiceOk(v: Voice)
  {
    0.0 <= v.freq <= MAX_NOTE_FREQ && InTurn(v.phase)
  }

  /** The voice invariant: every voice is in range and no key sounds on two voices. */
  ghost predicate VoicesOk(vs: seq<Voice>)
  {
    (forall i :: 0 <= i < |vs| ==> VoiceOk(vs[i])) && Pool.KeysUnique(Slots(vs))
  }

  /** The voice after the phase update of gen_voice: one increment at SAMPLE_RATE and a
      single wrap. Only the phase changes, and it stays within one turn. */
  function Advance(v: Voice): (r: Voice)
    ensures r.active == v.active && r.key == v.key && r.freq == v.freq
    ensures r.phase == PhaseStep(v.phase, v.freq, SAMPLE_RATE as real)
    ensures VoiceOk(v) ==> VoiceOk(r)
  {
    v.(phase := PhaseStep(v.phase, v.freq, SAMPLE_RATE as real))
  }

  /** The value gen_voice returns for the selected waveform at the updated phase. Every
      waveform stays within [−1, 1]; the square is ±1 by the sign of the sine. */
  function Waveform(t: Trig, w: WaveType, phase: real): (r: real)
    ensures w == WaveSquare ==> (r == 1.0 <==> t.sin(phase) > 0.0) && (r == -1.0 <==> t.sin(phase) <= 0.0)
    ensures w == WaveSaw ==> r == Saw(phase)
    ensures w == WaveTriangle ==> r == Triangle(t, phase)
  {
    match w
    case WaveSaw => Saw(phase)
    case WaveSquare => if t.sin(phase) > 0.0 then 1.0 else -1.0
    case WaveTriangle => Triangle(t, phase)
  }

  /** Every waveform stays within [−1, 1] for a phase within one turn. */
  lemma WaveformBounded(t: Trig, w: WaveType, phase: real)
    ensures Sane(t) && InTurn(phase) ==> -1.0 <= Waveform(t, w, phase) <= 1.0
  {
    if Sane(t) && InTurn(phase) && w == WaveTriangle {
      TriangleBounded(t, phase);
    }
  }

  /** What voice v adds to the mix: its waveform after advancing when active, else
      nothing. A voice in range adds a value within [−1, 1]. */
  function Contribution(t: Trig, w: WaveType, v: Voice): (r: real)
    ensures !v.active ==> r == 0.0
    ensures Sane(t) && VoiceOk(v) ==> -1.0 <= r <= 1.0
  {
    if v.active then
      var p := Advance(v).phase;
      WaveformBounded(t, w, p);
      Waveform(t, w, p)
    else 0.0
  }

  /** The number of active voices. */
  function ActiveCount(vs: seq<Voice>): (n: nat)
    ensures n <= |vs|
    decreases |vs|
  {
    if vs == [] then 0 else ActiveCount(vs[..|vs| - 1]) + (if vs[|vs| - 1].active then 1 else 0)
  }

  /** The count depends only on which voices are active. */
  lemma {:induction false} ActiveCountSame(vs: seq<Voice>, ws: seq<Voice>)
    requires |vs| == |ws| && forall i :: 0 <= i < |vs| ==> vs[i].active == ws[i].active
    ensures ActiveCount(vs) == ActiveCount(ws)
    decreases |vs|
  {
    if vs != [] {
      ActiveCountSame(vs[..|vs| - 1], ws[..|ws| - 1]);
    }
  }

  /** The sum the voice loop of the audio callback accumulates, in voice order. */
  function Mix(t: Trig, w: WaveType, vs: seq<Voice>): (r: real)
    ensures (forall i :: 0 <= i < |vs| ==> !vs[i].active) ==> r == 0.0
    decreases |vs|
  {
    if vs == [] then 0.0 else Mix(t, w, vs[..|vs| - 1]) + Contribution(t, w, vs[|vs| - 1])
  }

  /** With every voice in range the mix lies within ± the number of active voices. */
  lemma {:induction false} MixBounded(t: Trig, w: WaveType, vs: seq<Voice>)
    requires Sane(t) && forall i :: 0 <= i < |vs| ==> VoiceOk(vs[i])
    ensures -(ActiveCount(vs) as real) <= Mix(t, w, vs) <= ActiveCount(vs) as real
    decreases |vs|
  {
    if vs != [] {
      var n := |vs| - 1;
      MixBounded(t, w, vs[..n]);
    }
  }

  /** What the voice loop does to one voice: advance it when active. Only the phase
      of an active voice moves, and the voice invariant is kept. */
  function Tick(v: Voice): (r: Voice)
    ensures r.active == v.active && r.key == v.key && r.freq == v.freq
    ensures !v.active ==> r == v
    ensures VoiceOk(v) ==> VoiceOk(r)
  {
    if v.active then Advance(v) else v
  }

  /** The voices after the voice loop, voice by voice in index order. */
  function AdvanceActive(vs: seq<Voice>): (r: seq<Voice>)
    ensures |r| == |vs|
    decreases |vs|
  {
    if vs == [] then [] else AdvanceActive(vs[..|vs| - 1]) + [Tick(vs[|vs| - 1])]
  }

  /** Every active voice is advanced, every other voice untouched. */
  lemma {:induction false} AdvanceActiveAt(vs: seq<Voice>, i: int)
    requires 0 <= i < |vs|
    ensures AdvanceActive(vs)[i] == Tick(vs[i])
    decreases |vs|
  {
    var n := |vs| - 1;
    if i < n {
      AdvanceActiveAt(vs[..n], i);
    }
  }

  /** The voice loop changes no slot: which voices are active and on which keys. */
  lemma AdvanceActiveSlots(vs: seq<Voice>)
    ensures Slots(AdvanceActive(vs)) == Slots(vs)
  {
    forall i | 0 <= i < |vs| ensures Slots(AdvanceActive(vs))[i] == Slots(vs)[i] {
      AdvanceActiveAt(vs, i);
    }
  }

  /** The voice loop keeps the voice invariant. */
  lemma AdvanceActiveOk(vs: seq<Voice>)
    requires VoicesOk(vs)
    ensures VoicesOk(AdvanceActive(vs))
  {
    AdvanceActiveSlots(vs);
    forall i | 0 <= i < |vs| ensures VoiceOk(AdvanceActive(vs)[i]) {
      AdvanceActiveAt(vs, i);
    }
  }

  /** With no voice active the mix is silent and the voice loop changes nothing. */
  lemma {:induction false} MixSilent(t: Trig, w: WaveType, vs: seq<Voice>)
    requires forall i :: 0 <= i < |vs| ==> !vs[i].active
    ensures Mix(t, w, vs) == 0.0
    ensures AdvanceActive(vs) == vs
    decreases |vs|
  {
    if vs != [] {
      var n := |vs| - 1;
      MixSilent(t, w, vs[..n]);
      assert vs[..n] + [vs[n]] == vs;
    }
  }

  /** The mix is divided by 2.5 before the filters to leave headroom for several voices. */
  const HEADROOM: real := 2.5

  /** The stream receives every filtered sample at half amplitude. */
  const OUTPUT_GAIN: real := 0.5

  /** The computed state after a block of samples, with the filtered samples produced. */
  datatype Frame = Frame(voices: seq<Voice>, filters: seq<Filter>, out: seq<real>)

  /** One sample of the audio callback: mix and advance the active voices, divide by
      the headroom, and run the result through the filter chain. */
  function Step(t: Trig, w: WaveType, r: Frame): (s: Frame)
    ensures |s.voices| == |r.voices| && |s.filters| == |r.filters| && |s.out| == |r.out| + 1
  {
    var x := Mix(t, w, r.voices) / HEADROOM;
    Frame(AdvanceActive(r.voices), ChainState(r.filters, x), r.out + [ChainOut(r.filters, x)])
  }

  /** A sample keeps which keys sound, the voice invariant, and every filter's design. */
  lemma StepKeeps(t: Trig, w: WaveType, r: Frame)
    ensures Slots(Step(t, w, r).voices) == Slots(r.voices)
    ensures VoicesOk(r.voices) ==> VoicesOk(Step(t, w, r).voices)
    ensures FiltersOk(r.filters, t) ==> FiltersOk(Step(t, w, r).filters, t)
  {
    AdvanceActiveSlots(r.voices);
    if VoicesOk(r.voices) {
      AdvanceActiveOk(r.voices);
    }
    if FiltersOk(r.filters, t) {
      ChainKeepsDesign(r.filters, Mix(t, w, r.voices) / HEADROOM, t);
    }
  }

  /** n samples of the audio callback. */
  function Render(t: Trig, w: WaveType, vs: seq<Voice>, fs: seq<Filter>, n: nat): (r: Frame)
    ensures |r.out| == n && |r.voices| == |vs| && |r.filters| == |fs|
    decreases n
  {
    if n == 0 then Frame(vs, fs, []) else Step(t, w, Render(t, w, vs, fs, n - 1))
  }

  /** Audio never changes which keys sound, keeps the voice invariant, and keeps every
      filter's design. */
  lemma {:induction false} RenderKeeps(t: Trig, w: WaveType, vs: seq<Voice>, fs: seq<Filter>, n: nat)
    ensures Slots(Render(t, w, vs, fs, n).voices) == Slots(vs)
    ensures VoicesOk(vs) ==> VoicesOk(Render(t, w, vs, fs, n).voices)
    ensures FiltersOk(fs, t) ==> FiltersOk(Render(t, w, vs, fs, n).filters, t)
    decreases n
  {
    if n > 0 {
      RenderKeeps(t, w, vs, fs, n - 1);
      StepKeeps(t, w, Render(t, w, vs, fs, n - 1));
    }
  }

  /** The output is a stream: rendering more samples extends the earlier output. */
  lemma RenderPrefix(t: Trig, w: WaveType, vs: seq<Voice>, fs: seq<Filter>, m: nat, n: nat)
    requires m <= n
    ensures Render(t, w, vs, fs, n).out[..m] == Render(t, w, vs, fs, m).out
  {
    forall k: nat ensures Render(t, w, vs, fs, k + 1).out[..k] == Render(t, w, vs, fs, k).out {
      RenderExtends(t, w, vs, fs, k);
    }
    StreamPrefix((k: nat) => Render(t, w, vs, fs, k).out, m, n);
  }

  /** One more sample extends the output by one. */
  lemma RenderExtends(t: Trig, w: WaveType, vs: seq<Voice>, fs: seq<Filter>, n: nat)
    ensures Render(t, w, vs, fs, n + 1).out[..n] == Render(t, w, vs, fs, n).out
  {
    var r := Render(t, w, vs, fs, n);
    assert Render(t, w, vs, fs, n + 1) == Step(t, w, r);
    var x := Mix(t, w, r.voices) / HEADROOM;
    assert (r.out + [ChainOut(r.filters, x)])[..n] == r.out;
  }

  /** A silent sample: no voice sounding and every filter at rest output zero and change nothing. */
  lemma StepSilent(t: Trig, w: WaveType, r: Frame)
    requires forall i :: 0 <= i < |r.voices| ==> !r.voices[i].active
    requires forall j :: 0 <= j < |r.filters| ==> AtRest(r.filters[j])
    ensures Step(t, w, r) == Frame(r.voices, r.filters, r.out + [0.0])
  {
    MixSilent(t, w, r.voices);
    assert Mix(t, w, r.voices) / HEADROOM == 0.0;
    ChainAtRest(r.filters);
  }

  /** With no voice sounding and every filter at rest, a block is all zeros and leaves
      voices and filters as they were. */
  lemma {:induction false} RenderSilent(t: Trig, w: WaveType, vs: seq<Voice>, fs: seq<Filter>, n: nat)
    requires forall i :: 0 <= i < |vs| ==> !vs[i].active
    requires forall j :: 0 <= j < |fs| ==> AtRest(fs[j])
    ensures Render(t, w, vs, fs, n) == Frame(vs, fs, seq(n, _ => 0.0))
    decreases n
  {
    if n > 0 {
      RenderSilent(t, w, vs, fs, n - 1);
      var r := Render(t, w, vs, fs, n - 1);
      assert r == Frame(vs, fs, seq(n - 1, _ => 0.0));
      assert Render(t, w, vs, fs, n) == Step(t, w, r);
      StepSilent(t, w, r);
      assert Step(t, w, r) == Frame(vs, fs, seq(n - 1, _ => 0.0) + [0.0]);
      assert seq(n - 1, _ => 0.0) + [0.0] == seq(n, _ => 0.0);
    }
  }

  /** Without filters the sample a step appends is the mix over the headroom, bounded
      by the number of active voices over the headroom. */
  lemma StepDry(t: Trig, w: WaveType, r: Frame)
    requires r.filters == [] && Sane(t) && VoicesOk(r.voices)
    ensures Step(t, w, r).filters == [] && Step(t, w, r).out == r.out + [Mix(t, w, r.voices) / HEADROOM]
    ensures -(ActiveCount(r.voices) as real) / HEADROOM <= Mix(t, w, r.voices) / HEADROOM
    ensures Mix(t, w, r.voices) / HEADROOM <= ActiveCount(r.voices) as real / HEADROOM
  {
    MixBounded(t, w, r.voices);
    WithinHeadroom(ActiveCount(r.voices) as real, Mix(t, w, r.voices));
  }

  /** Without filters every sample is the scaled mix, bounded by the number of active
      voices over the headroom (8 / 2.5 = 3.2 with a full pool). */
  lemma RenderDryBound(t: Trig, w: WaveType, vs: seq<Voice>, n: nat, k: int)
    requires Sane(t) && VoicesOk(vs) && 0 <= k < n
    ensures -(ActiveCount(vs) as real) / HEADROOM <= Render(t, w, vs, [], n).out[k]
    ensures Render(t, w, vs, [], n).out[k] <= ActiveCount(vs) as real / HEADROOM
  {
    RenderPrefix(t, w, vs, [], k + 1, n);
    assert Render(t, w, vs, [], n).out[k] == Render(t, w, vs, [], k + 1).out[k];
    RenderDryLast(t, w, vs, k);
  }

  /** The bound for the last sample of a block without filters. */
  lemma RenderDryLast(t: Trig, w: WaveType, vs: seq<Voice>, k: nat)
    requires Sane(t) && VoicesOk(vs)
    ensures -(ActiveCount(vs) as real) / HEADROOM <= Render(t, w, vs, [], k + 1).out[k]
    ensures Render(t, w, vs, [], k + 1).out[k] <= ActiveCount(vs) as real / HEADROOM
  {
    var r := Render(t, w, vs, [], k);
    RenderKeeps(t, w, vs, [], k);
    SlotsSameCount(vs, r.voices);
    StepDry(t, w, r);
  }

  /** The number of active voices depends only on the slots. */
  lemma SlotsSameCount(vs: seq<Voice>, ws: seq<Voice>)
    requires Slots(vs) == Slots(ws)
    ensures ActiveCount(vs) == ActiveCount(ws)
  {
    assert forall i :: 0 <= i < |vs| ==> vs[i].active == ws[i].active by {
      assert forall i :: 0 <= i < |vs| ==> Slots(vs)[i] == Slots(ws)[i];
    }
    ActiveCountSame(vs, ws);
  }

  lemma WithinHeadroom(a: real, x: real)
    requires -a <= x <= a
    ensures -a / HEADROOM <= x / HEADROOM <= a / HEADROOM
  {
  }

  /** The voices after the note-on part of the key-down handler: the chosen voice is
      bound to key at freq and becomes active; its phase is kept, no other voice changes. */
  function VoiceOn(vs: seq<Voice>, key: Keycode, freq: real): (r: seq<Voice>)
    requires |vs| > 0
    ensures |r| == |vs|
    ensures Slots(r) == Pool.NoteOn(Slots(vs), key)
    ensures var v := Pool.Choose(Slots(vs), key);
      r[v] == Voice(true, key, freq, vs[v].phase) && forall j :: 0 <= j < |vs| && j != v ==> r[j] == vs[j]
  {
    var v := Pool.Choose(Slots(vs), key);
    var r := vs[v := vs[v].(active := true, key := key, freq := freq)];
    assert Slots(r) == Pool.NoteOn(Slots(vs), key);
    r
  }

  /** Note-on keeps the voice invariant for a frequency a layout can produce. */
  lemma VoiceOnOk(vs: seq<Voice>, key: Keycode, freq: real)
    requires |vs| > 0 && VoicesOk(vs) && 0.0 <= freq <= MAX_NOTE_FREQ
    ensures VoicesOk(VoiceOn(vs, key, freq))
    ensures Pool.IsActive(Slots(VoiceOn(vs, key, freq)), key)
  {
    Pool.NoteOnKeepsUnique(Slots(vs), key);
    var v := Pool.Choose(Slots(vs), key);
    assert Pool.Holds(Slots(VoiceOn(vs, key, freq))[v], key);
  }

  /** The voices after a key-down: for a key of the layout, note-on with that key's
      frequency; any other key changes nothing. */
  function Pressed(vs: seq<Voice>, km: seq<KeyNote>, sym: Keycode): (r: seq<Voice>)
    requires |vs| > 0
    ensures IndexOf(km, sym) < 0 ==> r == vs
    ensures IndexOf(km, sym) >= 0 ==> r == VoiceOn(vs, sym, km[IndexOf(km, sym)].freq)
    ensures IndexOf(km, sym) >= 0 ==> Pool.IsActive(Slots(r), sym)
  {
    var i := IndexOf(km, sym);
    if i < 0 then vs
    else
      assert Pool.IsActive(Slots(VoiceOn(vs, sym, km[i].freq)), sym) by {
        var v := Pool.Choose(Slots(vs), sym);
        assert Pool.Holds(Slots(VoiceOn(vs, sym, km[i].freq))[v], sym);
      }
      VoiceOn(vs, sym, km[i].freq)
  }

  /** A key-down keeps the voice invariant when the layout is playable. */
  lemma PressedOk(vs: seq<Voice>, km: seq<KeyNote>, sym: Keycode)
    requires |vs| > 0 && VoicesOk(vs) && Playable(km)
    ensures VoicesOk(Pressed(vs, km, sym))
  {
    var i := IndexOf(km, sym);
    if i >= 0 {
      PlayableBounded(km, i);
      VoiceOnOk(vs, sym, km[i].freq);
    }
  }

  /** The voices after the release loop for key: the first active voice on key, if
      any, becomes inactive with frequency and phase kept. */
  function VoiceOff(vs: seq<Voice>, key: Keycode): (r: seq<Voice>)
    ensures |r| == |vs|
    ensures Slots(r) == Pool.NoteOff(Slots(vs), key)
    ensures forall j :: 0 <= j < |vs| ==> r[j] == vs[j] || r[j] == vs[j].(active := false)
  {
    Pool.IsActiveIffFound(Slots(vs), key);
    var v := Pool.Find(Slots(vs), key);
    var r := if v < 0 then vs else vs[v := vs[v].(active := false)];
    assert Slots(r) == Pool.NoteOff(Slots(vs), key);
    r
  }

  /** Releasing keeps the voice invariant, silences the key, and a second release of
      the same key changes nothing. */
  lemma VoiceOffProps(vs: seq<Voice>, key: Keycode)
    requires VoicesOk(vs)
    ensures VoicesOk(VoiceOff(vs, key))
    ensures !Pool.IsActive(Slots(VoiceOff(vs, key)), key)
    ensures VoiceOff(VoiceOff(vs, key), key) == VoiceOff(vs, key)
  {
    var r := VoiceOff(vs, key);
    Pool.NoteOffKeepsUnique(Slots(vs), key);
    Pool.NoteOffActiveKeys(Slots(vs), key);
    Pool.IsActiveIffFound(Slots(r), key);
  }

  /** The voices after a key-up: for a key of the layout the key is released, any other
      key changes nothing. */
  function Released(vs: seq<Voice>, km: seq<KeyNote>, sym: Keycode): (r: seq<Voice>)
    ensures IndexOf(km, sym) < 0 ==> r == vs
    ensures IndexOf(km, sym) >= 0 ==> r == VoiceOff(vs, sym)
  {
    if IndexOf(km, sym) < 0 then vs else VoiceOff(vs, sym)
  }

  // The steps of the filter edit keys.
  const CUTOFF_STEP: real := 100.0
  const CUTOFF_DOWN_GUARD: real := 50.0
  const RES_STEP: real := 0.05

  /** The selected filter after an edit key: Q cycles the type, UP raises the cutoff by
      100 Hz, DOWN lowers it by 100 Hz while it is above 50 Hz, RIGHT raises the
      resonance by 0.05, LEFT lowers it while it is positive; each edit is followed by
      the clamps and the redesign. Every other key leaves the filter alone. */
  function Edited(f: Filter, sym: Keycode, t: Trig): (g: Filter)
    requires FilterTrig(t)
    ensures sym != KEY_Q && sym != KEY_UP && sym != KEY_DOWN && sym != KEY_RIGHT && sym != KEY_LEFT ==> g == f
    ensures g.x1 == f.x1 && g.x2 == f.x2 && g.y1 == f.y1 && g.y2 == f.y2
  {
    if sym == KEY_Q then Update(f.(ftype := NextType(f.ftype)), t)
    else if sym == KEY_UP then Update(f.(cutoff := f.cutoff + CUTOFF_STEP), t)
    else if sym == KEY_DOWN && f.cutoff > CUTOFF_DOWN_GUARD then Update(f.(cutoff := f.cutoff - CUTOFF_STEP), t)
    else if sym == KEY_RIGHT then Update(f.(res := f.res + RES_STEP), t)
    else if sym == KEY_LEFT && f.res > 0.0 then Update(f.(res := f.res - RES_STEP), t)
    else f
  }

  /** Every edit keeps a designed filter designed. */
  lemma EditedKeepsDesign(f: Filter, sym: Keycode, t: Trig)
    requires Designed(f, t)
    ensures Designed(Edited(f, sym, t), t)
  {
  }

  /** UP then DOWN restores a designed filter whose raised cutoff stays under the ceiling. */
  lemma CutoffRoundTrip(f: Filter, t: Trig)
    requires Designed(f, t) && f.cutoff + CUTOFF_STEP <= CUTOFF_MAX as real
    ensures Edited(Edited(f, KEY_UP, t), KEY_DOWN, t) == f
  {
    var g := Edited(f, KEY_UP, t);
    assert g.cutoff == f.cutoff + CUTOFF_STEP;
    assert g.cutoff - CUTOFF_STEP == f.cutoff;
  }

  /** RIGHT then LEFT restores a designed filter. */
  lemma ResRoundTrip(f: Filter, t: Trig)
    requires Designed(f, t)
    ensures Edited(Edited(f, KEY_RIGHT, t), KEY_LEFT, t) == f
  {
    var g := Edited(f, KEY_RIGHT, t);
    assert g.res == f.res + RES_STEP;
    assert g.res - RES_STEP == f.res;
  }

  /** Four presses of Q restore a designed filter. */
  lemma TypeCycle(f: Filter, t: Trig)
    requires Designed(f, t)
    ensures Edited(Edited(Edited(Edited(f, KEY_Q, t), KEY_Q, t), KEY_Q, t), KEY_Q, t) == f
  {
    NextTypeCycle(f.ftype);
  }

  /** The filters are designed for the math library. */
  ghost predicate FiltersOk(fs: seq<Filter>, t: Trig)
  {
    forall j :: 0 <= j < |fs| ==> Designed(fs[j], t)
  }

  /** Replacing one filter by a designed one keeps the filters designed. */
  lemma FiltersOkUpdate(fs: seq<Filter>, j: int, g: Filter, t: Trig)
    requires FiltersOk(fs, t) && 0 <= j < |fs| && Designed(g, t)
    ensures FiltersOk(fs[j := g], t)
  {
  }

  /** Removing a filter keeps the others designed. */
  lemma FiltersOkRemove(fs: seq<Filter>, i: int, t: Trig)
    requires FiltersOk(fs, t) && 0 <= i < |fs|
    ensures FiltersOk(RemoveAt(fs, i), t)
  {
  }

  /** The global state of the subtractive program. */
  class Synth {
    const trig: Trig
    const voices: array<Voice>
    const filters: array<Filter>
    const keymap: Keymap
    const scope: WaveVis
    var wave: WaveType
    var filterCount: int
    var selected: int

    ghost predicate Valid()
      reads this, voices, filters, keymap, keymap.notes, scope
    {
      && FilterTrig(trig)
      && voices.Length == Pool.MAX_VOICES && filters.Length == MAX_FILTERS
      && keymap.Valid() && scope.Valid()
      && 0 <= filterCount <= MAX_FILTERS && SelectionOk(selected, filterCount)
      && VoicesOk(voices[..])
      && FiltersOk(filters[..filterCount], trig)
    }

    /** The zero-initialised globals followed by init_voices. */
    constructor (t: Trig)
      requires FilterTrig(t)
      ensures Valid()
      ensures fresh(voices) && fresh(filters) && fresh(keymap) && fresh(keymap.notes) && fresh(scope) && fresh(scope.vis)
      ensures trig == t && voices[..] == seq(Pool.MAX_VOICES, _ => SILENT_VOICE)
      ensures filterCount == 0 && selected == -1 && wave == WaveSaw
      ensures keymap.notes[..] == INITIAL_KEYMAP && scope.pos == 0
    {
      trig := t;
      voices := new Voice[Pool.MAX_VOICES](_ => SILENT_VOICE);
      filters := new Filter[MAX_FILTERS](_ => ZERO_FILTER);
      keymap := new Keymap();
      scope := new WaveVis();
      wave := WaveSaw;
      filterCount := 0;
      selected := -1;
      new;
      InitVoices();
      assert voices[..] == seq(Pool.MAX_VOICES, _ => SILENT_VOICE);
    }

    /** init_voices: every voice inactive, nothing else changed. */
    method InitVoices()
      requires voices.Length == Pool.MAX_VOICES
      modifies voices
      ensures forall i :: 0 <= i < voices.Length ==> voices[i] == old(voices[i]).(active := false)
      ensures VoicesOk(old(voices[..])) ==> VoicesOk(voices[..])
      ensures forall key :: !Pool.IsActive(Slots(voices[..]), key)
    {
      var i := 0;
      while i < voices.Length
        invariant 0 <= i <= voices.Length
        invariant forall j :: 0 <= j < i ==> voices[j] == old(voices[j]).(active := false)
        invariant forall j :: i <= j < voices.Length ==> voices[j] == old(voices[j])
      {
        voices[i] := voices[i].(active := false);
        i := i + 1;
      }
    }

    /** find_voice. */
    method FindVoice(key: Keycode) returns (i: int)
      requires voices.Length == Pool.MAX_VOICES
      ensures i == Pool.Find(Slots(voices[..]), key)
    {
      i := 0;
      while i < voices.Length
        invariant 0 <= i <= voices.Length
        invariant forall j :: 0 <= j < i ==> !(voices[j].active && voices[j].key == key)
      {
        if voices[i].active && voices[i].key == key {
          return;
        }
        i := i + 1;
      }
      i := -1;
    }

    /** alloc_voice. */
    method AllocVoice() returns (i: int)
      requires voices.Length == Pool.MAX_VOICES
      ensures i == Pool.Alloc(Slots(voices[..]))
    {
      i := 0;
      while i < voices.Length
        invariant 0 <= i <= voices.Length
        invariant forall j :: 0 <= j < i ==> voices[j].active
      {
        if !voices[i].active {
          return;
        }
        i := i + 1;
      }
      i := 0;
    }

    /** is_key_active, which the keyboard drawing uses. */
    method IsKeyActive(key: Keycode) returns (b: bool)
      requires voices.Length == Pool.MAX_VOICES
      ensures b == Pool.IsActive(Slots(voices[..]), key)
    {
      var i := 0;
      while i < voices.Length
        invariant 0 <= i <= voices.Length
        invariant forall j :: 0 <= j < i ==> !(voices[j].active && voices[j].key == key)
      {
        if voices[i].active && voices[i].key == key {
          assert Pool.Holds(Slots(voices[..])[i], key);
          return true;
        }
        i := i + 1;
      }
      return false;
    }

    /** The note-on loop of the key-down handler: the first layout entry for sym, if any,
        is played on the voice already holding the key, else on a free voice, else on voice 0. */
    method PressKey(sym: Keycode)
      requires Valid()
      modifies voices
      ensures Valid()
      ensures voices[..] == Pressed(old(voices[..]), keymap.notes[..], sym)
    {
      PressedOk(voices[..], keymap.notes[..], sym);
      var i := keymap.Find(sym);
      if i >= 0 {
        var key, freq := keymap.notes[i].key, keymap.notes[i].freq;
        var v := FindVoice(key);
        if v < 0 {
          v := AllocVoice();
        }
        Pool.IsActiveIffFound(Slots(voices[..]), key);
        voices[v] := voices[v].(active := true, key := key, freq := freq);
      }
    }

    /** The inner loop of the key-up handler: the first active voice on key becomes inactive. */
    method ReleaseVoice(key: Keycode)
      requires Valid()
      modifies voices
      ensures Valid()
      ensures voices[..] == VoiceOff(old(voices[..]), key)
    {
      ghost var vs := voices[..];
      VoiceOffProps(vs, key);
      var i := 0;
      while i < voices.Length
        invariant 0 <= i <= voices.Length && voices[..] == vs
        invariant forall j :: 0 <= j < i ==> !(voices[j].active && voices[j].key == key)
      {
        if voices[i].active && voices[i].key == key {
          assert Pool.Find(Slots(vs), key) == i by {
            assert Pool.Holds(Slots(vs)[i], key);
          }
          voices[i] := voices[i].(active := false);
          return;
        }
        i := i + 1;
      }
    }

    /** The key-up handler: one release per layout entry whose key is sym; with unique
        keys that is a single release. */
    method ReleaseKey(sym: Keycode)
      requires Valid()
      modifies voices
      ensures Valid()
      ensures voices[..] == Released(old(voices[..]), keymap.notes[..], sym)
    {
      ghost var vs := voices[..];
      VoiceOffProps(vs, sym);
      var i := 0;
      while i < keymap.notes.Length
        invariant 0 <= i <= keymap.notes.Length
        invariant Valid()
        invariant voices[..] == if exists j :: 0 <= j < i && keymap.notes[j].key == sym then VoiceOff(vs, sym) else vs
      {
        if keymap.notes[i].key == sym {
          ReleaseVoice(sym);
        }
        i := i + 1;
      }
      ghost var idx := IndexOf(keymap.notes[..], sym);
      if idx >= 0 {
        assert keymap.notes[idx].key == sym;
      }
    }

    /** add_filter: when there is room, append the designed 800 Hz low-pass at rest and select it. */
    method AddFilter()
      requires Valid()
      modifies filters, this`filterCount, this`selected
      ensures Valid()
      ensures old(filterCount) >= MAX_FILTERS ==>
        filters[..] == old(filters[..]) && filterCount == old(filterCount) && selected == old(selected)
      ensures old(filterCount) < MAX_FILTERS ==>
        && filters[..] == old(filters[..])[old(filterCount) := NewFilter(trig)]
        && selected == old(filterCount) && filterCount == old(filterCount) + 1
    {
      if filterCount >= MAX_FILTERS {
        return;
      }
      var f := filters[filterCount];
      f := f.(ftype := LPF, cutoff := NEW_CUTOFF, res := NEW_RES);
      f := f.(x1 := 0.0, x2 := 0.0, y1 := 0.0, y2 := 0.0);
      UpdateIgnoresCoeffs(f, ZERO_FILTER.(cutoff := NEW_CUTOFF, res := NEW_RES), trig);
      filters[filterCount] := Update(f, trig);
      selected := filterCount;
      filterCount := filterCount + 1;
      assert filters[..filterCount] == old(filters[..filterCount]) + [NewFilter(trig)];
    }

    /** remove_filter: an index outside the filters in use changes nothing; otherwise the
        later filters shift down one place, the count drops and the selection is kept
        inside the bank. The slot at the old end keeps its stale entry. */
    method RemoveFilter(index: int)
      requires Valid()
      modifies filters, this`filterCount, this`selected
      ensures Valid()
      ensures !(0 <= index < old(filterCount)) ==>
        filters[..] == old(filters[..]) && filterCount == old(filterCount) && selected == old(selected)
      ensures 0 <= index < old(filterCount) ==>
        && filterCount == old(filterCount) - 1
        && filters[..] == RemoveAt(old(filters[..filterCount]), index) + old(filters[filterCount - 1..])
        && selected == SelectedAfterRemove(old(selected), filterCount)
    {
      if index < 0 || index >= filterCount {
        return;
      }
      ghost var fs := filters[..filterCount];
      ShiftDown(index, filterCount);
      filterCount := filterCount - 1;
      selected := SelectedAfterRemove(selected, filterCount);
      FiltersOkRemove(fs, index, trig);
      assert filters[..filterCount] == RemoveAt(fs, index);
    }

    /** The shift loop of remove_filter: the filters after index move down one slot;
        the last slot in use keeps its value. */
    method ShiftDown(index: int, count: int)
      requires filters.Length == MAX_FILTERS && 0 <= index < count <= filters.Length
      modifies filters
      ensures filters[..] == RemoveAt(old(filters[..count]), index) + old(filters[count - 1..])
    {
      ghost var fs := filters[..];
      var i := index;
      while i != count - 1
        invariant index <= i <= count - 1
        invariant forall j :: 0 <= j < index ==> filters[j] == fs[j]
        invariant forall j :: index <= j < i ==> filters[j] == fs[j + 1]
        invariant forall j :: i <= j < filters.Length ==> filters[j] == fs[j]
      {
        filters[i] := filters[i + 1];
        i := i + 1;
      }
      assert filters[..] == RemoveAt(fs[..count], index) + fs[count - 1..];
    }

    /** The edit keys applied to a filter: the sequence of tests of the handler, each
        edit followed by update_filter. */
    method EditFilter(f: Filter, sym: Keycode) returns (g: Filter)
      requires FilterTrig(trig)
      ensures g == Edited(f, sym, trig)
    {
      g := f;
      if sym == KEY_Q {
        g := Update(g.(ftype := NextType(g.ftype)), trig);
      }
      if sym == KEY_UP {
        g := Update(g.(cutoff := g.cutoff + CUTOFF_STEP), trig);
      }
      if sym == KEY_DOWN && g.cutoff > CUTOFF_DOWN_GUARD {
        g := Update(g.(cutoff := g.cutoff - CUTOFF_STEP), trig);
      }
      if sym == KEY_RIGHT {
        g := Update(g.(res := g.res + RES_STEP), trig);
      }
      if sym == KEY_LEFT && g.res > 0.0 {
        g := Update(g.(res := g.res - RES_STEP), trig);
      }
    }

    /** The filter part of the key-down handler: with a filter selected, the edit keys
        change it and BACKSPACE removes it. */
    method EditSelected(sym: Keycode)
      requires Valid()
      modifies filters, this`filterCount, this`selected
      ensures Valid()
      ensures old(selected) < 0 ==>
        filters[..] == old(filters[..]) && filterCount == old(filterCount) && selected == old(selected)
      ensures old(selected) >= 0 && sym != KEY_BACKSPACE ==>
        && filters[..] == old(filters[..])[old(selected) := Edited(old(filters[selected]), sym, trig)]
        && filterCount == old(filterCount) && selected == old(selected)
      ensures old(selected) >= 0 && sym == KEY_BACKSPACE ==>
        && filterCount == old(filterCount) - 1
        && filters[..] == RemoveAt(old(filters[..filterCount]), old(selected)) + old(filters[filterCount - 1..])
        && selected == SelectedAfterRemove(old(selected), filterCount)
    {
      if selected < 0 {
        return;
      }
      EditInPlace(sym);
      if sym == KEY_BACKSPACE {
        RemoveFilter(selected);
      }
    }

    /** The edit keys applied to the selected filter in place. */
    method EditInPlace(sym: Keycode)
      requires Valid() && selected >= 0
      modifies filters
      ensures Valid()
      ensures filters[..] == old(filters[..])[selected := Edited(old(filters[selected]), sym, trig)]
    {
      ghost var fs := filters[..filterCount];
      var f := EditFilter(filters[selected], sym);
      EditedKeepsDesign(filters[selected], sym, trig);
      FiltersOkUpdate(fs, selected, f, trig);
      filters[selected] := f;
      assert filters[..filterCount] == fs[selected := f];
    }

    /** The key-down handler, in its order: '=' adds a filter, TAB cycles the waveform,
        1 and 2 transpose the layout, a layout key plays a note, and the remaining keys
        edit the selected filter. */
    method KeyDown(sym: Keycode)
      requires Valid()
      modifies this`wave, this`filterCount, this`selected, voices, filters, keymap.notes
      ensures Valid()
      ensures wave == if sym == KEY_TAB then NextWave(old(wave)) else old(wave)
      ensures keymap.notes[..] == Transposed(old(keymap.notes[..]), sym)
      ensures voices[..] == Pressed(old(voices[..]), keymap.notes[..], sym)
      ensures sym == KEY_EQUALS && old(filterCount) >= MAX_FILTERS ==>
        filters[..] == old(filters[..]) && filterCount == old(filterCount) && selected == old(selected)
      ensures sym == KEY_EQUALS && old(filterCount) < MAX_FILTERS ==>
        && filters[..] == old(filters[..])[old(filterCount) := NewFilter(trig)]
        && selected == old(filterCount) && filterCount == old(filterCount) + 1
      ensures sym != KEY_EQUALS && old(selected) < 0 ==>
        filters[..] == old(filters[..]) && filterCount == old(filterCount) && selected == old(selected)
      ensures sym != KEY_EQUALS && old(selected) >= 0 && sym != KEY_BACKSPACE ==>
        && filters[..] == old(filters[..])[old(selected) := Edited(old(filters[selected]), sym, trig)]
        && filterCount == old(filterCount) && selected == old(selected)
      ensures sym != KEY_EQUALS && old(selected) >= 0 && sym == KEY_BACKSPACE ==>
        && filterCount == old(filterCount) - 1
        && filters[..] == RemoveAt(old(filters[..filterCount]), old(selected)) + old(filters[filterCount - 1..])
        && selected == SelectedAfterRemove(old(selected), filterCount)
    {
      if sym == KEY_EQUALS {
        AddFilter();
      }
      ghost var fs, sel := filters[..], selected;
      PlayAndEdit(sym);
      if sym == KEY_EQUALS && sel >= 0 {
        assert fs[sel := Edited(fs[sel], sym, trig)] == fs;
      }
    }

    /** The key-down handler after its '=' test: the keys of `PlayKeys`, then the edit
        keys on the selected filter. */
    method PlayAndEdit(sym: Keycode)
      requires Valid()
      modifies this`wave, this`filterCount, this`selected, voices, filters, keymap.notes
      ensures Valid()
      ensures wave == if sym == KEY_TAB then NextWave(old(wave)) else old(wave)
      ensures keymap.notes[..] == Transposed(old(keymap.notes[..]), sym)
      ensures voices[..] == Pressed(old(voices[..]), keymap.notes[..], sym)
      ensures old(selected) < 0 ==>
        filters[..] == old(filters[..]) && filterCount == old(filterCount) && selected == old(selected)
      ensures old(selected) >= 0 && sym != KEY_BACKSPACE ==>
        && filters[..] == old(filters[..])[old(selected) := Edited(old(filters[selected]), sym, trig)]
        && filterCount == old(filterCount) && selected == old(selected)
      ensures old(selected) >= 0 && sym == KEY_BACKSPACE ==>
        && filterCount == old(filterCount) - 1
        && filters[..] == RemoveAt(old(filters[..filterCount]), old(selected)) + old(filters[filterCount - 1..])
        && selected == SelectedAfterRemove(old(selected), filterCount)
    {
      ghost var fs, n, sel := filters[..], filterCount, selected;
      PlayKeys(sym);
      assert filters[..] == fs && filterCount == n && selected == sel;
      EditSelected(sym);
    }

    /** The middle of the key-down handler: TAB cycles the waveform, 1 and 2 transpose
        the layout, and a layout key plays its note. No filter is touched. */
    method PlayKeys(sym: Keycode)
      requires Valid()
      modifies this`wave, voices, keymap.notes
      ensures Valid()
      ensures wave == if sym == KEY_TAB then NextWave(old(wave)) else old(wave)
      ensures keymap.notes[..] == Transposed(old(keymap.notes[..]), sym)
      ensures voices[..] == Pressed(old(voices[..]), keymap.notes[..], sym)
    {
      if sym == KEY_TAB {
        wave := NextWave(wave);
      }
      keymap.OctaveKey(sym);
      PressKey(sym);
    }

    /** The mouse-button handler: a click on the add button adds a filter, a click on a
        row of the filter list selects that filter. */
    method Click(x: int, y: int)
      requires Valid()
      modifies filters, this`filterCount, this`selected
      ensures Valid()
      ensures !OnAddButton(x, y) || old(filterCount) >= MAX_FILTERS ==>
        && filters[..] == old(filters[..]) && filterCount == old(filterCount)
        && selected == ClickSelect(old(selected), filterCount, y)
      ensures OnAddButton(x, y) && old(filterCount) < MAX_FILTERS ==>
        && filters[..] == old(filters[..])[old(filterCount) := NewFilter(trig)]
        && filterCount == old(filterCount) + 1
        && selected == ClickSelect(old(filterCount), filterCount, y)
    {
      if OnAddButton(x, y) {
        AddFilter();
      }
      ghost var sel, fs, count := selected, filters[..], filterCount;
      var i := 0;
      while i < filterCount
        invariant 0 <= i <= filterCount
        invariant filters[..] == fs && filterCount == count
        invariant selected == ClickSelect(sel, i, y)
      {
        RowUnderSpec(y, i);
        if LIST_TOP + i * ROW_PITCH < y < LIST_TOP + i * ROW_PITCH + ROW_HEIGHT {
          selected := i;
        }
        i := i + 1;
      }
    }

    /** gen_voice: advance voice v by one sample and return its waveform at the new phase. */
    method GenVoice(v: int) returns (s: real)
      requires voices.Length == Pool.MAX_VOICES && 0 <= v < voices.Length
      modifies voices
      ensures voices[..] == old(voices[..])[v := Advance(old(voices[v]))]
      ensures s == Waveform(trig, wave, voices[v].phase)
    {
      var p := voices[v].phase + Increment(voices[v].freq, SAMPLE_RATE as real);
      if p > TWO_PI {
        p := p - TWO_PI;
      }
      voices[v] := voices[v].(phase := p);
      s := Waveform(trig, wave, p);
    }

    /** process_filter on filter j: one step of the recurrence and the history shift. */
    method ProcessFilter(j: int, x: real) returns (y: real)
      requires filters.Length == MAX_FILTERS && 0 <= j < filters.Length
      modifies filters
      ensures filters[..] == old(filters[..])[j := Shifted(old(filters[j]), x)]
      ensures y == Output(old(filters[j]), x)
    {
      var f := filters[j];
      y := f.b0 * x + f.b1 * f.x1 + f.b2 * f.x2 - f.a1 * f.y1 - f.a2 * f.y2;
      assert y == Output(f, x);
      filters[j] := f.(x2 := f.x1, x1 := x, y2 := f.y1, y1 := y);
    }

    /** The voice loop of the audio callback: every active voice generates a sample,
        and the samples are summed. */
    method MixVoices() returns (s: real)
      requires voices.Length == Pool.MAX_VOICES
      modifies voices
      ensures voices[..] == AdvanceActive(old(voices[..]))
      ensures s == Mix(trig, wave, old(voices[..]))
    {
      ghost var vs := voices[..];
      s := 0.0;
      var v := 0;
      while v != voices.Length
        invariant 0 <= v <= voices.Length
        invariant voices[..v] == AdvanceActive(vs[..v])
        invariant forall j :: v <= j < voices.Length ==> voices[j] == vs[j]
        invariant s == Mix(trig, wave, vs[..v])
      {
        assert vs[..v + 1][..v] == vs[..v];
        if voices[v].active {
          var g := GenVoice(v);
          s := s + g;
        }
        assert voices[..v + 1] == voices[..v] + [voices[v]];
        v := v + 1;
      }
      assert vs[..v] == vs && voices[..v] == voices[..];
    }

    /** The filter loop of the audio callback: the sample runs through the filters in use in order. */
    method RunFilters(x: real) returns (y: real)
      requires filters.Length == MAX_FILTERS && 0 <= filterCount <= MAX_FILTERS
      modifies filters
      ensures filters[..filterCount] == ChainState(old(filters[..filterCount]), x)
      ensures filters[filterCount..] == old(filters[filterCount..])
      ensures y == ChainOut(old(filters[..filterCount]), x)
    {
      ghost var fs := filters[..filterCount];
      y := x;
      var f := 0;
      while f != filterCount
        invariant 0 <= f <= filterCount
        invariant filters[..f] == ChainState(fs[..f], x)
        invariant forall j :: f <= j < filters.Length ==> filters[j] == old(filters[j])
        invariant y == ChainOut(fs[..f], x)
      {
        assert fs[..f + 1][..f] == fs[..f];
        y := ProcessFilter(f, y);
        assert filters[..f + 1] == filters[..f] + [filters[f]];
        f := f + 1;
      }
      assert fs[..f] == fs;
    }

    /** The body of the sample loop of audio_callback up to the output: mix, headroom, filters. */
    method NextSample() returns (s: real)
      requires voices.Length == Pool.MAX_VOICES && filters.Length == MAX_FILTERS && 0 <= filterCount <= MAX_FILTERS
      modifies voices, filters
      ensures var x := Mix(trig, wave, old(voices[..])) / HEADROOM;
        && voices[..] == AdvanceActive(old(voices[..]))
        && filters[..filterCount] == ChainState(old(filters[..filterCount]), x)
        && filters[filterCount..] == old(filters[filterCount..])
        && s == ChainOut(old(filters[..filterCount]), x)
    {
      s := MixVoices();
      s := s / HEADROOM;
      s := RunFilters(s);
    }

    /** audio_callback for a block of `samples` floats: each sample is mixed, scaled down
        by the headroom, filtered, written to the stream at half amplitude and recorded
        at full amplitude in the oscilloscope buffer. */
    method AudioCallback(buf: array<real>, samples: int)
      requires Valid() && buf != scope.vis && 0 <= samples <= buf.Length
      modifies voices, filters, scope, scope.vis, buf
      ensures Valid()
      ensures var r := Render(trig, wave, old(voices[..]), old(filters[..filterCount]), samples);
        && voices[..] == r.voices
        && filters[..filterCount] == r.filters
        && filters[filterCount..] == old(filters[filterCount..])
        && buf[..samples] == Scaled(r.out, OUTPUT_GAIN)
        && buf[samples..] == old(buf[samples..])
        && scope.vis[..] == RingWrite(old(scope.vis[..]), old(scope.pos), r.out)
        && scope.pos == Cursor(old(scope.pos), samples)
    {
      ghost var vs, fs := voices[..], filters[..filterCount];
      FillBlock(buf, samples);
      RenderKeeps(trig, wave, vs, fs, samples);
    }

    /** The voices and the filters in use are those of frame r, and the unused filter
        slots hold rest. */
    ghost predicate Tracks(rest: seq<Filter>, r: Frame)
      reads this, voices, filters
    {
      && voices.Length == Pool.MAX_VOICES && filters.Length == MAX_FILTERS && 0 <= filterCount <= MAX_FILTERS
      && voices[..] == r.voices && filters[..filterCount] == r.filters && filters[filterCount..] == rest
    }

    /** The stream holds the samples of out at half amplitude followed by its earlier
        contents b0, and the oscilloscope buffer holds them at full amplitude written
        from cursor pos0 over its earlier contents vis0. */
    ghost predicate Shows(buf: array<real>, b0: seq<real>, vis0: seq<real>, pos0: int, out: seq<real>)
      reads scope, scope.vis, buf
    {
      && scope.Valid() && buf != scope.vis && |b0| == buf.Length && |out| <= buf.Length
      && |vis0| == WAVE_BUF && 0 <= pos0 < WAVE_BUF
      && buf[..] == Scaled(out, OUTPUT_GAIN) + b0[|out|..]
      && scope.vis[..] == RingWrite(vis0, pos0, out)
      && scope.pos == Cursor(pos0, |out|)
    }

    /** The samples of one block and their effect on the arrays. */
    method FillBlock(buf: array<real>, samples: int)
      requires voices.Length == Pool.MAX_VOICES && filters.Length == MAX_FILTERS && 0 <= filterCount <= MAX_FILTERS
      requires scope.Valid() && buf != scope.vis && 0 <= samples <= buf.Length
      modifies voices, filters, scope, scope.vis, buf
      ensures scope.Valid()
      ensures var r := Render(trig, wave, old(voices[..]), old(filters[..filterCount]), samples);
        && voices[..] == r.voices
        && filters[..filterCount] == r.filters
        && filters[filterCount..] == old(filters[filterCount..])
        && buf[..samples] == Scaled(r.out, OUTPUT_GAIN)
        && buf[samples..] == old(buf[samples..])
        && scope.vis[..] == RingWrite(old(scope.vis[..]), old(scope.pos), r.out)
        && scope.pos == Cursor(old(scope.pos), samples)
    {
      ghost var vs, fs, rest, vis0, pos0, b0 := voices[..], filters[..filterCount], filters[filterCount..], scope.vis[..], scope.pos, buf[..];
      assert buf[..] == Scaled([], OUTPUT_GAIN) + b0[0..];
      ghost var r := SampleLoop(buf, samples, b0, vis0, pos0, rest, wave, Frame(vs, fs, []));
      assert buf[..] == Scaled(r.out, OUTPUT_GAIN) + b0[samples..];
      assert buf[..samples] == Scaled(r.out, OUTPUT_GAIN);
    }

    /** The sample loop of audio_callback, from frame r0 with nothing output yet. */
    method SampleLoop(buf: array<real>, samples: int, ghost b0: seq<real>, ghost vis0: seq<real>, ghost pos0: int,
                      ghost rest: seq<Filter>, ghost w: WaveType, ghost r0: Frame) returns (ghost r: Frame)
      requires Tracks(rest, r0) && Shows(buf, b0, vis0, pos0, r0.out) && r0.out == [] && 0 <= samples <= buf.Length
      requires w == wave
      modifies voices, filters, scope, scope.vis, buf
      ensures r == Render(trig, w, r0.voices, r0.filters, samples)
      ensures Tracks(rest, r) && Shows(buf, b0, vis0, pos0, r.out)
    {
      r := r0;
      var i := 0;
      while i != samples
        invariant 0 <= i <= samples
        invariant Running(buf, b0, vis0, pos0, rest, w, r0.voices, r0.filters, r, i)
      {
        r := SampleStep(buf, i, b0, vis0, pos0, rest, w, r0.voices, r0.filters, r);
        i := i + 1;
      }
    }

    /** The state after i samples of a block started from voices vs and filters fs:
        the arrays track the frame after i samples, and the output buffers show it. */
    ghost predicate Running(buf: array<real>, b0: seq<real>, vis0: seq<real>, pos0: int, rest: seq<Filter>,
                            w: WaveType, vs: seq<Voice>, fs: seq<Filter>, r: Frame, i: nat)
      reads this, voices, filters, scope, scope.vis, buf
    {
      && w == wave && r == Render(trig, w, vs, fs, i)
      && Tracks(rest, r) && Shows(buf, b0, vis0, pos0, r.out)
    }

    /** One pass of the sample loop: compute sample i and output it. */
    method SampleStep(buf: array<real>, i: nat, ghost b0: seq<real>, ghost vis0: seq<real>, ghost pos0: int,
                      ghost rest: seq<Filter>, ghost w: WaveType, ghost vs: seq<Voice>, ghost fs: seq<Filter>, ghost r: Frame) returns (ghost r': Frame)
      requires Running(buf, b0, vis0, pos0, rest, w, vs, fs, r, i) && i < buf.Length
      modifies voices, filters, scope, scope.vis, buf
      ensures Running(buf, b0, vis0, pos0, rest, w, vs, fs, r', i + 1)
    {
      ghost var out := r.out;
      var s;
      r', s := Compute(rest, r, w, vs, fs, i);
      Record(buf, i, s, b0, vis0, pos0, out);
    }

    /** The computation of one sample: the voices and the filters in use move on from
        frame r, the frame after i samples, to the frame after i + 1 samples, whose last
        output is the sample. */
    method Compute(ghost rest: seq<Filter>, ghost r: Frame, ghost w: WaveType, ghost vs: seq<Voice>, ghost fs: seq<Filter>, ghost i: nat) returns (ghost r': Frame, s: real)
      requires Tracks(rest, r) && w == wave && r == Render(trig, w, vs, fs, i)
      modifies voices, filters
      ensures r' == Render(trig, w, vs, fs, i + 1) && r'.out == r.out + [s]
      ensures Tracks(rest, r')
    {
      s := NextSample();
      r' := Step(trig, w, r);
    }

    /** The output of sample s, the next after out: half amplitude into the stream at
        index i, full amplitude into the oscilloscope buffer at its cursor. */
    method Record(buf: array<real>, i: int, s: real, ghost b0: seq<real>, ghost vis0: seq<real>, ghost pos0: int, ghost out: seq<real>)
      requires Shows(buf, b0, vis0, pos0, out) && i == |out| < buf.Length
      modifies buf, scope, scope.vis
      ensures Shows(buf, b0, vis0, pos0, out + [s])
    {
      ScaledWrite(buf[..], b0, out, s, OUTPUT_GAIN);
      RingWriteSnoc(vis0, pos0, out, s);
      CursorMod(pos0, i);
      buf[i] := s * OUTPUT_GAIN;
      scope.Push(s);
    }
  }
}
