# Three SDL synthesizer demos, modelled in Dafny

The repository holds three small C programs. Each opens an SDL audio stream and
fills it from an audio callback, and each draws an oscilloscope of the last 1024
samples. The user plays and edits the sound from the keyboard and mouse.

- **Subtractive synth** (`true_subtractive_synth.c`, 44100 Hz). Up to eight
  naive-oscillator voices are played from a 16-key layout. The voices share
  one waveform (saw, square or triangle). The mix is divided by 2.5 and then
  runs through a series chain of up to five biquad filters. The filters are
  designed with the Audio EQ Cookbook formulas and edited with the arrow keys.
- **FM synth** (`fm_synth.c`, 44100 Hz). This has the same voice pool and
  layout. Every voice has its own waveform. One shared modulator `fm[0]` can
  be switched on. It then phase-modulates every active voice, with index β and
  a harmonic or inharmonic frequency ratio.
- **Additive synth** (`add_synth.c`, 22100 Hz). Up to eight free-running
  oscillators are added, each with its own waveform, frequency and amplitude.
  The sum is divided by their number. SPACE toggles playback.

## What is modelled

### Shared modules

These modules hold what the demos have in common:

- `Dsp` holds the phase accumulator (the increment 2π·f/SR with a single
  subtraction), the saw and triangle formulas, the value-grid predicate, the
  ring-buffer history and the stream-prefix principle.
- `Scope` holds the oscilloscope ring buffer as a class.
- `Keys` holds the keycodes and the keyboard layout as a class with
  octave up and octave down.
- `Pool` is the voice-pool specification: find, allocate, note-on and note-off
  on (active, key) slots.
- `Bank` holds the fixed-capacity bank with removal by shifting, the selection
  invariant and the click-to-select row geometry.
- `Biquad` holds filter design, the recurrence and the series chain.

### One module per demo

`Subtractive`, `FmSynth` and `Additive` each define:

- the pure meaning of one sample and of a block of samples (`Step`, `Render`);
- the key-edit functions and their invariants;
- a class `Synth` holding the program's globals as arrays and fields.

The class methods are the source's event handlers and audio callback. They
update the arrays in place with the source's loops. Each is proved against the
pure functions: the audio callback's stream buffer, oscilloscope buffer and
cursor equal what `Render` predicts. The invariants each handler keeps are
stated in the class predicate `Valid()`:

- the voice invariant (frequencies a layout can produce, phases within
  one turn, no key on two voices);
- designed and stable filters;
- a modulation index and ratio on their grids;
- oscillator frequencies and amplitudes on their grids;
- the selection invariant.

### Modelling choices

- **Math library.** The C functions `sin`, `cos` and `asin` are a parameter
  `Trig` of each synthesizer. The proofs assume only what `Dsp.Sane` states:
  sine and cosine lie in [−1, 1] with the Pythagorean identity, and arcsine
  lies in [−π/2, π/2]. The filter design needs more: sine positive and cosine
  strictly inside (−1, 1) on the angular frequencies a clamped cutoff reaches.
  That is `Biquad.FilterTrig`.
- **Numbers.** Floating-point values are modelled as exact reals.
  `SAMPLE_RATE / 2 - 100` is integer arithmetic, as in the source (21950).
- **Odd but faithful behaviours.** Three things the code does are kept,
  stated as lemmas rather than corrected:
  - FM: with the ratio at 2, E leads to 1/2, not 1. `FmSynth.RatioKeyRoundTrip`
    states the asymmetry. The source tests the updated ratio again in each
    later `if`, so the branch for ratio ≤ 1 fires at once after the first
    decrement.
  - Additive: there is no ceiling on the frequency. Phases stay within one
    turn only while the frequency stays at or below the sample rate.
    `Additive.InBand` and `Additive.RenderKeeps` state it that way.
  - Additive: the square wave is +1 where the sine is zero, unlike the other
    two demos.

## Model

| member | source | states |
|---|---|---|
| Dsp.PhaseStep | subtractive_synthesis/true_subtractive_synth.c:341-342 | the phase moves by the increment 2π·f/SR, less one turn when it passes 2π; a non-negative phase stays non-negative; a phase within [0, 2π] stays there while f ≤ SR (the same update as fm_synth.c:337-339 and add_synth.c:59-61) |
| Dsp.Saw | subtractive_synthesis/true_subtractive_synth.c:344-345 | the naive saw lies in [−1, 1] for a phase within one turn and runs from −1 at phase 0 to 1 at 2π |
| Dsp.SawIncreasing | subtractive_synthesis/true_subtractive_synth.c:344-345 | the saw is strictly increasing in the phase |
| Dsp.TriangleBounded | subtractive_synthesis/true_subtractive_synth.c:348-349 | asin(sin(phase))·2/π lies in [−1, 1] |
| Dsp.RingWrite | subtractive_synthesis/true_subtractive_synth.c:489-490 | the oscilloscope buffer after a block keeps its length 1024 |
| Dsp.Scaled | subtractive_synthesis/true_subtractive_synth.c:487 | every stream sample is the computed sample times the output gain |
| Dsp.RingWriteAt | subtractive_synthesis/true_subtractive_synth.c:489-490 | each of the last 1024 samples written sits at its cursor position (pos + i) mod 1024 |
| Dsp.RingWriteUntouched | subtractive_synthesis/true_subtractive_synth.c:489-490 | with fewer than 1024 samples written, the slots the cursor did not reach keep their old values |
| Dsp.StreamPrefix | subtractive_synthesis/true_subtractive_synth.c:472-492 | outputs that each extend the previous one by a sample extend every earlier output |
| Scope.WaveVis.constructor | subtractive_synthesis/true_subtractive_synth.c:74-75 | the zero-initialised buffer with the cursor at 0 |
| Scope.WaveVis.Push | subtractive_synthesis/true_subtractive_synth.c:489-490 | the sample lands at the old cursor, and the cursor advances modulo 1024 and stays in [0, 1024) |
| Scope.RingWriteSnoc | subtractive_synthesis/true_subtractive_synth.c:489-490 | one more sample extends the ring-buffer history by a write at (pos + n) mod 1024 |
| Scope.Cursor | subtractive_synthesis/true_subtractive_synth.c:490 | the cursor after n writes stays in [0, 1024) |
| Scope.CursorMod | subtractive_synthesis/true_subtractive_synth.c:490 | the cursor after n writes is (pos + n) mod 1024 |
| Keys.PlayableBounded | subtractive_synthesis/true_subtractive_synth.c:44-61 | every note of a playable layout lies in (0, 8800] Hz |
| Keys.InitialPlayable | subtractive_synthesis/true_subtractive_synth.c:44-61 | the initial 16-key layout (220 Hz to 523.3 Hz) is playable |
| Keys.Doubled | subtractive_synthesis/true_subtractive_synth.c:290-296 | octave_up doubles every note and keeps every key |
| Keys.Halved | subtractive_synthesis/true_subtractive_synth.c:298-304 | octave_down halves every note and keeps every key |
| Keys.OctaveRoundTrip | subtractive_synthesis/true_subtractive_synth.c:290-304 | octave up then down, and down then up, restore the layout |
| Keys.OctaveKeepsIntervals | subtractive_synthesis/true_subtractive_synth.c:290-304 | transposition keeps every frequency ratio between two keys |
| Keys.OctaveKeepsPlayable | subtractive_synthesis/true_subtractive_synth.c:168-171 | under the guards (lowest note below 1760 Hz for up, above 27.5 Hz for down) transposition keeps the layout playable |
| Keys.Transposed | subtractive_synthesis/true_subtractive_synth.c:168-171 | keys other than 1 and 2 leave the layout unchanged |
| Keys.TransposedPlayable | subtractive_synthesis/true_subtractive_synth.c:168-171 | the guarded octave keys keep the layout playable |
| Keys.IndexOf | subtractive_synthesis/true_subtractive_synth.c:173-176 | the first layout entry for the key, or −1 exactly when no entry has it |
| Keys.Keymap.constructor | subtractive_synthesis/true_subtractive_synth.c:44-63 | the layout array starts as the initial 16-key layout |
| Keys.Keymap.Find | subtractive_synthesis/true_subtractive_synth.c:173-176 | the search loop returns the first entry for the key, or −1 |
| Keys.Keymap.OctaveUp | subtractive_synthesis/true_subtractive_synth.c:290-296 | the loop doubles every entry in place; under the guard the layout stays playable |
| Keys.Keymap.OctaveDown | subtractive_synthesis/true_subtractive_synth.c:298-304 | the loop halves every entry in place; under the guard the layout stays playable |
| Keys.Keymap.OctaveKey | subtractive_synthesis/true_subtractive_synth.c:168-171 | the keys 1 and 2 with their guards transpose the layout as `Transposed` says and keep it playable |
| Pool.Find | subtractive_synthesis/true_subtractive_synth.c:313-319 | the first active voice on the key, or −1 exactly when none holds it |
| Pool.Alloc | subtractive_synthesis/true_subtractive_synth.c:321-327 | the first inactive voice, or 0 when every voice is active |
| Pool.IsActiveIffFound | subtractive_synthesis/true_subtractive_synth.c:313-335 | is_key_active answers yes exactly when find_voice finds a voice |
| Pool.IsActive | subtractive_synthesis/true_subtractive_synth.c:329-335 | is_key_active answers yes exactly when the key is one of the keys held by an active voice |
| Pool.Choose | subtractive_synthesis/true_subtractive_synth.c:177-179 | note-on plays on the voice already holding the key, else on the first free voice, else on voice 0 |
| Pool.NoteOn | subtractive_synthesis/true_subtractive_synth.c:177-183 | only the chosen voice changes, and it then holds the key |
| Pool.NoteOff | subtractive_synthesis/true_subtractive_synth.c:231-238 | the first voice holding the key becomes inactive; nothing changes when no voice holds it |
| Pool.NoteOnKeepsUnique | subtractive_synthesis/true_subtractive_synth.c:177-183 | note-on never puts one key on two active voices |
| Pool.NoteOffKeepsUnique | subtractive_synthesis/true_subtractive_synth.c:231-238 | note-off keeps keys unique |
| Pool.NoteOnActiveKeys | subtractive_synthesis/true_subtractive_synth.c:177-183 | the sounding keys gain the key; with the pool full and the key new, voice 0's key is stolen |
| Pool.NoteOffActiveKeys | subtractive_synthesis/true_subtractive_synth.c:231-238 | with unique keys, note-off removes exactly the key from the sounding keys |
| Pool.NoteOffIdempotent | subtractive_synthesis/true_subtractive_synth.c:231-238 | a second note-off of the same key changes nothing |
| Bank.RemoveAt | subtractive_synthesis/true_subtractive_synth.c:453-454 | removal keeps the entries before the index and shifts the later ones down one place |
| Bank.RemoveAtKeepsOrder | subtractive_synthesis/true_subtractive_synth.c:453-454 | entries that stay keep their relative order |
| Bank.RemoveAtMultiset | subtractive_synthesis/true_subtractive_synth.c:453-454 | removal takes away exactly the removed entry |
| Bank.SelectedAfterRemove | subtractive_synthesis/true_subtractive_synth.c:456-461 | the selection after a removal satisfies the selection invariant and is kept when still in range |
| Bank.RowUnder | subtractive_synthesis/true_subtractive_synth.c:152-156 | the row under a height, or −1 |
| Bank.RowUnderSpec | subtractive_synthesis/true_subtractive_synth.c:155 | the closed form agrees with the open-interval row test 90 + 35·i < y < 90 + 35·i + 30 |
| Bank.ClickSelect | subtractive_synthesis/true_subtractive_synth.c:152-157 | a click selects the row under the pointer, else keeps the selection, and keeps the selection invariant |
| Biquad.NextType | subtractive_synthesis/true_subtractive_synth.c:195 | Q always changes the filter type |
| Biquad.NextTypeCycle | subtractive_synthesis/true_subtractive_synth.c:195 | four presses of Q return to the starting type, and no fewer do |
| Biquad.Design | subtractive_synthesis/true_subtractive_synth.c:367-414 | each cookbook design is stable; low-pass passes DC and blocks Nyquist, high-pass the reverse, band-pass blocks both, notch passes both, each with its symmetric numerator |
| Biquad.Normalise | subtractive_synthesis/true_subtractive_synth.c:410-414 | dividing by a0 divides the numerator's and denominator's sums at DC and Nyquist by a0 and keeps the numerator's symmetries |
| Biquad.ClampCutoff | subtractive_synthesis/true_subtractive_synth.c:357-359 | the cutoff is clamped into [20, 21950] and kept when already inside |
| Biquad.ClampRes | subtractive_synthesis/true_subtractive_synth.c:365 | resonance is raised to at least 0.05 and kept when already there |
| Biquad.W0 | subtractive_synthesis/true_subtractive_synth.c:361 | a clamped cutoff gives the angular frequency ω0 = 2π·cutoff/44100 in (0, MAX_W0] |
| Biquad.Update | subtractive_synthesis/true_subtractive_synth.c:355-415 | update_filter keeps the type and the memory, clamps cutoff and resonance, and leaves a designed, stable section |
| Biquad.UpdateIdempotent | subtractive_synthesis/true_subtractive_synth.c:355-415 | updating twice is updating once |
| Biquad.UpdateIgnoresCoeffs | subtractive_synthesis/true_subtractive_synth.c:355-415 | the old coefficients play no part in an update |
| Biquad.NewFilter | subtractive_synthesis/true_subtractive_synth.c:437-443 | add_filter's filter is the designed 800 Hz low-pass with resonance 0.7 and zero memory |
| Biquad.Output | subtractive_synthesis/true_subtractive_synth.c:419-423 | a filter at rest answers an input with b0 times it, the first tap of its impulse response |
| Biquad.Shifted | subtractive_synthesis/true_subtractive_synth.c:417-431 | process_filter shifts x into x1, x1 into x2, the output into y1 and y1 into y2, and changes nothing else |
| Biquad.AtRestStays | subtractive_synthesis/true_subtractive_synth.c:417-431 | a filter with zero memory outputs 0 for input 0 and stays at rest |
| Biquad.ProcessHomogeneous | subtractive_synthesis/true_subtractive_synth.c:419-423 | the recurrence is linear: scaling memory and input scales the output and the new memory |
| Biquad.SteadyPass | subtractive_synthesis/true_subtractive_synth.c:419-423 | with unity DC gain, a filter settled on a constant input reproduces it |
| Biquad.SteadyBlock | subtractive_synthesis/true_subtractive_synth.c:419-423 | with zero DC gain, a filter whose input memory holds a constant and whose output memory is 0 outputs 0 |
| Biquad.SettledAtDc | subtractive_synthesis/true_subtractive_synth.c:371-423 | a designed low-pass or notch settled at DC passes it; a high-pass or band-pass settled at 0 blocks it |
| Biquad.ChainState | subtractive_synthesis/true_subtractive_synth.c:484-485 | the chain keeps the number of filters |
| Biquad.ChainStateAt | subtractive_synthesis/true_subtractive_synth.c:484-485 | filter j of the chain is stepped on the output of the filters before it |
| Biquad.ChainOutAppend | subtractive_synthesis/true_subtractive_synth.c:484-485 | a chain split in two is the first part followed by the second |
| Biquad.ChainStateAppend | subtractive_synthesis/true_subtractive_synth.c:484-485 | the state of a split chain is the state of the first part followed by the second part fed by the first part's output |
| Biquad.ChainAtRest | subtractive_synthesis/true_subtractive_synth.c:484-485 | a chain at rest outputs 0 for input 0 and stays at rest |
| Biquad.ChainKeepsDesign | subtractive_synthesis/true_subtractive_synth.c:484-485 | running samples through the chain never changes a filter's design |
| Biquad.ChainOut | subtractive_synthesis/true_subtractive_synth.c:484-485 | a chain whose filters are all at rest answers an input with the product of their b0 taps times it |
| Subtractive.NextWave | subtractive_synthesis/true_subtractive_synth.c:166-167 | TAB always changes the waveform |
| Subtractive.NextWaveCycle | subtractive_synthesis/true_subtractive_synth.c:166-167 | three presses of TAB return to the starting waveform, and two do not |
| Subtractive.Slots | subtractive_synthesis/true_subtractive_synth.c:32-37 | the (active, key) view of each voice |
| Subtractive.Advance | subtractive_synthesis/true_subtractive_synth.c:341-342 | gen_voice changes only the phase, by one phase step at 44100 Hz, and keeps the voice invariant |
| Subtractive.Waveform | subtractive_synthesis/true_subtractive_synth.c:344-351 | saw by the formula, square +1 exactly where the sine is positive and −1 elsewhere, triangle by asin(sin) |
| Subtractive.WaveformBounded | subtractive_synthesis/true_subtractive_synth.c:344-351 | each waveform lies in [−1, 1] for a phase within one turn |
| Subtractive.Contribution | subtractive_synthesis/true_subtractive_synth.c:478-479 | an inactive voice adds nothing to the sum, and a voice in range adds a value within [−1, 1] |
| Subtractive.Tick | subtractive_synthesis/true_subtractive_synth.c:476-480 | the voice loop moves only the phase of an active voice, leaves an inactive voice as it is, and keeps the voice invariant |
| Subtractive.ActiveCount | subtractive_synthesis/true_subtractive_synth.c:476-480 | at most the number of voices are active |
| Subtractive.ActiveCountSame | subtractive_synthesis/true_subtractive_synth.c:476-480 | the number of active voices depends only on the active flags |
| Subtractive.Mix | subtractive_synthesis/true_subtractive_synth.c:476-480 | with no voice active the voice sum is 0 |
| Subtractive.MixBounded | subtractive_synthesis/true_subtractive_synth.c:476-480 | the voice sum lies within ± the number of active voices |
| Subtractive.AdvanceActive | subtractive_synthesis/true_subtractive_synth.c:476-480 | the voice loop keeps the number of voices |
| Subtractive.AdvanceActiveAt | subtractive_synthesis/true_subtractive_synth.c:476-480 | every active voice is advanced once and every inactive voice is untouched |
| Subtractive.AdvanceActiveSlots | subtractive_synthesis/true_subtractive_synth.c:476-480 | the voice loop changes no voice's active flag or key |
| Subtractive.AdvanceActiveOk | subtractive_synthesis/true_subtractive_synth.c:476-480 | the voice loop keeps the voice invariant |
| Subtractive.MixSilent | subtractive_synthesis/true_subtractive_synth.c:476-480 | with no voice active the sum is 0 and no voice changes |
| Subtractive.Step | subtractive_synthesis/true_subtractive_synth.c:474-487 | one sample keeps the numbers of voices and filters and emits one sample |
| Subtractive.StepKeeps | subtractive_synthesis/true_subtractive_synth.c:474-487 | a sample keeps the sounding keys, the voice invariant and every filter's design |
| Subtractive.Render | subtractive_synthesis/true_subtractive_synth.c:472-492 | a block of n samples emits n samples |
| Subtractive.RenderKeeps | subtractive_synthesis/true_subtractive_synth.c:472-492 | audio never changes the sounding keys and keeps the voice invariant and the filters' designs |
| Subtractive.RenderPrefix | subtractive_synthesis/true_subtractive_synth.c:472-492 | a longer block begins with the samples of a shorter one |
| Subtractive.RenderExtends | subtractive_synthesis/true_subtractive_synth.c:472-492 | one more sample extends the output by one |
| Subtractive.StepSilent | subtractive_synthesis/true_subtractive_synth.c:474-487 | with no voice active and every filter at rest, a sample is 0 and changes nothing |
| Subtractive.RenderSilent | subtractive_synthesis/true_subtractive_synth.c:472-492 | with no voice active and every filter at rest, a block is all zeros and changes nothing |
| Subtractive.StepDry | subtractive_synthesis/true_subtractive_synth.c:474-482 | without filters a sample is the voice sum over 2.5, within ± active voices / 2.5 |
| Subtractive.RenderDryBound | subtractive_synthesis/true_subtractive_synth.c:472-492 | without filters every sample lies within ± active voices / 2.5 (8 / 2.5 with a full pool) |
| Subtractive.RenderDryLast | subtractive_synthesis/true_subtractive_synth.c:472-492 | the same bound for the last sample of a block |
| Subtractive.VoiceOn | subtractive_synthesis/true_subtractive_synth.c:177-183 | the chosen voice becomes active on the key at the note's frequency and keeps its phase; no other voice changes |
| Subtractive.VoiceOnOk | subtractive_synthesis/true_subtractive_synth.c:177-183 | note-on keeps the voice invariant and leaves the key sounding |
| Subtractive.Pressed | subtractive_synthesis/true_subtractive_synth.c:173-187 | a key outside the layout changes no voice; a layout key is then sounding at the frequency of its first entry |
| Subtractive.PressedOk | subtractive_synthesis/true_subtractive_synth.c:173-187 | pressing a key keeps the voice invariant |
| Subtractive.VoiceOff | subtractive_synthesis/true_subtractive_synth.c:231-238 | release clears at most the active flag of the first voice on the key |
| Subtractive.VoiceOffProps | subtractive_synthesis/true_subtractive_synth.c:231-238 | release keeps the voice invariant, silences the key, and is idempotent |
| Subtractive.Released | subtractive_synthesis/true_subtractive_synth.c:225-241 | key-up of a key outside the layout changes nothing; of a layout key, it releases that key |
| Subtractive.Edited | subtractive_synthesis/true_subtractive_synth.c:193-217 | keys other than Q and the arrows leave the filter as it is; no edit touches its memory |
| Subtractive.EditedKeepsDesign | subtractive_synthesis/true_subtractive_synth.c:193-217 | every edit leaves a designed, stable filter |
| Subtractive.CutoffRoundTrip | subtractive_synthesis/true_subtractive_synth.c:198-207 | below the ceiling, UP then DOWN restores the filter |
| Subtractive.ResRoundTrip | subtractive_synthesis/true_subtractive_synth.c:208-217 | RIGHT then LEFT restores the filter |
| Subtractive.TypeCycle | subtractive_synthesis/true_subtractive_synth.c:193-197 | four presses of Q restore the filter |
| Subtractive.FiltersOkUpdate | subtractive_synthesis/true_subtractive_synth.c:191-217 | replacing one filter by a designed one keeps the bank designed |
| Subtractive.FiltersOkRemove | subtractive_synthesis/true_subtractive_synth.c:449-462 | removing a filter keeps the bank designed |
| Subtractive.Synth.constructor | subtractive_synthesis/true_subtractive_synth.c:66-75 | the zero-initialised globals after init_voices: no filter, nothing selected, saw waveform, initial layout |
| Subtractive.Synth.InitVoices | subtractive_synthesis/true_subtractive_synth.c:307-311 | every voice becomes inactive and nothing else changes |
| Subtractive.Synth.FindVoice | subtractive_synthesis/true_subtractive_synth.c:313-319 | the loop computes `Pool.Find` |
| Subtractive.Synth.AllocVoice | subtractive_synthesis/true_subtractive_synth.c:321-327 | the loop computes `Pool.Alloc` |
| Subtractive.Synth.IsKeyActive | subtractive_synthesis/true_subtractive_synth.c:329-335 | the loop answers whether the key sounds |
| Subtractive.Synth.PressKey | subtractive_synthesis/true_subtractive_synth.c:173-187 | the note-on loop leaves the voices as `Pressed` says and keeps the invariant |
| Subtractive.Synth.ReleaseVoice | subtractive_synthesis/true_subtractive_synth.c:231-238 | the inner key-up loop leaves the voices as `VoiceOff` says |
| Subtractive.Synth.ReleaseKey | subtractive_synthesis/true_subtractive_synth.c:225-241 | the key-up handler leaves the voices as `Released` says |
| Subtractive.Synth.AddFilter | subtractive_synthesis/true_subtractive_synth.c:433-447 | a full bank is unchanged; otherwise the new filter is appended and selected |
| Subtractive.Synth.RemoveFilter | subtractive_synthesis/true_subtractive_synth.c:449-462 | an index out of range changes nothing; otherwise the bank is `RemoveAt`, the count drops by one, and the selection is adjusted |
| Subtractive.Synth.ShiftDown | subtractive_synthesis/true_subtractive_synth.c:453-454 | the shift loop moves the later filters down one place, leaving the old last slot stale |
| Subtractive.Synth.EditFilter | subtractive_synthesis/true_subtractive_synth.c:193-217 | the sequence of edit tests computes `Edited` |
| Subtractive.Synth.EditSelected | subtractive_synthesis/true_subtractive_synth.c:189-223 | with nothing selected nothing changes; the edit keys change the selected filter; BACKSPACE removes it |
| Subtractive.Synth.EditInPlace | subtractive_synthesis/true_subtractive_synth.c:191-217 | the selected filter is replaced by its edited version |
| Subtractive.Synth.KeyDown | subtractive_synthesis/true_subtractive_synth.c:160-224 | the handler cycles the waveform on TAB, transposes the layout and plays the key; '=' adds a filter as add_filter does, and any other key edits the selected filter or, on BACKSPACE, removes it; the invariant is kept |
| Subtractive.Synth.PlayKeys | subtractive_synthesis/true_subtractive_synth.c:166-186 | TAB cycles the waveform, 1 and 2 transpose the layout under their guards and a layout key plays its note; no filter changes and the invariant is kept |
| Subtractive.Synth.PlayAndEdit | subtractive_synthesis/true_subtractive_synth.c:166-223 | the keys after '=': waveform, layout and note as `PlayKeys` states, then with a filter selected the edit keys change it and BACKSPACE removes it |
| Subtractive.Synth.Click | subtractive_synthesis/true_subtractive_synth.c:141-157 | a click on the add button with room appends the new filter and selects it; any other click changes no filter; then the row under the pointer, if any, is selected |
| Subtractive.Synth.GenVoice | subtractive_synthesis/true_subtractive_synth.c:339-352 | gen_voice advances the voice and returns the waveform at the new phase |
| Subtractive.Synth.ProcessFilter | subtractive_synthesis/true_subtractive_synth.c:417-431 | process_filter returns the recurrence output and shifts the memory |
| Subtractive.Synth.MixVoices | subtractive_synthesis/true_subtractive_synth.c:476-480 | the voice loop computes `Mix` and `AdvanceActive` |
| Subtractive.Synth.RunFilters | subtractive_synthesis/true_subtractive_synth.c:484-485 | the filter loop computes `ChainOut` and `ChainState` over the filters in use |
| Subtractive.Synth.NextSample | subtractive_synthesis/true_subtractive_synth.c:474-485 | one sample is the filtered voice sum over 2.5 |
| Subtractive.Synth.AudioCallback | subtractive_synthesis/true_subtractive_synth.c:465-493 | the stream holds the rendered block at half amplitude, the oscilloscope receives it at full amplitude, voices and filters move on as `Render` says, and the invariant is kept |
| Subtractive.Synth.FillBlock | subtractive_synthesis/true_subtractive_synth.c:472-492 | the sample loop fills the first `samples` stream entries and leaves the rest |
| Subtractive.Synth.SampleLoop | subtractive_synthesis/true_subtractive_synth.c:472-492 | after the loop the arrays hold the rendered frame and the buffers show its output |
| Subtractive.Synth.SampleStep | subtractive_synthesis/true_subtractive_synth.c:474-490 | one pass of the loop moves from the frame after i samples to the frame after i + 1 |
| Subtractive.Synth.Compute | subtractive_synthesis/true_subtractive_synth.c:474-485 | the computed sample is the next sample `Render` predicts |
| Subtractive.Synth.Record | subtractive_synthesis/true_subtractive_synth.c:487-490 | the sample goes into the stream at half amplitude and into the oscilloscope at its cursor |
| FmSynth.NextWave | fm_synthesis/fm_synth.c:151-152 | TAB always changes the waveform |
| FmSynth.NextWaveCycle | fm_synthesis/fm_synth.c:151-152 | four presses return to the starting waveform, and no fewer do |
| FmSynth.NextFModType | fm_synthesis/fm_synth.c:182 | W always changes the modulation type |
| FmSynth.NextFModTypeTwice | fm_synthesis/fm_synth.c:182 | two presses of W restore the type |
| FmSynth.Slots | fm_synthesis/fm_synth.c:16-23 | the (active, key) view of each voice |
| FmSynth.Advance | fm_synthesis/fm_synth.c:337-339 | a voice step changes only the phase, by one phase step at 44100 Hz, and keeps the voice invariant |
| FmSynth.ModStep | fm_synthesis/fm_synth.c:351-352 | the modulator step changes only the modulator phase; the phase stays non-negative, and within one turn while f ≤ SR |
| FmSynth.ModSteps | fm_synthesis/fm_synth.c:351-352 | repeated modulator steps change nothing but the phase |
| FmSynth.ModStepsAdd | fm_synthesis/fm_synth.c:351-352 | a steps then b steps are a + b steps |
| FmSynth.Shape | fm_synthesis/fm_synth.c:341-344 | sine, square (+1 exactly where the sine is positive), triangle and saw by their formulas |
| FmSynth.ShapeBounded | fm_synthesis/fm_synth.c:341-344 | every shape lies in [−1, 1]; the saw needs a phase within one turn |
| FmSynth.FmValue | fm_synthesis/fm_synth.c:364-367 | with β = 0 the modulated voice sounds like the plain waveform at its phase |
| FmSynth.FmValueBounded | fm_synthesis/fm_synth.c:364-367 | a modulated non-saw carrier lies in [−1, 1] whatever the modulator |
| FmSynth.ActiveCount | fm_synthesis/fm_synth.c:394-402 | at most the number of voices are active |
| FmSynth.ActiveCountSame | fm_synthesis/fm_synth.c:394-402 | the number of active voices depends only on the (active, key) slots |
| FmSynth.Tick | fm_synthesis/fm_synth.c:394-402 | the voice loop moves only the phase of an active voice, leaves an inactive voice as it is, and keeps the voice invariant |
| FmSynth.VoiceLoop | fm_synthesis/fm_synth.c:394-402 | the voice loop keeps the number of voices |
| FmSynth.VoiceLoopAt | fm_synthesis/fm_synth.c:394-402 | every active voice is advanced once, every inactive voice untouched |
| FmSynth.VoiceLoopMod | fm_synthesis/fm_synth.c:394-402 | with the modulator on, the shared modulator is stepped once per active voice; otherwise it is untouched |
| FmSynth.VoiceLoopKeeps | fm_synthesis/fm_synth.c:394-402 | the voice loop keeps the sounding keys and the voice invariant |
| FmSynth.VoiceLoopBounded | fm_synthesis/fm_synth.c:394-402 | the sum lies within ± the number of active voices; with the modulator on, it needs no saw carrier |
| FmSynth.VoiceLoopSilent | fm_synthesis/fm_synth.c:394-402 | with no voice active the sum is 0 and nothing changes |
| FmSynth.Step | fm_synthesis/fm_synth.c:392-407 | one sample keeps the number of voices and emits one sample |
| FmSynth.Render | fm_synthesis/fm_synth.c:390-409 | a block of n samples emits n samples |
| FmSynth.StepKeeps | fm_synthesis/fm_synth.c:392-407 | a sample keeps the sounding keys and the voice invariant, and steps the modulator once per active voice when it is on |
| FmSynth.RenderKeeps | fm_synthesis/fm_synth.c:390-409 | audio never changes the sounding keys and keeps the voice invariant |
| FmSynth.ModBlocksTotal | fm_synthesis/fm_synth.c:394-402 | n blocks of c modulator steps are n·c steps |
| FmSynth.RenderMod | fm_synthesis/fm_synth.c:390-409 | over a block the modulator takes one block of steps per sample when on and is untouched when off |
| FmSynth.ModBlocksKeep | fm_synthesis/fm_synth.c:351-352 | audio never changes the ratio or the modulation index |
| FmSynth.RenderCount | fm_synthesis/fm_synth.c:390-409 | audio never changes the number of active voices |
| FmSynth.RenderModTotal | fm_synthesis/fm_synth.c:390-409 | with the modulator on, n samples step it n × (active voices) times |
| FmSynth.RenderExtends | fm_synthesis/fm_synth.c:390-409 | one more sample extends the output by one |
| FmSynth.RenderPrefix | fm_synthesis/fm_synth.c:390-409 | a longer block begins with the samples of a shorter one |
| FmSynth.RenderSilent | fm_synthesis/fm_synth.c:390-409 | with no voice active a block is all zeros and changes nothing |
| FmSynth.StepSilent | fm_synthesis/fm_synth.c:392-407 | with no voice active a sample is 0 and changes nothing |
| FmSynth.RenderBounded | fm_synthesis/fm_synth.c:390-409 | every sample lies within ± the number of active voices, under the same carrier condition |
| FmSynth.RenderLastBounded | fm_synthesis/fm_synth.c:390-409 | the same bound for the last sample of a block |
| FmSynth.WavesKept | fm_synthesis/fm_synth.c:390-409 | audio never changes a voice's waveform |
| FmSynth.StepBeta | fm_synthesis/fm_synth.c:183-184 | keys other than RIGHT and LEFT leave β as it is |
| FmSynth.StepBetaKeeps | fm_synthesis/fm_synth.c:183-184 | the guarded β edits keep β on the 0.05 grid within [0, 1] |
| FmSynth.NewBetaOk | fm_synthesis/fm_synth.c:375 | add_fmod's β = 0.2 is on the grid |
| FmSynth.StepBetaRoundTrip | fm_synthesis/fm_synth.c:183-184 | RIGHT then LEFT restores β below 1; LEFT then RIGHT restores β above 0 |
| FmSynth.Recip | fm_synthesis/fm_synth.c:190-191 | pow(x, −1) is the reciprocal of x |
| FmSynth.StepRatio | fm_synthesis/fm_synth.c:188-191 | the four sequential ratio tests keep a positive ratio positive; other keys leave it as it is |
| FmSynth.RatioValue | fm_synthesis/fm_synth.c:188-191 | every reachable ratio, a whole number n or a fraction 1/n, is positive |
| FmSynth.RatioKey | fm_synthesis/fm_synth.c:188-191 | the E and R steps on the representation stay among whole numbers and fractions 1/n, n ≥ 2 |
| FmSynth.StepRatioWalk | fm_synthesis/fm_synth.c:188-191 | the source's four tests agree with the step on the representation: E: n ≥ 3 gives n − 1, 2 and 1 give 1/2, 1/n gives 1/(n+1); R: n gives n + 1, 1/2 gives 1, 1/n gives 1/(n−1) |
| FmSynth.StepRatioWhole | fm_synthesis/fm_synth.c:188-191 | the same for a whole-number ratio |
| FmSynth.StepRatioPart | fm_synthesis/fm_synth.c:188-191 | the same for a fractional ratio |
| FmSynth.StepRatioKeeps | fm_synthesis/fm_synth.c:188-191 | the ratio key steps keep the ratio among whole numbers and reciprocals |
| FmSynth.NewRatioOk | fm_synthesis/fm_synth.c:377 | add_fmod's ratio 1 is reachable |
| FmSynth.RatioKeyRoundTrip | fm_synthesis/fm_synth.c:188-191 | E then R restores every ratio but 2, which goes to 1; R then E restores every ratio but 1, which goes to 1/2 |
| FmSynth.ModEdited | fm_synthesis/fm_synth.c:181-192 | Q cycles the modulator waveform, W toggles the type, RIGHT/LEFT step β, and E/R step the ratio only when the updated type is harmonic; frequency and phase are kept |
| FmSynth.ModEditedKeeps | fm_synthesis/fm_synth.c:181-192 | the modulator edits keep β and the ratio on their grids |
| FmSynth.NewModOk | fm_synthesis/fm_synth.c:374-379 | add_fmod's modulator satisfies the invariant |
| FmSynth.VoiceOn | fm_synthesis/fm_synth.c:162-168 | the chosen voice becomes active on the key at the note's frequency and keeps its phase and waveform; no other voice changes |
| FmSynth.VoiceOnOk | fm_synthesis/fm_synth.c:162-168 | note-on keeps the voice invariant and leaves the key sounding |
| FmSynth.Pressed | fm_synthesis/fm_synth.c:158-175 | a key outside the layout changes no voice; a layout key plays its first entry's frequency |
| FmSynth.PressedOk | fm_synthesis/fm_synth.c:158-175 | pressing keeps the voice invariant and leaves a layout key sounding |
| FmSynth.Tuned | fm_synthesis/fm_synth.c:171 | the modulator entry gets frequency note × ratio and nothing else changes |
| FmSynth.ModsPressed | fm_synthesis/fm_synth.c:170-171 | only the chosen voice's modulator entry can change, only in its frequency, and only with the modulator on, harmonic and a layout key; in that case it becomes the note's frequency times fm[0]'s ratio |
| FmSynth.ModsPressedFirst | fm_synthesis/fm_synth.c:170-171 | fm[0] keeps its phase, ratio, β, waveform and type; its frequency changes only when the note lands on voice 0, to note × ratio |
| FmSynth.VoiceOff | fm_synthesis/fm_synth.c:206-213 | release clears at most the active flag of the first voice on the key |
| FmSynth.VoiceOffProps | fm_synthesis/fm_synth.c:206-213 | release keeps the invariant, silences the key and is idempotent |
| FmSynth.Released | fm_synthesis/fm_synth.c:200-216 | key-up of a key outside the layout changes nothing; of a layout key, it releases that key |
| FmSynth.Tabbed | fm_synthesis/fm_synth.c:151-152 | TAB changes only voices[0]'s waveform; other keys change nothing |
| FmSynth.TabbedOk | fm_synthesis/fm_synth.c:151-152 | TAB keeps the voice invariant |
| FmSynth.Added | fm_synthesis/fm_synth.c:370-382 | add_fmod does nothing when the modulator is on; otherwise it installs the fresh modulator in fm[0] and leaves the other entries |
| FmSynth.AfterAdd | fm_synthesis/fm_synth.c:370-382 | after add_fmod the modulator is on and the voices are unchanged |
| FmSynth.AfterPress | fm_synthesis/fm_synth.c:158-175 | note-on never switches the modulator |
| FmSynth.AfterEdit | fm_synthesis/fm_synth.c:177-198 | the modulator edits change no voice, and BACKSPACE switches the modulator off |
| FmSynth.KeyDownEffect | fm_synthesis/fm_synth.c:145-199 | after a key-down the modulator is on exactly when it was on or '=' was pressed, unless BACKSPACE was pressed |
| FmSynth.ModOkPositive | fm_synthesis/fm_synth.c:186-191 | a modulator satisfying the invariant has a positive ratio, so pow(ratio, −1) is defined |
| FmSynth.KeyDownKeeps | fm_synthesis/fm_synth.c:145-199 | every key-down keeps the voice and modulator invariant |
| FmSynth.KeyDownOther | fm_synthesis/fm_synth.c:145-199 | a key with no binding changes nothing |
| FmSynth.Synth.constructor | fm_synthesis/fm_synth.c:61-67 | the zero-initialised globals after init_voices: modulator off, initial layout |
| FmSynth.Synth.InitVoices | fm_synthesis/fm_synth.c:300-307 | every voice becomes inactive with the sine waveform, and nothing else changes |
| FmSynth.Synth.FindVoice | fm_synthesis/fm_synth.c:309-315 | the loop computes `Pool.Find` |
| FmSynth.Synth.AllocVoice | fm_synthesis/fm_synth.c:317-323 | the loop computes `Pool.Alloc` |
| FmSynth.Synth.IsKeyActive | fm_synthesis/fm_synth.c:325-331 | the loop answers whether the key sounds |
| FmSynth.Synth.NoteOn | fm_synthesis/fm_synth.c:162-168 | the chosen voice is `Pool.Choose` and the voices become `VoiceOn` |
| FmSynth.Synth.PressKey | fm_synthesis/fm_synth.c:158-175 | the note-on loop leaves voices and modulators as `AfterPress` says |
| FmSynth.Synth.Retune | fm_synthesis/fm_synth.c:170-171 | with the modulator on and harmonic, entry v gets note × fm[0].ratio; otherwise nothing changes |
| FmSynth.Synth.ReleaseVoice | fm_synthesis/fm_synth.c:206-213 | the inner key-up loop leaves the voices as `VoiceOff` says |
| FmSynth.Synth.ReleaseKey | fm_synthesis/fm_synth.c:200-216 | the key-up handler leaves the voices as `Released` says |
| FmSynth.Synth.AddFmod | fm_synthesis/fm_synth.c:370-382 | add_fmod leaves the state as `AfterAdd` says |
| FmSynth.Synth.EditModulator | fm_synthesis/fm_synth.c:177-198 | the modulator edits leave the state as `AfterEdit` says |
| FmSynth.Synth.EditRatio | fm_synthesis/fm_synth.c:186-192 | the four ratio tests replace fm[0]'s ratio by `StepRatio` |
| FmSynth.Synth.KeyDown | fm_synthesis/fm_synth.c:145-199 | the handler transposes the layout and leaves the state as `KeyDownEffect` says |
| FmSynth.Synth.TabKey | fm_synthesis/fm_synth.c:151-152 | TAB changes the voices as `Tabbed` says |
| FmSynth.Synth.Click | fm_synthesis/fm_synth.c:133-143 | a click on the add button acts as add_fmod; any other click changes nothing |
| FmSynth.Synth.GenVoice | fm_synthesis/fm_synth.c:335-345 | gen_voice advances the voice and returns its waveform at the new phase |
| FmSynth.Synth.ProcessFmod | fm_synthesis/fm_synth.c:349-368 | process_fmod steps fm[0] and the voice, then returns the carrier at phase + β·modulator |
| FmSynth.Synth.MixVoices | fm_synthesis/fm_synth.c:394-402 | the voice loop computes `VoiceLoop`: voices, modulator and sum |
| FmSynth.Synth.MixOne | fm_synthesis/fm_synth.c:396-401 | one pass of the voice loop extends the computed prefix by one voice |
| FmSynth.Synth.AudioCallback | fm_synthesis/fm_synth.c:385-410 | the stream holds the rendered block at half amplitude, the oscilloscope receives it at full amplitude, and voices and fm[0] move on as `Render` says |
| FmSynth.Synth.FillBlock | fm_synthesis/fm_synth.c:390-409 | the sample loop fills the first `samples` stream entries and leaves the rest |
| FmSynth.Synth.SampleLoop | fm_synthesis/fm_synth.c:390-409 | after the loop the arrays hold the rendered frame and the buffers show its output |
| FmSynth.Synth.SampleStep | fm_synthesis/fm_synth.c:392-407 | one pass of the loop moves from the frame after i samples to the frame after i + 1 |
| FmSynth.Synth.Compute | fm_synthesis/fm_synth.c:392-402 | the computed sample is the next sample `Render` predicts |
| FmSynth.Synth.Record | fm_synthesis/fm_synth.c:404-407 | the sample goes into the stream at half amplitude and into the oscilloscope at its cursor |
| Additive.NextWave | additive_synthesis/add_synth.c:211-212 | TAB always changes the waveform |
| Additive.NextWaveCycle | additive_synthesis/add_synth.c:211-212 | four presses return to the starting waveform, and no fewer do |
| Additive.GenWave | additive_synthesis/add_synth.c:31-42 | gen_wave at the current phase: sine, square +1 exactly where the sine is ≥ 0 and −1 exactly where it is < 0, triangle, saw |
| Additive.GenWaveBounded | additive_synthesis/add_synth.c:31-42 | every waveform lies in [−1, 1]; the saw needs a phase within one turn |
| Additive.ContributionBounded | additive_synthesis/add_synth.c:57 | an amplitude within [0, 1] keeps the oscillator's term within [−1, 1] |
| Additive.Contribution | additive_synthesis/add_synth.c:57 | a muted oscillator adds nothing, and one at full amplitude adds its waveform unscaled |
| Additive.Advance | additive_synthesis/add_synth.c:59-61 | the phase update changes only the phase, by one phase step at 22100 Hz; it keeps the phase non-negative and keeps an in-band oscillator in band |
| Additive.MixBounded | additive_synthesis/add_synth.c:55-62 | the sum of in-band oscillators lies within ± their number |
| Additive.Mix | additive_synthesis/add_synth.c:55-62 | with every oscillator muted the sum is 0 |
| Additive.AdvanceAll | additive_synthesis/add_synth.c:55-62 | the loop advances every oscillator in use once |
| Additive.Level | additive_synthesis/add_synth.c:65-66 | dividing by a positive count brings a sum within ± the count into [−1, 1]; with no oscillator the mix is kept; 0 stays 0 |
| Additive.Step | additive_synthesis/add_synth.c:51-71 | one sample keeps the number of oscillators and emits one sample |
| Additive.Render | additive_synthesis/add_synth.c:49-72 | a block of n samples emits n samples |
| Additive.RenderPaused | additive_synthesis/add_synth.c:49-72 | while paused every sample is 0 and no phase moves |
| Additive.StepKeeps | additive_synthesis/add_synth.c:51-71 | a sample changes no waveform, frequency or amplitude, and keeps the edit invariant and the band |
| Additive.RenderSettings | additive_synthesis/add_synth.c:49-72 | audio never changes an oscillator's waveform, frequency or amplitude |
| Additive.RenderKeeps | additive_synthesis/add_synth.c:49-72 | audio keeps the edit invariant, and keeps oscillators at or below the sample rate with phases within one turn |
| Additive.RenderExtends | additive_synthesis/add_synth.c:49-72 | one more sample extends the output by one |
| Additive.RenderPrefix | additive_synthesis/add_synth.c:49-72 | a longer block begins with the samples of a shorter one |
| Additive.RenderLastBounded | additive_synthesis/add_synth.c:49-72 | the last sample of a block from in-band oscillators lies in [−1, 1] |
| Additive.RenderBounded | additive_synthesis/add_synth.c:49-72 | the division by the count keeps every sample from in-band oscillators within [−1, 1], however many oscillators sound |
| Additive.Edited | additive_synthesis/add_synth.c:211-217 | TAB cycles the waveform, UP adds 10 Hz, DOWN subtracts 10 Hz only above 10 Hz, RIGHT adds 0.05 only below 1, LEFT subtracts 0.05 only above 0; the phase is kept |
| Additive.OscOkBounds | additive_synthesis/add_synth.c:214-217 | a frequency on the grid is at least 10 Hz and an amplitude on the grid lies in [0, 1] |
| Additive.NewOscOk | additive_synthesis/add_synth.c:92-95 | add_oscillator's 220 Hz, amplitude 0.5 oscillator is on the grids |
| Additive.EditedKeeps | additive_synthesis/add_synth.c:211-217 | the guarded edits keep the frequency on the 10 Hz grid from 10 Hz up and the amplitude on the 0.05 grid within [0, 1] |
| Additive.FreqRoundTrip | additive_synthesis/add_synth.c:214-215 | UP then DOWN restores a positive frequency; DOWN then UP restores one above 10 Hz; DOWN at or below 10 Hz does nothing |
| Additive.AmpRoundTrip | additive_synthesis/add_synth.c:216-217 | RIGHT then LEFT restores an amplitude in [0, 1); LEFT then RIGHT one in (0, 1]; the guards stop at 1 and 0 |
| Additive.EditedOther | additive_synthesis/add_synth.c:211-218 | keys other than TAB and the arrows, BACKSPACE among them, leave an oscillator as it is |
| Additive.OscsOkUpdate | additive_synthesis/add_synth.c:209-217 | replacing one oscillator by one on the grids keeps the bank on the grids |
| Additive.OscsOkRemove | additive_synthesis/add_synth.c:101-114 | removing an oscillator keeps the bank on the grids |
| Additive.Synth.constructor | additive_synthesis/add_synth.c:11-29 | the zero-initialised globals: no oscillator, nothing selected, paused |
| Additive.Synth.AddOscillator | additive_synthesis/add_synth.c:88-99 | a full bank is unchanged; otherwise the 220 Hz sine is appended and selected, and the oscillators before it are untouched |
| Additive.Synth.RemoveOscillator | additive_synthesis/add_synth.c:101-114 | an index out of range changes nothing; otherwise the bank is `RemoveAt`, the count drops by one, and the selection is adjusted |
| Additive.Synth.ShiftDown | additive_synthesis/add_synth.c:105-106 | the shift loop moves the later oscillators down one place, leaving the old last slot stale |
| Additive.Synth.EditSelected | additive_synthesis/add_synth.c:209-217 | the edit tests change the selected oscillator as `Edited` says and keep the invariant |
| Additive.Synth.KeyDown | additive_synthesis/add_synth.c:198-224 | SPACE toggles playback; with nothing selected no oscillator changes; the edit keys change the selected one; BACKSPACE removes it |
| Additive.Synth.OscKeys | additive_synthesis/add_synth.c:207-223 | the oscillator part of the handler, with the same three cases |
| Additive.Synth.Click | additive_synthesis/add_synth.c:177-196 | a click on the add button adds an oscillator; then the row under the pointer, if any, is selected in either case |
| Additive.Synth.GenOsc | additive_synthesis/add_synth.c:57-61 | the oscillator's term is taken at its current phase before the phase update |
| Additive.Synth.MixOscillators | additive_synthesis/add_synth.c:55-62 | the oscillator loop computes `Mix` over the old phases and `AdvanceAll`, and leaves the unused slots alone |
| Additive.Synth.NextSample | additive_synthesis/add_synth.c:51-66 | while playing the sample is the oscillator loop's sum and the oscillators advance; while paused it is 0 and nothing moves; then the division by the count |
| Additive.Synth.AudioCallback | additive_synthesis/add_synth.c:44-73 | the stream and the oscilloscope both receive the rendered block, and the oscillators move on as `Render` says |
| Additive.Synth.FillBlock | additive_synthesis/add_synth.c:49-72 | the sample loop fills the first `samples` stream entries and leaves the rest |
| Additive.Synth.SampleLoop | additive_synthesis/add_synth.c:49-72 | after the loop the array holds the rendered oscillators and the buffers show the output |
| Additive.Synth.SampleStep | additive_synthesis/add_synth.c:51-71 | one pass of the loop moves from the frame after i samples to the frame after i + 1 |
| Additive.Synth.Compute | additive_synthesis/add_synth.c:51-66 | the computed sample is the next sample `Render` predicts |
| Additive.Synth.Record | additive_synthesis/add_synth.c:68-71 | the sample goes into the stream and into the oscilloscope at its cursor |

## Left out

- SDL, SDL_ttf and the event loop are not modelled. That covers window and
  renderer creation, opening and pausing audio, event polling, fonts, and
  `draw_text`, `draw_wave` and `draw_keyboard_hint`. Each handler is a method
  called with the event's key or position.
- ESCAPE and SDL_QUIT are not modelled. They only end the event loop.
- The key-repeat filter (`!e.key.repeat`) of the subtractive and FM demos is
  not modelled: a key-down call is a fresh press.
- The audio callback runs on SDL's audio thread, concurrently with the event
  handlers. The model treats each callback and each handler as one atomic call.
- Floating point is not modelled: values are exact reals. The casts to
  `float` in the additive demo and the stream's byte layout (`len / sizeof(float)`)
  are not modelled either. The callback receives its sample count directly.
- Values of `sin`, `cos`, `asin` and `pow` are not modelled. The first three
  are the `Trig` parameter. `pow(r, −1)` is the exact reciprocal.
- Unused globals are left out: the `phase`, `current_freq`, `playing` and
  `last_key` globals of the subtractive and FM demos, and the FM voice field
  `ang_freq`.
- FmSynth.StepRatio: requires a positive ratio. The ratio is positive
  whenever the modulator is on (`FmSynth.ModOkPositive`), so the source's
  `pow(0, −1)` case never arises in a reachable state.
- FmSynth.ModEdited: requires a positive ratio for the same reason.
- Additive.RenderKeeps: keeps the phase within one turn only for
  oscillators at or below the sample rate. The UP key has no ceiling, and
  above 22100 Hz the single subtraction no longer keeps the phase within one
  turn.
- FmSynth.VoiceLoopBounded: bounds the FM sum only for non-saw carriers.
  A saw carrier is evaluated at phase + β·mod, which can leave [0, 2π].
- The exact values of the triangle wave (a piecewise-linear function of the
  phase) are not derived, since `asin` is a parameter. Only its bound is proved.
