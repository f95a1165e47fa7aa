/** Key codes and the computer-keyboard layout shared by the subtractive and the
    FM demo: sixteen keys from A3 to C5, which `octave_up` and `octave_down`
    transpose by whole octaves. */
module Keys {

  /** An SDL key code (SDL_Keycode, a 32-bit signed integer). */
  type Keycode = int

  // SDL key codes of the keys the handlers test. Printable keys have their ASCII
  // code; the arrow keys have the scancode with bit 30 set.
  const KEY_BACKSPACE: Keycode := 8
  const KEY_TAB: Keycode := 9
  const KEY_ESCAPE: Keycode := 27
  const KEY_SPACE: Keycode := 32
  const KEY_1: Keycode := 49
  const KEY_2: Keycode := 50
  const KEY_EQUALS: Keycode := 61
  const KEY_E: Keycode := 101
  const KEY_Q: Keycode := 113
  const KEY_R: Keycode := 114
  const KEY_W: Keycode := 119
  const KEY_RIGHT: Keycode := 0x4000_004F
  const KEY_LEFT: Keycode := 0x4000_0050
  const KEY_DOWN: Keycode := 0x4000_0051
  const KEY_UP: Keycode := 0x4000_0052

  /** One entry of `keymap[]`: a key and the note frequency it plays. */
  datatype KeyNote = KeyNote(key: Keycode, freq: real)

  const KEYMAP_SIZE: int := 16

  /** The initial layout, Z = A3 (220 Hz) up to / = C5 (523.3 Hz). */
  const INITIAL_KEYMAP: seq<KeyNote> := [
    KeyNote(122, 220.0), KeyNote(115, 233.1), KeyNote(120, 247.0), KeyNote(99, 261.6),
    KeyNote(102, 277.2), KeyNote(118, 293.7), KeyNote(103, 311.1), KeyNote(98, 329.6),
    KeyNote(110, 349.2), KeyNote(106, 370.0), KeyNote(109, 392.0), KeyNote(107, 415.3),
    KeyNote(44, 440.0), KeyNote(108, 466.2), KeyNote(46, 493.9), KeyNote(47, 523.3)]

  // The octave handler transposes down only while the first key is above A0 and up
  // only while it is below A6.
  const OCTAVE_DOWN_FLOOR: real := 27.5
  const OCTAVE_UP_CEILING: real := 1760.0

  /** Upper bound of every note frequency the layout can reach (2.5 · 3520 Hz). */
  const MAX_NOTE_FREQ: real := 8800.0

  /** The layout invariant the octave guards keep: positive frequencies, the first key
      below 3520 Hz, and no key more than 2.5 times the first key's frequency (the
      widest interval of the layout is 523.3 / 220). */
  ghost predicate Playable(km: seq<KeyNote>)
  {
    && |km| == KEYMAP_SIZE
    && 0.0 < km[0].freq < 2.0 * OCTAVE_UP_CEILING
    && forall i :: 0 <= i < |km| ==> 0.0 < km[i].freq <= 2.5 * km[0].freq
  }

  /** Every note of a playable layout lies in (0, MAX_NOTE_FREQ]. */
  lemma PlayableBounded(km: seq<KeyNote>, i: int)
    requires Playable(km) && 0 <= i < |km|
    ensures 0.0 < km[i].freq <= MAX_NOTE_FREQ
  {
  }

  lemma InitialPlayable()
    ensures Playable(INITIAL_KEYMAP)
  {
  }

  /** The layout with every frequency doubled (octave_up). */
  function Doubled(km: seq<KeyNote>): (r: seq<KeyNote>)
    ensures |r| == |km|
    ensures forall i :: 0 <= i < |km| ==> r[i] == km[i].(freq := km[i].freq * 2.0)
  {
    seq(|km|, i requires 0 <= i < |km| => km[i].(freq := km[i].freq * 2.0))
  }

  /** The layout with every frequency halved (octave_down). */
  function Halved(km: seq<KeyNote>): (r: seq<KeyNote>)
    ensures |r| == |km|
    ensures forall i :: 0 <= i < |km| ==> r[i] == km[i].(freq := km[i].freq / 2.0)
  {
    seq(|km|, i requires 0 <= i < |km| => km[i].(freq := km[i].freq / 2.0))
  }

  /** Transposing up and then down, or down and then up, restores every entry. */
  lemma OctaveRoundTrip(km: seq<KeyNote>)
    ensures Halved(Doubled(km)) == km
    ensures Doubled(Halved(km)) == km
  {
    assert forall i :: 0 <= i < |km| ==> Halved(Doubled(km))[i] == km[i];
    assert forall i :: 0 <= i < |km| ==> Doubled(Halved(km))[i] == km[i];
  }

  /** A transposition keeps every key, and keeps the ratio between any two entries. */
  lemma OctaveKeepsIntervals(km: seq<KeyNote>, i: int, j: int)
    requires 0 <= i < |km| && 0 <= j < |km|
    ensures Doubled(km)[i].key == km[i].key && Halved(km)[i].key == km[i].key
    ensures Doubled(km)[i].freq * km[j].freq == km[i].freq * Doubled(km)[j].freq
    ensures Halved(km)[i].freq * km[j].freq == km[i].freq * Halved(km)[j].freq
  {
  }

  /** The guarded transpositions keep the layout playable. */
  lemma OctaveKeepsPlayable(km: seq<KeyNote>)
    requires Playable(km)
    ensures km[0].freq < OCTAVE_UP_CEILING ==> Playable(Doubled(km))
    ensures km[0].freq > OCTAVE_DOWN_FLOOR ==> Playable(Halved(km))
  {
  }

  /** The layout after the handler for keys 1 and 2: an octave down while the first key
      is above A0, an octave up while it is below A6, otherwise unchanged. */
  function Transposed(km: seq<KeyNote>, sym: Keycode): (r: seq<KeyNote>)
    requires |km| > 0
    ensures |r| == |km|
    ensures sym != KEY_1 && sym != KEY_2 ==> r == km
  {
    if sym == KEY_1 && km[0].freq > OCTAVE_DOWN_FLOOR then Halved(km)
    else if sym == KEY_2 && km[0].freq < OCTAVE_UP_CEILING then Doubled(km)
    else km
  }

  /** The handler for keys 1 and 2 keeps the layout playable. */
  lemma TransposedPlayable(km: seq<KeyNote>, sym: Keycode)
    requires Playable(km)
    ensures Playable(Transposed(km, sym))
  {
    OctaveKeepsPlayable(km);
  }

  /** The first index whose key is sym, or -1: the search loop of the key handlers. */
  function IndexOf(km: seq<KeyNote>, sym: Keycode): (r: int)
    ensures -1 <= r < |km|
    ensures 0 <= r ==> km[r].key == sym && forall j :: 0 <= j < r ==> km[j].key != sym
    ensures r == -1 <==> forall j :: 0 <= j < |km| ==> km[j].key != sym
    decreases |km|
  {
    if |km| == 0 then -1
    else if km[0].key == sym then 0
    else
      var r := IndexOf(km[1..], sym);
      if r < 0 then -1 else r + 1
  }

  /** The global `keymap[]` array, updated in place by the octave handler. */
  class Keymap {
    const notes: array<KeyNote>

    ghost predicate Valid()
      reads this, notes
    {
      notes.Length == KEYMAP_SIZE && Playable(notes[..])
    }

    constructor ()
      ensures Valid() && fresh(notes)
      ensures notes[..] == INITIAL_KEYMAP
    {
      notes := new KeyNote[KEYMAP_SIZE](i requires 0 <= i < KEYMAP_SIZE => INITIAL_KEYMAP[i]);
      new;
      assert notes[..] == INITIAL_KEYMAP;
      InitialPlayable();
    }

    /** The loop `for i ... if (sym == keymap[i].key)`: the first slot holding sym, or -1. */
    method Find(sym: Keycode) returns (i: int)
      requires Valid()
      ensures i == IndexOf(notes[..], sym)
    {
      i := 0;
      while i < notes.Length
        invariant 0 <= i <= notes.Length
        invariant forall j :: 0 <= j < i ==> notes[j].key != sym
      {
        if notes[i].key == sym {
          return;
        }
        i := i + 1;
      }
      i := -1;
    }

    /** octave_up: every frequency doubled in place. */
    method OctaveUp()
      requires notes.Length == KEYMAP_SIZE
      modifies notes
      ensures notes[..] == Doubled(old(notes[..]))
      ensures old(Valid()) && old(notes[0].freq) < OCTAVE_UP_CEILING ==> Valid()
    {
      ghost var was := notes[..];
      var i := 0;
      while i < notes.Length
        invariant 0 <= i <= notes.Length
        invariant forall j :: 0 <= j < i ==> notes[j] == was[j].(freq := was[j].freq * 2.0)
        invariant forall j :: i <= j < notes.Length ==> notes[j] == was[j]
      {
        notes[i] := notes[i].(freq := notes[i].freq * 2.0);
        i := i + 1;
      }
      assert notes[..] == Doubled(was);
      if Playable(was) { OctaveKeepsPlayable(was); }
    }

    /** octave_down: every frequency halved in place. */
    method OctaveDown()
      requires notes.Length == KEYMAP_SIZE
      modifies notes
      ensures notes[..] == Halved(old(notes[..]))
      ensures old(Valid()) && old(notes[0].freq) > OCTAVE_DOWN_FLOOR ==> Valid()
    {
      ghost var was := notes[..];
      var i := 0;
      while i < notes.Length
        invariant 0 <= i <= notes.Length
        invariant forall j :: 0 <= j < i ==> notes[j] == was[j].(freq := was[j].freq / 2.0)
        invariant forall j :: i <= j < notes.Length ==> notes[j] == was[j]
      {
        notes[i] := notes[i].(freq := notes[i].freq / 2.0);
        i := i + 1;
      }
      assert notes[..] == Halved(was);
      if Playable(was) { OctaveKeepsPlayable(was); }
    }

    /** The handler for keys 1 and 2: octave down above A0, octave up below A6. */
    method OctaveKey(sym: Keycode)
      requires Valid()
      modifies notes
      ensures Valid()
      ensures notes[..] == Transposed(old(notes[..]), sym)
    {
      TransposedPlayable(notes[..], sym);
      if sym == KEY_1 && notes[0].freq > OCTAVE_DOWN_FLOOR {
        OctaveDown();
      }
      if sym == KEY_2 && notes[0].freq < OCTAVE_UP_CEILING {
        OctaveUp();
      }
    }
  }
}
