/** The fixed pool of MAX_VOICES voices of the subtractive and the FM demo, seen
    through the two fields the allocation rules read: whether a slot is active and
    which key it is bound to. The search helpers `find_voice`, `alloc_voice` and
    `is_key_active`, and the effect of the note-on and note-off handlers on these
    fields, are specified here once; each demo's voice array projects onto it. */
module Pool {
  import opened Keys

  const MAX_VOICES: int := 8

  datatype Slot = Slot(active: bool, key: Keycode)

  /** The slot is sounding the key. */
  predicate Holds(s: Slot, key: Keycode)
  {
    s.active && s.key == key
  }

  /** find_voice: the first active slot bound to key, or -1. */
  function Find(s: seq<Slot>, key: Keycode): (r: int)
    ensures -1 <= r < |s|
    ensures 0 <= r ==> Holds(s[r], key) && forall j :: 0 <= j < r ==> !Holds(s[j], key)
    ensures r == -1 <==> forall j :: 0 <= j < |s| ==> !Holds(s[j], key)
    decreases |s|
  {
    if |s| == 0 then -1
    else if Holds(s[0], key) then 0
    else
      var r := Find(s[1..], key);
      if r < 0 then -1 else r + 1
  }

  /** The pool has an inactive slot. */
  predicate HasFree(s: seq<Slot>)
  {
    exists j :: 0 <= j < |s| && !s[j].active
  }

  /** alloc_voice: the first inactive slot, or slot 0 when every slot is active. */
  function Alloc(s: seq<Slot>): (r: int)
    ensures 0 <= r && (|s| > 0 ==> r < |s|)
    ensures HasFree(s) ==> !s[r].active && forall j :: 0 <= j < r ==> s[j].active
    ensures !HasFree(s) ==> r == 0
    decreases |s|
  {
    if |s| == 0 then 0
    else if !s[0].active then 0
    else
      var r := Alloc(s[1..]);
      if HasFree(s[1..]) then r + 1 else 0
  }

  /** is_key_active: some active slot is bound to key, that is, the key is one of the
      keys currently sounding. */
  predicate IsActive(s: seq<Slot>, key: Keycode)
    ensures IsActive(s, key) <==> key in ActiveKeys(s)
  {
    exists j :: 0 <= j < |s| && Holds(s[j], key)
  }

  /** is_key_active answers exactly when find_voice finds a slot. */
  lemma IsActiveIffFound(s: seq<Slot>, key: Keycode)
    ensures IsActive(s, key) <==> Find(s, key) >= 0
  {
    if Find(s, key) >= 0 {
      assert Holds(s[Find(s, key)], key);
    }
  }

  /** The slot the note-on handler writes: the active slot already holding the key,
      else the first inactive slot, else slot 0 (a steal). */
  function Choose(s: seq<Slot>, key: Keycode): (v: int)
    requires |s| > 0
    ensures 0 <= v < |s|
    ensures IsActive(s, key) ==> Holds(s[v], key) && forall j :: 0 <= j < v ==> !Holds(s[j], key)
    ensures !IsActive(s, key) && HasFree(s) ==> !s[v].active && forall j :: 0 <= j < v ==> s[j].active
    ensures !IsActive(s, key) && !HasFree(s) ==> v == 0
  {
    IsActiveIffFound(s, key);
    var v := Find(s, key);
    if v < 0 then Alloc(s) else v
  }

  /** No two active slots are bound to the same key. */
  ghost predicate KeysUnique(s: seq<Slot>)
  {
    forall i, j :: 0 <= i < j < |s| && s[i].active && s[j].active ==> s[i].key != s[j].key
  }

  /** The keys currently sounding. */
  ghost function ActiveKeys(s: seq<Slot>): set<Keycode>
  {
    set j | 0 <= j < |s| && s[j].active :: s[j].key
  }

  /** The pool after note-on: the chosen slot becomes active on key; no other slot changes. */
  function NoteOn(s: seq<Slot>, key: Keycode): (r: seq<Slot>)
    requires |s| > 0
    ensures |r| == |s|
    ensures forall j :: 0 <= j < |s| && j != Choose(s, key) ==> r[j] == s[j]
    ensures Holds(r[Choose(s, key)], key)
  {
    s[Choose(s, key) := Slot(true, key)]
  }

  /** The pool after note-off: the first active slot on key becomes inactive; a key
      that is not sounding changes nothing. */
  function NoteOff(s: seq<Slot>, key: Keycode): (r: seq<Slot>)
    ensures |r| == |s|
    ensures !IsActive(s, key) ==> r == s
    ensures IsActive(s, key) ==> r == s[Find(s, key) := Slot(false, key)]
  {
    IsActiveIffFound(s, key);
    var v := Find(s, key);
    if v < 0 then s else s[v := s[v].(active := false)]
  }

  /** Note-on keeps active keys unique, the steal of slot 0 included. */
  lemma NoteOnKeepsUnique(s: seq<Slot>, key: Keycode)
    requires |s| > 0 && KeysUnique(s)
    ensures KeysUnique(NoteOn(s, key))
  {
    var v, r := Choose(s, key), NoteOn(s, key);
    forall i, j | 0 <= i < j < |r| && r[i].active && r[j].active
      ensures r[i].key != r[j].key
    {
      if i == v {
        assert r[j] == s[j];
        if IsActive(s, key) {
          assert Holds(s[v], key);
        } else {
          assert !Holds(s[j], key);
        }
      } else if j == v {
        assert r[i] == s[i];
        if IsActive(s, key) {
          assert Holds(s[v], key);
        } else {
          assert !Holds(s[i], key);
        }
      }
    }
  }

  /** Note-off keeps active keys unique. */
  lemma NoteOffKeepsUnique(s: seq<Slot>, key: Keycode)
    requires KeysUnique(s)
    ensures KeysUnique(NoteOff(s, key))
  {
  }

  /** The sounding keys after note-on: the key joins them; when the pool was full and
      the key was not sounding, the key stolen from slot 0 leaves them. */
  lemma NoteOnActiveKeys(s: seq<Slot>, key: Keycode)
    requires |s| > 0 && KeysUnique(s)
    ensures IsActive(s, key) || HasFree(s) ==> ActiveKeys(NoteOn(s, key)) == ActiveKeys(s) + {key}
    ensures !IsActive(s, key) && !HasFree(s) ==>
      ActiveKeys(NoteOn(s, key)) == ActiveKeys(s) - {s[0].key} + {key}
  {
    var v, r := Choose(s, key), NoteOn(s, key);
    if IsActive(s, key) || HasFree(s) {
      forall k | k in ActiveKeys(s) + {key} ensures k in ActiveKeys(r) {
        if k == key {
          assert r[v].active && r[v].key == key;
        } else {
          var j :| 0 <= j < |s| && s[j].active && s[j].key == k;
          assert j != v by {
            if IsActive(s, key) { assert Holds(s[v], key); }
          }
          assert r[j] == s[j];
        }
      }
    } else {
      assert v == 0;
      forall k | k in ActiveKeys(s) - {s[0].key} + {key} ensures k in ActiveKeys(r) {
        if k == key {
          assert r[0].active && r[0].key == key;
        } else {
          var j :| 0 <= j < |s| && s[j].active && s[j].key == k;
          assert j != 0;
          assert r[j] == s[j];
        }
      }
      forall k | k in ActiveKeys(r) ensures k in ActiveKeys(s) - {s[0].key} + {key} {
        var j :| 0 <= j < |r| && r[j].active && r[j].key == k;
        if j != 0 {
          assert r[j] == s[j];
          assert s[0].active;
          assert s[j].key != s[0].key;
        }
      }
    }
  }

  /** With unique keys, note-off silences the key entirely and leaves every other key sounding. */
  lemma NoteOffActiveKeys(s: seq<Slot>, key: Keycode)
    requires KeysUnique(s)
    ensures ActiveKeys(NoteOff(s, key)) == ActiveKeys(s) - {key}
    ensures !IsActive(NoteOff(s, key), key)
  {
    var r := NoteOff(s, key);
    IsActiveIffFound(s, key);
    if IsActive(s, key) {
      var v := Find(s, key);
      forall k | k in ActiveKeys(s) - {key} ensures k in ActiveKeys(r) {
        var j :| 0 <= j < |s| && s[j].active && s[j].key == k;
        assert j != v;
        assert r[j] == s[j];
      }
      forall j | 0 <= j < |r| ensures !Holds(r[j], key) {
        if j != v && s[j].active {
          assert s[v].active;
        }
      }
    }
  }

  /** With unique keys, a second note-off of the same key changes nothing; this is why
      the key-up handler, which runs note-off once per keymap entry equal to the key,
      acts like a single note-off. */
  lemma NoteOffIdempotent(s: seq<Slot>, key: Keycode)
    requires KeysUnique(s)
    ensures NoteOff(NoteOff(s, key), key) == NoteOff(s, key)
  {
    NoteOffActiveKeys(s, key);
  }
}
