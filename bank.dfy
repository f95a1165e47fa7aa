/** The pattern the filter bank of the subtractive demo and the oscillator bank of
    the additive demo share: a fixed-capacity array whose first `count` entries are
    in use, a `selected` index the edit keys act on, removal by shifting the later
    entries down one place, and selection by clicking a row of the on-screen list. */
module Bank {

  /** The selection invariant: no selection in an empty bank, otherwise an entry in use. */
  predicate SelectionOk(selected: int, count: int)
  {
    if count == 0 then selected == -1 else 0 <= selected < count
  }

  /** The entries in use after removing entry i and shifting the later entries down. */
  function RemoveAt<T>(s: seq<T>, i: int): (r: seq<T>)
    requires 0 <= i < |s|
    ensures |r| == |s| - 1
    ensures forall j :: 0 <= j < i ==> r[j] == s[j]
    ensures forall j :: i <= j < |r| ==> r[j] == s[j + 1]
  {
    s[..i] + s[i + 1..]
  }

  /** Removal keeps the relative order of the entries that stay, and removes exactly one entry. */
  lemma RemoveAtKeepsOrder<T>(s: seq<T>, i: int, j: int, k: int)
    requires 0 <= i < |s| && 0 <= j < k < |s| && j != i && k != i
    ensures var r := RemoveAt(s, i);
      var j', k' := if j < i then j else j - 1, if k < i then k else k - 1;
      0 <= j' < k' < |r| && r[j'] == s[j] && r[k'] == s[k]
  {
  }

  lemma RemoveAtMultiset<T>(s: seq<T>, i: int)
    requires 0 <= i < |s|
    ensures multiset(RemoveAt(s, i)) + multiset{s[i]} == multiset(s)
  {
    assert s == s[..i] + [s[i]] + s[i + 1..];
  }

  /** The selection after a removal has left count entries: reset when the bank is
      empty, clamped to the last entry when it pointed past the end, else kept. */
  function SelectedAfterRemove(selected: int, count: int): (r: int)
    ensures 0 <= count && SelectionOk(selected, count + 1) ==> SelectionOk(r, count)
    ensures 0 < count && 0 <= selected < count ==> r == selected
  {
    if count == 0 then -1
    else if selected >= count then count - 1
    else selected
  }

  // Geometry of the on-screen list: row i spans the heights strictly between
  // 90 + 35·i and 90 + 35·i + 30.
  const LIST_TOP: int := 90
  const ROW_PITCH: int := 35
  const ROW_HEIGHT: int := 30

  /** Height y lies strictly inside row i. */
  predicate OnRow(y: int, i: int)
  {
    LIST_TOP + i * ROW_PITCH < y < LIST_TOP + i * ROW_PITCH + ROW_HEIGHT
  }

  /** The row under height y, computed in closed form, or -1 between and above the rows. */
  function RowUnder(y: int): (r: int)
    ensures r >= -1
  {
    var d := y - LIST_TOP;
    if d > 0 && 0 < d % ROW_PITCH < ROW_HEIGHT then d / ROW_PITCH else -1
  }

  /** The closed form agrees with the row test of the click handler's loop. */
  lemma RowUnderSpec(y: int, i: int)
    requires 0 <= i
    ensures OnRow(y, i) <==> RowUnder(y) == i
  {
    var d := y - LIST_TOP;
    if OnRow(y, i) {
      assert d == i * ROW_PITCH + (d - i * ROW_PITCH);
      assert 0 < d - i * ROW_PITCH < ROW_HEIGHT;
      DivModUnique(d, i, d - i * ROW_PITCH);
    }
    if RowUnder(y) == i {
      assert d == (d / ROW_PITCH) * ROW_PITCH + d % ROW_PITCH;
    }
  }

  /** Quotient and remainder by ROW_PITCH are unique. */
  lemma DivModUnique(d: int, q: int, m: int)
    requires 0 <= m < ROW_PITCH && d == q * ROW_PITCH + m
    ensures d / ROW_PITCH == q && d % ROW_PITCH == m
  {
  }

  /** The selection after a click at height y on a list of count rows: the row under
      the pointer, if there is one, else the selection is kept. */
  function ClickSelect(selected: int, count: int, y: int): (r: int)
    ensures SelectionOk(selected, count) ==> SelectionOk(r, count)
    ensures 0 <= r < count ==> r == selected || OnRow(y, r)
    ensures forall i :: 0 <= i < count && OnRow(y, i) ==> r == i
  {
    var row := RowUnder(y);
    if 0 <= row < count then
      RowUnderSpec(y, row);
      row
    else
      assert forall i :: 0 <= i < count ==> (OnRow(y, i) <==> RowUnder(y) == i) by {
        forall i | 0 <= i < count { RowUnderSpec(y, i); }
      }
      selected
  }

  // The add button of both demos: a 60 × 40 rectangle at (20, 20), open at its edges.
  const BUTTON_X: int := 20
  const BUTTON_Y: int := 20
  const BUTTON_W: int := 60
  const BUTTON_H: int := 40

  predicate OnAddButton(x: int, y: int)
  {
    BUTTON_X < x < BUTTON_X + BUTTON_W && BUTTON_Y < y < BUTTON_Y + BUTTON_H
  }
}
