/** The oscilloscope ring buffer of every demo: WAVE_BUF samples `wave_vis`
    and the write cursor `wave_pos`, which each audio callback advances by one
    per sample written. */
module Scope {
  import opened Dsp

  class WaveVis {
    const vis: array<real>
    var pos: int

    ghost predicate Valid()
      reads this
    {
      vis.Length == WAVE_BUF && 0 <= pos < WAVE_BUF
    }

    /** The zero-initialised global buffer with the cursor at 0. */
    constructor ()
      ensures Valid() && fresh(vis)
      ensures pos == 0 && vis[..] == seq(WAVE_BUF, _ => 0.0)
    {
      vis := new real[WAVE_BUF](_ => 0.0);
      pos := 0;
    }

    /** `wave_vis[wave_pos] = s; wave_pos = (wave_pos + 1) % WAVE_BUF;` */
    method Push(s: real)
      requires Valid()
      modifies this, vis
      ensures Valid()
      ensures vis[..] == old(vis[..])[old(pos) := s]
      ensures pos == (old(pos) + 1) % WAVE_BUF
    {
      vis[pos] := s;
      pos := (pos + 1) % WAVE_BUF;
    }
  }

  /** Writing one more sample extends the ring-buffer history by that sample. */
  lemma RingWriteSnoc(vis: seq<real>, pos: int, out: seq<real>, s: real)
    requires |vis| == WAVE_BUF && 0 <= pos
    ensures RingWrite(vis, pos, out + [s]) == RingWrite(vis, pos, out)[(pos + |out|) % WAVE_BUF := s]
  {
    assert (out + [s])[..|out|] == out;
  }

  /** Advancing the cursor once more after n writes from pos. */
  lemma CursorStep(pos: int, n: int)
    requires 0 <= pos < WAVE_BUF && 0 <= n
    ensures ((pos + n) % WAVE_BUF + 1) % WAVE_BUF == (pos + n + 1) % WAVE_BUF
  {
  }

  /** The cursor after n writes from pos, advanced one slot per write and wrapped to 0
      at the end of the buffer. */
  function Cursor(pos: int, n: nat): (c: int)
    requires 0 <= pos < WAVE_BUF
    ensures 0 <= c < WAVE_BUF
    decreases n
  {
    if n == 0 then pos else (Cursor(pos, n - 1) + 1) % WAVE_BUF
  }

  /** The cursor after n writes is pos + n modulo WAVE_BUF. */
  lemma {:induction false} CursorMod(pos: int, n: nat)
    requires 0 <= pos < WAVE_BUF
    ensures Cursor(pos, n) == (pos + n) % WAVE_BUF
    decreases n
  {
    if n > 0 {
      CursorMod(pos, n - 1);
      CursorStep(pos, n - 1);
    }
  }
}
