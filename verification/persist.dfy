/** What the plugin writes into and reads back from a saved game: the
    frame delay and then the game speed, four bytes each, with no tag or
    version. The stream is modelled as a sequence of 32-bit words. */
module Persistence {
  import opened Sprite3D

  /** The bytes of a 32-bit integer: its two's-complement pattern. */
  function ToWord(v: int32): (w: word32)
    ensures (w as int) % 0x1_0000_0000 == (v as int) % 0x1_0000_0000
  {
    (if v < 0 then v as int + 0x1_0000_0000 else v as int) as word32
  }

  /** A 32-bit integer read back from its two's-complement pattern. */
  function FromWord(w: word32): (v: int32)
    ensures (v as int) % 0x1_0000_0000 == (w as int) % 0x1_0000_0000
  {
    if w as int >= 0x8000_0000 then (w as int - 0x1_0000_0000) as int32 else w as int as int32
  }

  lemma IntWordRoundTrip(v: int32, w: word32)
    ensures FromWord(ToWord(v)) == v
    ensures ToWord(FromWord(w)) == w
  {
  }

  /** `Save(handle)`: `frameDelay`, then `gameSpeed`. */
  function SaveWords(st: State): (ws: seq<word32>)
    ensures |ws| == 2
  {
    [st.frameDelay, ToWord(st.gameSpeed)]
  }

  /** `Save(handle)` as calls on the host's file. */
  function Save(st: State, handle: int): (st': State)
    ensures st'.trace == st.trace + [FileWrite(handle, SaveWords(st)[0]), FileWrite(handle, SaveWords(st)[1])]
    ensures st'.(trace := st.trace) == st
  {
    var ws := SaveWords(st);
    st.(trace := st.trace + [FileWrite(handle, ws[0]), FileWrite(handle, ws[1])])
  }

  /** The words a trace wrote to `handle`, in order. */
  function Written(t: seq<Effect>, handle: int): seq<word32>
  {
    if |t| == 0 then []
    else (if t[0].FileWrite? && t[0].handle == handle then [t[0].word] else []) + Written(t[1..], handle)
  }

  /** `Restore(handle)`: reads `frameDelay`, then `gameSpeed`, from the
      next two words of the stream, which must be there. */
  function Restore(st: State, stream: seq<word32>): (st': State)
    requires |stream| >= 2
    ensures SaveWords(st') == stream[..2]
    ensures st'.(frameDelay := st.frameDelay, gameSpeed := st.gameSpeed) == st
  {
    IntWordRoundTrip(FromWord(stream[1]), stream[1]);
    st.(frameDelay := stream[0], gameSpeed := FromWord(stream[1]))
  }

  /** Restoring what `Save` wrote gives back both fields exactly, whatever
      state it is restored into. */
  lemma {:induction false} SaveRestoreRoundTrip(saved: State, handle: int, into: State)
    ensures Written(Save(saved, handle).trace[|saved.trace|..], handle) == SaveWords(saved)
    ensures var back := Restore(into, SaveWords(saved));
      back.frameDelay == saved.frameDelay && back.gameSpeed == saved.gameSpeed
  {
    var ws := SaveWords(saved);
    var t := Save(saved, handle).trace[|saved.trace|..];
    assert t == [FileWrite(handle, ws[0]), FileWrite(handle, ws[1])];
    assert t[1..] == [FileWrite(handle, ws[1])];
    assert t[1..][1..] == [];
    assert Written(t[1..], handle) == [ws[1]] + Written(t[1..][1..], handle);
    assert Written(t, handle) == [ws[0]] + Written(t[1..], handle);
    IntWordRoundTrip(saved.gameSpeed, ws[1]);
  }
}
