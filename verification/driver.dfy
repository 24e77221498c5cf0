/** Renderer selection at graphics initialisation, and the game-speed
    setter exposed to scripts. */
module Driver {
  import opened Wrappers
  import opened CaseFold
  import opened Sprite3D
  import Persistence

  /** `CreateFactory(driverid)`: the Direct3D 9 renderer for `"d3d9"`, the
      OpenGL one for `"ogl"`, in any letter case; anything else gives no
      renderer and leaves the current one alone. */
  function CreateFactory(st: State, driverId: string): (r: (State, Option<Backend>))
    ensures r.1 == Some(D3D9) <==> SameIgnoringCase(driverId, "d3d9")
    ensures r.1 == Some(OGL) <==> SameIgnoringCase(driverId, "ogl")
    ensures r.1.Some? ==> r.0 == st.(factory := r.1)
    ensures r.1.None? ==> r.0 == st
  {
    StrICmpZeroIff(driverId, "d3d9");
    StrICmpZeroIff(driverId, "ogl");
    FoldLowerLiteral("d3d9");
    FoldLowerLiteral("ogl");
    assert "d3d9" != "ogl";
    if StrICmp(driverId, "d3d9") == 0 then
      (st.(factory := Some(D3D9)), Some(D3D9))
    else if StrICmp(driverId, "ogl") == 0 then
      (st.(factory := Some(OGL)), Some(OGL))
    else
      (st, None)
  }

  /** The message the game is aborted with for an unsupported driver id. */
  function UnsupportedMessage(driverId: string): string
  {
    "Unable to initialize plugin: graphics renderer not supported (" + driverId + ")."
  }

  /** `AGS_EngineInitGfx(driverID, data)`: select the renderer and set up
      its graphics mode, or abort the game when the id is not supported. */
  function EngineInitGfx(st: State, driverId: string): (st': State)
    ensures var supported := SameIgnoringCase(driverId, "d3d9") || SameIgnoringCase(driverId, "ogl");
      && (supported ==> st'.factory.Some? && st'.trace == st.trace + [InitGfxMode(st'.factory.value)])
      && (!supported ==> st' == st.(trace := st.trace + [AbortGame(UnsupportedMessage(driverId))]))
    ensures SameIgnoringCase(driverId, "d3d9") ==> st'.factory == Some(D3D9)
    ensures SameIgnoringCase(driverId, "ogl") ==> st'.factory == Some(OGL)
    ensures st'.(factory := st.factory, trace := st.trace) == st
    ensures forall b :: InitGfxMode(b) in st'.trace[|st.trace|..] ==> st'.factory == Some(b)
  {
    var (s, f) := CreateFactory(st, driverId);
    if f.None? then
      st.(trace := st.trace + [AbortGame(UnsupportedMessage(driverId))])
    else
      s.(trace := s.trace + [InitGfxMode(f.value)])
  }

  /** `D3D_SetGameSpeed(speed)`: stores the speed and the frame delay
      `1.f / speed`; the float division belongs to the host's floating
      point unit and its result comes in as `delay`. */
  function SetGameSpeed(st: State, speed: int32, delay: word32): (st': State)
    ensures st'.gameSpeed == speed && st'.frameDelay == delay
    ensures st'.(gameSpeed := st.gameSpeed, frameDelay := st.frameDelay) == st
  {
    st.(gameSpeed := speed, frameDelay := delay)
  }

  /** A speed set from script survives a save and a restore: restoring
      what `Save` writes after `SetGameSpeed(speed, delay)` gives back that
      speed and that delay, whatever state the game is restored into. */
  lemma {:induction false} GameSpeedSurvivesSaveRestore(st: State, speed: int32, delay: word32, handle: int, into: State)
    ensures var saved := SetGameSpeed(st, speed, delay);
      && Persistence.Written(Persistence.Save(saved, handle).trace[|saved.trace|..], handle) == Persistence.SaveWords(saved)
      && Persistence.Restore(into, Persistence.SaveWords(saved)).gameSpeed == speed
      && Persistence.Restore(into, Persistence.SaveWords(saved)).frameDelay == delay
  {
    Persistence.SaveRestoreRoundTrip(SetGameSpeed(st, speed, delay), handle, into);
  }
}
