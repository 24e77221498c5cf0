/** The host-event handler `AGS_EngineOnEvent` and the per-stage `Render`:
    once per frame the host signals the update and then the four screen
    draws; each draw renders the objects of its stage, automatic ones
    first and then the manually queued batch, and the batch is emptied
    after the last stage. */
module Pipeline {
  import opened Wrappers
  import opened Sprite3D
  import Persistence

  /** The host events the plugin hooks. `data` of the pre-screen draw is
      the device handle; `roomViewport` is what the host's `RoomToViewport`
      yields for the room origin on hosts older than `MatrixApiVersion`. */
  datatype HostEvent =
    | SaveGame(handle: int)
    | RestoreGame(handle: int, stream: seq<word32>)
    | PreRender
    | PreScreenDraw(device: int, roomViewport: Point)
    | PreGuiDraw
    | PostScreenDraw
    | FinalScreenDraw
    | Other(code: int, data: int)

  /** The stage a screen-draw event renders, if any. */
  function StageOf(ev: HostEvent): (r: Option<Stage>)
    ensures r.Some? <==> ev.PreScreenDraw? || ev.PreGuiDraw? || ev.PostScreenDraw? || ev.FinalScreenDraw?
  {
    match ev
    case PreScreenDraw(_, _) => Some(Background)
    case PreGuiDraw => Some(Scene)
    case PostScreenDraw => Some(Gui)
    case FinalScreenDraw => Some(Screen)
    case _ => None
  }

  /** The `Render()` calls the manual-batch loop makes for `stage`: one per
      batch entry whose object is in that stage, in batch order. */
  function BatchRenders(batch: seq<ObjId>, objects: map<ObjId, SceneObject>, stage: Stage): (r: seq<Effect>)
    requires AllLive(batch, objects)
    ensures |r| <= |batch|
    ensures forall k | 0 <= k < |r| :: r[k].RenderObject? && r[k].id in batch && objects[r[k].id].stage == stage
  {
    if |batch| == 0 then []
    else
      var rest := BatchRenders(batch[1..], objects, stage);
      if objects[batch[0]].stage == stage then [RenderObject(batch[0])] + rest else rest
  }

  /** The batch loop runs over the batch front to back. */
  lemma {:induction false} BatchRendersAppend(b1: seq<ObjId>, b2: seq<ObjId>, objects: map<ObjId, SceneObject>, stage: Stage)
    requires AllLive(b1, objects) && AllLive(b2, objects)
    ensures AllLive(b1 + b2, objects)
    ensures BatchRenders(b1 + b2, objects, stage) == BatchRenders(b1, objects, stage) + BatchRenders(b2, objects, stage)
  {
    if |b1| > 0 {
      assert (b1 + b2)[1..] == b1[1..] + b2;
      BatchRendersAppend(b1[1..], b2, objects, stage);
    } else {
      assert b1 + b2 == b2;
    }
  }

  /** An object queued `n` times is rendered `n` times in its own stage and
      never in another. */
  lemma {:induction false} BatchRendersCount(batch: seq<ObjId>, objects: map<ObjId, SceneObject>, stage: Stage, id: ObjId)
    requires AllLive(batch, objects)
    ensures Count(BatchRenders(batch, objects, stage), RenderObject(id))
         == if id in objects && objects[id].stage == stage then multiset(batch)[id] else 0
  {
    if |batch| > 0 {
      BatchRendersCount(batch[1..], objects, stage, id);
      assert batch == [batch[0]] + batch[1..];
      assert multiset(batch) == multiset([batch[0]]) + multiset(batch[1..]);
    }
  }

  /** The calls `Render(stage)` makes before the batch loop. */
  function RenderPrologue(st: State, stage: Stage): seq<Effect>
    requires st.factory.Some?
  {
    [QueryScreen, SetScreenMatrixes(st.factory.value, st.hostVersion >= MatrixApiVersion), RenderAll(stage)]
  }

  /** The calls `Render(stage)` makes: screen matrices first, then the
      automatic objects of the stage, then the batch entries of the stage
      in batch order. */
  function StageEffects(st: State, stage: Stage): (r: seq<Effect>)
    requires st.factory.Some? && Valid(st)
    ensures |r| >= 3
    ensures r[1] == SetScreenMatrixes(st.factory.value, st.hostVersion >= MatrixApiVersion)
    ensures r[2] == RenderAll(stage)
    ensures forall k | 3 <= k < |r| :: r[k].RenderObject? && r[k].id in st.batch && st.objects[r[k].id].stage == stage
  {
    RenderPrologue(st, stage) + BatchRenders(st.batch, st.objects, stage)
  }

  /** `Render(stage)` renders a batch entry as often as it is queued when
      its object is in that stage, and never otherwise. */
  lemma StageEffectsCount(st: State, stage: Stage, id: ObjId)
    requires st.factory.Some? && Valid(st)
    ensures Count(StageEffects(st, stage), RenderObject(id))
         == if id in st.objects && st.objects[id].stage == stage then multiset(st.batch)[id] else 0
  {
    var renders := BatchRenders(st.batch, st.objects, stage);
    BatchRendersCount(st.batch, st.objects, stage, id);
    assert multiset(StageEffects(st, stage)) == multiset(RenderPrologue(st, stage)) + multiset(renders);
  }

  /** The calls of `Render(stage)` depend only on the renderer, the host
      version, the objects and the batch. */
  lemma StageEffectsReadsOnly(s: State, t: State, stage: Stage)
    requires s.factory.Some? && Valid(s)
    requires s.factory == t.factory && s.hostVersion == t.hostVersion
    requires s.objects == t.objects && s.batch == t.batch
    ensures Valid(t) && StageEffects(s, stage) == StageEffects(t, stage)
  {
  }

  /** `Render(stage)` as a step of the state: it only adds to the trace;
      in particular the batch is left as it is. */
  function Render(st: State, stage: Stage): (st': State)
    requires st.factory.Some? && Valid(st)
    ensures st'.(trace := st.trace) == st
    ensures st'.trace == st.trace + StageEffects(st, stage)
  {
    st.(trace := st.trace + StageEffects(st, stage))
  }

  /** `AGS_EngineOnEvent(ev, data)`: one action per hooked event, nothing
      for any other, and always the result 0. */
  function OnEvent(st: State, ev: HostEvent): (r: (State, int))
    requires Valid(st)
    requires StageOf(ev).Some? ==> st.factory.Some?
    requires ev.RestoreGame? ==> |ev.stream| >= 2
    ensures r.1 == 0
    ensures Valid(r.0)
    ensures r.0.objects == st.objects && r.0.factory == st.factory && r.0.hostVersion == st.hostVersion
    ensures r.0.batch == if ev.FinalScreenDraw? then [] else st.batch
    ensures !ev.RestoreGame? ==> r.0.frameDelay == st.frameDelay && r.0.gameSpeed == st.gameSpeed
    ensures !ev.PreScreenDraw? ==> r.0.viewport == st.viewport
    ensures ev.Other? ==> r.0 == st
    ensures ev.PreRender? ==> r.0 == st.(trace := st.trace + [UpdateAll])
    ensures ev.SaveGame? ==> r.0 == Persistence.Save(st, ev.handle)
    ensures ev.RestoreGame? ==> r.0 == Persistence.Restore(st, ev.stream)
    ensures ev.PreScreenDraw? ==>
      r.0.viewport == (if st.hostVersion < MatrixApiVersion then ev.roomViewport else Point(0, 0))
    ensures ev.PreScreenDraw? ==> r.0.trace == st.trace + PreScreenDrawPrologue(st, ev.device) + StageEffects(st, Background)
    ensures ev.PreGuiDraw? ==> r.0 == Render(st, Scene)
    ensures ev.PostScreenDraw? ==> r.0 == Render(st, Gui)
    ensures ev.FinalScreenDraw? ==> r.0 == Render(st, Screen).(batch := [])
  {
    match ev
    case SaveGame(handle) => (Persistence.Save(st, handle), 0)
    case RestoreGame(_, stream) => (Persistence.Restore(st, stream), 0)
    case PreRender => (st.(trace := st.trace + [UpdateAll]), 0)
    case PreScreenDraw(device, roomViewport) =>
      var viewport := if st.hostVersion < MatrixApiVersion then roomViewport else Point(0, 0);
      var s := st.(viewport := viewport, trace := st.trace + PreScreenDrawPrologue(st, device));
      StageEffectsReadsOnly(s, st, Background);
      (Render(s, Background), 0)
    case PreGuiDraw => (Render(st, Scene), 0)
    case PostScreenDraw => (Render(st, Gui), 0)
    case FinalScreenDraw => (Render(st, Screen).(batch := []), 0)
    case Other(_, _) => (st, 0)
  }

  /** What the pre-screen draw does before rendering the background stage:
      the viewport lookup on old hosts, then the device re-sync. */
  function PreScreenDrawPrologue(st: State, device: int): seq<Effect>
    requires st.factory.Some?
  {
    (if st.hostVersion < MatrixApiVersion then [RoomToViewport] else []) + [InitGfxDevice(st.factory.value, device)]
  }

  /** The events of one host frame, in the order the host raises them. */
  function Frame(device: int, roomViewport: Point): seq<HostEvent>
  {
    [PreRender, PreScreenDraw(device, roomViewport), PreGuiDraw, PostScreenDraw, FinalScreenDraw]
  }

  /** The host raising a sequence of events one after another. */
  function Run(st: State, evs: seq<HostEvent>): (st': State)
    requires Valid(st)
    requires forall k | 0 <= k < |evs| :: StageOf(evs[k]).Some? ==> st.factory.Some?
    requires forall k | 0 <= k < |evs| :: evs[k].RestoreGame? ==> |evs[k].stream| >= 2
    ensures Valid(st') && st'.factory == st.factory && st'.objects == st.objects
    decreases |evs|
  {
    if |evs| == 0 then st else Run(OnEvent(st, evs[0]).0, evs[1..])
  }

  /** The calls one whole frame makes: the update, the pre-screen draw's
      own calls, then the four stages in order, every stage reading the
      batch as it was before the frame. */
  function FrameEffects(st: State, device: int): seq<Effect>
    requires Valid(st) && st.factory.Some?
  {
    [UpdateAll] + PreScreenDrawPrologue(st, device)
    + StageEffects(st, Background) + StageEffects(st, Scene)
    + StageEffects(st, Gui) + StageEffects(st, Screen)
  }

  /** The host raising one event and then some more. */
  lemma RunCons(st: State, ev: HostEvent, rest: seq<HostEvent>)
    requires Valid(st) && st.factory.Some?
    requires !ev.RestoreGame? && forall k | 0 <= k < |rest| :: !rest[k].RestoreGame?
    ensures Run(st, [ev] + rest) == Run(OnEvent(st, ev).0, rest)
  {
    assert ([ev] + rest)[1..] == rest;
  }

  /** The three draws that follow the pre-screen draw in a frame. */
  function Draws(): seq<HostEvent>
  {
    [PreGuiDraw, PostScreenDraw, FinalScreenDraw]
  }

  /** The last three events of a frame: scene, GUI and screen stages
      rendered from the same batch, which is then emptied. */
  lemma {:induction false} RunDraws(s: State)
    requires Valid(s) && s.factory.Some?
    ensures Run(s, Draws()).batch == []
    ensures Run(s, Draws()).trace
         == s.trace + StageEffects(s, Scene) + StageEffects(s, Gui) + StageEffects(s, Screen)
  {
    var s3 := Render(s, Scene);
    var s4 := Render(s3, Gui);
    var s5 := Render(s4, Screen).(batch := []);
    assert Draws() == [PreGuiDraw] + [PostScreenDraw, FinalScreenDraw];
    RunCons(s, PreGuiDraw, [PostScreenDraw, FinalScreenDraw]);
    assert [PostScreenDraw, FinalScreenDraw] == [PostScreenDraw] + [FinalScreenDraw];
    RunCons(s3, PostScreenDraw, [FinalScreenDraw]);
    assert [FinalScreenDraw] == [FinalScreenDraw] + [];
    RunCons(s4, FinalScreenDraw, []);
    StageEffectsReadsOnly(s, s3, Gui);
    StageEffectsReadsOnly(s, s4, Screen);
  }

  /** A frame starts with the update. */
  lemma RunFrameFirst(st: State, device: int, roomViewport: Point)
    requires Valid(st) && st.factory.Some?
    ensures Run(st, Frame(device, roomViewport))
         == Run(OnEvent(st, PreRender).0, [PreScreenDraw(device, roomViewport)] + Draws())
  {
    var rest := [PreScreenDraw(device, roomViewport)] + Draws();
    assert Frame(device, roomViewport) == [PreRender] + rest;
    RunCons(st, PreRender, rest);
  }

  /** The second event of a frame is the pre-screen draw. */
  lemma RunFrameSecond(s1: State, device: int, roomViewport: Point)
    requires Valid(s1) && s1.factory.Some?
    ensures Run(s1, [PreScreenDraw(device, roomViewport)] + Draws())
         == Run(OnEvent(s1, PreScreenDraw(device, roomViewport)).0, Draws())
  {
    RunCons(s1, PreScreenDraw(device, roomViewport), Draws());
  }

  /** After the update and the pre-screen draw the trace holds the update,
      the pre-screen draw's own calls and the background stage, and the
      objects and the batch are as they were. */
  lemma UpdateAndBackground(st: State, device: int, roomViewport: Point)
    requires Valid(st) && st.factory.Some?
    ensures var s2 := OnEvent(OnEvent(st, PreRender).0, PreScreenDraw(device, roomViewport)).0;
      && s2.trace == st.trace + ([UpdateAll] + PreScreenDrawPrologue(st, device)) + StageEffects(st, Background)
      && s2.objects == st.objects && s2.batch == st.batch && s2.factory == st.factory && s2.hostVersion == st.hostVersion
  {
    var s1 := OnEvent(st, PreRender).0;
    StageEffectsReadsOnly(st, s1, Background);
    assert PreScreenDrawPrologue(s1, device) == PreScreenDrawPrologue(st, device);
  }

  /** Running the five events of a frame makes exactly the frame's calls
      and leaves the batch empty. */
  lemma {:induction false} RunFrame(st: State, device: int, roomViewport: Point)
    requires Valid(st) && st.factory.Some?
    ensures Run(st, Frame(device, roomViewport)).batch == []
    ensures Run(st, Frame(device, roomViewport)).trace == st.trace + FrameEffects(st, device)
  {
    var s2 := OnEvent(OnEvent(st, PreRender).0, PreScreenDraw(device, roomViewport)).0;
    RunFrameFirst(st, device, roomViewport);
    RunFrameSecond(OnEvent(st, PreRender).0, device, roomViewport);
    UpdateAndBackground(st, device, roomViewport);
    RunDraws(s2);
    var head := [UpdateAll] + PreScreenDrawPrologue(st, device);
    StageEffectsReadsOnly(st, s2, Scene);
    StageEffectsReadsOnly(st, s2, Gui);
    StageEffectsReadsOnly(st, s2, Screen);
    var bg, sc, gui, scr := StageEffects(st, Background), StageEffects(st, Scene), StageEffects(st, Gui), StageEffects(st, Screen);
    AppendAssoc(st.trace, head, bg);
    AppendAssoc(st.trace, head + bg, sc);
    AppendAssoc(st.trace, head + bg + sc, gui);
    AppendAssoc(st.trace, head + bg + sc + gui, scr);
  }

  lemma AppendAssoc(a: seq<Effect>, b: seq<Effect>, c: seq<Effect>)
    ensures a + (b + c) == a + b + c
  {
  }

  /** Counting over a concatenation. */
  lemma CountAppend(a: seq<Effect>, b: seq<Effect>, e: Effect)
    ensures Count(a + b, e) == Count(a, e) + Count(b, e)
  {
    assert multiset(a + b) == multiset(a) + multiset(b);
  }

  /** Each batch entry is rendered in exactly one of the four stages: the
      one its object is in. */
  lemma StagesCount(st: State, id: ObjId)
    requires Valid(st) && st.factory.Some?
    requires id in st.objects
    ensures Count(StageEffects(st, Background), RenderObject(id)) + Count(StageEffects(st, Scene), RenderObject(id))
          + Count(StageEffects(st, Gui), RenderObject(id)) + Count(StageEffects(st, Screen), RenderObject(id))
         == multiset(st.batch)[id]
  {
    StageEffectsCount(st, Background, id);
    StageEffectsCount(st, Scene, id);
    StageEffectsCount(st, Gui, id);
    StageEffectsCount(st, Screen, id);
  }

  /** Counting over the first half of a frame's calls: the update, the
      pre-screen draw's calls and the background and scene stages. */
  lemma {:induction false} FirstHalfCount(st: State, device: int, id: ObjId)
    requires Valid(st) && st.factory.Some?
    ensures Count([UpdateAll] + PreScreenDrawPrologue(st, device) + StageEffects(st, Background) + StageEffects(st, Scene), RenderObject(id))
         == Count(StageEffects(st, Background), RenderObject(id)) + Count(StageEffects(st, Scene), RenderObject(id))
  {
    var e := RenderObject(id);
    var head := [UpdateAll] + PreScreenDrawPrologue(st, device);
    assert Count(head, e) == 0;
    CountAppend(head, StageEffects(st, Background), e);
    CountAppend(head + StageEffects(st, Background), StageEffects(st, Scene), e);
  }

  /** Over a frame's calls every queued entry is rendered exactly once:
      an object queued `n` times is rendered `n` times. */
  lemma {:induction false} FrameEffectsCount(st: State, device: int, id: ObjId)
    requires Valid(st) && st.factory.Some?
    requires id in st.objects
    ensures Count(FrameEffects(st, device), RenderObject(id)) == multiset(st.batch)[id]
  {
    var e := RenderObject(id);
    var half := [UpdateAll] + PreScreenDrawPrologue(st, device) + StageEffects(st, Background) + StageEffects(st, Scene);
    FirstHalfCount(st, device, id);
    CountAppend(half, StageEffects(st, Gui), e);
    CountAppend(half + StageEffects(st, Gui), StageEffects(st, Screen), e);
    StagesCount(st, id);
  }

  /** One whole frame renders each queued entry exactly once, in the stage
      of its object, and leaves the batch empty for the next frame. */
  lemma {:induction false} FrameRendersBatchOnce(st: State, device: int, roomViewport: Point)
    requires Valid(st) && st.factory.Some?
    ensures var end := Run(st, Frame(device, roomViewport));
      && end.batch == []
      && |st.trace| <= |end.trace| && end.trace[..|st.trace|] == st.trace
      && forall id | id in st.objects :: Count(end.trace[|st.trace|..], RenderObject(id)) == multiset(st.batch)[id]
  {
    var end := Run(st, Frame(device, roomViewport));
    RunFrame(st, device, roomViewport);
    assert end.trace[|st.trace|..] == FrameEffects(st, device);
    forall id | id in st.objects
      ensures Count(end.trace[|st.trace|..], RenderObject(id)) == multiset(st.batch)[id]
    {
      FrameEffectsCount(st, device, id);
    }
  }
}
