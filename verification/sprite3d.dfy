/** The run-time state of the plugin that the frame and stage dispatcher
    works on. The plugin keeps it in process-wide globals (`screen`,
    `factory`, `manualRenderBatch`) and in the scene objects; here it is one
    record, and every call the plugin makes into code outside this model
    (the host engine, the renderer, the scene objects' own update and draw)
    is appended to `trace` as an `Effect`. */
module Sprite3D {
  import opened Wrappers

  /** A script `int`/`long`: 32 bits, two's complement. */
  newtype int32 = x: int | -0x8000_0000 <= x < 0x8000_0000

  /** The contents of four bytes, read as an unsigned number. */
  newtype word32 = x: int | 0 <= x < 0x1_0000_0000

  /** The four render stages, in the order the host draws them in a frame. */
  datatype Stage = Background | Scene | Gui | Screen

  /** The two renderer back-ends. */
  datatype Backend = D3D9 | OGL

  datatype Point = Point(x: int32, y: int32)
  datatype PointF = PointF(x: real, y: real)

  /** Handle of a scene object (the `BaseObject*` the plugin passes around). */
  type ObjId = nat

  /** The parts of a scene object the dispatcher and the script setters
      read or write. */
  datatype SceneObject = SceneObject(stage: Stage, pos: Point, anchor: PointF)

  /** A call out of the modelled code, in the order it is made. */
  datatype Effect =
    | UpdateAll                                       // BaseObject::UpdateAll()
    | RoomToViewport                                  // engine->RoomToViewport(...)
    | InitGfxDevice(backend: Backend, device: int)    // factory->InitGfxDevice(data)
    | QueryScreen                                     // engine->GetScreenDimensions(...)
    | SetScreenMatrixes(backend: Backend, fromHost: bool)
    | RenderAll(stage: Stage)                         // BaseObject::RenderAll(stage)
    | RenderObject(id: ObjId)                         // obj->Render()
    | InitGfxMode(backend: Backend)                   // factory->InitGfxMode(&screen, data)
    | AbortGame(message: string)                      // engine->AbortGame(message)
    | FileWrite(handle: int, word: word32)              // engine->FWrite of one 4-byte field

  /** `frameDelay` is a 32-bit float; it is only ever copied, so its bit
      pattern is kept as is. `hostVersion` is the engine interface version. */
  datatype State = State(
    objects: map<ObjId, SceneObject>,
    batch: seq<ObjId>,
    factory: Option<Backend>,
    frameDelay: word32,
    gameSpeed: int32,
    hostVersion: int,
    viewport: Point,
    trace: seq<Effect>)

  /** Engine interface version from which the host supplies its
      world, view and projection matrices. */
  const MatrixApiVersion := 25

  /** Every queued object is a live object (the batch holds raw pointers). */
  predicate AllLive(batch: seq<ObjId>, objects: map<ObjId, SceneObject>)
  {
    forall i | 0 <= i < |batch| :: batch[i] in objects
  }

  predicate Valid(st: State)
  {
    AllLive(st.batch, st.objects)
  }

  /** Occurrences of `e` in a trace. */
  function Count(t: seq<Effect>, e: Effect): nat
  {
    multiset(t)[e]
  }
}
