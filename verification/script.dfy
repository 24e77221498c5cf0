/** The script-facing object setters that change one coordinate of a pair
    and keep the other, and `Render()` from script, which only queues the
    object for this frame's manual batch. */
module ScriptApi {
  import opened Sprite3D

  /** `D3DObject_SetPosition(obj, x, y)`. */
  function SetPosition(st: State, id: ObjId, x: int32, y: int32): (st': State)
    requires id in st.objects
    ensures id in st'.objects && st'.objects[id].pos == Point(x, y)
    ensures st'.objects[id].stage == st.objects[id].stage && st'.objects[id].anchor == st.objects[id].anchor
    ensures st'.objects.Keys == st.objects.Keys
    ensures forall o | o in st.objects && o != id :: st'.objects[o] == st.objects[o]
    ensures st'.(objects := st.objects) == st
  {
    var obj := st.objects[id];
    st.(objects := st.objects[id := obj.(pos := Point(x, y))])
  }

  /** `D3DObject_SetX(obj, x)`: reads the current `y` and sets the position
      to `(x, y)`. */
  function SetX(st: State, id: ObjId, x: int32): (st': State)
    requires id in st.objects
    ensures id in st'.objects
    ensures st'.objects[id].pos.x == x && st'.objects[id].pos.y == st.objects[id].pos.y
    ensures st'.objects[id].stage == st.objects[id].stage && st'.objects[id].anchor == st.objects[id].anchor
    ensures st'.objects.Keys == st.objects.Keys
    ensures forall o | o in st.objects && o != id :: st'.objects[o] == st.objects[o]
    ensures st'.(objects := st.objects) == st
  {
    var y := st.objects[id].pos.y;
    SetPosition(st, id, x, y)
  }

  /** `D3DObject_SetY(obj, y)`: reads the current `x` and sets the position
      to `(x, y)`. */
  function SetY(st: State, id: ObjId, y: int32): (st': State)
    requires id in st.objects
    ensures id in st'.objects
    ensures st'.objects[id].pos.y == y && st'.objects[id].pos.x == st.objects[id].pos.x
    ensures st'.objects[id].stage == st.objects[id].stage && st'.objects[id].anchor == st.objects[id].anchor
    ensures st'.objects.Keys == st.objects.Keys
    ensures forall o | o in st.objects && o != id :: st'.objects[o] == st.objects[o]
    ensures st'.(objects := st.objects) == st
  {
    var x := st.objects[id].pos.x;
    SetPosition(st, id, x, y)
  }

  /** `D3DObject_SetAnchor(obj, x, y)`. */
  function SetAnchor(st: State, id: ObjId, x: real, y: real): (st': State)
    requires id in st.objects
    ensures id in st'.objects && st'.objects[id].anchor == PointF(x, y)
    ensures st'.objects[id].stage == st.objects[id].stage && st'.objects[id].pos == st.objects[id].pos
    ensures st'.objects.Keys == st.objects.Keys
    ensures forall o | o in st.objects && o != id :: st'.objects[o] == st.objects[o]
    ensures st'.(objects := st.objects) == st
  {
    var obj := st.objects[id];
    st.(objects := st.objects[id := obj.(anchor := PointF(x, y))])
  }

  /** `D3DObject_SetAnchorX(obj, x)`. */
  function SetAnchorX(st: State, id: ObjId, x: real): (st': State)
    requires id in st.objects
    ensures id in st'.objects
    ensures st'.objects[id].anchor.x == x && st'.objects[id].anchor.y == st.objects[id].anchor.y
    ensures st'.objects[id].stage == st.objects[id].stage && st'.objects[id].pos == st.objects[id].pos
    ensures st'.objects.Keys == st.objects.Keys
    ensures forall o | o in st.objects && o != id :: st'.objects[o] == st.objects[o]
    ensures st'.(objects := st.objects) == st
  {
    var y := st.objects[id].anchor.y;
    SetAnchor(st, id, x, y)
  }

  /** `D3DObject_SetAnchorY(obj, y)`. */
  function SetAnchorY(st: State, id: ObjId, y: real): (st': State)
    requires id in st.objects
    ensures id in st'.objects
    ensures st'.objects[id].anchor.y == y && st'.objects[id].anchor.x == st.objects[id].anchor.x
    ensures st'.objects[id].stage == st.objects[id].stage && st'.objects[id].pos == st.objects[id].pos
    ensures st'.objects.Keys == st.objects.Keys
    ensures forall o | o in st.objects && o != id :: st'.objects[o] == st.objects[o]
    ensures st'.(objects := st.objects) == st
  {
    var x := st.objects[id].anchor.x;
    SetAnchor(st, id, x, y)
  }

  /** Setting `x` and then `y` is setting the position. */
  lemma SetXThenYIsSetPosition(st: State, id: ObjId, x: int32, y: int32)
    requires id in st.objects
    ensures SetY(SetX(st, id, x), id, y) == SetPosition(st, id, x, y)
  {
  }

  /** `D3DObject_SetRenderStage(obj, stage)`. */
  function SetRenderStage(st: State, id: ObjId, stage: Stage): (st': State)
    requires id in st.objects
    ensures id in st'.objects && st'.objects[id].stage == stage
    ensures st'.objects[id].pos == st.objects[id].pos && st'.objects[id].anchor == st.objects[id].anchor
    ensures st'.objects.Keys == st.objects.Keys
    ensures forall o | o in st.objects && o != id :: st'.objects[o] == st.objects[o]
    ensures st'.(objects := st.objects) == st
  {
    var obj := st.objects[id];
    st.(objects := st.objects[id := obj.(stage := stage)])
  }

  /** `D3DObject_Render(obj)`: appends the object to the manual batch, with
      no check for an earlier entry of the same object. */
  function QueueRender(st: State, id: ObjId): (st': State)
    requires id in st.objects
    ensures st'.batch == st.batch + [id]
    ensures multiset(st'.batch)[id] == multiset(st.batch)[id] + 1
    ensures Valid(st) ==> Valid(st')
    ensures st'.(batch := st.batch) == st
  {
    st.(batch := st.batch + [id])
  }
}
