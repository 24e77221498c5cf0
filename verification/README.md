# ags_sprite3d core in Dafny

A model of the two sequential parts of the `ags_sprite3d` plugin for the
Adventure Game Studio engine, with proofs of what they promise.

- **Matrix and texture helpers of the OpenGL backend** (`OGLHelper.cpp`):
  - the scale+translate, identity and rotation matrix constructors;
  - `MatrixMultiply`, with its reversed operand order and its write through
    a temporary;
  - the row packing of `SetTextureData`;
  - `CreateShaderProgram` / `DeleteShaderProgram`. These are a ledger of the
    GL objects each path creates and deletes. Compile and link outcomes are
    inputs.
- **Frame and stage dispatcher of the plugin** (`ags_sprite3d.cpp`):
  - renderer selection from the host's driver id, with a case-insensitive
    compare;
  - graphics initialisation and the game-speed setter;
  - the script setters;
  - the manual render batch and `Render(stage)`;
  - the host-event handler `AGS_EngineOnEvent`;
  - saving and restoring the two screen fields.

The plugin's run-time state is one record, `Sprite3D.State`. It holds:

- the scene objects, each with a render stage, a position and an anchor;
- the manual batch;
- the selected renderer;
- the frame delay and game speed;
- the host interface version;
- the viewport.

Every call the plugin makes into code outside the model is appended to a
trace as an `Effect`, except the calls listed under "Left out". The traced
calls go to the host, the renderer, and the scene objects' own update and
draw.

Files:

| file | module | contents |
|---|---|---|
| `matrix.dfy` | `Matrix` | 16-real matrices, constructors, `Multiply`, the reference product, `MatrixMultiply` over a flat memory of cells |
| `texture.dfy` | `Texture` | `SetTextureData` row packing |
| `shader.dfy` | `Shader` | shader-program creation and deletion as a GL-object ledger |
| `casefold.dfy` | `CaseFold` | C-string `stricmp` |
| `wrappers.dfy` | `Wrappers` | `Option` |
| `sprite3d.dfy` | `Sprite3D` | plugin state, scene objects, effects |
| `driver.dfy` | `Driver` | `CreateFactory`, `AGS_EngineInitGfx`, `D3D_SetGameSpeed` |
| `script.dfy` | `ScriptApi` | the `D3DObject_*` setters and `D3DObject_Render` |
| `persist.dfy` | `Persistence` | `Save` / `Restore` |
| `pipeline.dfy` | `Pipeline` | `Render(stage)`, `AGS_EngineOnEvent`, a whole frame |

## Model

| member | source | states |
|---|---|---|
| Matrix.Cells | ags_sprite3d/OGLHelper.cpp:83 | the flat 16-cell view of a matrix has 16 cells and reads back to the same matrix |
| Matrix.AtIsCell | ags_sprite3d/OGLHelper.cpp:77-80 | `m[i][j]` and field `_(i+1)(j+1)` name the same cell, so the field-writing constructors and the index-reading multiply agree |
| Matrix.SetMatrix | ags_sprite3d/OGLHelper.cpp:7-25 | the result is 2D affine and maps the row vector `(x, y, 0, 1)` to `(sx*x + tx, sy*y + ty, 0, 1)` |
| Matrix.Identity | ags_sprite3d/OGLHelper.cpp:27-45 | the result is 2D affine, fixes every vector, and its cells are 1 on the diagonal and 0 elsewhere |
| Matrix.Rotation | ags_sprite3d/OGLHelper.cpp:47-68 | rotation by sine `s` and cosine `c` maps `(x, y, 0, 1)` to `(c*x + s*y, c*y - s*x, 0, 1)`; the angle 0 (`s = 0`, `c = 1`) gives the identity |
| Matrix.MultiplyIsReversedProduct | ags_sprite3d/OGLHelper.cpp:70-84 | `MatrixMultiply(result, a, b)` is the conventional product `b . a`, checked against an independently defined row-by-column product |
| Matrix.IdentityIsNeutral | ags_sprite3d/OGLHelper.cpp:27-84 | multiplying by the identity on either side returns the other operand |
| Matrix.TransformMultiply | ags_sprite3d/OGLHelper.cpp:70-84 | transforming a point by `MatrixMultiply(a, b)` applies `b` first and then `a` |
| Matrix.MultiplyKeepsAffine | ags_sprite3d/OGLHelper.cpp:70-84 | the product of two 2D affine matrices is 2D affine |
| Matrix.ScaleTranslateCompose | ags_sprite3d/OGLHelper.cpp:7-84 | two scale+translate matrices multiply to `SetMatrix(tx2*sx1 + tx1, ty2*sy1 + ty1, sx1*sx2, sy1*sy2)` |
| Matrix.RotationInverse | ags_sprite3d/OGLHelper.cpp:47-84 | with `s*s + c*c = 1`, the rotations `(s, c)` and `(-s, c)` multiply to the identity in either order |
| Matrix.MatrixMultiply | ags_sprite3d/OGLHelper.cpp:70-84 | on a flat memory of cells, the sixteen cells at `result` end up holding `b . a` of the operands as they were before the call, even when `result` is `a` or `b`, because every cell is computed into the temporary before the copy; every other cell is unchanged |
| Texture.PackRowsAt | ags_sprite3d/OGLHelper.cpp:103-107 | byte `k` of row `y` is at offset `pitch*y + k` of the packed buffer |
| Texture.SetTextureData | ags_sprite3d/OGLHelper.cpp:99-112 | the buffer holds exactly `width*height*4` bytes, and byte `4*width*y + k` is `data[y][k]` for every `y < height` and `k < 4*width`; it is the rows concatenated in order; the result is always true |
| Shader.CreateShaderProgram | ags_sprite3d/OGLHelper.cpp:143-193 | success iff both compiles and the link succeed; only success writes the program handle, and failure leaves `prg` alone. The deletions per path are: none on a vertex failure; the fragment shader on a fragment failure; the program and the fragment shader on a link failure; both shaders, each after its detach, on success. Every deletion is of an object created earlier. What stays allocated is the program on success and the vertex shader on failure |
| Shader.FragmentFailureLeaksVertexShader | ags_sprite3d/OGLHelper.cpp:158-168 | a compiled vertex shader stays allocated when the fragment shader fails |
| Shader.CreateShaderProgramReleasing | ags_sprite3d/OGLHelper.cpp:143-193 | the same outcome and handle behaviour, with nothing left allocated on any failure path |
| Shader.DeleteShaderProgram | ags_sprite3d/OGLHelper.cpp:195-200 | the handle is cleared; the program is deleted exactly when the handle was non-zero; nothing is created |
| Shader.CreateThenDeleteReleasesAll | ags_sprite3d/OGLHelper.cpp:143-200 | a program that was created and then deleted leaves no GL object behind |
| CaseFold.StrICmpZeroIff | ags_sprite3d/ags_sprite3d.cpp:216-221 | `stricmp` gives 0 exactly when the two C strings are equal once letters are lower-cased |
| Driver.CreateFactory | ags_sprite3d/ags_sprite3d.cpp:214-227 | `"d3d9"` in any case selects Direct3D 9 and `"ogl"` selects OpenGL, in both directions; a selected renderer becomes the current one; any other id yields none and changes nothing |
| Driver.EngineInitGfx | ags_sprite3d/ags_sprite3d.cpp:525-537 | `"d3d9"` in any case selects Direct3D 9 and `"ogl"` selects OpenGL, and the graphics mode is then set up on that renderer; an unsupported id only aborts the game with the message naming the id; nothing but the renderer and the calls made changes |
| Driver.SetGameSpeed | ags_sprite3d/ags_sprite3d.cpp:237-241 | stores the speed and the frame delay and nothing else |
| Driver.GameSpeedSurvivesSaveRestore | ags_sprite3d/ags_sprite3d.cpp:237-241 | a speed and frame delay set from script are what `Save` writes, and restoring them into any state gives both back |
| ScriptApi.SetPosition | ags_sprite3d/ags_sprite3d.cpp:371 | the object's position becomes `(x, y)`; its stage and anchor, the other objects and the rest of the state are unchanged |
| ScriptApi.SetX | ags_sprite3d/ags_sprite3d.cpp:299 | only the object's `x` changes; its `y`, stage, anchor, the other objects and the rest of the state are unchanged |
| ScriptApi.SetY | ags_sprite3d/ags_sprite3d.cpp:301 | only the object's `y` changes, as for `SetX` |
| ScriptApi.SetXThenYIsSetPosition | ags_sprite3d/ags_sprite3d.cpp:299-371 | setting `x` and then `y` is the same as setting the position |
| ScriptApi.SetAnchor | ags_sprite3d/ags_sprite3d.cpp:373-376 | the object's anchor becomes `(x, y)` and nothing else changes |
| ScriptApi.SetAnchorX | ags_sprite3d/ags_sprite3d.cpp:306-308 | only the anchor's `x` changes |
| ScriptApi.SetAnchorY | ags_sprite3d/ags_sprite3d.cpp:313-315 | only the anchor's `y` changes |
| ScriptApi.SetRenderStage | ags_sprite3d/ags_sprite3d.cpp:365 | only the object's render stage changes |
| ScriptApi.QueueRender | ags_sprite3d/ags_sprite3d.cpp:387 | the object is appended to the end of the batch, with no check for an earlier entry, so its count there grows by one; nothing else changes |
| Persistence.IntWordRoundTrip | ags_sprite3d/ags_sprite3d.cpp:554-564 | a 32-bit integer written as four bytes reads back as itself, and four bytes read as an integer write back as themselves |
| Persistence.Save | ags_sprite3d/ags_sprite3d.cpp:550-557 | writes `frameDelay` and then `gameSpeed` to `handle`; nothing but the calls made changes |
| Persistence.Restore | ags_sprite3d/ags_sprite3d.cpp:559-566 | the first word read becomes the frame delay and the second the game speed; nothing else changes |
| Persistence.SaveRestoreRoundTrip | ags_sprite3d/ags_sprite3d.cpp:550-566 | `Save` writes the frame delay and then the game speed to the given file; restoring those words into any state gives back both fields exactly |
| Pipeline.BatchRendersCount | ags_sprite3d/ags_sprite3d.cpp:587-593 | the batch loop renders an object once per batch occurrence when its stage is the one drawn, and never otherwise |
| Pipeline.BatchRendersAppend | ags_sprite3d/ags_sprite3d.cpp:587-593 | the batch loop goes through the batch front to back |
| Pipeline.StageEffects | ags_sprite3d/ags_sprite3d.cpp:568-594 | the screen matrices are set, then the stage's automatic objects are drawn, then come only renders of batch entries in that stage |
| Pipeline.StageEffectsCount | ags_sprite3d/ags_sprite3d.cpp:585-593 | `Render(stage)` renders each batch entry of that stage as often as it occurs, and objects of other stages not at all |
| Pipeline.Render | ags_sprite3d/ags_sprite3d.cpp:568-594 | `Render(stage)` only adds its calls to the trace; the batch and everything else are unchanged |
| Pipeline.OnEvent | ags_sprite3d/ags_sprite3d.cpp:596-646 | the result is always 0. Per event: the update for the pre-render; the viewport reset, the device re-sync and then the background stage for the pre-screen draw; the scene, GUI and screen stages for the other three draws; `Save` / `Restore` for the save and restore events; nothing for any other event. The batch is emptied only by the final screen draw |
| Pipeline.RunFrame | ags_sprite3d/ags_sprite3d.cpp:610-643 | one frame's five events make the update, the pre-screen draw's calls and the four stages in draw order, all from the batch as it was, and leave the batch empty |
| Pipeline.StagesCount | ags_sprite3d/ags_sprite3d.cpp:585-593 | summed over the four stages, each live object is rendered from the batch exactly as often as it is queued |
| Pipeline.FrameEffectsCount | ags_sprite3d/ags_sprite3d.cpp:587-643 | over one frame, every object is rendered from the batch exactly as often as it was queued |
| Pipeline.FrameRendersBatchOnce | ags_sprite3d/ags_sprite3d.cpp:596-646 | after a frame the batch is empty, the earlier trace is kept, and every queued object has been rendered exactly as often as it was queued |

## Left out

- The GL and D3D calls themselves are left out: texture upload, shader source, compile and link, and `glGenTextures` with its parameters in `CreateTexture` (ags_sprite3d/OGLHelper.cpp:86-97). These are foreign library calls. Compile and link outcomes and the program handle are parameters instead.
- `OutputShaderError` is left out. It formats the info log for the debug output; it appears only as a `ReportError` entry naming the object.
- `sinf` / `cosf` and float rounding are not modelled. Matrix cells are real numbers, and the rotation takes the sine and cosine as its parameters.
- Driver.SetGameSpeed: the frame delay `1.f / speed` is float division with no guard for `speed == 0`. It arrives as the parameter `delay`.
- The save stream models the frame delay only as its four-byte pattern.
- The scene objects' own behaviour is left out: `BaseObject::UpdateAll`, `RenderAll`, `obj->Render()`, transforms, parents, tint, and the enabled/visible checks. These are opaque trace entries, since their code is not part of this model.
- Host plumbing is left out:
  - `DllMain`, editor registration, the script header, the `REG` macros, `testCall`;
  - managed-object keys and `GetRenderStageDesc`;
  - the byte-level `FWrite` / `FRead`;
  - `Restore`'s reads, which are not traced.

  `GetScreenDimensions` is traced as `QueryScreen`, but its writes to `screen.width`, `screen.height` and `screen.bpp` are dropped. The host's `RoomToViewport` result is the event's `roomViewport` parameter. The file is a sequence of 32-bit words.
- The `SCRIPT_FLOAT` macros, the device-pointer cast in `InitGfxDevice`, the video-object stubs and `delete` versus `delete[]` in `SetTextureData` are left out. None of them has behaviour to state.
- The `DBG` debug logging is left out (ags_sprite3d/ags_sprite3d.cpp:553-565, 571 and ags_sprite3d/OGLHelper.cpp:191). It only writes to the debug output.
- `engine->IsGamePaused()` is left out. `AGS_EngineOnEvent` calls it but does nothing with the answer.
- `AGSE_*` event codes are a datatype, `HostEvent`, because their numeric values are not in these files. `Other` stands for every event the handler ignores.
- Persistence.Restore: it requires at least two words in the stream. What the host's `FRead` does at the end of a file is not part of this model.
- Texture.SetTextureData: width and height are natural numbers, so negative sizes are not modelled. The rows the copy reads are required to exist and be long enough, because reading past them is undefined behaviour in `OGLHelper.cpp`.
- Texture.SetTextureData: `4 * width * height` is required to fit in a C `int`. `OGLHelper.cpp` computes the buffer size and the row offsets in `int`, so larger images overflow, which is undefined behaviour. In practice `new[]` then gets a wrong size and `memcpy` writes past it; that is not modelled.
- Pipeline.OnEvent: the draw events require a selected renderer, because the plugin dereferences `GetFactory()` unchecked. Every batch entry must be a live object, because the batch holds raw pointers.

## Findings

| source | as written | input that shows it | evidently intended | confidence | as-written member | corrected member |
|---|---|---|---|---|---|---|
| ags_sprite3d/OGLHelper.cpp:151-182 | no failure path deletes the vertex shader, so after a failed fragment compile or link it stays allocated with nothing referring to it | vertex shader compiles, fragment shader fails (`vertexCompiles = true`, `fragmentCompiles = false`) | every failure path also deletes the vertex shader, leaving no GL object allocated | medium, not executed | Shader.FragmentFailureLeaksVertexShader | Shader.CreateShaderProgramReleasing |
