# Learn-OpenGL camera, frame clock and asset bookkeeping, in Dafny

This project models the reusable logic of a set of OpenGL learning programs.
Floats are `real`s, and every GL, GLFW, Assimp and stb call is treated as opaque.
The logic falls into three groups:

- **The free-fly camera**, in both copies. The newer one is `include/LearnOpenGL/Camera.h`, with configurable zoom bounds and a hand-built view matrix. The older one is `Headers/Camera.h`, with fixed 1..45 zoom bounds.
  - Keyboard movement along `Front`/`Right`.
  - Mouse look, with the ±89° pitch clamp.
  - Scroll zoom, with its in-range test and clamp.
  - The view matrix `rotation * translation`, in GLM's column-major `m[col][row]` layout.
  - The constructors and their defaults.
- **The frame clock and the input state machine** of `src/Source.cpp` and the older `Source.cpp`.
  - Each frame reads the clock twice, as the code does: game time grows by the interval up to the first reading times `timeScale`, `realTime` stores the second reading, and `deltaTime` is the game time gained.
  - The newer program clamps `timeScale` into (0, 1] and pauses with Space. Its camera moves by `deltaTime / timeScale`, the wall-clock time, so motion does not depend on the time scale.
  - The older program changes `timeScale` without any clamp, and moves the camera directly from the key callback.
  - All globals are gathered in one `State` record. Each key, cursor, scroll or frame event is one pure transition.
- **Asset bookkeeping** of `include/LearnOpenGL/Model.h` and `Mesh.h`.
  - The load-error exit and the model directory.
  - Pre-order flattening of the node tree.
  - Vertex copying and face-index concatenation.
  - The `textures_loaded` de-duplication cache.
  - The component-count to pixel-format switch.
  - The per-type numbering of sampler uniforms in `Mesh::Draw`.

The orientation vectors come from `updateCameraVectors`, which is trigonometry. They are not computed: every operation that recomputes them takes the function `orient: (yaw, pitch, worldUp) -> Basis` as a parameter.

Three places where the code behaves differently from a plain reading of its design; the model follows the code:

- Space does not toggle back to the previous rate. Resuming always sets `timeScale` to 1.
- Scrolling subtracts the offset only when the zoom is already within its bounds. An out-of-range zoom is only clamped.
- The newer camera does not call a look-at routine. It multiplies a rotation by a translation. `Camera.ViewMatrixClosedForm` shows that the product has the look-at layout.

Files: `wrappers.dfy` (Option/Result), `vec.dfy` (vectors, 4x4 matrices), `camera_core.dfy` (the step functions both cameras share), `camera.dfy`, `legacy_camera.dfy`, `frame_clock.dfy`, `app.dfy` (src/Source.cpp), `legacy_app.dfy` (Source.cpp), `mesh.dfy`, `model.dfy`.

## Model

| member | source | states |
|---|---|---|
| CameraCore.Move | include/LearnOpenGL/Camera.h:96-106 | velocity = speed·dt; forward/backward add/subtract Front·velocity, left/right subtract/add Right·velocity |
| CameraCore.MoveThenOppositeRestores | include/LearnOpenGL/Camera.h:97-105 | a step followed by the opposite direction with the same dt returns exactly to the start position |
| CameraCore.Opposite | include/LearnOpenGL/Camera.h:9 | pairs each movement with a different, opposing one (forward/backward, left/right) |
| CameraCore.Clamp | include/LearnOpenGL/Camera.h:130-137 | the reference clamp the zoom and pitch updates are compared with: result in [lo, hi], identity inside, lo below, hi above |
| CameraCore.ClampPitch | include/LearnOpenGL/Camera.h:118-123 | the result is always in [-89, 89], unchanged inside, 89 above, -89 below |
| CameraCore.Look | include/LearnOpenGL/Camera.h:109-123 | yaw gains xoffset·sensitivity and is never clamped; pitch gains yoffset·sensitivity, clamped to [-89, 89] exactly when constrainPitch is set |
| CameraCore.LookAll | include/LearnOpenGL/Camera.h:109-123 | after any non-empty sequence of constrained look offsets the pitch is in [-89, 89] |
| CameraCore.ScrollZoom | include/LearnOpenGL/Camera.h:130-137 | with min ≤ max the result is in [min, max]; an in-range zoom gives clamp(zoom − y), an out-of-range one clamp(zoom); with min > max the result is max |
| CameraCore.ScrollAll | include/LearnOpenGL/Camera.h:130-137 | after any non-empty sequence of scrolls the zoom is within [min, max] |
| Camera.Construct | include/LearnOpenGL/Camera.h:39-47 | stores position, world-up, yaw and pitch, derives the basis from them, and takes speed 2.5, sensitivity 0.1, zoom 45, MaxZoom 45, MinZoom 1 |
| Camera.ConstructScalars | include/LearnOpenGL/Camera.h:49-56 | the scalar constructor builds the same camera as the vector one from the components |
| Camera.DefaultCamera | include/LearnOpenGL/Camera.h:12-16 | all-default construction: origin, world-up (0,1,0), yaw −90, pitch 0, zoom 45 |
| Camera.ViewMatrix | include/LearnOpenGL/Camera.h:73-92 | rotation × translation maps homogeneous (Position, 1) to (0,0,0,1), and its last row is (0,0,0,1) |
| Camera.ViewMatrixClosedForm | include/LearnOpenGL/Camera.h:73-92 | the product equals the look-at matrix: rows Right, Up, −Front, last column (−Right·P, −Up·P, Front·P, 1) |
| Camera.ViewMatrixApply | include/LearnOpenGL/Camera.h:73-92 | applied to (v, w) the view matrix yields the dot products of v − w·Position with Right, Up and −Front |
| Camera.ViewMatrixLooksDownNegativeZ | include/LearnOpenGL/Camera.h:73-92 | for an orthonormal basis the point one unit ahead maps to (0,0,−1,1), Right to the eye x axis and Up to the eye y axis |
| Camera.ProcessKeyboard | include/LearnOpenGL/Camera.h:96-106 | only Position changes, by ±Front·(speed·dt) or ±Right·(speed·dt); orientation, zoom and speeds are unchanged |
| Camera.KeyboardOppositeRestores | include/LearnOpenGL/Camera.h:97-105 | FORWARD then BACKWARD, or LEFT then RIGHT, with the same dt restores the camera exactly |
| Camera.ProcessMouseMovement | include/LearnOpenGL/Camera.h:109-127 | yaw += x·sensitivity; pitch += y·sensitivity, clamped to [−89, 89] when constrained; the basis is re-derived from the new angles; nothing else changes |
| Camera.ProcessMouseScroll | include/LearnOpenGL/Camera.h:130-137 | only the zoom changes; it ends in [MinZoom, MaxZoom] when MinZoom ≤ MaxZoom, as clamp(Zoom − y) if it was in range and clamp(Zoom) otherwise |
| Camera.ScrollExample | include/LearnOpenGL/Camera.h:130-137 | scrolling +10 from the default zoom 45 gives 35; two scrolls of +100 stop at 1 |
| LegacyCamera.Construct | Headers/Camera.h:37-47 | stores position, world-up, yaw and pitch, derives the basis, and sets speed 2.5, sensitivity 0.1, zoom 45 |
| LegacyCamera.ConstructScalars | Headers/Camera.h:49-58 | the scalar constructor stores the component vectors and the same defaults |
| LegacyCamera.ProcessKeyboard | Headers/Camera.h:68-78 | only Position changes, by the shared movement step |
| LegacyCamera.KeyboardOppositeRestores | Headers/Camera.h:68-78 | opposite directions with equal dt cancel exactly |
| LegacyCamera.ProcessMouseMovement | Headers/Camera.h:81-99 | yaw unbounded; pitch clamped to [−89, 89] when constrained and exactly old pitch + y·sensitivity otherwise; basis re-derived |
| LegacyCamera.ProcessMouseScroll | Headers/Camera.h:102-109 | the zoom always ends in [1, 45]: clamp(Zoom − y, 1, 45) for an in-range zoom, only the clamp otherwise |
| FrameClock.Tick | src/Source.cpp:367-371 | lastFrame := old gameTime, gameTime += (now − realTime)·timeScale, realTime := now, so deltaTime = (now − old realTime)·timeScale; with now ≥ realTime and timeScale > 0, deltaTime ≥ 0 and gameTime does not decrease |
| FrameClock.TickWallClockDelta | src/Source.cpp:368-371 | deltaTime / timeScale is the wall-clock time of the frame |
| FrameClock.Ticks | src/Source.cpp:364-371 | ticking through a run of frames keeps the time scale and ends with realTime at the last reading; no readings leave the clock as it was |
| FrameClock.TicksCreditAllWallTime | src/Source.cpp:367-371 | over any run of single-reading ticks at a fixed scale, the game time gained is the scale times the wall-clock time covered |
| FrameClock.TicksMonotonic | src/Source.cpp:367-371 | with non-decreasing readings starting no earlier than the clock and a positive scale, game time never goes backwards: for i <= j the game time after the first i frames is at most that after the first j, and never below the starting game time |
| FrameClock.TicksSnoc | src/Source.cpp:364-371 | running the loop over one more reading is one more tick on the clock the earlier frames left |
| FrameClock.TickAsWritten | src/Source.cpp:367-371 | the tick with its two clock reads: lastFrame := old gameTime, game time advances by (first read − realTime)·timeScale, deltaTime is that gain, realTime takes the second read, the scale is kept; with equal reads it is the single-reading tick |
| FrameClock.TickAsWrittenWallClockDelta | src/Source.cpp:368-371 | with two reads, deltaTime / timeScale is the time up to the first read |
| FrameClock.TickAsWrittenLosesTime | src/Source.cpp:368-370 | at scale 1, reads of 1 s then 2 s leave gameTime 1 while realTime is 2, and that second is never credited later |
| App.Init | src/Source.cpp:60-83 | initial globals: clock at zero with scale 1 = timeScaleMax, input on, first-mouse latch set, no keys held, camera at (0,0,3); the camera's zoom range is then widened to [0.5, 45] with the zoom at its maximum 45 (src/Source.cpp lines 325-327) |
| App.InitScrollFloor | src/Source.cpp:325-327 | from the initial state a huge scroll forward stops at the widened minimum 0.5 (not the camera default 1) and a huge scroll back at 45 |
| App.CheckTimeScale | src/Source.cpp:642-648 | any value ≤ 0 becomes exactly timeScaleMin, any value above timeScaleMax becomes timeScaleMax, values in between are kept, so the result is in (0, timeScaleMax] |
| App.TogglePause | src/Source.cpp:577-583 | Space sets timeScaleMin unless the scale already equals it, in which case it sets 1 |
| App.PauseResumeGivesOne | src/Source.cpp:577-583 | pause then resume yields 1, not the prior rate |
| App.HoldFlag | src/Source.cpp:522-537 | a W/A/S/D flag is set on press, cleared on release, unchanged on repeat |
| App.KeyCallback | src/Source.cpp:516-595 | W/A/S/D touch only their flag; a C press flips inputFlag, sets firstMouse when switching input off, sets the cursor mode to match, and changes nothing else; F flips lampMoveFlag; L flips the polygon flag; Escape requests close; arrows add ±0.1/±0.01 and then checkTimeScale; Space toggles pause; any other key, and any non-press of a non-movement key, changes nothing; the time scale stays in (0, 1] |
| App.MouseCallback | src/Source.cpp:598-615 | ignored while input is off; otherwise only the camera, the latch (cleared) and the recorded cursor change; the first event after the latch gives zero offsets; later offsets are (x − lastX, lastY − y)·Zoom/45, passed with pitch constrained |
| App.StillCursorKeepsAngles | src/Source.cpp:598-615 | with input on, a second event at the same cursor position leaves yaw and pitch as the first event left them |
| App.RecordedCursorKeepsAngles | src/Source.cpp:606-614 | an event at the recorded position, latch cleared and pitch within ±89, keeps yaw and pitch |
| App.ScrollCallback | src/Source.cpp:618-620 | forwards the offset to the camera's scroll, so the zoom stays within its bounds |
| App.MoveIf | src/Source.cpp:631-638 | a held direction issues one ProcessKeyboard call, an unheld one none |
| App.DoMovement | src/Source.cpp:630-639 | each held direction (W, S, A, D, in that order) moves the camera by deltaTime/timeScale; nothing but the camera changes |
| App.MoveIfShift | src/Source.cpp:631-638 | a conditional move shifts the position by the held step (speed·dt or 0): W and D add Front and Right, S and A subtract them |
| App.MovesClosedForm | src/Source.cpp:630-639 | the four conditional moves equal one displacement: Front·(W step − S step) + Right·(D step − A step) |
| App.DoMovementClosedForm | src/Source.cpp:630-639 | doMovement moves the camera by Front·(W − S)·v + Right·(D − A)·v, v = speed·deltaTime/timeScale, and changes nothing else of it |
| App.OppositeKeysCancel | src/Source.cpp:630-639 | holding both keys of a pair (W and S, A and D) leaves the camera in place |
| App.Frame | src/Source.cpp:364-399 | a frame ticks the clock with its two reads (credited up to the first, realTime the second; with equal reads the single-reading tick); while input is on the camera moves exactly as doMovement on the ticked clock, otherwise it stays put; the lamp is set one Front ahead of the camera while its flag is set and kept otherwise |
| App.FrameMotionIgnoresTimeScale | src/Source.cpp:630-639 | two states differing only in their non-zero time scale move the camera identically in a frame, for any two readings |
| App.ForwardExample | src/Source.cpp:630-639 | from the initial state with Front = (0,0,−1), W held for a frame whose reads are both 1 s moves the camera from (0,0,3) to (0,0,0.5) |
| App.Step | src/Source.cpp:516-620 | every key, cursor, scroll or frame event keeps the time scale in (0, timeScaleMax] |
| App.Run | src/Source.cpp:561-583 | from any valid state, in particular the initial one, no sequence of events makes the scale ≤ 0 or above timeScaleMax |
| App.InitValid | src/Source.cpp:77-79 | the initial state is valid (scale 1 = timeScaleMax) |
| App.ClockExample | src/Source.cpp:642-648 | from the start clock a tick at 2 s gains 2 s; a scale forced to 0 becomes timeScaleMin, and the next 2 s tick gains 2·timeScaleMin |
| LegacyApp.Init | Source.cpp:51-61 | initial globals: clock at zero with scale 1, first-mouse latch set, cursor at the window centre (400, 300), camera at (0,0,3) |
| LegacyApp.MoveKey | Source.cpp:396-407 | exactly W, S, A and D are movement keys |
| LegacyApp.KeyFor | Source.cpp:396-407 | the key that moves in a given direction |
| LegacyApp.KeyCallback | Source.cpp:359-408 | Up/Down/Left/Right on press add +1/−1/−0.1/+0.1 to the scale with no clamp; Space sets 1; L flips the polygon flag; Escape requests close; any W/S/A/D event moves the camera by the current deltaTime; any other key changes nothing |
| LegacyApp.OppositeKeyEventsCancel | Source.cpp:396-407 | an event of a movement key followed by one of the opposite key, with no frame between, restores the camera |
| LegacyApp.MouseCallback | Source.cpp:411-424 | only the camera, the latch (cleared) and the recorded cursor change; the first event gives zero offsets; later offsets are the unscaled (x − lastX, lastY − y) |
| LegacyApp.StillCursorKeepsAngles | Source.cpp:411-424 | a second event at the same cursor position leaves yaw and pitch as the first event left them |
| LegacyApp.RecordedCursorKeepsAngles | Source.cpp:418-423 | an event at the recorded position, latch cleared and pitch within ±89, keeps yaw and pitch |
| LegacyApp.ScrollCallback | Source.cpp:427-429 | forwards the offset to the camera, whose zoom ends in [1, 45] |
| LegacyApp.Frame | Source.cpp:290-293 | the loop only updates the clock, with its two reads: deltaTime = (first read − old realTime)·timeScale, gameTime gains deltaTime, realTime takes the second read; with equal reads it is the single-reading tick |
| LegacyApp.UnclampedScaleStopsAndReverses | Source.cpp:379-393 | one Down press from the start makes the scale 0 and the next frame's delta 0; a second makes it −1 and the next delta negative |
| Mesh.MakeMesh | include/LearnOpenGL/Mesh.h:52-58 | the constructor stores vertices, indices, textures and shininess unchanged |
| Mesh.NatToString | include/LearnOpenGL/Mesh.h:75 | decimal digits of the counter: every character is a digit 0-9, at least one, exactly one for values below 10 |
| Mesh.NatToStringInjective | include/LearnOpenGL/Mesh.h:75 | different counters print differently |
| Mesh.CountKindMonotone | include/LearnOpenGL/Mesh.h:63-81 | a per-type counter never decreases along the texture list |
| Mesh.CountKindNone | include/LearnOpenGL/Mesh.h:63-66 | a type absent from a list counts 0 |
| Mesh.UnknownKindHasNoSuffix | include/LearnOpenGL/Mesh.h:72-83 | a texture of an unknown type is named "material." + type, with no number |
| Mesh.FirstOfKindIsOne | include/LearnOpenGL/Mesh.h:74-83 | the first texture of a known type is numbered 1 |
| Mesh.SameKindNamesDistinct | include/LearnOpenGL/Mesh.h:63-81 | two textures of the same known type never receive the same uniform name |
| Mesh.KindsDifferAt17 | include/LearnOpenGL/Mesh.h:72-83 | sampler names built from two different known types differ, whatever numbers follow the type |
| Mesh.AllUniformNamesDistinct | include/LearnOpenGL/Mesh.h:71-84 | when every texture has a known type, all sampler names of a mesh are distinct |
| Mesh.DrawSpec | include/LearnOpenGL/Mesh.h:62-94 | the reference meaning of a draw: one sampler per texture |
| Mesh.Draw | include/LearnOpenGL/Mesh.h:62-94 | material.shininess is set to matShininess; texture i is bound to unit i, its sampler is set to i under "material." + type + n (n the 1-based same-type count up to i, for the four known types); indices.size() elements are drawn |
| Model.LastSlash | include/LearnOpenGL/Model.h:66 | find_last_of('/'): absent exactly when the path has no '/', otherwise a '/' with none after it |
| Model.BaseName | include/LearnOpenGL/Model.h:66 | the part after the last '/' is a slash-free suffix of the path |
| Model.DirectoryAsWritten | include/LearnOpenGL/Model.h:66 | directory is the prefix before the last '/' (directory + "/" + file name = path), or the whole path when it has no '/' |
| Model.TexturePath | include/LearnOpenGL/Model.h:196 | the file opened is the directory, then '/', then the texture path: prefix, separator and suffix stated separately |
| Model.TextureUnderModelFile | include/LearnOpenGL/Model.h:196 | as written, a slash-free model path becomes the texture folder: "model.obj" + "d.png" opens "model.obj/d.png" |
| Model.Directory | include/LearnOpenGL/Model.h:66 | the corrected directory: "." for a slash-free path, the as-written prefix otherwise |
| Model.TextureBesideModel | include/LearnOpenGL/Model.h:196 | with the corrected directory a texture is opened beside the model file: the model's folder prefix (or "./") followed by the texture path |
| Model.FormatFor | include/LearnOpenGL/Model.h:209-221 | 1 → (RED, RED), 3 → (RGB8, RGB), 4 → (RGBA8, RGBA); it succeeds exactly for 1, 3 and 4, any other count is an error |
| Model.FormatRoundTrip | include/LearnOpenGL/Model.h:209-217 | the chosen format carries back the component count it was chosen for |
| Model.TextureFromFile | include/LearnOpenGL/Model.h:193-240 | opens directory + '/' + path; an undecodable file fails, a decoded one gets the format of its component count |
| Model.Find | include/LearnOpenGL/Model.h:173-179 | the strcmp scan finds a cached entry with the path exactly when one exists |
| Model.FindExtend | include/LearnOpenGL/Model.h:173-179 | appending to the cache does not change which entry an already cached path finds |
| Model.FindNewEntry | include/LearnOpenGL/Model.h:180-187 | a path absent before an append can only be found as the appended entry |
| Model.LoadOne | include/LearnOpenGL/Model.h:172-187 | a cached path reuses the stored entry and changes nothing; a new path creates a texture with the next name and the requested type, and records it |
| Model.LoadMaterialTextures | include/LearnOpenGL/Model.h:166-190 | exactly GetTextureCount entries, the i-th carrying the i-th path; cached paths reuse the stored entry (same id, original type), new ones get the requested type; textures_loaded only grows and never gains a duplicate path; every entry it gains is a requested path not cached before, uploaded by TextureFromFile from that path and the model directory; nothing is loaded when every path is cached |
| Model.ServesCons | include/LearnOpenGL/Model.h:169-188 | serving the first request and then the rest serves the whole request list |
| Model.ServesPaths | include/LearnOpenGL/Model.h:184 | the served textures' paths are the requested paths |
| Model.PathsOfAppend | include/LearnOpenGL/Model.h:141-153 | the paths of concatenated texture lists are the concatenated paths |
| Model.ConvertVertex | include/LearnOpenGL/Model.h:93-129 | position copied; normal present exactly when the mesh has normals; TexCoords from channel 0 with tangent and bitangent, or (0,0) with those left unset when the channel is absent |
| Model.ConvertVertices | include/LearnOpenGL/Model.h:93-129 | one vertex per input vertex, in order |
| Model.ConcatLength | include/LearnOpenGL/Model.h:131-135 | the concatenated indices number the sum of the face sizes |
| Model.CollectIndices | include/LearnOpenGL/Model.h:131-135 | the nested face loop yields all face indices concatenated in face order |
| Model.ProcessMesh | include/LearnOpenGL/Model.h:86-164 | vertices, concatenated indices and shininess (16 when the lookup fails) match the imported mesh; the textures are the four loadMaterialTextures results in order, each served against the cache left by the previous one: DIFFUSE as texture_diffuse, SPECULAR as texture_specular, HEIGHT as texture_normal, AMBIENT as texture_height, a cached path reusing its stored entry and kind; the cache keeps its invariant and only grows |
| Model.MatchesAllSingle | include/LearnOpenGL/Model.h:77-78 | one processed mesh matches the scene mesh it was built from |
| Model.MatchesAllAppend | include/LearnOpenGL/Model.h:74-84 | matching mesh lists concatenate along their index orders |
| Model.ProcessMeshes | include/LearnOpenGL/Model.h:76-79 | the node's own meshes, built in index order |
| Model.ProcessNode | include/LearnOpenGL/Model.h:74-84 | mesh k of the result is built from scene mesh Flatten(node)[k]: the node's meshes in order, then each child subtree in pre-order |
| Model.ProcessNodes | include/LearnOpenGL/Model.h:81-83 | the children's subtrees, one after the other |
| Model.FlattenCount | include/LearnOpenGL/Model.h:74-84 | the pre-order list has one entry per mesh reference of the tree (the sum of mNumMeshes) |
| Model.FlattenAllCount | include/LearnOpenGL/Model.h:81-83 | the same for a list of subtrees |
| Model.ProcessNodeCount | include/LearnOpenGL/Model.h:74-84 | the count appended equals the sum of mNumMeshes over the tree |
| Model.LoadModel | include/LearnOpenGL/Model.h:52-70 | a null or incomplete scene, or one without a root, leaves the model unchanged; otherwise the directory is set as written (the whole path when it has no '/') and the tree's meshes are appended in pre-order after the existing ones |
| Model.NewModel | include/LearnOpenGL/Model.h:38-40 | the constructor keeps the gamma flag and loads into an empty model, storing the as-written directory |
| Model.DrawModel | include/LearnOpenGL/Model.h:44-47 | every mesh is drawn, in order |

## Findings

| source | as written | input that shows it | evidently intended | confidence | as-written member | corrected member |
|---|---|---|---|---|---|---|
| include/LearnOpenGL/Model.h:66 | `path.substr(0, path.find_last_of('/'))` keeps the whole path when it has no '/', and textures are then opened at directory + '/' + file | model path "model.obj" with texture "d.png" opens "model.obj/d.png" | textures are opened beside the model file ("./d.png") | medium; not executed | Model.TextureUnderModelFile | Model.TextureBesideModel |
| src/Source.cpp:368-370 | `glfwGetTime()` is read twice: game time advances to the first reading, `realTime` stores the second, so the interval between the two reads is never credited (also Source.cpp:291-292) | scale 1, reads 1.0 then 2.0: gameTime 1.0 while realTime 2.0; the next tick starts from 2.0 | one reading per frame, so game time = scale × wall time | low (the lost interval is the time between two consecutive calls); not executed | FrameClock.TickAsWrittenLosesTime | FrameClock.TicksCreditAllWallTime |

The operations follow the code as written: `Model.LoadModel` stores `Model.DirectoryAsWritten`, and each program's `Frame` takes both clock readings through `FrameClock.TickAsWritten`. The corrected definitions, `Model.Directory` and the single-reading `FrameClock.Tick`, carry the intended properties. They agree with the as-written ones whenever the model path contains a '/' (the ensures of `Model.Directory`) or the two readings coincide (the ensures of `FrameClock.TickAsWritten`).

## Left out

- All OpenGL, GLFW, GLAD/GLEW, ImGui and stb_image calls are side effects and are not modelled: buffer and VAO setup (`Mesh::setupMesh`), texture storage and mipmaps, window creation, callback registration, and the ImGui frame while input is off. The cursor mode is kept only as the `cursorDisabled` flag, and the polygon mode only as `lFlag`.
- `updateCameraVectors`: trigonometry and normalisation. It is the `orient` parameter, so orthonormality of the basis is a hypothesis where it is needed (`Camera.ViewMatrixLooksDownNegativeZ`).
- `glm::lookAt` in Headers/Camera.h:62 and `glm::perspective`: library code. The older camera has no view-matrix member here.
- Float rounding, and the float/double/long double conversions in the callbacks and the tick. All arithmetic is exact over the reals. `timeScaleMin` is the exact decimal 0.0000001, not the float nearest to it.
- `Shader` (include/LearnOpenGL/Shader.h, libs/Shader.h) and libs/Texture.h: thin wrappers with no logic of their own.
- libs/Camera.h, which the older Source.cpp includes, is not part of this model. That program's camera is modelled by the Headers/Camera.h camera.
- The Assimp importer itself. The scene is an input value, and its well-formedness is a precondition (indices in range, per-vertex arrays as long as the vertex array, tangents present with texture coordinates). The source indexes those arrays unchecked.
- GL texture names are modelled as creation ordinals: the n-th texture created gets name n.
- The image decoder is an input function from file name to component count.
- The unknown-component branch of `TextureFromFile` uses an uninitialised format. It is modelled as an error result.
- The `gamma` parameter of `TextureFromFile` is unused in the source, so it is absent here.
- The bone fields `m_BoneIDs` and `m_Weights` are never written by the loader and are absent.
- The path comparison is `strcmp`, so a path with an embedded NUL would compare on its prefix only. Paths here are plain strings compared whole.
- Error messages written to the console are left out.
- Demo data and drawing: cube vertex tables, cube positions, lighting colours, per-cube model matrices and the shader uniform uploads of the render loops.
