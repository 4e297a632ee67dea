# OpenGL lighting demos — the decision logic, modelled in Dafny

The repository holds three OpenGL demo programs: PBR with image-based lighting,
HDR tone mapping, and parallax mapping. Almost all of their code drives the GPU
and the window. This project models the pure, sequential logic under that
plumbing and proves what it guarantees:

- **Camera** (`camera.dfy`). The free-fly camera of the PBR demo (`GLFW_PBR/Camera.cpp`), which the HDR and parallax handlers are assumed to share:
  - yaw and pitch accumulate from pointer deltas, and pitch is optionally clamped to [-89, 89];
  - the scroll handler only clamps the zoom to [1, 45], because the line that would apply the offset is disabled;
  - keyboard moves go along front or right and then pin the eye height to 0.5;
  - the look-at view matrix.

  The trigonometry that rebuilds the basis from yaw and pitch, and the look-at construction, are passed in as function parameters. The model says what flows into them and claims nothing about what they compute.
- **Input** (`input.dfy`). Input handling shared by the demos:
  - the pointer callback, which gives a zero delta on the first event and turns the camera only while the mouse is captured;
  - Q/E capture, where E is handled last and so wins;
  - the W/S/A/D keys, handled one after another with the frame's elapsed time.
- **Hdr** (`hdr.dfy`). The HDR demo:
  - the space-bar latch, which flips tone mapping once per press;
  - the exposure stepper;
  - the paired upload of the light list.
- **Parallax** (`parallax.dfy`). The parallax demo's height-scale stepper.
- **Textures** (`textures.dfy`). The format and sampler choice of the `loadTexture` functions:
  - the GL enumerants carry their real values;
  - the wrap test compares the data format with `(GL_RGBA || GL_RGB)`, which is the integer 1, so it always picks REPEAT;
  - a channel count other than 1, 3 or 4 leaves the formats unassigned, modelled as the explicit outcome `FormatUnset`.
- **Sphere** (`sphere.dfy`). `renderSphere`:
  - the (X+1)·(Y+1) vertex grid;
  - the serpentine triangle-strip indices, built by loops checked against a declarative definition of the strip;
  - the interleaved 8-float vertex buffer.
- **PbrScene** (`pbr_scene.dfy`). The PBR demo's scene rules:
  - the prefilter schedule, with sizes 128·0.5^mip and roughness mip/4;
  - the 7×7 material-sphere grid;
  - the light loop;
  - the PBR keyboard handler.

Modelling choices:

- Floats are modelled as `real`. Key states are booleans, since the key query reports only pressed or released.
- Each demo's per-frame handler is a pure function from state to state. The globals it touches are fields of a record.
- Pitch is clamped to the closed interval [-89, 89], because `GLFW_PBR/Camera.cpp:40-43` compares with strict `>` and `<`, so exactly ±89 stays in place.
- The scroll handler is modelled as written: the line that would apply the offset is commented out, so the offset is ignored. `ProcessMouseScrollToggled` takes the disabled line at `GLFW_PBR/Camera.cpp:51-52` as a switch, so both behaviours can be stated; everything else in the model uses the handler as written.
- The camera's constructor defaults live in a header that is not part of this model. Speed, sensitivity and world-up are therefore fields of the camera record. The mouse handler's default pitch constraint is a parameter.

## Model

| member | source | states |
|---|---|---|
| Camera.ProcessKeyboard | GLFW_PBR/Camera.cpp:9-28 | The eye moves in x and z by plus or minus front (W/S) or right (D/A) times speed·dt; y is then 0.5 whatever the key or time; no other camera field changes |
| Camera.OppositeMovesCancel | GLFW_PBR/Camera.cpp:13-22 | A key followed by its opposite with the same elapsed time returns the camera to where it was, except that the height is pinned |
| Camera.ProcessMouseMovement | GLFW_PBR/Camera.cpp:30-47 | Yaw gains xoffset·sensitivity with no clamp. Unconstrained pitch gains yoffset·sensitivity. Constrained pitch ends in [-89, 89]: exactly ±89 past a bound, the raw sum inside. The basis is recomputed from the new angles. Nothing else changes |
| Camera.TraceYawAccumulates | GLFW_PBR/Camera.cpp:32-35 | Over any run of pointer deltas, yaw has moved by sensitivity times their x sum, and position and zoom are unchanged |
| Camera.TracePitchUnconstrained | GLFW_PBR/Camera.cpp:33-36 | Without the constraint, pitch after any run of deltas is the start plus sensitivity times their y sum |
| Camera.TracePitchBounded | GLFW_PBR/Camera.cpp:38-44 | With the constraint, pitch is in [-89, 89] after any non-empty run of deltas, and stays there from an in-range start |
| Camera.ProcessMouseScroll | GLFW_PBR/Camera.cpp:49-57 | Zoom ends in [1, 45]. It is clamped to 1 from below and 45 from above. A camera already in range is returned unchanged. Only zoom can change |
| Camera.ProcessMouseScrollToggled | GLFW_PBR/Camera.cpp:49-57 | With the disabled delta line switched off, this is exactly the handler as written. Switched on, an in-range zoom has the offset subtracted, and the result is clamped to the nearer bound if it leaves [1, 45]; an out-of-range zoom skips the subtraction and is clamped to the nearer bound, as the handler as written does. Zoom always ends in [1, 45], and only zoom changes |
| Camera.ScrollIgnoresOffset | GLFW_PBR/Camera.cpp:49-57 | The scroll result is the same for every offset |
| Camera.ScrollIdempotent | GLFW_PBR/Camera.cpp:53-56 | Scrolling twice equals scrolling once |
| Camera.ViewMatrixDependsOnPose | GLFW_PBR/Camera.cpp:4-7 | Two cameras with equal position, front and up get the same view matrix |
| Camera.GetViewMatrix | GLFW_PBR/Camera.cpp:4-7 | The view is look-at from the eye toward a target exactly one front vector away, with the camera's up |
| Camera.UpdateCameraVectors | GLFW_PBR/Camera.cpp:59-68 | Front, right and up are the basis computed from yaw, pitch and world-up; no other field changes |
| Camera.UpdateCameraVectorsIdempotent | GLFW_PBR/Camera.cpp:59-68 | The basis reads only fields the recomputation leaves alone, so recomputing it twice equals recomputing it once |
| Camera.ScrollKeepsView | GLFW_PBR/Camera.cpp:49-57 | Scrolling never changes the view matrix |
| Input.InitialMouse | GLFW_PBR/Source.cpp:28-31 | Start-up pointer state is the window centre, with the first-event flag and capture both on |
| Input.MouseOffsets | GLFW_PBR/Source.cpp:810-818 | The first event gives offsets (0, 0). Later events give xpos − lastX and lastY − ypos, with y inverted |
| Input.MouseCallback | GLFW_PBR/Source.cpp:808-825 | The event position is recorded and the first-event flag cleared. The camera is unchanged while released, and turned by the offsets while captured. The first event never changes yaw |
| Input.CapturedYawTelescopes | GLFW_HDR/Source.cpp:260-277 | While captured, after any non-empty run of events, yaw has moved by sensitivity times (last x − reference x), so the deltas telescope. The pointer record holds the last event |
| Input.ReleasedIgnoresPointer | GLFW_Parallax/Source.cpp:217-234 | While released, no run of pointer events changes the camera, and capture stays off |
| Input.MouseToggle | GLFW_PBR/Source.cpp:856-865 | E forces capture off, even with Q. Q alone forces it on. With neither key it stays as it was |
| Input.PressAll | GLFW_PBR/Source.cpp:838-845 | Handling a key list in order changes only the position. x and z gain the sum of each pressed key's step on the starting basis. Any pressed key pins y to 0.5. No pressed key changes nothing |
| Input.MoveKeys | GLFW_HDR/Source.cpp:290-297 | The W/S/A/D block pins y when any of the four is pressed, is the identity when none is, and never changes orientation, zoom or speed |
| Input.MoveKeysDisplacement | GLFW_Parallax/Source.cpp:247-254 | The frame's x and z travel is (W − S)·front + (D − A)·right, each step being speed·dt |
| Hdr.InitialHdr | GLFW_HDR/Source.cpp:17-27 | Tone mapping starts on, the latch starts clear, exposure starts at 1.0, and the pointer starts with the first-event flag and capture on |
| Hdr.HdrLatch | GLFW_HDR/Source.cpp:320-328 | The latch ends equal to "space is down". Tone mapping flips exactly when space is down and the latch was clear |
| Hdr.LatchFlipsOncePerPress | GLFW_HDR/Source.cpp:320-328 | Over any run of frames, tone mapping has flipped once per rising edge of space (parity), and the latch holds the last frame's space state |
| Hdr.HeldSpaceFlipsOnce | GLFW_HDR/Source.cpp:320-324 | Holding space for any number k ≥ 1 of frames from a clear latch flips tone mapping exactly once |
| Hdr.StepExposure | GLFW_HDR/Source.cpp:331-341 | DOWN subtracts 0.01 while positive, else sets 0. UP, looked at only without DOWN, adds 0.01 unbounded. No key keeps the value. The floor "> −0.01" is preserved |
| Hdr.DownOverridesUp | GLFW_HDR/Source.cpp:331-338 | With DOWN pressed, UP has no effect |
| Hdr.LightUniforms | GLFW_HDR/Source.cpp:133-137 | The uploaded list has 4 entries, pairing position i with colour i; both arrays have 4 entries, so every colour index is in bounds |
| Hdr.ProcessInput | GLFW_HDR/Source.cpp:284-342 | A frame moves the camera by W/S/A/D, sets capture by Q/E (E wins), runs the latch and steps exposure. The pointer record is otherwise untouched |
| Hdr.ExposureStaysAboveFloor | GLFW_HDR/Source.cpp:331-341 | From any exposure above −0.01, no run of frames takes it to −0.01 or below |
| Hdr.ExposureFloorFromStart | GLFW_HDR/Source.cpp:21 | From the start-up value 1.0, exposure stays above −0.01 for every run of frames |
| Parallax.InitialParallax | GLFW_Parallax/Source.cpp:17-25 | The height scale starts at 0.1, and the pointer starts with the first-event flag and capture on |
| Parallax.StepHeightScale | GLFW_Parallax/Source.cpp:277-290 | UP subtracts 0.0005 while positive, else sets 0. DOWN, looked at only without UP, adds 0.0005 while below 1, else sets 1. The band (−0.0005, 1.0005) is preserved |
| Parallax.UpOverridesDown | GLFW_Parallax/Source.cpp:277-284 | With UP pressed, DOWN has no effect |
| Parallax.ProcessInput | GLFW_Parallax/Source.cpp:241-291 | A frame moves the camera by W/S/A/D, sets capture by Q/E (E wins) and steps the height scale |
| Parallax.HeightScaleStaysInBand | GLFW_Parallax/Source.cpp:277-290 | From inside the band, no run of frames leaves (−0.0005, 1.0005) |
| Parallax.HeightBandFromStart | GLFW_Parallax/Source.cpp:19 | From the start-up value 0.1, the height scale stays in (−0.0005, 1.0005) for every run of frames |
| Textures.LoadTexture | GLFW_PBR/Source.cpp:868-910 | A decode failure gives exactly the no-upload outcome; channel counts other than 1/3/4 give exactly the unassigned-format outcome. Otherwise the data format has as many components as the image has channels, and the internal format is the data format or its sRGB counterpart. It is sRGB exactly when gamma is on and channels is not 1. Wrap is REPEAT on both axes, filters are trilinear/linear |
| Textures.LoadTextureLinear | GLFW_Parallax/Source.cpp:293-328 | The same outcomes without gamma: internal format equals data format, whose component count matches the channels, and wrap is REPEAT |
| Textures.WrapTestNeverClamps | GLFW_HDR/Source.cpp:372-373 | The wrap test clamps exactly the format value 1, so RED, RGB and RGBA all get REPEAT |
| Textures.LinearLoaderIsGammaFree | GLFW_Parallax/Source.cpp:302-311 | The parallax loader equals the gamma-aware loader with gamma off |
| Sphere.RowPairs | GLFW_PBR/Source.cpp:946-966 | Pair i of an even row is (y·W + i, (y+1)·W + i). Pair i of an odd row is ((y+1)·W + X − i, y·W + X − i). Each pair joins one column in adjacent vertex rows (W = X+1) |
| Sphere.StripRowsInOrder | GLFW_PBR/Source.cpp:947-966 | Row y's 2·W indices sit at positions [2yW, 2(y+1)W) of the strip |
| Sphere.StripLength | GLFW_PBR/Source.cpp:947-967 | The strip over Y rows has 2·Y·(X+1) indices |
| Sphere.StripBounded | GLFW_PBR/Source.cpp:930-962 | Every strip index is below (X+1)·(Y+1), the number of vertices |
| Sphere.StripPairsAdjacent | GLFW_PBR/Source.cpp:953-962 | The two indices of every emitted pair differ by exactly X+1 |
| Sphere.EvenRowSegment | GLFW_PBR/Source.cpp:951-955 | The ascending loop emits exactly the even-row segment of the strip |
| Sphere.OddRowSegment | GLFW_PBR/Source.cpp:959-963 | The descending signed loop emits exactly the odd-row segment of the strip |
| Sphere.SphereIndices | GLFW_PBR/Source.cpp:946-967 | The alternating row loop builds exactly the declarative strip, of length Y·2·(X+1), with every index below (X+1)·(Y+1) |
| Sphere.GridUv | GLFW_PBR/Source.cpp:934-935 | The vertex numbered y·(X+1)+x has texture coordinate (x/X, y/Y) |
| Sphere.SphereVertices | GLFW_PBR/Source.cpp:930-944 | (X+1)·(Y+1) vertices, row by row. Each has its grid texture coordinate and the surface point there as position, and the normal list equals the position list |
| Sphere.PackedLayout | GLFW_PBR/Source.cpp:969-986 | The packed buffer has n·stride floats, and vertex i's record occupies [i·stride, (i+1)·stride) |
| Sphere.Interleave | GLFW_PBR/Source.cpp:969-986 | The loop produces the packed records of every vertex, n·stride floats. The stride is 3, +2 with texture coordinates, +3 with normals |
| Sphere.RecordMatchesAttributeLayout | GLFW_PBR/Source.cpp:996-1005 | With all attributes present the stride is 8 floats: position at offset 0, texture coordinate at 3, normal at 5, matching the attribute pointers |
| Sphere.RenderSphere | GLFW_PBR/Source.cpp:912-1005 | The demo's sphere has 128·2·129 indices, all below 129·129, each pair joining adjacent rows, and 8·129·129 floats of vertex data |
| PbrScene.MipSizeIsShift | GLFW_PBR/Source.cpp:212-213 | For mip ≤ 7, the truncated 128·0.5^mip is exactly 2^(7−mip), and doubling it mip times gives 128 |
| PbrScene.RoughnessSpansUnitInterval | GLFW_PBR/Source.cpp:218 | Roughness is 0 at mip 0 and 1 at mip 4, and strictly increases in between |
| PbrScene.PrefilterSchedule | GLFW_PBR/Source.cpp:208-219 | Five passes, mip 0..4, with square targets of 128, 64, 32, 16, 8 (size·2^mip = 128) and roughness mip/4 |
| PbrScene.GridCell | GLFW_PBR/Source.cpp:653-663 | Metallic is in [0, 1), roughness in [0.05, 1], x and y offsets within ±3 spacings, depth −2 |
| PbrScene.SphereGrid | GLFW_PBR/Source.cpp:651-667 | 49 spheres, drawn row-major; sphere row·7+col is the cell at (row, col) |
| PbrScene.RoughnessClampOnlyFirstColumn | GLFW_PBR/Source.cpp:656 | The clamp raises only column 0 (to 0.05); every other column's roughness is col/7 |
| PbrScene.MaterialsOrdered | GLFW_PBR/Source.cpp:653-656 | Metallic strictly increases with the row; roughness never decreases with the column |
| PbrScene.GridLayout | GLFW_PBR/Source.cpp:659-663 | Two cells share an offset exactly when they are the same cell. The grid is mirror-symmetric in x and y, and the centre sphere sits at (0, 0, −2) |
| PbrScene.LightUniforms | GLFW_PBR/Source.cpp:672-677 | Five lights, pairing position i with colour i, each uploaded at its fixed position: the time-dependent wobble is overwritten |
| PbrScene.LightsIgnoreTime | GLFW_PBR/Source.cpp:674-675 | The uploaded light list is the same at every time |
| PbrScene.InitialPbr | GLFW_PBR/Source.cpp:18-31 | The pointer starts at (600, 347.5), the centre of the 1200×695 window, with capture on |
| PbrScene.ProcessInput | GLFW_PBR/Source.cpp:832-865 | A frame moves the camera by W/S/A/D and sets capture by Q/E (E wins). Nothing else changes |

## Left out

- The GL, GLFW, ImGui and image-decoder calls are left out. These are buffer, texture, framebuffer and shader uniform calls; draw calls; window and cursor mode; the escape key; the 1/2/3 polygon-mode keys; the ImGui panel's drawing. They are foreign side effects with no decision logic. The image decoder's result is an input: failure or a channel count.
- The trigonometry is left out: `UpdateCameraVectors`, `glm::lookAt`, `glm::perspective`, and the sphere's vertex positions. These are floating-point functions with no exact statement. They are function parameters, so the model only says where their inputs and outputs go.
- Camera.ProcessMouseMovement: does not state that front, right and up stay a unit-length, orthonormal triad. The basis comes from the trigonometry parameter, so the model only states that it is recomputed from the new yaw, pitch and world-up.
- Float rounding is not modelled. This covers the 0.01 and 0.0005 steps, `pow(0.5, mip)`, and the `double` to `float` conversions in the pointer callback. The model is exact over `real`.
- Camera.h is not part of this model. The constructor defaults are fields or parameters, and so is the default of the pitch-constraint flag.
- The unsigned-integer arithmetic of the strip builder does not wrap in the model. For 128 segments every value is far below 2^32.
- The hard-coded cube and quad vertex tables, the tangent computation, the IBL capture passes and the per-material texture bindings are data and GPU work, not decisions.
- The ImGui panel also writes three modelled globals between frames, and the model does not include those writes. The HDR panel sets `hdr` through its Enable/Disable radio buttons (`GLFW_HDR/Source.cpp:178-182`), which bypass the space-key latch, and sets `exposure` through a 0–2 slider (`GLFW_HDR/Source.cpp:184`). The parallax panel sets `height_scale` through a 0–1 slider (`GLFW_Parallax/Source.cpp:153`). Both slider ranges lie inside the proved exposure floor and height band, so a slider drag starts a new run of the keyboard handler from a state those lemmas cover; a value typed into a slider (Ctrl+click) is not clamped to its range, and the model makes no claim about it. The latch lemmas count only key presses.
- Console output is left out: the per-frame hdr/exposure line (`GLFW_HDR/Source.cpp:171`) and the texture-load failure messages (`GLFW_PBR/Source.cpp:905`, `GLFW_HDR/Source.cpp:381`, `GLFW_Parallax/Source.cpp:323`). It affects no state.
- Hdr.ProcessInput: the HDR demo includes its own `Camera.h`/`Camera.cpp`, which are not part of this model. The model assumes it uses the PBR demo's camera (`GLFW_PBR/Camera.cpp`), including the height pin at line 22 and the inert scroll at lines 49-57.
- Parallax.ProcessInput: the parallax demo includes its own `Camera.h`/`Camera.cpp`, which are not part of this model. The model assumes it uses the PBR demo's camera (`GLFW_PBR/Camera.cpp`), including the height pin at line 22 and the inert scroll at lines 49-57.
- The clock that produces `deltaTime` is left out. Elapsed time is an input of each frame.
- Textures.LoadTexture: in the `FormatUnset` case the source uploads with uninitialised format variables. The model records that outcome but claims no formats for it, because the values are indeterminate.
