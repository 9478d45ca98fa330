# Spaceship scene: a Dafny model

This project models the logic of a small OpenGL program. The program shows
a spaceship on a launch pad. The ship can be launched and reset, and the
scene is seen through a first-person camera, a tracking camera and a
grounded camera, on one screen or split into two halves. The model covers:

- the 4x4 matrix library (`Mat44f`, its products, transpose, rotations,
  translation, scaling and perspective projection) and its test cases;
- the `Camera` class: key and mouse input, movement with speed factors, the
  pitch clamp, the yaw wrap, tracking and the projection matrix;
- the `Spaceship` class: reset, launch, the animation path, the model
  matrix and the three ship lights;
- the `Button` class: the three screen layouts, the fill and outline
  triangles, the conversion to normalised device coordinates, the hover
  test and press/release handling;
- the shared `State` and the three GLFW callbacks of `main.cpp`, and the framebuffer size its main loop reads at the start of each frame;
- `MeshData`, `concatenate` and the conversion loop of `load_wavefront_obj`;
- the cylinder, cone and sphere generators, including the pre-transform of
  positions and normals.

Floats are modelled as reals. The trigonometric functions, `sqrt`,
`normalize`, `invert`, `mat44_to_mat33` and the 3x3 product are fields of a
`Math` record passed in as a parameter. A lemma that needs one of their
values takes it as a precondition (for example `sin 0 = 0` and `cos 0 = 1`).

Each class has a `Snapshot()` function that returns its fields as a
datatype value. Each method's contract ties the new snapshot to a pure
transition function of the old one. The lemmas then prove what the program
promises about those transitions.

Files:

- `matrices.dfy`: module `Matrices`
- `input.dfy`: module `Input` (GLFW keys, actions and mouse buttons)
- `camera.dfy`: module `Cameras`
- `spaceship.dfy`: module `Spaceships`
- `button.dfy`: module `Buttons`
- `callbacks.dfy`: module `Callbacks`
- `mesh.dfy`: module `Meshes`
- `shape.dfy`: module `Shapes`

The yaw wrap in `Camera::moveAngle` is modelled as written. Its second
guard (`yaw <= 2 pi`) holds whenever the first does not. So every call
moves the yaw by a full turn, up or down, and the value never settles
inside one turn. `Cameras.YawWrapAsWritten` and `Cameras.YawWrapOscillates`
state this. Nothing in the model depends on the yaw staying within a
range, so no corrected version is used.

## Model

| member | source | states |
|---|---|---|
| Matrices.RowMajorLayout | vmlib/mat44.hpp:31-43 | Element (i, j) is stored in cell 4 i + j, and every cell n is element (n / 4, n % 4) |
| Matrices.RowMajorInjective | vmlib/mat44.hpp:31-43 | Distinct (row, column) pairs address distinct cells |
| Matrices.IdentityAt | vmlib/mat44.hpp:46-47 | kIdentity44f has ones on the diagonal and zeros elsewhere |
| Matrices.Mul | vmlib/mat44.hpp:52-65 | After the triple loop, element (i, j) is the sum over k of a(i, k) b(k, j), i.e. the product |
| Matrices.MatMulFormula | vmlib/mat44.hpp:52-65 | Every element of the product is its four-term row-by-column sum |
| Matrices.MulVec | vmlib/mat44.hpp:67-78 | After the double loop, component i is the dot product of row i with the vector |
| Matrices.MatVecFormula | vmlib/mat44.hpp:67-78 | The four components of M v, written out over the sixteen entries |
| Matrices.Transpose | vmlib/mat44.hpp:84-90 | The loop's result has element (j, i) equal to element (i, j) of the input |
| Matrices.TransposedAt | vmlib/mat44.hpp:84-90 | The transpose swaps row and column of every element |
| Matrices.TransposeInvolutive | vmlib/mat44.hpp:84-90 | Transposing twice gives the matrix back |
| Matrices.IdentityLeft | vmlib/mat44.hpp:52-65 | The identity is a left unit of the matrix product |
| Matrices.IdentityRight | vmlib/mat44.hpp:52-65 | The identity is a right unit of the matrix product |
| Matrices.IdentityMatVec | vmlib/mat44.hpp:67-78 | The identity leaves every vector unchanged |
| Matrices.MatVecOfProduct | vmlib/mat44.hpp:52-78 | Multiplying by a product applies the right factor first: (A B) v = A (B v) |
| Matrices.RotationsAtZero | vmlib-test/mat44-rotation.cpp:13-31 | With sin 0 = 0 and cos 0 = 1, each of the three rotations by zero is the identity |
| Matrices.RotationsQuarterTurn | vmlib-test/mat44-rotation.cpp:32-55 | The three 90-degree rotations are the exact matrices the test expects |
| Matrices.RotationsMinusEighthTurn | vmlib-test/mat44-rotation.cpp:56-79 | The three -45-degree rotations are the matrices the test expects, with r = cos(-pi/4) = 1 / sqrt 2 |
| Matrices.TranslationMovesPoint | vmlib/mat44.hpp:116-120 | A translation moves a point by its offset and keeps w = 1 |
| Matrices.TranslationTestCase | vmlib-test/mat44-translate.cpp:7-24 | The translation test's point lands at the expected coordinates |
| Matrices.ScalingDiagonal | vmlib/mat44.hpp:121-125 | A scaling is diagonal, with (sx, sy, sz, 1) on the diagonal |
| Matrices.ScalingPoint | vmlib/mat44.hpp:121-125 | A scaling multiplies each coordinate of a point by its own factor |
| Matrices.PerspectiveW | vmlib/mat44.hpp:127-137 | The bottom row is (0, 0, -1, 0), so the output w is -z |
| Matrices.PerspectiveScales | vmlib/mat44.hpp:127-137 | sy tan(fov / 2) = 1, sx aspect = sy, and the two depth entries times (near - far) are far + near and 2 far near |
| Matrices.PerspectiveDepth | vmlib/mat44.hpp:127-137 | Points on the near and far planes map to normalised depths -1 and +1 |
| Matrices.PerspectiveTestCase | vmlib-test/mat44-project.cpp:7-25 | Given tan(pi / 8) to seven digits, all sixteen entries of the 45-degree, 16:9, 0.1..100 projection are within the test's 1e-5 of the expected matrix |
| Matrices.MatMulTestCase | vmlib-test/mat44-mult.cpp:8-31 | The test's two operands multiply to exactly the expected matrix |
| Matrices.MatVecTestCase | vmlib-test/mat44-mult.cpp:33-49 | The test's matrix and vector multiply to exactly the expected vector |
| Cameras.Camera.constructor | main/camera.cpp:10-26 | A new camera is at the given position, level, facing down -z, with no input held and the pitch in range |
| Cameras.Camera.GetCamWorldPosition | main/camera.hpp:19 | Returns the camera position |
| Cameras.Camera.UpdateState | main/camera.cpp:28-55 | The new state is one step of the speed-scaled moves for the held direction flags, in the source's order |
| Cameras.Camera.MoveWhenHeld | main/camera.cpp:37-54 | One conditional move: the position steps if the flag is held; flags, pitch and yaw are unchanged |
| Cameras.Camera.Track | main/camera.cpp:57-60 | The camera sits one unit along +z from the target |
| Cameras.Camera.ResetState | main/camera.cpp:68-79 | Mouse look and every movement flag are cleared |
| Cameras.Camera.GetProjection | main/camera.cpp:81-85 | Returns perspective times Rx(pitch) Ry(yaw) T(-pos) for the current state |
| Cameras.Camera.UpdateKeyActions | main/camera.cpp:87-148 | Only the flag bound to the key changes (set on press, cleared on release); the rest of the state is kept |
| Cameras.Camera.UpdateMouseMovement | main/camera.cpp:150-169 | The last cursor position is recorded; with mouse look on, pitch and yaw move by the offset and the pitch is clamped |
| Cameras.Camera.UpdateMouseClicked | main/camera.cpp:171-180 | A right-button press toggles mouse look |
| Cameras.Camera.MoveDirection | main/camera.cpp:182-186 | The position steps against the direction rotated by -pitch about x and -yaw about y |
| Cameras.Camera.MoveAngle | main/camera.cpp:188-199 | Pitch and yaw are increased, then the yaw wrap of the source is applied |
| Cameras.KeyActionsByBinding | main/camera.cpp:87-148 | Each flag becomes true on a press of its key, false on a release, and is otherwise kept; nothing but the flags changes |
| Cameras.KeyActionsIgnored | main/camera.cpp:87-148 | Repeat events and unbound keys leave the camera unchanged |
| Cameras.ResetClearsInput | main/camera.cpp:68-79 | After a reset no flag is held and mouse look is off; pose, cursor and matrix are kept |
| Cameras.ResetStopsMotion | main/camera.cpp:28-79 | After a reset, updateState leaves the camera where it is for any time step |
| Cameras.ClickToggles | main/camera.cpp:171-180 | Mouse look flips exactly on a right-button press, nothing else changes, and two equal events cancel |
| Cameras.YawWrapAsWritten | main/camera.cpp:194-198 | As written, the yaw always moves by exactly one full turn: down from 2 pi or above, up below it |
| Cameras.YawWrapOscillates | main/camera.cpp:194-198 | Starting inside one turn, the wrap leaves it, and a second wrap brings the yaw back |
| Cameras.MouseMoveUpdatesLook | main/camera.cpp:150-169 | The cursor is recorded; without mouse look pitch and yaw are kept; with it they follow the offset scaled by the sensitivity, with the pitch in range |
| Cameras.ClampPitchBounds | main/camera.cpp:160-165 | The clamp result is in [-pi/2 + 0.1, pi/2 - 0.1], equals the input inside that range, and equals the nearest bound outside it |
| Cameras.TrackFollowsTarget | main/camera.cpp:57-60 | The camera ends one unit along +z from the target, nothing else changes, and tracking twice is the same as once |
| Cameras.DistanceFactors | main/camera.cpp:29-36 | The step is dt, 5 dt with Shift, dt / 5 with Control, dt with both, and never negative for dt >= 0 |
| Cameras.StepOnlyMoves | main/camera.cpp:28-55 | updateState changes the position only |
| Cameras.MoveWhenOnlyMoves | main/camera.cpp:37-54 | A conditional move changes the position only |
| Cameras.StillWithoutDirection | main/camera.cpp:37-54 | With no direction flag held, updateState changes nothing |
| Cameras.DisplacementByRotation | main/camera.cpp:182-186 | The multiplied-out displacement equals the matrix product moveDirection computes |
| Cameras.DisplacementAtRest | main/camera.cpp:182-186 | With zero pitch and yaw the displacement is the direction itself |
| Cameras.MoveAtRest | main/camera.cpp:182-186 | A level camera facing down -z steps straight back along the direction |
| Cameras.PitchStaysInRange | main/camera.cpp:150-169 | Every camera transition keeps the pitch within the clamp range once it is there |
| Cameras.RotationsFixOrigin | vmlib/mat44.hpp:92-106 | Rotations about x and y fix the origin |
| Cameras.EyeProjectsOntoAxis | main/camera.cpp:81-85 | The camera's own position projects onto the view axis, at the depth the near and far planes give |
| Cameras.LensOfOrigin | main/camera.cpp:81-85 | The perspective of getProjection sends the origin onto the axis, at depth 2 far near / (near - far) with w = 0 |
| Spaceships.Spaceship.constructor | main/spaceship.cpp:109-117 | A new ship has the three lights' offsets and colours and is in the reset state at the launch position |
| Spaceships.Spaceship.ResetState | main/spaceship.cpp:120-127 | The ship goes back to its initial position, at time zero, unrotated and paused, with matching matrices |
| Spaceships.Spaceship.UpdateMatrices | main/spaceship.cpp:129-132 | The model matrix is T(position) Rz(rotation), and the normal matrix is derived from it |
| Spaceships.Spaceship.Animate | main/spaceship.cpp:134-150 | While running, time advances by dt and the ship takes the path position and heading for the new time; while paused nothing changes |
| Spaceships.Spaceship.Launch | main/spaceship.hpp:21 | The running flag flips |
| Spaceships.Spaceship.UpdateKeyActions | main/spaceship.cpp:152-162 | F pressed launches, R pressed resets, and anything else changes nothing |
| Spaceships.Spaceship.GetPosition | main/spaceship.hpp:19 | Returns the current position |
| Spaceships.Spaceship.GetLightPos | main/spaceship.hpp:25-34 | Returns each light offset carried into world space by the model matrix |
| Spaceships.Spaceship.GetLightAmbient | main/spaceship.hpp:36 | Returns the three ambient colours |
| Spaceships.Spaceship.GetLightDiffuse | main/spaceship.hpp:37 | Returns the three diffuse colours |
| Spaceships.ResetValues | main/spaceship.cpp:120-127 | A reset puts the ship at its initial position, time 0, rotation 0, paused, with consistent matrices; resetting twice is resetting once |
| Spaceships.InitialOnPad | main/spaceship.cpp:115-117 | The new ship is paused at time zero on the pad at (-5, 0.1, 3.5) |
| Spaceships.PausedAnimateIsStill | main/spaceship.cpp:134-150 | While paused, animate changes nothing |
| Spaceships.RunningAnimateFollowsPath | main/spaceship.cpp:134-150 | While running, time grows by dt and position and heading are those of the path at the new time |
| Spaceships.AnimateAdditive | main/spaceship.cpp:134-150 | Two animation steps equal one step of their summed length |
| Spaceships.FlightPlaneKept | main/spaceship.cpp:134-162 | Every operation keeps the ship in the plane of its initial height |
| Spaceships.ConsistencyKept | main/spaceship.cpp:120-162 | Every operation leaves the matrices consistent with the position and rotation |
| Spaceships.LaunchToggles | main/spaceship.hpp:21 | Launch flips only the running flag, and launching twice restores the ship |
| Spaceships.KeyActions | main/spaceship.cpp:152-162 | F pressed is launch, R pressed is reset, every other event changes nothing, and F twice restores the ship |
| Spaceships.PlacementIsProduct | main/spaceship.cpp:129-132 | The multiplied-out model matrix equals T(position) Rz(rotation) |
| Spaceships.PlacementTop | main/spaceship.cpp:129-132 | Cells 0 to 7 of T(position) Rz(rotation) equal the multiplied-out matrix |
| Spaceships.PlacementBottom | main/spaceship.cpp:129-132 | Cells 8 to 15 of T(position) Rz(rotation) equal the multiplied-out matrix |
| Spaceships.PlacementColumn | main/spaceship.cpp:129-132 | Column 3 of the model matrix is (position, 1) |
| Spaceships.PlacementCarries | main/spaceship.cpp:129-132 | A point of the ship's frame lands at the position plus the offset rotated about z |
| Spaceships.LightsFollowShip | main/spaceship.hpp:25-34 | Each light is at the ship position plus its offset rotated by the ship's heading |
| Spaceships.LightsOnPad | main/spaceship.hpp:25-34 | On the pad the lights sit at the launch position plus their offsets |
| Buttons.Button.constructor | main/button.hpp:16-40 | A new button has no size yet, an empty rectangle, no vertex data, the idle colour and no hover or press |
| Buttons.Button.UpdateSize | main/button.hpp:42-98 | With an unchanged framebuffer size nothing happens; otherwise the layout's rectangle and its 6 fill and 24 outline vertices are rebuilt in NDC; the pointer state is kept |
| Buttons.Button.CreateVao | main/button.hpp:100-105 | The uploaded data is every vertex converted to normalised device coordinates |
| Buttons.Button.UpdateMouseMove | main/button.hpp:139-152 | The hover state follows the inclusive hit test after the y flip, and the colour and press state follow it |
| Buttons.Button.UpdateMousePress | main/button.hpp:154-168 | The pointer state follows the press rules, and the ship is changed by the callback exactly when the press fires |
| Buttons.LayoutSizes | main/button.hpp:199-224 | The three layouts are 160 x 50, 140 x 60 and 140 x 60 whatever the framebuffer size, and the top-left one sits 40 pixels in from the corner |
| Buttons.BottomPairMirrored | main/button.hpp:208-224 | The two bottom buttons mirror each other about the centre line, 80 pixels apart, at the same height |
| Buttons.ResizeIdempotent | main/button.hpp:42-98 | A second resize to the same size changes nothing |
| Buttons.ResizeRebuilds | main/button.hpp:42-98 | A real resize stores the new size and the layout's rectangle, with 6 fill and 24 outline vertices |
| Buttons.FillAtCorners | main/button.hpp:54-57 | Every fill vertex is a corner of the rectangle |
| Buttons.OutlineInFrame | main/button.hpp:59-91 | Every outline vertex is inside the rectangle grown by the border, and never strictly inside the rectangle |
| Buttons.NdcCorners | main/button.hpp:100-105 | The framebuffer's corners map to (-1, -1) and (1, 1) |
| Buttons.NdcRoundTrip | main/button.hpp:100-105 | Converting to NDC and back to pixels returns the original point |
| Buttons.MouseMoveHitTest | main/button.hpp:139-143 | The cursor is inside exactly when it is within all four edges, inclusive, after flipping y |
| Buttons.MouseMoveColours | main/button.hpp:144-151 | Outside: the idle colour and no press; inside: the active colour unless a press is held, which keeps its colour |
| Buttons.PressFiresOnLeftRelease | main/button.hpp:154-168 | The callback fires exactly on a left-button release inside; a left press inside shows the pressed colour; outside nothing changes |
| Buttons.ClickInside | main/button.hpp:154-168 | A left press then release inside fires once and leaves the button active and not pressed |
| Buttons.DragOutCancels | main/button.hpp:139-168 | Moving out while pressed cancels the press, so a following release does not fire |
| Callbacks.State.constructor | main/main.cpp:182-187 | Both screen halves show the first-person camera, the screen is not split, and the ship and buttons are those given |
| Callbacks.State.OnKey | main/main.cpp:386-435 | Escape pressed only requests closing; any other event updates the view, routes the key to the first-person camera under the reset and visibility rules, and passes it to the ship |
| Callbacks.State.SwitchView | main/main.cpp:394-417 | V pressed toggles the split; C pressed moves the left half (the right one with Shift) on to the next camera |
| Callbacks.State.UpdateFirstPerson | main/main.cpp:418-431 | A C press that leaves the first-person camera off screen resets it; a visible first-person camera then receives the key |
| Callbacks.State.OnMotion | main/main.cpp:437-446 | The first-person camera sees the cursor movement, and every button updates its hover state; the button sizes are kept |
| Callbacks.State.OnButton | main/main.cpp:448-460 | A visible first-person camera sees the click; every button applies the press rules, and the ship is changed by the fired callbacks in button order |
| Callbacks.State.PressButtons | main/main.cpp:455-458 | Each button in turn applies the press rules, and the ship is the result of the fired callbacks in order |
| Callbacks.State.PressButton | main/main.cpp:456-458 | One loop step: button i has seen the event, the later buttons are untouched, and the ship reflects buttons 0..i |
| Callbacks.CameraCycle | main/main.cpp:400-417 | One C press always changes the camera, and three presses bring it back |
| Callbacks.InitiallyFirstPerson | main/main.cpp:182-187 | At start the first-person camera is on screen and a C press would not reset it |
| Callbacks.ResetWhenHidden | main/main.cpp:419-429 | The reset rule holds exactly when the first-person camera is not on screen |
| Callbacks.SplitToggles | main/main.cpp:395-397 | V flips the split and nothing else; two presses restore the view |
| Callbacks.CycleOneHalf | main/main.cpp:400-417 | C moves the right half with Shift and the left half without, to the next camera |
| Callbacks.CycleRestores | main/main.cpp:400-417 | Three C presses on the same half restore the whole view |
| Callbacks.OtherKeysKeepView | main/main.cpp:394-417 | Keys other than V and C, and non-press events, leave the view alone |
| Callbacks.VisibleCameraGetsKeys | main/main.cpp:426-431 | While on screen, the first-person camera reacts to a key exactly as its own handler says |
| Callbacks.HidingReleasesInput | main/main.cpp:418-423 | A C press that takes the first-person camera off screen clears all its input and mouse look |
| Callbacks.HiddenCameraIgnoresKeys | main/main.cpp:426-431 | Off screen, any other event leaves the first-person camera as it was |
| Callbacks.QuietButtonsKeepShip | main/main.cpp:455-458 | If no button is hovered, a mouse-button event leaves the ship unchanged |
| Callbacks.LabelsKeepShip | main/main.cpp:167-169 | Buttons with the empty callback, like the altitude label, never change the ship |
| Callbacks.FirstRestored | main/main.cpp:218-224 | The report that ends the wait is the first one, from the given index on, that is not minimised |
| Callbacks.WaitWhileMinimised | main/main.cpp:213-225 | The first size report, then one more per event wait while minimised, stops at the first report of a restored window |
| Callbacks.FrameSizeAsWritten | main/main.cpp:210-225 | As written, the frame's fbwidth and fbheight are the first report, taken before the wait |
| Callbacks.FrameSize | main/main.cpp:210-225 | Corrected: the frame's size is the report that ended the wait, and neither side is zero |
| Callbacks.Aspect | main/main.cpp:262-268 | The aspect ratio times the height (twice the height when split) is the width, and it is zero exactly when the width is |
| Callbacks.StaleSizeAfterRestore | main/main.cpp:210-225 | After a minimised report, the as-written size fails updateSize's resize requirement for buttons sized on a visible window, and gives no usable aspect ratio |
| Callbacks.StaleSizeExample | main/main.cpp:210-225 | One minimised report then 1280 x 720: the wait ends at the second report, but the frame keeps 0 x 0, which a 1280 x 720 button cannot take |
| Callbacks.RestoredSizeUsable | main/main.cpp:247-275 | The corrected size meets every button's resize requirement and gives a nonzero aspect ratio for getProjection |
| Meshes.ConcatenateJoins | main/mesh.cpp:7-21 | Each of the eight lists of the result is the first mesh's list followed by the second's |
| Meshes.ConcatenateEmpty | main/mesh.cpp:7-21 | The default mesh is a unit of concatenate on both sides |
| Meshes.ConcatenateAssociative | main/mesh.cpp:7-21 | concatenate is associative |
| Meshes.LoadWavefrontObj | main/mesh.cpp:151-194 | A parse error gives the error with the file name and message; otherwise the result is every shape's corners converted in order |
| Meshes.AppendShape | main/mesh.cpp:163-191 | The inner loop appends the converted corners of one shape |
| Meshes.AppendCorner | main/mesh.cpp:164-190 | One corner appends its position and normal, then its texture coordinate or its triangle's five material values |
| Meshes.CornerMeshSizes | main/mesh.cpp:164-190 | One corner adds one position and one normal, and one texture coordinate or one entry to each material list |
| Meshes.SizesAdd | main/mesh.cpp:7-21 | Concatenating the entries of x corners and of y corners gives those of x + y corners |
| Meshes.ShapeMeshSizes | main/mesh.cpp:163-191 | The first n corners of a shape give n positions and normals, and n texture coordinates or n entries in each material list |
| Meshes.ObjMeshSizes | main/mesh.cpp:162-192 | The whole file gives one position and normal per corner, and either only texture coordinates or only material entries, one per corner |
| Meshes.ShapeMeshEntries | main/mesh.cpp:164-190 | Entry i comes from corner i: the indexed position and normal triples, and the texture pair or the material of triangle i / 3 |
| Shapes.Filled | main/shape.cpp:71-75 | std::vector(n, v) has n entries, all v |
| Shapes.JoinedSize | main/shape.cpp:17-57 | n iterations writing per entries each fill exactly per n entries |
| Shapes.JoinedAt | main/shape.cpp:17-57 | Write j of iteration i lands at index per i + j |
| Shapes.Put | main/shape.cpp:26-27 | One write at the running index appends the position and normal to the filled prefix |
| Shapes.TransformPositions | main/shape.cpp:59-64 | Each position becomes the pre-transformed point divided by its w |
| Shapes.TransformNormals | main/shape.cpp:66-69 | Each normal is multiplied by the normal matrix |
| Shapes.ApplyPreTransform | main/shape.cpp:59-69 | Both passes together give the pre-transformed strip |
| Shapes.AffineProjection | main/shape.cpp:59-64 | With bottom row (0, 0, 0, 1), w stays 1 and the divide changes nothing |
| Shapes.IdentityProjection | main/shape.cpp:59-64 | The identity pre-transform keeps every position |
| Shapes.TranslationProjection | main/shape.cpp:59-64 | A translation pre-transform moves every position by its offset |
| Shapes.CylinderSegments | main/shape.cpp:18-57 | One strip per loop iteration |
| Shapes.CylinderSegmentsUniform | main/shape.cpp:11 | Every iteration writes 6 entries, or 12 when capped |
| Shapes.CylinderSegmentsAt | main/shape.cpp:18-57 | Iteration i writes the two side triangles, then the two caps if capped, between ring points i and i + 1 |
| Shapes.PutCylinderSide | main/shape.cpp:26-38 | Six writes append the two side triangles at the running index |
| Shapes.PutCylinderCaps | main/shape.cpp:40-54 | Six writes append the two cap triangles, at x = 0 facing -x and at x = 1 facing +x |
| Shapes.MakeCylinder | main/shape.cpp:7-81 | numVertices positions and normals, the loop's triangles through the pre-transform, no texture coordinates and constant colours |
| Shapes.CylinderBuffers | main/shape.cpp:11-57 | The loop fills both buffers exactly, with iteration i's triangles at its place |
| Shapes.CylinderStep | main/shape.cpp:18-57 | Iteration i extends the writes of the first i iterations by segment i and moves to ring point i + 1 |
| Shapes.CylinderIteration | main/shape.cpp:19-56 | One iteration writes its segment at the running index and computes the next ring point |
| Shapes.ConeSegments | main/shape.cpp:94-124 | One strip per loop iteration |
| Shapes.ConeSegmentsUniform | main/shape.cpp:87 | Every iteration writes 3 entries, or 6 when capped |
| Shapes.ConeSegmentsAt | main/shape.cpp:94-124 | Iteration i writes the slanted triangle, then the base triangle if capped, between ring points i and i + 1 |
| Shapes.PutConeSide | main/shape.cpp:105-112 | Three writes append the slanted triangle with its normals |
| Shapes.PutConeCap | main/shape.cpp:114-121 | Three writes append the base triangle, facing -x |
| Shapes.MakeCone | main/shape.cpp:83-148 | numVertices positions and normals, the loop's triangles through the pre-transform, no texture coordinates and constant colours |
| Shapes.ConeBuffers | main/shape.cpp:87-124 | The loop fills both buffers exactly, with iteration i's triangles at its place |
| Shapes.ConeStep | main/shape.cpp:94-124 | Iteration i extends the writes of the first i iterations by segment i and moves to ring point i + 1 |
| Shapes.ConeIteration | main/shape.cpp:95-123 | One iteration writes its segment at the running index and computes the next ring point |
| Shapes.Icosahedron | main/shape.cpp:157-171 | The starting solid has 12 points and 20 faces, and every face index is a point |
| Shapes.MidpointsSize | main/shape.cpp:179-188 | A pass appends three midpoints per face |
| Shapes.SplitFacesIn | main/shape.cpp:189-193 | A pass makes four faces per face, all indexing existing or new points |
| Shapes.SubdividedValid | main/shape.cpp:174-196 | A pass keeps every face index in range, with 3 more points and 4 faces per old face |
| Shapes.Subdivisions | main/shape.cpp:174-196 | After n passes there are 20 * 4^n faces and 20 * 4^n - 8 points, all indices in range |
| Shapes.SplitFace | main/shape.cpp:179-193 | One face appends its three edge midpoints and its four quarter faces at the running indices |
| Shapes.MidpointsStep | main/shape.cpp:179-188 | The midpoints of one more face extend the earlier ones by that face's three |
| Shapes.SplitFacesStep | main/shape.cpp:189-193 | The faces from one more face extend the earlier ones by its four quarters |
| Shapes.SubdivisionStep | main/shape.cpp:179-194 | One face iteration keeps the loop invariant: points and faces so far are the pass's prefix |
| Shapes.SubdivisionPass | main/shape.cpp:175-195 | One pass of the loop computes the subdivided sphere |
| Shapes.SoupAt | main/shape.cpp:199-206 | Soup vertex k is corner k % 3 of face k / 3 |
| Shapes.SoupSize | main/shape.cpp:199-206 | The soup has three vertices per face |
| Shapes.SphereSoup | main/shape.cpp:199-206 | The soup loop writes the corners of each face in turn |
| Shapes.MakeSphere | main/shape.cpp:150-234 | 60 * 4^n vertices, vertex k is corner k % 3 of face k / 3 of the subdivided sphere, normals start equal to positions, both go through the pre-transform, and the colours are constant |

## Left out

- Drawing and GPU state: `create_vao` in `mesh.cpp` and `spaceship.cpp`, the buffer uploads of `Button::createVao`, every `draw`, and the GLFW window and cursor-mode calls. These are foreign calls with no logic to prove. `Button::createVao` keeps only its coordinate conversion, and the uploaded vertex data stands for the vertex array object names.
- `Camera::pointAt`: it is made of `atan2` and `sqrt` calls on the `Math` record only, so nothing about it could be proved.
- Floating-point rounding, infinities and NaN: floats are reals. The constants 0.01f, 0.2f and pi_v<float> are the exact decimal values.
- Matrices.Perspective: requires tan(fov / 2), the aspect ratio and near - far to be nonzero, since a float division by zero (an infinity) is not modelled.
- Cameras.Camera.GetProjection: requires the same nonzero tangent and aspect ratio, for the same reason. `main` does pass an aspect ratio of 0 / 0 on the first frame after the window is restored from being minimised (main/main.cpp:215-216, 262-268, 275, 316-317; see Findings); the model does not cover that frame.
- Buttons.Button.UpdateSize: requires a nonzero framebuffer size whenever the size changes, since createVao divides by it. `main` does call `updateSize(0, 0)` on the first frame after a restore (main/main.cpp:215-216, 247-249; see Findings); the model does not cover that frame.
- Buttons.Button.CreateVao: requires the stored framebuffer size to be nonzero, for the same reason; after that `updateSize(0, 0)` the source divides by zero here.
- Callbacks.WaitWhileMinimised: requires some size report to show the window restored. The source's wait loop never ends otherwise, so frames that never end are not modelled. The reports of glfwGetFramebufferSize are a parameter, and glfwWaitEvents is not modelled.
- Shapes.MakeCylinder: requires `numVertices` to fit in 32 bits instead of modelling the `GLuint` wrap-around, and requires every generated position to have a nonzero w after the pre-transform (the division by w).
- Shapes.MakeCone: the same two requirements as the cylinder.
- Shapes.MakeSphere: requires sqrt 5 and the normalising root to give a defined phi and a, and requires a nonzero w for every vertex after the pre-transform.
- The values of `sin`, `cos`, `tan`, `atan2`, `sqrt`, `normalize`, `invert`, `mat44_to_mat33` and the 3x3 product are not computed. They are fields of the `Math` record, and the lemmas state the facts they need as preconditions.
- OBJ parsing and triangulation: the result of `rapidobj::ParseFile` and `rapidobj::Triangulate` is a parameter.
- Meshes.LoadWavefrontObj: its precondition `Readable` leaves out the OBJ files on which the source reads out of range. These are a missing normal, a missing texture coordinate when `useTexture` is set, and a face without a material when it is not; rapidobj reports each of them as index -1, and the source does not check for them (main/mesh.cpp:170-173, 179).
- The vertex scaling loop of the `Spaceship` constructor, and the mesh it builds from the shape generators: that is scene data and not modelled.
- The three buttons and three cameras that `main` creates: these are arguments of `Callbacks.State.constructor`. The buttons' callbacks are the `Callback` values `NoAction`, `LaunchShip` and `ResetShip`. The cameras' start positions are not modelled.
- `std::vector` and `std::array` buffers are Dafny sequences updated by index, so aliasing of the vectors is not modelled.
- The light arrays of the spaceship are constants rather than arrays filled in the constructor.

## Findings

| source | as written | input that shows it | evidently intended | confidence | as-written member | corrected member |
|---|---|---|---|---|---|---|
| main/main.cpp:215-224 | `fbwidth` and `fbheight` are copied from the first glfwGetFramebufferSize report, before the minimise wait, and are not updated from the report that ends it | the window is minimised, then restored to 1280 x 720: that frame calls `updateSize(0, 0)` on buttons last sized at 1280 x 720, and computes the aspect ratio 0 / 0 for getProjection | the frame uses the size reported after the wait | not executed | Callbacks.FrameSizeAsWritten, Callbacks.StaleSizeAfterRestore, Callbacks.StaleSizeExample | Callbacks.FrameSize, Callbacks.RestoredSizeUsable |
