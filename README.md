# three-games: input, camera and game bookkeeping in Dafny

This project models the self-contained logic of two browser 3D demos that
glue a rendering library to a rigid-body physics library:

- **First-person demo** (`1st-test`): the `InputController` (key table,
  current/previous mouse snapshot, mouse deltas, readiness), the `clamp`
  helper and the pitch bound of `updateRotation_`, the W/S/A/D/Shift rule of
  `updateTranslation_` with its head-bob flag, the nearest-hit look-at target
  of `updateCamera_`, and the per-frame copy of body poses onto meshes.
- **BloonZ**: the module-level parallel arrays of balls, static boxes and
  balloons; the click handler's queue of at most 15 balls; the timeout that
  shifts the oldest ball; the collision handler's splices; the loader and
  wall pushes; and the per-frame pose copies.
- **dom-utils**: how `addTitle` cuts the page title at the first `" - "`.

Layout: `wrappers.dfy` (Option), `js_builtins.dfy` (the JavaScript
`shift`/`splice`/`indexOf`/`slice` semantics the code relies on, including
negative indexes), `scene.dfy` (poses, bodies, render objects and the pose
copy loop), `input_controller.dfy`, `first_person_camera.dfy`, `bloonz.dfy`,
`dom_utils.dfy`.

The input controller is specified by pure transition functions over an
`InputState` value (one per event, plus `Tick` for `update()`); the class
`InputController` updates its fields in place and each method is proved to
perform the matching transition. Lemmas over runs of events state the
lifecycle properties. Physics bodies and render objects are classes whose
pose fields the frame loops overwrite; the BloonZ game is a class whose
array fields the handlers reassign with the modelled JavaScript built-ins.
Coordinates, distances and angles are reals.

Behaviours of the code that the model makes explicit:

- When the colliding ball is no longer in `balls`, `indexOf` gives -1 and
  `splice(-1, 1)` removes the last (newest) ball pair (`Splice1MinusOne`).
- The collision handler passes the removed bodies to `scene.remove`, not to
  `world.removeBody`, so they stay in the physics world (`Game.Collide`
  ensures `world == old(world)`).
- The timeout removes the front pair, whichever ball scheduled it.
- Without `" - "` in the title, `addTitle` shows the title minus its last
  character and the title minus its first two characters.
- A mouse move's delta is still in `current_` after the `update()` that
  follows it and is cleared only by the next one, so a reader that samples
  the delta before each update (as `updateRotation_` does) sees it on two
  frames (`MoveDeltaSpansTwoUpdates`).
- The movement speed is negative in the code (-1.4 / -0.8): it is the
  component along the camera's -z axis, i.e. forward.

## Model

| member | source | states |
|---|---|---|
| `InputControl.Initial` | 1st-test/src/js/scripts.js:44-55 | after initialisation no key reads as held, the controller is not ready and both deltas are 0 |
| `InputControl.Moved` | 1st-test/src/js/scripts.js:63-73 | a move makes the controller ready, stores the centred position, keeps buttons and keys; on the first event both deltas are 0, afterwards the snapshot is kept and the deltas are measured against it |
| `InputControl.Pressed` | 1st-test/src/js/scripts.js:75-88 | mousedown is a move, then button 0 sets leftButton, button 2 sets rightButton, any other button leaves both flags as they were |
| `InputControl.Released` | 1st-test/src/js/scripts.js:90-103 | mouseup is a move, then button 0 clears leftButton, button 2 clears rightButton, any other button leaves both flags as they were |
| `InputControl.KeyPressed` | 1st-test/src/js/scripts.js:105-115 | after keydown the key reads as held and every other key reads as before |
| `InputControl.KeyReleased` | 1st-test/src/js/scripts.js:109-115 | after keyup the key reads as released and every other key reads as before |
| `InputControl.Updated` | 1st-test/src/js/scripts.js:121-128 | when ready, the deltas are recomputed against the snapshot and the snapshot becomes the new current record; when not ready nothing changes |
| `InputControl.ReadyIsSticky` | 1st-test/src/js/scripts.js:63-128 | once ready, the controller stays ready after any sequence of events and updates |
| `InputControl.MouseEventMakesReady` | 1st-test/src/js/scripts.js:67-69 | any mouse event (move, down, up) makes the controller ready |
| `InputControl.UnpressedKeyStaysUp` | 1st-test/src/js/scripts.js:105-115 | a released key stays released through any events that contain no keydown for it |
| `InputControl.NeverPressedKeyReadsFalse` | 1st-test/src/js/scripts.js:44-115 | from initialisation, a key code that was never pressed reads as false |
| `InputControl.SnapshotKeptBetweenUpdates` | 1st-test/src/js/scripts.js:63-128 | between two updates no event moves the previous snapshot |
| `InputControl.DeltaMeasuredFromSnapshot` | 1st-test/src/js/scripts.js:63-128 | after any burst of events without an update, the delta is the last position minus the last update's snapshot, not minus the previous event |
| `InputControl.MoveDeltaSpansTwoUpdates` | 1st-test/src/js/scripts.js:121-128 | a move's delta survives the next update unchanged and is 0 only after the update after that |
| `InputControl.InputController.constructor` | 1st-test/src/js/scripts.js:39-61 | the new controller is in the initial state |
| `InputControl.InputController.Key` | 1st-test/src/js/scripts.js:113-115 | a key reads as held exactly when its table entry is true; a code the table has never seen reads as false |
| `InputControl.InputController.IsReady` | 1st-test/src/js/scripts.js:117-119 | the controller is ready exactly when a previous snapshot exists |
| `InputControl.InputController.OnMouseMove` | 1st-test/src/js/scripts.js:63-73 | performs `Moved` with the page position centred on the window |
| `InputControl.InputController.OnMouseDown` | 1st-test/src/js/scripts.js:75-88 | performs `Pressed` |
| `InputControl.InputController.OnMouseUp` | 1st-test/src/js/scripts.js:90-103 | performs `Released` |
| `InputControl.InputController.OnKeyDown` | 1st-test/src/js/scripts.js:105-107 | performs `KeyPressed` |
| `InputControl.InputController.OnKeyUp` | 1st-test/src/js/scripts.js:109-111 | performs `KeyReleased` |
| `InputControl.InputController.Update` | 1st-test/src/js/scripts.js:121-128 | performs `Updated` |
| `FirstPerson.Clamp` | 1st-test/src/js/scripts.js:34-36 | the result is at most b, at least a when a <= b, equals x when x is in [a, b], is b when x >= b and a when x <= a <= b |
| `FirstPerson.AxisVelocity` | 1st-test/src/js/scripts.js:203-204 | the velocity is in {-1, 0, 1}; it is 0 exactly when both or neither key is held, 1 exactly for the positive key alone, -1 exactly for the negative key alone |
| `FirstPerson.MoveSpeed` | 1st-test/src/js/scripts.js:209 | the step along -z is 1.4 with Shift held and 0.8 otherwise |
| `FirstPerson.ClosestTarget` | 1st-test/src/js/scripts.js:166-185 | the target is the far point when no hit is closer than 100; otherwise it is the point of a hit closer than 100 that is no farther than any hit and strictly closer than every earlier hit |
| `FirstPerson.FirstPersonCamera.constructor` | 1st-test/src/js/scripts.js:133-150 | fresh input controller, zero yaw and pitch, speeds 8 and 5, head bob off |
| `FirstPerson.FirstPersonCamera.UpdateRotation` | 1st-test/src/js/scripts.js:235-240 | the yaw turns by the scaled x delta times 8; the pitch becomes the clamped sum, so it always stays within [-pi/3, pi/3] |
| `FirstPerson.FirstPersonCamera.UpdateTranslation` | 1st-test/src/js/scripts.js:202-229 | the forward velocity comes from W/S, the strafe velocity from A/D, the speed from Shift; head bob is switched on whenever a velocity is non-zero and never switched off |
| `FirstPerson.SyncFrame` | 1st-test/src/js/scripts.js:760-772 | every mesh i carries the pose body i had, and the camera's hit box body and mesh carry the camera's translation and rotation |
| `Scene.CopyPoses` | 1st-test/src/js/scripts.js:764-767 | every mesh i carries the position and orientation of body i |
| `BloonZ.CappedPush` | BloonZ/src/js/scripts.js:189-206 | the pushed element is last; a queue of at most 15 stays at most 15; below 15 it grows by one, at 15 or more the length stays; the rest is the newest part of the old queue in order |
| `BloonZ.Game.constructor` | BloonZ/src/js/scripts.js:141-307 | the camera body and mesh are box 0, the wall is box 1 at (0, 2.5, -10); no balls or balloons; pointer not locked; the invariant holds |
| `BloonZ.Game.CreateWall` | BloonZ/src/js/scripts.js:251-269 | one fresh body at the given position and one fresh mesh are appended to the box arrays, the world and the scene; nothing else changes |
| `BloonZ.Game.CreateBalloon` | BloonZ/src/js/scripts.js:271-305 | one fresh mesh is appended to `enemyMeshes` and the scene, one fresh body at the origin to `enemyBodies` and the world; the models and all other arrays are unchanged |
| `BloonZ.Game.LoadBalloon` | BloonZ/src/js/scripts.js:309-326 | exactly one fresh entry is appended to each of the three balloon arrays, so their lengths stay equal; the model and mesh join the scene, the body the world, at the spawn position |
| `BloonZ.Game.Lock` | BloonZ/src/js/scripts.js:340-343 | controls become enabled; nothing else changes |
| `BloonZ.Game.Unlock` | BloonZ/src/js/scripts.js:345-348 | controls become disabled; nothing else changes |
| `BloonZ.Game.RemoveObject` | BloonZ/src/js/scripts.js:351-354 | the mesh leaves the scene and the body the world |
| `BloonZ.Game.Click` | BloonZ/src/js/scripts.js:185-206 | with controls disabled nothing changes; otherwise both ball arrays become `CappedPush` of the old ones with the new ball and mesh, so they stay equal in length and within the cap, and at 15 the oldest pair leaves scene and world |
| `BloonZ.Game.PushBall` | BloonZ/src/js/scripts.js:193-206 | a fresh ball body and mesh at the spawn point are appended to both arrays, the world and the scene |
| `BloonZ.Game.DropOldestBall` | BloonZ/src/js/scripts.js:225-233 | both ball arrays lose their front element (empty arrays stay empty) and that pair leaves scene and world |
| `BloonZ.Game.Collide` | BloonZ/src/js/scripts.js:208-222 | nothing changes unless the other body is a balloon; then the same index is spliced from the three balloon arrays and the ball's `indexOf` index from both ball arrays; removed meshes leave the scene, the world is unchanged; the invariant holds |
| `BloonZ.Game.SyncBalls` | BloonZ/src/js/scripts.js:368-371 | every ball mesh i carries the pose of ball body i |
| `BloonZ.Game.SyncBoxes` | BloonZ/src/js/scripts.js:377-380 | every box mesh i carries the pose of box body i |
| `BloonZ.Game.SyncEnemies` | BloonZ/src/js/scripts.js:382-392 | every balloon mesh i carries balloon body i's pose; every balloon model i its orientation and its position plus the fixed offset |
| `BloonZ.Game.Animate` | BloonZ/src/js/scripts.js:357-392 | with controls enabled all three copies hold at the end of the frame, since the loops write disjoint objects; with controls disabled no render object changes |
| `JsBuiltins.Shift` | BloonZ/src/js/scripts.js:190 | shifting drops exactly the first element; an empty array stays empty |
| `JsBuiltins.Splice1` | BloonZ/src/js/scripts.js:213-220 | splicing one element at a resolved index removes exactly that element and keeps the others in order; an index past the end removes nothing |
| `JsBuiltins.SpliceRemoved` | BloonZ/src/js/scripts.js:213-220 | splice returns the one removed element, or nothing when the index is past the end |
| `JsBuiltins.Splice1MinusOne` | BloonZ/src/js/scripts.js:218-220 | `splice(-1, 1)` on a non-empty array removes its last element |
| `JsBuiltins.Splice1Shrinks` | BloonZ/src/js/scripts.js:212-220 | splicing adds no element and keeps a duplicate-free array duplicate-free, removing exactly the returned element |
| `JsBuiltins.IndexOf` | BloonZ/src/js/scripts.js:209-218 | the result is -1 exactly when the element is absent, and otherwise the first index holding it |
| `JsBuiltins.StringIndexOf` | BloonZ/src/js/dom-utils.js:9-10 | the result is -1 exactly when the pattern does not occur, and otherwise the first position where it occurs |
| `JsBuiltins.RelativeIndex` | BloonZ/src/js/dom-utils.js:9-10 | an index in [0, len] is kept, a negative one counts back from len, and the result is clamped to 0 below and to len above |
| `JsBuiltins.Slice` | BloonZ/src/js/dom-utils.js:9-10 | start and end are resolved as JavaScript does (negative counts from the end, out of range is clamped); the result holds the elements from the resolved start up to the resolved end, and is empty when the resolved start is not before the resolved end |
| `JsBuiltins.PrefixWithoutOccurrence` | BloonZ/src/js/dom-utils.js:9 | a prefix before any whole occurrence of the pattern holds no occurrence of it |
| `DomUtils.SplitTitle` | BloonZ/src/js/dom-utils.js:9-10 | when `" - "` occurs, libraries + `" - "` + content is the title and libraries ends where `" - "` starts and no `" - "` of the title starts earlier, so the cut is at the first one even where occurrences overlap; libraries never contains `" - "`; without `" - "`, libraries is the title without its last character (empty for an empty title) and content the title from index 2 |
| `DomUtils.SplitTitleLengths` | BloonZ/src/js/dom-utils.js:9-10 | when `" - "` occurs, the two parts plus 3 make up the title's length |
| `DomUtils.SplitTitleWithoutSeparatorExample` | BloonZ/src/js/dom-utils.js:9-10 | the title "BloonZ" splits into "Bloon" and "oonZ" |

## Left out

- Renderer, scene, light, texture, skybox, material and post-processing setup: library configuration without logic.
- The physics engine (`world.step`, contact materials, solver settings, collision detection, `cameraBody.force`): an external library. A collision is a call of `Game.Collide` with the two bodies.
- Quaternion and vector math (`applyQuaternion`, `setFromAxisAngle`, `unproject`, `normalize`, `Ray.intersectBox`): floating-point calls into the library. So the camera's `rotation_` quaternion, the translation vector that `updateTranslation_` adds, the camera pose and `lookAt` of `updateCamera_`, the shoot direction and ball velocity of the click handler are not modelled; the ray/box test is an oracle of optional hits, and the spawn point of a ball is a parameter.
- `updateHeadBob_` (the head-bob timer with `Math.sin`/`Math.floor` and its epsilon): floating-point timing. It is also what clears `headBobActive_`, so `FirstPersonCamera.update`'s fixed order of the five steps is not modelled as one method.
- The balloon pursuit loop (BloonZ/src/js/scripts.js:393-419): floating-point steering with `normalize`. In the source it runs after the pose copies, so at the end of a frame the balloon meshes show the positions from before that step.
- Timing and event plumbing: `requestAnimationFrame`, `setAnimationLoop`, the 5-second `setTimeout` delay (the callback is `Game.DropOldestBall`, callable at any time), `performance.now`, `addEventListener`, `controls.update`, the ball's `preStep` listener.
- Asynchronous GLTF loading order and `Math.random`: the loop index and random roll of a balloon spawn are parameters of `Game.LoadBalloon`; the model's scale is not modelled.
- DOM: `createElementFromHTML`, `innerHTML`, `appendChild`, window resizing, the pointer-lock class `PointerLockControlsCannon` (not part of this model; its `enabled` flag is taken to start false, so only `lock` enables clicks).
- `previousKeys_` is initialised and never read; the Escape entry of `KEYS` is only used by commented-out code.
- Numbers are reals, not IEEE doubles: no rounding, NaN or infinities; `Math.PI` is its 16-digit decimal.
- DomUtils.SplitTitle: string positions count Unicode characters, while `document.title.slice` and `indexOf` count UTF-16 code units. With `" - "` present both parts come out the same; without it, for a title holding a character outside the Basic Multilingual Plane (an emoji, say) `slice(0, -1)` and `slice(2)` can cut a surrogate pair in half in the source, where the model drops or keeps whole characters.
- FirstPerson.FirstPersonCamera.UpdateRotation: requires a window of positive size; the source would divide by zero and get Infinity or NaN.
- Scene.CopyPoses and FirstPerson.SyncFrame: require a body for every mesh (the source would throw on `undefined`) and no mesh listed twice (the source would let a later copy overwrite an earlier one); the source's lists meet both.
- `scene` and `world` in `BloonZ.Game` hold only the objects the arrays track (plus removed ones); the floor, lights and ground body are not included.
