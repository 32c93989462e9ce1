# Posing tool: a Dafny model of its interaction core

The page (`JS/main.js`) loads an OBJ figure into a three.js scene. It hangs
the figure under a *pivot* group and marks the figure's "belly" with a small
cube and its outline. The user can then pose the figure in three ways:

- dragging the marker with the mouse;
- moving and rotating it with lil-gui sliders;
- moving the pivot, which changes the point that rotations turn about.

There are also reset buttons for position, rotation, camera, light and pivot,
a "snap to ground" button, and an HSV colour picker for the figure's material.

This project models that core:

- the module-level drag and hover state and its mouse handlers;
- the per-frame hover check and the marker sync that `animate` runs;
- every slider callback that moves something, and the pivot lock;
- the reset buttons and the ground snap;
- `hsvToRgb`.

It proves properties of the model.

Layout:

- `vectors.dfy` (`Vectors`): exact-real stand-ins for `Vector3`, for the
  rotation a quaternion applies (a `Mat3`) and for the affine map of a
  `matrixWorld`.
- `color.dfy` (`Color`): `hsvToRgb` and its properties.
- `posing.dfy` (`Posing`): the state `ToolState` and one pure transition
  function per handler, returning the next state and how the handler ends
  (`Completion`).
- `posing_properties.dfy` (`PosingProperties`): properties that relate
  several handler calls, and the invariant that every event sequence keeps.
- `tool.dfy` (`Tool`): the class `PosingTool`. Its fields are the page's
  mutable state, assigned in place by one method per handler. Each method is
  proved to leave exactly the state, and the completion, of the matching
  `Posing` function.

three.js is treated as an oracle, so its answers are parameters:

- raycast hits (`hit`, `meshHit`, `edgesHit`);
- the ray-plane intersection (`intersect`);
- the camera direction (`viewDir`);
- the pivot's quaternion as a rotation matrix (`orientation`);
- the figure's `matrixWorld`;
- the bounding box's lowest height (`minY`).

The model follows the code as written, including where the code differs from
what the page evidently aims at:

- `syncCubePosition` exists only inside `setupGUI`, where it is declared
  twice, at JS/main.js:523 and 693. The later declaration, based on
  `matrixWorld`, is the one in force.
  - The slider callbacks see it.
  - The calls at JS/main.js:198, 208 and 404 sit outside `setupGUI` (in
    the mouse handlers that `init()` installs and in `resetPosition`), where
    the name is unbound. `mousemove`, `mouseup` and `resetPosition` therefore
    make their earlier assignments and then end in a `ReferenceError`
    (`Posing.SyncUnbound`).
- The position and rotation controllers are never stored (JS/main.js:516,
  585).
  - The guard at JS/main.js:416 is false, so after Reset Rotation the panel
    keeps showing the old angles.
  - The guard at JS/main.js:406 is never reached, because the call at 404
    throws first.
  - The guard at JS/main.js:570, in the ground snap, is false, so the
    position panel keeps its old y.
  - `resetPivot` zeroes the pivot, the figure and the pivot controls, then
    throws at `rotationXCtrl` (JS/main.js:459).
- `setupGUI` calls `updateModelColor` outside the function that declares it
  (JS/main.js:819). The load callback therefore ends in a `ReferenceError`
  after the pivot lock is set up.
- Before the OBJ load completes, several things are still undefined: the
  figure, the pivot and the panel controllers. A handler that touches them
  ends in a `TypeError`; it does not pass an existence check.
- lil-gui's `setValue` fires the control's change callback. The resets
  therefore run the slider callbacks, and the model proves that those runs
  change nothing further.
- A pivot slider keeps the figure's world position only when applying the
  pivot's rotation twice to the axis delta gives that delta back
  (`PosingProperties.PivotEditWorldIff`). In particular it holds for an
  unrotated pivot. It does not hold for a general orientation: under a
  quarter turn the figure moves (`PivotEditMovesModelWhenTurned`). The
  callback subtracts the rotated delta from a position in the pivot's own
  frame.
- The marker is placed by three different formulas:
  - the idle frame uses `pivot.position + (0, 13, 0)`;
  - the position sliders use `matrixWorld` applied to `(0, 13, 0)`;
  - the ground snap uses `(0, pivot.y + 130, 0)`.

  `SnapThenFrameMovesMarker` shows the marker dropping by 117 on the frame
  after a snap.

## Model

| member | source | states |
|---|---|---|
| Color.Clamp | JS/main.js:394-398 | `Math.max(0, Math.min(1, x))` lies in [0, 1], is the identity on [0, 1], and maps values below 0 to 0 and values above 1 to 1 |
| Color.JsRem6 | JS/main.js:361 | JavaScript's `i % 6`: it agrees with the Euclidean remainder for `i >= 0`; for negative `i` it lies in (-6, 0] and is 0 exactly for multiples of 6 |
| Color.SectorPick | JS/main.js:361-392 | the `switch` yields a colour exactly for sectors 0..5, and every channel is one of v, p, q, t |
| Color.HsvToRgb | JS/main.js:352-399 | every channel of the result lies in [0, 1]; the result is the all-NaN record (`None`) exactly when `h < 0` and `floor(6h)` is not a multiple of 6 |
| Color.FromSector | JS/main.js:357-398 | after `i` and `f` are known, a colour results exactly for sectors 0..5 |
| Color.ClampRgb | JS/main.js:394-398 | all three clamped channels lie in [0, 1] |
| Color.Achromatic | JS/main.js:352-399 | saturation 0 gives the grey (v, v, v) for every non-negative hue |
| Color.SectorColor | JS/main.js:361-392 | the six pure hues, primaries (channel sum 1) and secondaries (channel sum 2) alternating |
| Color.PrimaryHues | JS/main.js:352-399 | with s = v = 1, hue k/6 gives red, yellow, green, cyan, blue, magenta for k = 0..5 |
| Color.HueOneIsHueZero | JS/main.js:352-399 | hue 1 (the slider's top) gives the same colour as hue 0 |
| Color.HuePeriodic | JS/main.js:352-399 | on non-negative hues, adding 1 to the hue never changes the colour |
| Color.ValueAndChroma | JS/main.js:352-399 | for h >= 0 and s, v in [0, 1] a colour results; its largest channel is v and its smallest is v(1 - s) |
| Color.SectorValueAndChroma | JS/main.js:357-398 | the same extremes for each sector 0..5, for any fraction f in [0, 1] |
| Color.SectorExtremes | JS/main.js:361-398 | when 0 <= p <= q, t <= v <= 1, each sector's pick is left alone by the clamp and has maximum v and minimum p |
| Color.FactorBounds | JS/main.js:357-359 | 0 <= v(1 - s) <= v(1 - a s) <= v for a, s, v in [0, 1]; this orders p, q and t |
| Posing.PlaneThrough | JS/main.js:175-179 | the plane built from a normal and a point contains the point and keeps the normal |
| Posing.LockScale | JS/main.js:714 | the lock scale factor is positive, and below 1 exactly when locked |
| Posing.Initial | JS/main.js:16-161 | the state after `init()`, before the load: not loaded, not hovering or dragging, no drag plane; the view is orbit enabled with camera position, orbit target, fov and zoom at their defaults; the light at its default; it satisfies the invariant |
| Posing.OnLoad | JS/main.js:84-133 | the load callback sets the pivot to the origin without rotation; sets the figure to (0, -minY, 0) and the marker to the belly offset, both white; sets the panel from the scene, the lock on and the range to [-125, 125]; changes nothing else; ends in `ReferenceError("updateModelColor")` |
| Posing.MouseDown | JS/main.js:164-181 | a drag starts exactly when hovering, the cube exists and the ray hits it; the drag start is the hit point and the plane faces the camera through it; otherwise nothing changes; hovering before the load throws a `TypeError` at `intersectObject(cubeMesh)` |
| Posing.MouseMove | JS/main.js:184-200 | nothing changes unless dragging, with a plane and an intersection; an accepted move adds `intersect - dragStart` to the figure, sets `dragStart` to `intersect`, changes nothing else and ends in the unbound-`syncCubePosition` error |
| Posing.MouseUp | JS/main.js:203-210 | afterwards no drag is under way; a drag in progress loses its plane and the handler ends in the unbound-name error; outside a drag nothing changes |
| Posing.CheckIntersection | JS/main.js:311-331 | once loaded, hovering is "mesh or outline hit"; orbiting is enabled exactly when not hovering; both colours are orange (0xffa500) when hovering and white (0xffffff) otherwise; nothing else changes; before the load nothing changes |
| Posing.IdleSync | JS/main.js:337-342 | outside a drag, cube and outline both move to `pivot.position + (0, 13, 0)` and nothing else changes; during a drag nothing changes; before the load the frame throws at `pivot` |
| Posing.AnimateFrame | JS/main.js:333-350 | once loaded, a frame is the idle sync followed by the hover check; before the load the state is unchanged |
| Posing.ControlAxis | JS/main.js:517 | a control name ending in x or X selects X, in y or Y selects Y, in z or Z selects Z; any other name (the empty one included) selects no axis |
| Posing.PositionSlider | JS/main.js:515-520 | only the chosen component of the figure's position becomes the value, which the panel shows; cube and outline go to `matrixWorld` applied to (0, 13, 0) (the declaration at JS/main.js:693-702); nothing else changes |
| Posing.RotationSlider | JS/main.js:584-588 | the chosen Euler angle becomes `degrees * pi / 180` and the panel shows `degrees` on that axis; the other angles, the other panel angles and the rest of the state are unchanged |
| Posing.FovSlider | JS/main.js:607-610 | the camera's field of view and the panel's become the value; nothing else changes |
| Posing.ZoomSlider | JS/main.js:611-616 | the camera's zoom and the panel's become the value; nothing else changes |
| Posing.LightSlider | JS/main.js:626-640 | only the chosen component of the light position becomes the value, which the panel shows; nothing else changes |
| Posing.EnablePivotControl | JS/main.js:474-494 | `isPivotEnabled` becomes the value; switching off saves the pivot's y in `savedPivotY`; nothing else changes |
| Posing.PivotAxisEdit | JS/main.js:650-687 | the panel shows the value; when pivot control is disabled, pivot and figure are unchanged; when enabled, only the chosen pivot component becomes the value, and the figure plus the rotated axis delta equals the old figure position; rotation and the rest are unchanged |
| Posing.UpdatePivotLock | JS/main.js:711-722 | the lock flag becomes `lock`; the pivot range becomes [-125, 125] when locked and [-500, 500] when not; nothing else changes |
| Posing.UnlockToggle | JS/main.js:735-744 | unlock clears the lock and records that the user changed it; the range becomes [-500, 500] when unlocked and [-125, 125] when locked; only the lock flag, the changed flag and the range change |
| Posing.AttachToGround | JS/main.js:554-573 | the pivot's y drops by `minY`; the marker moves to (0, pivot.y + 130, 0); nothing else changes, because the control guard never holds; before the load nothing changes |
| Posing.ResetPosition | JS/main.js:402-411 | the figure returns to its pivot's origin and the handler ends in the unbound-name error; before the load it throws at `model` |
| Posing.ResetRotation | JS/main.js:414-421 | the pivot's angles become zero and the panel is left as it was; before the load it throws at `pivot` |
| Posing.ResetCamera | JS/main.js:424-434 | camera position, orbit target, fov and zoom return to their defaults; the panel shows them once loaded; before the load it throws at `fovCtrl`, with the camera already reset |
| Posing.ResetLight | JS/main.js:437-442 | the light returns to (0, 200, 100); the panel shows it once loaded; before the load it throws at `lightXCtrl`, with the light already moved |
| Posing.ResetPivot | JS/main.js:445-462 | pivot position and rotation, the figure and the pivot controls become zero; the handler then throws at `rotationXCtrl`; before the load it throws at `pivot` |
| PosingProperties.Drag | JS/main.js:184-200 | outside a drag with a plane, a run of pointer moves leaves the state unchanged |
| PosingProperties.DragTelescopes | JS/main.js:194-196 | moves through p1..pn during a drag shift the figure by `pn - dragStart`, leave `dragStart = pn` and change nothing else |
| PosingProperties.GrabThenDrag | JS/main.js:164-200 | a grab at p0 followed by moves through p1..pn displaces the figure by exactly `pn - p0`, and the drag goes on |
| PosingProperties.GrabStartsOnPlane | JS/main.js:170-179 | after a grab on the loaded scene, the drag start lies on the drag plane |
| PosingProperties.MoveKeepsGrabOnPlane | JS/main.js:187-196 | when the intersection lies on the drag plane, the drag start stays on it |
| PosingProperties.ReleaseStopsDrag | JS/main.js:184-210 | after `mouseup`, no pointer move changes anything |
| PosingProperties.PivotEditWorldIff | JS/main.js:650-687 | with pivot control on, a pivot edit keeps the figure's world position iff the rotation applied twice to the axis delta gives the delta back |
| PosingProperties.PivotEditKeepsWorldWhenUnrotated | JS/main.js:650-687 | for an unrotated pivot, `pivot.position + model.position` is preserved by every pivot edit |
| PosingProperties.PivotEditToCurrentValue | JS/main.js:650-687 | setting a pivot slider to the pivot's current value changes only what the panel shows, for any orientation |
| PosingProperties.PivotEditMovesModelWhenTurned | JS/main.js:650-661 | under a quarter turn about y, an x edit to a new value moves the figure in the world |
| PosingProperties.ResetPositionIdempotent | JS/main.js:402-411 | pressing Reset Position twice equals pressing it once |
| PosingProperties.ResetRotationIdempotent | JS/main.js:414-421 | pressing Reset Rotation twice equals pressing it once |
| PosingProperties.ResetCameraIdempotent | JS/main.js:424-434 | pressing Reset Camera twice equals pressing it once |
| PosingProperties.ResetLightIdempotent | JS/main.js:437-442 | pressing Reset Light twice equals pressing it once |
| PosingProperties.ResetPivotIdempotent | JS/main.js:445-462 | pressing Reset Pivot twice equals pressing it once |
| PosingProperties.ResetPivotCallbacksAreInert | JS/main.js:456-458 | after Reset Pivot, a pivot control's `setValue(0)` callback changes nothing, whatever the orientation |
| PosingProperties.ResetPivotCallbacksComplete | JS/main.js:445-458 | the three pivot callbacks, run on the zeroed scene with the pivot unrotated, end in exactly the reset state |
| PosingProperties.ResetCameraCallbacksAreInert | JS/main.js:432-433 | after Reset Camera, the fov and zoom callbacks fired by `setValue` change nothing |
| PosingProperties.ResetLightCallbacksAreInert | JS/main.js:439-441 | after Reset Light, each light callback fired by `setValue` changes nothing |
| PosingProperties.GroundSnapScenario | JS/main.js:554-567 | a box bottom at -42 under an origin pivot lifts the pivot to y = 42 and the marker to y = 172 |
| PosingProperties.GroundSnapSettles | JS/main.js:554-567 | once the box's bottom is at 0, another snap changes nothing |
| PosingProperties.SnapThenFrameMovesMarker | JS/main.js:337-342 | the idle frame after a snap puts the marker 117 lower than the snap did |
| PosingProperties.PositionControlAxes | JS/main.js:515-517 | the controls positionX, positionY and positionZ write x, y and z |
| PosingProperties.Dispatch | JS/main.js:152-214 | an undeliverable event (a second load, or a panel input before the panel exists) changes nothing |
| PosingProperties.DispatchKeepsInvariant | JS/main.js:164-331 | every handler keeps the invariant: a drag plane exists exactly during a drag; hovering and dragging need the load; orbiting is on exactly when not hovering; the highlight matches hovering; cube and outline coincide; the pivot range matches the lock |
| PosingProperties.RunKeepsInvariant | JS/main.js:164-331 | any sequence of events keeps the invariant |
| PosingProperties.ReachableStatesKeepInvariant | JS/main.js:16-331 | every state that the modelled events reach from page start satisfies the invariant (colour input and orbiting are not among the events; see Left out) |
| Tool.PosingTool.constructor | JS/main.js:16-161 | the fields start in `Posing.Initial()`, which satisfies the invariant; every handler method below requires and re-establishes `Invariant(State())` |
| Tool.PosingTool.OnLoad | JS/main.js:84-133 | the in-place load callback and `setupGUI` leave the state and completion of `Posing.OnLoad` |
| Tool.PosingTool.MouseDown | JS/main.js:164-181 | leaves the state of `Posing.MouseDown` |
| Tool.PosingTool.MouseMove | JS/main.js:184-200 | leaves the state and completion of `Posing.MouseMove` |
| Tool.PosingTool.MouseUp | JS/main.js:203-210 | leaves the state and completion of `Posing.MouseUp` |
| Tool.PosingTool.CheckIntersection | JS/main.js:311-331 | leaves the state of `Posing.CheckIntersection` |
| Tool.PosingTool.AnimateFrame | JS/main.js:333-350 | the idle sync followed by `CheckIntersection` leaves the state and completion of `Posing.AnimateFrame` |
| Tool.PosingTool.PositionSlider | JS/main.js:515-520 | leaves the state of `Posing.PositionSlider` |
| Tool.PosingTool.RotationSlider | JS/main.js:584-588 | leaves the state of `Posing.RotationSlider` |
| Tool.PosingTool.FovSlider | JS/main.js:607-610 | leaves the state of `Posing.FovSlider` |
| Tool.PosingTool.ZoomSlider | JS/main.js:611-616 | leaves the state of `Posing.ZoomSlider` |
| Tool.PosingTool.LightSlider | JS/main.js:626-640 | leaves the state of `Posing.LightSlider` |
| Tool.PosingTool.EnablePivotControl | JS/main.js:474-494 | leaves the state of `Posing.EnablePivotControl` |
| Tool.PosingTool.PivotAxisEdit | JS/main.js:650-687 | leaves the state of `Posing.PivotAxisEdit` |
| Tool.PosingTool.UpdatePivotLock | JS/main.js:711-722 | leaves the state of `Posing.UpdatePivotLock` |
| Tool.PosingTool.UnlockToggle | JS/main.js:735-744 | sets the flag, then calls `UpdatePivotLock`; leaves the state of `Posing.UnlockToggle` |
| Tool.PosingTool.AttachToGround | JS/main.js:554-573 | leaves the state of `Posing.AttachToGround` |
| Tool.PosingTool.ResetPosition | JS/main.js:402-411 | leaves the state and completion of `Posing.ResetPosition` |
| Tool.PosingTool.ResetRotation | JS/main.js:414-421 | leaves the state and completion of `Posing.ResetRotation` |
| Tool.PosingTool.ResetCamera | JS/main.js:424-434 | resets the view, then runs the fov and zoom callbacks; leaves the state and completion of `Posing.ResetCamera` |
| Tool.PosingTool.ResetLight | JS/main.js:437-442 | moves the light, then runs the three light callbacks; leaves the state and completion of `Posing.ResetLight` |
| Tool.PosingTool.ResetPivot | JS/main.js:445-462 | zeroes the pivot and the figure, then runs the three pivot callbacks; leaves the state and completion of `Posing.ResetPivot` |

## Left out

- Floating point: exact `real` arithmetic stands in for JavaScript doubles. Rounding in `h * 6`, in the degree conversion and in the pivot compensation is not modelled.
- `Math.PI` is a constant with its printed decimal value. Only its positivity matters to the proofs.
- three.js internals are parameters, not computations:
  - `Raycaster.setFromCamera` and `intersectObject`;
  - `ray.intersectPlane`;
  - `camera.getWorldDirection`;
  - the quaternion that `pivot.rotation` induces;
  - `applyMatrix4` with `model.matrixWorld`;
  - `Box3.setFromObject`.

  Nothing relates `orientation` to the modelled pivot rotation (`pivot.rotation`), or `matrixWorld` to the modelled pivot and figure transforms.
- Posing.PositionSlider: the marker position is stated in terms of the given `matrixWorld`. The model does not prove that this matrix is the composition of the pivot's and the figure's transforms.
- PosingProperties.ModelWorld: the world position uses pivot scale 1. The figure's own 10x scale (JS/main.js:101) affects only its children, so it is left out.
- Panel value clamping: lil-gui clamps a slider to its range when the user drags it. The model records the pivot range (`pivotMin`, `pivotMax`) but does not clamp values passed to the callbacks.
- The `alert` in `updatePivotLock` is left out (DOM I/O).
- DOM and lil-gui plumbing is left out: folder construction, `pointerEvents` and opacity styling, the `setTimeout` button styling, and folder opening.
- The visibility toggles (Show Cube, Show Rings, Show Axes) and the Use Saved Y checkbox are left out. They only set render flags, or a variable nothing reads.
- The colour sliders (JS/main.js:775-817) are left out. `setupColorControls` runs to its end before the throw at JS/main.js:819, so the sliders exist and work: each change runs `hsvToRgb` and recolours every mesh of the figure (JS/main.js:784-798), the marker cube included but not its outline. `hsvToRgb` itself is modelled; the material recolouring is not.
- PosingProperties.ReachableStatesKeepInvariant: the reachable states are those of the modelled events only. A colour-slider change recolours the marker cube and breaks the invariant's highlight clauses until the next frame's hover check. Orbiting with the mouse moves the camera and the orbit target, and no modelled event does that.
- Rendering, the `requestAnimationFrame` loop, window resize and the mouse-coordinate update at JS/main.js:302-306 are left out. These are I/O; the pointer ray reaches the model as raycast answers.
- OBJ loading and the material traversal (JS/main.js:89-95) are left out. The mesh construction of the cube and outline (JS/main.js:106-127) is modelled only by their starting position and colour. The rotation rings and the model axes (JS/main.js:129-130, 216-291) are left out. Asset I/O and scene construction matter only through `minY` and the marker's starting place.
- `server.js` is not part of this model. It is an Express static file server.
