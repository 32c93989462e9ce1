/** The interaction state of the posing tool (JS/main.js) and one pure
    transition function per handler: the pointer handlers, the per-frame hover
    check and marker sync, the panel callbacks, the reset buttons and the
    ground snap. three.js is an oracle: every raycast, plane intersection,
    quaternion, world matrix and bounding box reaches these functions as an
    input. */
module Posing {
  import opened Wrappers
  import opened Vectors

  /** How a handler ends. A handler that throws keeps the assignments it made
      before the throwing statement. */
  datatype Completion = Normal | Threw(error: JsError)

  /** `ReferenceError`: an unbound name was called. `TypeError`: a property
      was read from a binding that is still `undefined`. */
  datatype JsError = ReferenceError(name: string) | TypeError(name: string)

  /** `THREE.Plane`: the points `p` with `Dot(normal, p) + constant == 0`. */
  datatype Plane = Plane(normal: Vec3, constant: real)

  /** `new THREE.Plane().setFromNormalAndCoplanarPoint(normal, point)` */
  function PlaneThrough(normal: Vec3, point: Vec3): (pl: Plane)
    ensures OnPlane(pl, point)
    ensures pl.normal == normal
  {
    Plane(normal, -Dot(point, normal))
  }

  predicate OnPlane(pl: Plane, p: Vec3)
  {
    Dot(pl.normal, p) + pl.constant == 0.0
  }

  /** Material colours of the marker cube and its outline. */
  const White: int := 0xffffff
  const Orange: int := 0xffa500

  /** The marker's offset in the model's local frame (`130 / 10`). */
  const BellyOffset := Vec3(0.0, 13.0, 0.0)
  /** The marker height above the pivot that the ground snap uses. */
  const CubeYOffset: real := 130.0
  /** The pivot sliders' unscaled half-range. */
  const PivotHalfRange: real := 500.0
  /** `Math.PI` (only its sign matters to the proofs). */
  const Pi: real := 3.141592653589793

  /** The defaults the reset buttons restore. */
  const CameraHome := Vec3(0.0, 200.0, 400.0)
  const OrbitTargetHome := Vec3(0.0, 100.0, 0.0)
  const FovHome: real := 45.0
  const ZoomHome: real := 1.0
  const LightHome := Vec3(0.0, 200.0, 100.0)

  /** The values shown by lil-gui's controls (its parameter objects):
      `positionParams`, `rotationParams` (degrees), `pivotParams`,
      `cameraParams` and `lightParams`. */
  datatype Panel = Panel(
    position: Vec3, rotation: Vec3, pivot: Vec3, fov: real, zoom: real, light: Vec3)

  /** The module-level pointer variables `isHovering`, `isDragging`,
      `dragPlane` and `dragStart`. */
  datatype Pointer = Pointer(isHovering: bool, isDragging: bool, dragPlane: Option<Plane>, dragStart: Vec3)

  /** The pivot group's `position` and `rotation` (Euler angles, radians). */
  datatype Pose = Pose(position: Vec3, rotation: Vec3)

  /** The marker cube and its outline: their positions and material colours. */
  datatype Marker = Marker(cubePosition: Vec3, edgesPosition: Vec3, meshColor: int, edgesColor: int)

  /** The camera and the orbit controls. */
  datatype View = View(controlsEnabled: bool, cameraPosition: Vec3, controlsTarget: Vec3,
                       fov: real, zoom: real)

  /** The pivot-panel variables `isPivotEnabled`, `savedPivotY`,
      `isPivotLocked` and `pivotLockChanged`, and the pivot sliders' range. */
  datatype PivotUi = PivotUi(isPivotEnabled: bool, savedPivotY: real, isPivotLocked: bool,
                             pivotLockChanged: bool, pivotMin: real, pivotMax: real)

  /** Everything the handlers read or write. `modelPosition`, `pivot`,
      `marker`, `pivotUi`'s range and the panel belong to objects that exist
      only once `loaded` holds (the OBJ load callback has run). */
  datatype ToolState = ToolState(
    loaded: bool,
    pointer: Pointer,
    modelPosition: Vec3,
    pivot: Pose,
    marker: Marker,
    view: View,
    lightPosition: Vec3,
    pivotUi: PivotUi,
    panel: Panel)

  datatype Step = Step(next: ToolState, completion: Completion)

  /** The error of the handlers that call `syncCubePosition` at module level,
      where no such name is bound. */
  const SyncUnbound := Threw(ReferenceError("syncCubePosition"))

  function HighlightColor(hovering: bool): int
  {
    if hovering then Orange else White
  }

  /** `isPivotLocked ? 0.25 : 1` */
  function LockScale(locked: bool): (f: real)
    ensures f > 0.0
    ensures locked <==> f < 1.0
  {
    if locked then 0.25 else 1.0
  }

  /** The facts every reachable state keeps. */
  ghost predicate Invariant(s: ToolState)
  {
    && (s.pointer.isDragging <==> s.pointer.dragPlane.Some?)
    && (s.pointer.isDragging ==> s.loaded)
    && (s.pointer.isHovering ==> s.loaded)
    && s.view.controlsEnabled == !s.pointer.isHovering
    && s.marker.meshColor == HighlightColor(s.pointer.isHovering)
    && s.marker.edgesColor == s.marker.meshColor
    && s.marker.cubePosition == s.marker.edgesPosition
    && (s.loaded ==>
          && s.pivotUi.pivotMax == PivotHalfRange * LockScale(s.pivotUi.isPivotLocked)
          && s.pivotUi.pivotMin == -s.pivotUi.pivotMax)
  }

  /** The state once the module has run `init()` and the OBJ file is still
      loading: orbit controls enabled, camera and light at their defaults. */
  function Initial(): (s: ToolState)
    ensures Invariant(s) && !s.loaded
    ensures !s.pointer.isHovering && !s.pointer.isDragging && s.pointer.dragPlane.None?
    ensures s.view == View(true, CameraHome, OrbitTargetHome, FovHome, ZoomHome)
    ensures s.lightPosition == LightHome
  {
    ToolState(
      loaded := false,
      pointer := Pointer(false, false, None, Zero),
      modelPosition := Zero,
      pivot := Pose(Zero, Zero),
      marker := Marker(Zero, Zero, White, White),
      view := View(true, CameraHome, OrbitTargetHome, FovHome, ZoomHome),
      lightPosition := LightHome,
      pivotUi := PivotUi(false, 0.0, false, false, 0.0, 0.0),
      panel := Panel(Zero, Zero, Zero, FovHome, ZoomHome, LightHome))
  }

  /** The OBJ load callback: a fresh pivot at the origin, the model lifted by
      the bounding box's `minY`, the marker at the belly offset, and
      `setupGUI` (panel values read from the scene, pivot lock on). `setupGUI`
      then throws at its call of `updateModelColor`, a name bound only inside
      `setupColorControls`. */
  function OnLoad(s: ToolState, minY: real): (r: Step)
    requires !s.loaded
    ensures r.next.loaded && r.next.pivotUi.isPivotLocked && !r.next.pivotUi.pivotLockChanged
    ensures r.next.pivot == Pose(Zero, Zero)
    ensures r.next.modelPosition == Vec3(0.0, -minY, 0.0)
    ensures r.next.marker == Marker(BellyOffset, BellyOffset, White, White)
    ensures r.next.pivotUi.pivotMin == -125.0 && r.next.pivotUi.pivotMax == 125.0
    ensures r.next.pivotUi == s.pivotUi.(isPivotLocked := true, pivotLockChanged := false,
                                       pivotMin := -125.0, pivotMax := 125.0)
    ensures r.next.panel == Panel(Zero, Zero, Zero, s.view.fov, s.view.zoom, s.lightPosition)
    ensures r.next == s.(loaded := true, modelPosition := r.next.modelPosition, pivot := r.next.pivot,
                         marker := r.next.marker, pivotUi := r.next.pivotUi, panel := r.next.panel)
    ensures r.completion == Threw(ReferenceError("updateModelColor"))
  {
    var gui := UpdatePivotLock(s.(
      loaded := true,
      pivot := Pose(Zero, Zero),
      modelPosition := Vec3(0.0, -minY, 0.0),
      marker := Marker(BellyOffset, BellyOffset, White, White),
      panel := Panel(Zero, Zero, Zero, s.view.fov, s.view.zoom, s.lightPosition),
      pivotUi := s.pivotUi.(pivotLockChanged := false)), true);
    Step(gui, Threw(ReferenceError("updateModelColor")))
  }

  // ---------------------------------------------------------------------
  // Pointer handlers

  /** `mousedown`: when hovering and the ray `hit`s the cube, a drag starts at
      the hit point on a plane facing the camera (`viewDir` is the camera's
      world direction). Otherwise nothing changes. Hovering before the load
      reaches `intersectObject(cubeMesh)` with `cubeMesh` still undefined,
      which throws. */
  function MouseDown(s: ToolState, hit: Option<Vec3>, viewDir: Vec3): (r: Step)
    ensures r.next.pointer.isDragging <==> s.pointer.isDragging || (s.pointer.isHovering && s.loaded && hit.Some?)
    ensures s.pointer.isHovering && s.loaded && hit.Some? ==>
      && r.next.pointer.dragStart == hit.value
      && r.next.pointer.dragPlane == Some(PlaneThrough(Neg(viewDir), hit.value))
      && r.next.pointer.isHovering
      && r.next == s.(pointer := r.next.pointer)
    ensures !(s.pointer.isHovering && s.loaded && hit.Some?) ==> r.next == s
    ensures r.completion == (if s.pointer.isHovering && !s.loaded then Threw(TypeError("cubeMesh")) else Normal)
  {
    if !s.pointer.isHovering then Step(s, Normal)
    else if !s.loaded then Step(s, Threw(TypeError("cubeMesh")))
    else if hit.Some? then
      Step(s.(pointer := s.pointer.(isDragging := true, dragStart := hit.value,
                                    dragPlane := Some(PlaneThrough(Neg(viewDir), hit.value)))), Normal)
    else Step(s, Normal)
  }

  /** A pointer move that the `mousemove` handler acts on. */
  predicate MoveAccepted(s: ToolState, intersect: Option<Vec3>)
  {
    s.pointer.isDragging && s.pointer.dragPlane.Some? && intersect.Some?
  }

  /** `mousemove`: with a drag under way and the ray meeting the drag plane at
      `intersect`, the model moves by `intersect - dragStart` and `dragStart`
      becomes `intersect`; the handler then throws at `syncCubePosition`.
      With no model yet it throws at `model.position` after moving
      `dragStart`. */
  function MouseMove(s: ToolState, intersect: Option<Vec3>): (r: Step)
    ensures !MoveAccepted(s, intersect) ==> r == Step(s, Normal)
    ensures MoveAccepted(s, intersect) ==>
      && r.next.pointer == s.pointer.(dragStart := intersect.value)
      && r.next.modelPosition ==
           (if s.loaded then Add(s.modelPosition, Sub(intersect.value, s.pointer.dragStart))
            else s.modelPosition)
      && r.next == s.(pointer := r.next.pointer, modelPosition := r.next.modelPosition)
      && r.completion == (if s.loaded then SyncUnbound else Threw(TypeError("model")))
  {
    if !s.pointer.isDragging || s.pointer.dragPlane.None? || intersect.None? then Step(s, Normal)
    else
      var p := intersect.value;
      var moved := s.(pointer := s.pointer.(dragStart := p));
      if !s.loaded then Step(moved, Threw(TypeError("model")))
      else Step(moved.(modelPosition := Add(s.modelPosition, Sub(p, s.pointer.dragStart))), SyncUnbound)
  }

  /** `mouseup`: ends a drag (then throws at `syncCubePosition`); outside a
      drag it does nothing. */
  function MouseUp(s: ToolState): (r: Step)
    ensures !r.next.pointer.isDragging
    ensures s.pointer.isDragging ==>
      && r.next == s.(pointer := s.pointer.(isDragging := false, dragPlane := None))
      && r.completion == SyncUnbound
    ensures !s.pointer.isDragging ==> r == Step(s, Normal)
  {
    if s.pointer.isDragging then
      Step(s.(pointer := s.pointer.(isDragging := false, dragPlane := None)), SyncUnbound)
    else Step(s, Normal)
  }

  // ---------------------------------------------------------------------
  // Per-frame work

  /** `checkIntersection`: `meshHit` and `edgesHit` say whether the pointer
      ray meets the cube and its outline. Hovering is "either is hit"; the
      highlight is orange exactly while hovering, and orbiting is suspended
      exactly while hovering. Before the cube exists nothing changes. */
  function CheckIntersection(s: ToolState, meshHit: bool, edgesHit: bool): (r: Step)
    ensures r.completion == Normal
    ensures !s.loaded ==> r.next == s
    ensures s.loaded ==>
      && (r.next.pointer.isHovering <==> meshHit || edgesHit)
      && r.next.view.controlsEnabled == !r.next.pointer.isHovering
      && r.next.marker.meshColor == HighlightColor(r.next.pointer.isHovering)
      && r.next.marker.edgesColor == r.next.marker.meshColor
      && (r.next.marker.meshColor == Orange <==> r.next.pointer.isHovering)
      && r.next.pointer == s.pointer.(isHovering := r.next.pointer.isHovering)
      && r.next.marker == s.marker.(meshColor := r.next.marker.meshColor,
                                    edgesColor := r.next.marker.edgesColor)
      && r.next.view == s.view.(controlsEnabled := r.next.view.controlsEnabled)
      && r.next == s.(pointer := r.next.pointer, marker := r.next.marker, view := r.next.view)
  {
    if !s.loaded then Step(s, Normal)
    else
      var hovering := meshHit || edgesHit;
      var color := HighlightColor(hovering);
      Step(s.(marker := s.marker.(meshColor := color, edgesColor := color),
              pointer := s.pointer.(isHovering := hovering),
              view := s.view.(controlsEnabled := !hovering)), Normal)
  }

  /** The idle branch of `animate`: outside a drag, cube and outline are put
      at `pivot.position + (0, 13, 0)`; before the pivot exists that read
      throws and the frame stops there. */
  function IdleSync(s: ToolState): (r: Step)
    ensures s.pointer.isDragging ==> r == Step(s, Normal)
    ensures !s.pointer.isDragging && !s.loaded ==> r == Step(s, Threw(TypeError("pivot")))
    ensures !s.pointer.isDragging && s.loaded ==>
      && r.next.marker.cubePosition == Add(s.pivot.position, BellyOffset)
      && r.next.marker.edgesPosition == r.next.marker.cubePosition
      && r.next == s.(marker := s.marker.(cubePosition := r.next.marker.cubePosition,
                                          edgesPosition := r.next.marker.edgesPosition))
      && r.completion == Normal
  {
    if s.pointer.isDragging then Step(s, Normal)
    else if !s.loaded then Step(s, Threw(TypeError("pivot")))
    else
      var corrected := Add(s.pivot.position, BellyOffset);
      Step(s.(marker := s.marker.(cubePosition := corrected, edgesPosition := corrected)), Normal)
  }

  /** One `animate` frame: the idle sync, then the hover check (rendering is
      not modelled). A throw in the idle sync skips the hover check. */
  function AnimateFrame(s: ToolState, meshHit: bool, edgesHit: bool): (r: Step)
    ensures s.loaded ==> r == CheckIntersection(IdleSync(s).next, meshHit, edgesHit)
    ensures !s.loaded ==> r.next == s
  {
    var idle := IdleSync(s);
    if idle.completion != Normal then idle
    else CheckIntersection(idle.next, meshHit, edgesHit)
  }

  // ---------------------------------------------------------------------
  // Panel callbacks (the panel exists only once the model has loaded)

  /** The axis a position control writes: the last character of its name,
      lower-cased (`axis.charAt(axis.length - 1).toLowerCase()`). */
  function ControlAxis(name: string): (a: Option<Axis>)
    ensures a.Some? ==> |name| > 0
    ensures |name| > 0 && name[|name| - 1] in "xX" ==> a == Some(X)
    ensures |name| > 0 && name[|name| - 1] in "yY" ==> a == Some(Y)
    ensures |name| > 0 && name[|name| - 1] in "zZ" ==> a == Some(Z)
    ensures |name| > 0 && name[|name| - 1] !in "xyzXYZ" ==> a.None?
  {
    if |name| == 0 then None
    else
      var c := name[|name| - 1];
      if c == 'x' || c == 'X' then Some(X)
      else if c == 'y' || c == 'Y' then Some(Y)
      else if c == 'z' || c == 'Z' then Some(Z)
      else None
  }

  const PositionControls: seq<string> := ["positionX", "positionY", "positionZ"]

  /** A position slider's `onChange`: one component of `model.position`
      takes the slider value, then the `syncCubePosition` declared last in
      `setupGUI` puts cube and outline at the point that the model's
      `matrixWorld` maps the belly offset to. */
  function PositionSlider(s: ToolState, name: string, value: real, matrixWorld: Affine): (r: Step)
    requires s.loaded && name in PositionControls
    ensures ControlAxis(name).Some?
    ensures var a := ControlAxis(name).value;
      && Get(r.next.modelPosition, a) == value
      && (forall k: Axis :: k != a ==> Get(r.next.modelPosition, k) == Get(s.modelPosition, k))
      && Get(r.next.panel.position, a) == value
      && (forall k: Axis :: k != a ==> Get(r.next.panel.position, k) == Get(s.panel.position, k))
    ensures r.next.marker.cubePosition == ApplyAffine(matrixWorld, BellyOffset)
    ensures r.next.marker.edgesPosition == r.next.marker.cubePosition
    ensures r.next.panel == s.panel.(position := r.next.panel.position)
    ensures r.next.marker == s.marker.(cubePosition := r.next.marker.cubePosition,
                                       edgesPosition := r.next.marker.edgesPosition)
    ensures r.next == s.(modelPosition := r.next.modelPosition, marker := r.next.marker,
                         panel := r.next.panel)
    ensures r.completion == Normal
  {
    var a := ControlAxis(name).value;
    var world := ApplyAffine(matrixWorld, BellyOffset);
    Step(s.(panel := s.panel.(position := With(s.panel.position, a, value)),
            modelPosition := With(s.modelPosition, a, value),
            marker := s.marker.(cubePosition := world, edgesPosition := world)), Normal)
  }

  /** A rotation slider's `onChange`: degrees in, radians stored. */
  function RotationSlider(s: ToolState, a: Axis, degrees: real): (r: Step)
    requires s.loaded
    ensures Get(r.next.pivot.rotation, a) * 180.0 == degrees * Pi
    ensures forall k: Axis :: k != a ==> Get(r.next.pivot.rotation, k) == Get(s.pivot.rotation, k)
    ensures Get(r.next.panel.rotation, a) == degrees
    ensures forall k: Axis :: k != a ==> Get(r.next.panel.rotation, k) == Get(s.panel.rotation, k)
    ensures r.next.pivot == s.pivot.(rotation := r.next.pivot.rotation)
    ensures r.next.panel == s.panel.(rotation := r.next.panel.rotation)
    ensures r.next == s.(pivot := r.next.pivot, panel := r.next.panel)
    ensures r.completion == Normal
  {
    Step(s.(panel := s.panel.(rotation := With(s.panel.rotation, a, degrees)),
            pivot := s.pivot.(rotation := With(s.pivot.rotation, a, degrees * Pi / 180.0))), Normal)
  }

  /** The field-of-view slider's `onChange`. */
  function FovSlider(s: ToolState, value: real): (r: Step)
    requires s.loaded
    ensures r.next == s.(view := s.view.(fov := value), panel := s.panel.(fov := value))
    ensures r.completion == Normal
  {
    Step(s.(panel := s.panel.(fov := value), view := s.view.(fov := value)), Normal)
  }

  /** The zoom slider's `onChange`. */
  function ZoomSlider(s: ToolState, value: real): (r: Step)
    requires s.loaded
    ensures r.next == s.(view := s.view.(zoom := value), panel := s.panel.(zoom := value))
    ensures r.completion == Normal
  {
    Step(s.(panel := s.panel.(zoom := value), view := s.view.(zoom := value)), Normal)
  }

  /** A light slider's `onChange`: one component of the light's position. */
  function LightSlider(s: ToolState, a: Axis, value: real): (r: Step)
    requires s.loaded
    ensures Get(r.next.lightPosition, a) == value && Get(r.next.panel.light, a) == value
    ensures forall k: Axis :: k != a ==> Get(r.next.lightPosition, k) == Get(s.lightPosition, k)
    ensures forall k: Axis :: k != a ==> Get(r.next.panel.light, k) == Get(s.panel.light, k)
    ensures r.next.panel == s.panel.(light := r.next.panel.light)
    ensures r.next == s.(lightPosition := r.next.lightPosition, panel := r.next.panel)
    ensures r.completion == Normal
  {
    Step(s.(panel := s.panel.(light := With(s.panel.light, a, value)),
            lightPosition := With(s.lightPosition, a, value)), Normal)
  }

  /** The "Enable Pivot Control" toggle: sets `isPivotEnabled`; switching it
      off records the pivot's height in `savedPivotY`. */
  function EnablePivotControl(s: ToolState, value: bool): (r: Step)
    requires s.loaded
    ensures r.next.pivotUi.isPivotEnabled == value
    ensures r.next.pivotUi.savedPivotY == if value then s.pivotUi.savedPivotY else s.pivot.position.y
    ensures r.next == s.(pivotUi := s.pivotUi.(isPivotEnabled := value,
                                              savedPivotY := r.next.pivotUi.savedPivotY))
    ensures r.completion == Normal
  {
    var enabled := s.pivotUi.(isPivotEnabled := value);
    Step(s.(pivotUi := if !value then enabled.(savedPivotY := s.pivot.position.y) else enabled), Normal)
  }

  /** A pivot slider's `onChange` for axis `a`. The panel shows `value`;
      the handler does nothing more unless pivot control is enabled. Then
      the pivot component becomes `value` and the model position loses
      `orientation` applied to the axis delta, where `orientation` is the
      rotation of `pivot.quaternion`. */
  function PivotAxisEdit(s: ToolState, a: Axis, value: real, orientation: Mat3): (r: Step)
    requires s.loaded
    ensures Get(r.next.panel.pivot, a) == value
    ensures forall k: Axis :: k != a ==> Get(r.next.panel.pivot, k) == Get(s.panel.pivot, k)
    ensures !s.pivotUi.isPivotEnabled ==>
      r.next.pivot == s.pivot && r.next.modelPosition == s.modelPosition
    ensures s.pivotUi.isPivotEnabled ==>
      && Get(r.next.pivot.position, a) == value
      && (forall k: Axis :: k != a ==> Get(r.next.pivot.position, k) == Get(s.pivot.position, k))
      && Add(r.next.modelPosition, Apply(orientation, AlongAxis(a, value - Get(s.pivot.position, a))))
         == s.modelPosition
    ensures r.next.pivot.rotation == s.pivot.rotation
    ensures r.next.panel == s.panel.(pivot := r.next.panel.pivot)
    ensures r.next == s.(pivot := r.next.pivot, modelPosition := r.next.modelPosition,
                         panel := r.next.panel)
    ensures r.completion == Normal
  {
    var shown := s.(panel := s.panel.(pivot := With(s.panel.pivot, a, value)));
    if !s.pivotUi.isPivotEnabled then Step(shown, Normal)
    else
      var delta := value - Get(s.pivot.position, a);
      var worldDelta := Apply(orientation, AlongAxis(a, delta));
      AddSub(s.modelPosition, worldDelta);
      Step(shown.(pivot := s.pivot.(position := With(s.pivot.position, a, value)),
                  modelPosition := Sub(s.modelPosition, worldDelta)), Normal)
  }

  /** `updatePivotLock(lock)`: the pivot sliders' range becomes
      `[-500 * f, 500 * f]` with `f` 0.25 when locked and 1 when unlocked. */
  function UpdatePivotLock(s: ToolState, lock: bool): (r: ToolState)
    ensures r.pivotUi.isPivotLocked == lock
    ensures lock ==> r.pivotUi.pivotMin == -125.0 && r.pivotUi.pivotMax == 125.0
    ensures !lock ==> r.pivotUi.pivotMin == -500.0 && r.pivotUi.pivotMax == 500.0
    ensures r == s.(pivotUi := s.pivotUi.(isPivotLocked := lock, pivotMin := r.pivotUi.pivotMin,
                                          pivotMax := r.pivotUi.pivotMax))
  {
    var f := LockScale(lock);
    s.(pivotUi := s.pivotUi.(isPivotLocked := lock, pivotMin := -PivotHalfRange * f,
                             pivotMax := PivotHalfRange * f))
  }

  /** The "Unlock Pivot Controls" toggle. */
  function UnlockToggle(s: ToolState, unlock: bool): (r: Step)
    requires s.loaded
    ensures r.next.pivotUi.isPivotLocked == !unlock && r.next.pivotUi.pivotLockChanged
    ensures r.next.pivotUi.pivotMax - r.next.pivotUi.pivotMin == if unlock then 1000.0 else 250.0
    ensures r.next.pivotUi == s.pivotUi.(isPivotLocked := !unlock, pivotLockChanged := true,
                                       pivotMin := -PivotHalfRange * LockScale(!unlock),
                                       pivotMax := PivotHalfRange * LockScale(!unlock))
    ensures r.next == s.(pivotUi := r.next.pivotUi)
    ensures r.completion == Normal
  {
    Step(UpdatePivotLock(s.(pivotUi := s.pivotUi.(pivotLockChanged := true)), !unlock), Normal)
  }

  /** `attachToGround`, with `minY` the lowest world height of the model's
      bounding box: the pivot rises by `-minY` and the marker is put 130
      above it on the vertical axis. */
  function AttachToGround(s: ToolState, minY: real): (r: Step)
    ensures !s.loaded ==> r.next == s
    ensures s.loaded ==>
      && r.next.pivot.position == s.pivot.position.(y := s.pivot.position.y - minY)
      && r.next.marker.cubePosition == Vec3(0.0, r.next.pivot.position.y + CubeYOffset, 0.0)
      && r.next.marker.edgesPosition == r.next.marker.cubePosition
      && r.next == s.(pivot := s.pivot.(position := r.next.pivot.position),
                      marker := s.marker.(cubePosition := r.next.marker.cubePosition,
                                          edgesPosition := r.next.marker.edgesPosition))
    ensures r.completion == Normal
  {
    if !s.loaded then Step(s, Normal)
    else
      var pivotY := s.pivot.position.y - minY;
      var onGround := Vec3(0.0, pivotY + CubeYOffset, 0.0);
      Step(s.(pivot := s.pivot.(position := s.pivot.position.(y := pivotY)),
              marker := s.marker.(cubePosition := onGround, edgesPosition := onGround)), Normal)
  }

  // ---------------------------------------------------------------------
  // Reset buttons (bound in init, so they can be pressed before the load)

  /** `resetPosition`: the model returns to the pivot's origin, then the
      handler throws at `syncCubePosition` (the control guard after it is
      never reached, and `positionXCtrl` is never assigned anyway). */
  function ResetPosition(s: ToolState): (r: Step)
    ensures s.loaded ==> r == Step(s.(modelPosition := Zero), SyncUnbound)
    ensures !s.loaded ==> r == Step(s, Threw(TypeError("model")))
  {
    if !s.loaded then Step(s, Threw(TypeError("model")))
    else Step(s.(modelPosition := Zero), SyncUnbound)
  }

  /** `resetRotation`: the pivot's Euler angles return to zero. The rotation
      controls are never stored in `rotationXCtrl` and friends, so the guard
      fails and the panel keeps showing the old angles. */
  function ResetRotation(s: ToolState): (r: Step)
    ensures s.loaded ==> r == Step(s.(pivot := s.pivot.(rotation := Zero)), Normal)
    ensures !s.loaded ==> r == Step(s, Threw(TypeError("pivot")))
  {
    if !s.loaded then Step(s, Threw(TypeError("pivot")))
    else Step(s.(pivot := s.pivot.(rotation := Zero)), Normal)
  }

  /** `resetCamera`: camera position, field of view, zoom and orbit target
      return to their defaults, then the panel shows the defaults; before
      the panel exists the handler throws at `fovCtrl`. */
  function ResetCamera(s: ToolState): (r: Step)
    ensures r.next.view == s.view.(cameraPosition := CameraHome, controlsTarget := OrbitTargetHome,
                                   fov := FovHome, zoom := ZoomHome)
    ensures s.loaded ==> r.next.panel == s.panel.(fov := FovHome, zoom := ZoomHome) && r.completion == Normal
    ensures !s.loaded ==> r.next.panel == s.panel && r.completion == Threw(TypeError("fovCtrl"))
    ensures r.next == s.(view := r.next.view, panel := r.next.panel)
  {
    var camera := s.(view := s.view.(cameraPosition := CameraHome, fov := FovHome, zoom := ZoomHome,
                                     controlsTarget := OrbitTargetHome));
    if !s.loaded then Step(camera, Threw(TypeError("fovCtrl")))
    else Step(camera.(panel := s.panel.(fov := FovHome, zoom := ZoomHome)), Normal)
  }

  /** `resetLight`: the light returns to (0, 200, 100) and the panel shows
      it; before the panel exists the handler throws at `lightXCtrl`. */
  function ResetLight(s: ToolState): (r: Step)
    ensures r.next.lightPosition == LightHome
    ensures s.loaded ==> r.next.panel == s.panel.(light := LightHome) && r.completion == Normal
    ensures !s.loaded ==> r.next.panel == s.panel && r.completion == Threw(TypeError("lightXCtrl"))
    ensures r.next == s.(lightPosition := LightHome, panel := r.next.panel)
  {
    var lit := s.(lightPosition := LightHome);
    if !s.loaded then Step(lit, Threw(TypeError("lightXCtrl")))
    else Step(lit.(panel := s.panel.(light := LightHome)), Normal)
  }

  /** `resetPivot`: pivot position and rotation and model position return to
      zero and the pivot controls show zero; the next statement throws,
      since `rotationXCtrl` was never assigned. */
  function ResetPivot(s: ToolState): (r: Step)
    ensures s.loaded ==>
      && r.next == s.(pivot := Pose(Zero, Zero), modelPosition := Zero, panel := s.panel.(pivot := Zero))
      && r.completion == Threw(TypeError("rotationXCtrl"))
    ensures !s.loaded ==> r == Step(s, Threw(TypeError("pivot")))
  {
    if !s.loaded then Step(s, Threw(TypeError("pivot")))
    else
      Step(s.(pivot := Pose(Zero, Zero), modelPosition := Zero, panel := s.panel.(pivot := Zero)),
           Threw(TypeError("rotationXCtrl")))
  }
}
