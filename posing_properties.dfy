/** Properties of the posing tool's transitions that relate several calls:
    drag accumulation, the drag plane, world invariance of pivot edits,
    reset idempotence, the ground snap, and the invariant that every event
    sequence keeps. */
module PosingProperties {
  import opened Wrappers
  import opened Vectors
  import opened Posing

  // ---------------------------------------------------------------------
  // Dragging

  /** The state after pointer moves that meet the drag plane at each of
      `points` in turn. */
  function Drag(s: ToolState, points: seq<Vec3>): (r: ToolState)
    ensures !(s.pointer.isDragging && s.pointer.dragPlane.Some?) ==> r == s
    decreases |points|
  {
    if points == [] then s
    else Drag(MouseMove(s, Some(points[0])).next, points[1..])
  }

  /** Drag offsets telescope: after moves through p1..pn the model has moved
      by `pn - dragStart` and `dragStart` is `pn`; nothing else changes. */
  lemma {:induction false} DragTelescopes(s: ToolState, points: seq<Vec3>)
    requires s.loaded && s.pointer.isDragging && s.pointer.dragPlane.Some?
    requires |points| > 0
    decreases |points|
    ensures var last := points[|points| - 1];
      Drag(s, points) ==
        s.(modelPosition := Add(s.modelPosition, Sub(last, s.pointer.dragStart)),
            pointer := s.pointer.(dragStart := last))
  {
    var s1 := MouseMove(s, Some(points[0])).next;
    if |points| > 1 {
      DragTelescopes(s1, points[1..]);
      assert points[1..][|points[1..]| - 1] == points[|points| - 1];
    }
  }

  /** A grab at `p0` followed by moves through p1..pn leaves the model
      displaced by exactly `pn - p0`, still dragging. */
  lemma GrabThenDrag(s: ToolState, p0: Vec3, viewDir: Vec3, points: seq<Vec3>)
    requires Invariant(s) && s.pointer.isHovering
    requires |points| > 0
    ensures var after := Drag(MouseDown(s, Some(p0), viewDir).next, points);
      && after.modelPosition == Add(s.modelPosition, Sub(points[|points| - 1], p0))
      && after.pointer.dragStart == points[|points| - 1]
      && after.pointer.isDragging
  {
    DragTelescopes(MouseDown(s, Some(p0), viewDir).next, points);
  }

  /** The drag plane passes through the grab point. */
  ghost predicate GrabOnPlane(s: ToolState)
  {
    s.pointer.dragPlane.Some? ==> OnPlane(s.pointer.dragPlane.value, s.pointer.dragStart)
  }

  lemma GrabStartsOnPlane(s: ToolState, hit: Vec3, viewDir: Vec3)
    requires s.pointer.isHovering && s.loaded
    ensures GrabOnPlane(MouseDown(s, Some(hit), viewDir).next)
  {
  }

  /** When the plane intersection lies on the drag plane (as three.js's
      `intersectPlane` guarantees), `dragStart` stays on the plane. */
  lemma MoveKeepsGrabOnPlane(s: ToolState, intersect: Option<Vec3>)
    requires GrabOnPlane(s)
    requires intersect.Some? && s.pointer.dragPlane.Some? ==> OnPlane(s.pointer.dragPlane.value, intersect.value)
    ensures GrabOnPlane(MouseMove(s, intersect).next)
  {
  }

  /** After `mouseup` no pointer move changes anything until the next grab. */
  lemma ReleaseStopsDrag(s: ToolState, intersects: seq<Option<Vec3>>)
    ensures forall i :: 0 <= i < |intersects| ==>
      MouseMove(MouseUp(s).next, intersects[i]) == Step(MouseUp(s).next, Normal)
  {
  }

  // ---------------------------------------------------------------------
  // Pivot edits

  /** The model's world position: the pivot's translation plus its rotation
      applied to the model's pivot-local position (pivot scale is 1). */
  function ModelWorld(s: ToolState, orientation: Mat3): Vec3
  {
    Add(s.pivot.position, Apply(orientation, s.modelPosition))
  }

  /** With pivot control enabled, an edit of axis `a` keeps the model's world
      position exactly when applying `orientation` twice to the axis delta
      gives the delta back. */
  lemma PivotEditWorldIff(s: ToolState, a: Axis, value: real, orientation: Mat3)
    requires s.loaded && s.pivotUi.isPivotEnabled
    ensures var d := AlongAxis(a, value - Get(s.pivot.position, a));
      ModelWorld(PivotAxisEdit(s, a, value, orientation).next, orientation) == ModelWorld(s, orientation)
      <==> Apply(orientation, Apply(orientation, d)) == d
  {
    var d := AlongAxis(a, value - Get(s.pivot.position, a));
    var w := Apply(orientation, d);
    var after := PivotAxisEdit(s, a, value, orientation).next;
    assert after.pivot.position == Add(s.pivot.position, d) by {
      assert forall k: Axis :: Get(after.pivot.position, k) == Get(Add(s.pivot.position, d), k);
    }
    assert after.modelPosition == Sub(s.modelPosition, w);
    ApplySub(orientation, s.modelPosition, w);
  }

  /** With the pivot unrotated, pivot edits never move the model in the
      world: `pivot.position + model.position` is preserved. */
  lemma PivotEditKeepsWorldWhenUnrotated(s: ToolState, a: Axis, value: real)
    requires s.loaded
    ensures var after := PivotAxisEdit(s, a, value, Identity).next;
      Add(after.pivot.position, after.modelPosition) == Add(s.pivot.position, s.modelPosition)
  {
    if s.pivotUi.isPivotEnabled {
      var d := AlongAxis(a, value - Get(s.pivot.position, a));
      ApplyIdentity(d);
      ApplyIdentity(Apply(Identity, d));
      PivotEditWorldIff(s, a, value, Identity);
      ApplyIdentity(s.modelPosition);
      ApplyIdentity(PivotAxisEdit(s, a, value, Identity).next.modelPosition);
    }
  }

  /** Setting a pivot slider to the value the pivot already has only
      changes what the panel shows, whatever the orientation. */
  lemma PivotEditToCurrentValue(s: ToolState, a: Axis, value: real, orientation: Mat3)
    requires s.loaded && value == Get(s.pivot.position, a)
    ensures PivotAxisEdit(s, a, value, orientation).next
         == s.(panel := s.panel.(pivot := With(s.panel.pivot, a, value)))
  {
    assert AlongAxis(a, value - value) == Zero;
    ApplyZero(orientation);
    assert With(s.pivot.position, a, value) == s.pivot.position;
  }

  /** A quarter turn about the vertical axis. */
  const QuarterTurnY := Mat3(Vec3(0.0, 0.0, 1.0), Vec3(0.0, 1.0, 0.0), Vec3(-1.0, 0.0, 0.0))

  /** Under a quarter turn, moving the pivot along x does move the model in
      the world: the compensation is rotated the wrong way for a general
      orientation. */
  lemma PivotEditMovesModelWhenTurned(s: ToolState, value: real)
    requires s.loaded && s.pivotUi.isPivotEnabled && value != s.pivot.position.x
    ensures ModelWorld(PivotAxisEdit(s, X, value, QuarterTurnY).next, QuarterTurnY)
            != ModelWorld(s, QuarterTurnY)
  {
    var d := AlongAxis(X, value - s.pivot.position.x);
    assert Apply(QuarterTurnY, Apply(QuarterTurnY, d)) == Neg(d);
    PivotEditWorldIff(s, X, value, QuarterTurnY);
  }

  // ---------------------------------------------------------------------
  // Resets

  /** Pressing a reset button twice has the effect of pressing it once:
      position, ... */
  lemma ResetPositionIdempotent(s: ToolState)
    ensures ResetPosition(ResetPosition(s).next) == ResetPosition(s)
  {
  }

  /** ... rotation, ... */
  lemma ResetRotationIdempotent(s: ToolState)
    ensures ResetRotation(ResetRotation(s).next) == ResetRotation(s)
  {
  }

  /** ... camera, ... */
  lemma ResetCameraIdempotent(s: ToolState)
    ensures ResetCamera(ResetCamera(s).next) == ResetCamera(s)
  {
  }

  /** ... light, ... */
  lemma ResetLightIdempotent(s: ToolState)
    ensures ResetLight(ResetLight(s).next) == ResetLight(s)
  {
  }

  /** ... and pivot. */
  lemma ResetPivotIdempotent(s: ToolState)
    ensures ResetPivot(ResetPivot(s).next) == ResetPivot(s)
  {
  }

  /** The change callbacks that the resets' `setValue` calls trigger leave
      the state as the reset left it: the pivot controls' (whatever the
      pivot's orientation), ... */
  lemma ResetPivotCallbacksAreInert(s: ToolState, a: Axis, orientation: Mat3)
    requires s.loaded
    ensures var p := ResetPivot(s).next; PivotAxisEdit(p, a, 0.0, orientation).next == p
  {
    var p := ResetPivot(s).next;
    assert p.pivot.position == Zero && p.modelPosition == Zero && p.panel.pivot == Zero;
    assert AlongAxis(a, 0.0 - Get(p.pivot.position, a)) == Zero;
    ApplyZero(orientation);
    assert With(Zero, a, 0.0) == Zero;
  }

  /** The three `setValue(0)` calls of `resetPivot`, run on the zeroed
      scene with the pivot unrotated, end in exactly the reset state. */
  lemma ResetPivotCallbacksComplete(s: ToolState)
    requires s.loaded
    ensures var q := s.(pivot := Pose(Zero, Zero), modelPosition := Zero);
      var x := PivotAxisEdit(q, X, 0.0, Identity).next;
      var y := PivotAxisEdit(x, Y, 0.0, Identity).next;
      PivotAxisEdit(y, Z, 0.0, Identity).next == ResetPivot(s).next
  {
    var q := s.(pivot := Pose(Zero, Zero), modelPosition := Zero);
    var p := s.panel.pivot;
    PivotEditToCurrentValue(q, X, 0.0, Identity);
    var x := PivotAxisEdit(q, X, 0.0, Identity).next;
    assert x == q.(panel := s.panel.(pivot := p.(x := 0.0)));
    assert x.pivot.position == Zero;
    PivotEditToCurrentValue(x, Y, 0.0, Identity);
    var y := PivotAxisEdit(x, Y, 0.0, Identity).next;
    assert y == q.(panel := s.panel.(pivot := p.(x := 0.0, y := 0.0)));
    assert y.pivot.position == Zero;
    PivotEditToCurrentValue(y, Z, 0.0, Identity);
    assert PivotAxisEdit(y, Z, 0.0, Identity).next == q.(panel := s.panel.(pivot := Zero));
  }

  /** ... the camera controls' ... */
  lemma ResetCameraCallbacksAreInert(s: ToolState)
    requires s.loaded
    ensures var c := ResetCamera(s).next;
      FovSlider(c, FovHome).next == c && ZoomSlider(c, ZoomHome).next == c
  {
  }

  /** ... and the light controls'. */
  lemma ResetLightCallbacksAreInert(s: ToolState, a: Axis)
    requires s.loaded
    ensures var l := ResetLight(s).next; LightSlider(l, a, Get(LightHome, a)).next == l
  {
    var l := ResetLight(s).next;
    assert With(l.lightPosition, a, Get(LightHome, a)) == l.lightPosition;
    assert With(l.panel.light, a, Get(LightHome, a)) == l.panel.light;
  }

  // ---------------------------------------------------------------------
  // Ground snap and the marker

  /** A model whose bounding box bottoms out at -42 under an origin pivot:
      the snap lifts the pivot to 42 and the marker to 42 + 130. */
  lemma GroundSnapScenario(s: ToolState)
    requires s.loaded && s.pivot.position == Zero
    ensures AttachToGround(s, -42.0).next.pivot.position == Vec3(0.0, 42.0, 0.0)
    ensures AttachToGround(s, -42.0).next.marker.cubePosition == Vec3(0.0, 172.0, 0.0)
  {
  }

  /** Once the model touches the ground (the box's bottom is then at 0), a
      second snap changes nothing. */
  lemma GroundSnapSettles(s: ToolState, minY: real)
    ensures var once := AttachToGround(s, minY).next; AttachToGround(once, 0.0).next == once
  {
  }

  /** The snap and the next idle frame place the marker by two different
      formulas: the frame moves it from `pivot.y + 130` to `pivot.y + 13`. */
  lemma SnapThenFrameMovesMarker(s: ToolState, minY: real)
    requires s.loaded && !s.pointer.isDragging
    ensures var snapped := AttachToGround(s, minY).next;
      IdleSync(snapped).next.marker.cubePosition.y == snapped.marker.cubePosition.y - 117.0
  {
  }

  /** The three position controls write x, y and z in that order. */
  lemma PositionControlAxes()
    ensures ControlAxis(PositionControls[0]) == Some(X)
    ensures ControlAxis(PositionControls[1]) == Some(Y)
    ensures ControlAxis(PositionControls[2]) == Some(Z)
  {
  }

  // ---------------------------------------------------------------------
  // Every event sequence keeps the invariant

  /** One input delivered to the tool; the oracle's answers travel with it. */
  datatype Event =
    | Loaded(minY: real)
    | PointerDown(hit: Option<Vec3>, viewDir: Vec3)
    | PointerMove(intersect: Option<Vec3>)
    | PointerUp
    | Frame(meshHit: bool, edgesHit: bool)
    | PositionInput(name: string, value: real, matrixWorld: Affine)
    | RotationInput(axis: Axis, degrees: real)
    | FovInput(fov: real)
    | ZoomInput(zoom: real)
    | LightInput(axis: Axis, value: real)
    | PivotToggle(enabled: bool)
    | PivotInput(axis: Axis, value: real, orientation: Mat3)
    | UnlockInput(unlock: bool)
    | GroundSnap(boxMinY: real)
    | ResetPositionClick
    | ResetRotationClick
    | ResetCameraClick
    | ResetLightClick
    | ResetPivotClick

  /** Panel events need the panel, which the load callback builds. */
  predicate NeedsPanel(e: Event)
  {
    e.PositionInput? || e.RotationInput? || e.FovInput? || e.ZoomInput? || e.LightInput? ||
    e.PivotToggle? || e.PivotInput? || e.UnlockInput? || e.GroundSnap?
  }

  /** The handler each event reaches. An event that cannot be delivered (a
      second load, a panel input before the panel exists, a position control
      the panel does not have) changes nothing. */
  function Dispatch(s: ToolState, e: Event): (r: Step)
    ensures (e.Loaded? && s.loaded) || (NeedsPanel(e) && !s.loaded) ==> r == Step(s, Normal)
  {
    match e
    case Loaded(minY) => if s.loaded then Step(s, Normal) else OnLoad(s, minY)
    case PointerDown(hit, dir) => MouseDown(s, hit, dir)
    case PointerMove(p) => MouseMove(s, p)
    case PointerUp => MouseUp(s)
    case Frame(m, g) => AnimateFrame(s, m, g)
    case ResetPositionClick => ResetPosition(s)
    case ResetRotationClick => ResetRotation(s)
    case ResetCameraClick => ResetCamera(s)
    case ResetLightClick => ResetLight(s)
    case ResetPivotClick => ResetPivot(s)
    case PositionInput(name, v, mw) =>
      if s.loaded && name in PositionControls then PositionSlider(s, name, v, mw) else Step(s, Normal)
    case RotationInput(a, deg) => if s.loaded then RotationSlider(s, a, deg) else Step(s, Normal)
    case FovInput(v) => if s.loaded then FovSlider(s, v) else Step(s, Normal)
    case ZoomInput(v) => if s.loaded then ZoomSlider(s, v) else Step(s, Normal)
    case LightInput(a, v) => if s.loaded then LightSlider(s, a, v) else Step(s, Normal)
    case PivotToggle(b) => if s.loaded then EnablePivotControl(s, b) else Step(s, Normal)
    case PivotInput(a, v, q) => if s.loaded then PivotAxisEdit(s, a, v, q) else Step(s, Normal)
    case UnlockInput(b) => if s.loaded then UnlockToggle(s, b) else Step(s, Normal)
    case GroundSnap(minY) => if s.loaded then AttachToGround(s, minY) else Step(s, Normal)
  }

  lemma DispatchKeepsInvariant(s: ToolState, e: Event)
    requires Invariant(s)
    ensures Invariant(Dispatch(s, e).next)
  {
    match e
    case Loaded(_) =>
    case PointerDown(_, _) =>
    case PointerMove(_) =>
    case PointerUp =>
    case Frame(_, _) =>
    case PositionInput(_, _, _) =>
    case RotationInput(_, _) =>
    case FovInput(_) =>
    case ZoomInput(_) =>
    case LightInput(_, _) =>
    case PivotToggle(_) =>
    case PivotInput(_, _, _) =>
    case UnlockInput(_) =>
    case GroundSnap(_) =>
    case ResetPositionClick =>
    case ResetRotationClick =>
    case ResetCameraClick =>
    case ResetLightClick =>
    case ResetPivotClick =>
  }

  /** The state after the events in order. */
  function Run(s: ToolState, events: seq<Event>): ToolState
    decreases |events|
  {
    if events == [] then s else Run(Dispatch(s, events[0]).next, events[1..])
  }

  lemma {:induction false} RunKeepsInvariant(s: ToolState, events: seq<Event>)
    requires Invariant(s)
    ensures Invariant(Run(s, events))
    decreases |events|
  {
    if events != [] {
      DispatchKeepsInvariant(s, events[0]);
      RunKeepsInvariant(Dispatch(s, events[0]).next, events[1..]);
    }
  }

  /** Every state that the modelled events reach from page start keeps the
      invariant: in particular the orbit controls are enabled exactly when the
      marker is not hovered, the highlight is orange exactly while hovered, and
      a drag plane exists exactly during a drag. The colour sliders and
      orbiting with the mouse are not among the events. */
  lemma ReachableStatesKeepInvariant(events: seq<Event>)
    ensures var s := Run(Initial(), events);
      && Invariant(s)
      && s.view.controlsEnabled == !s.pointer.isHovering
      && (s.marker.meshColor == Orange <==> s.pointer.isHovering)
      && (s.pointer.isDragging <==> s.pointer.dragPlane.Some?)
  {
    RunKeepsInvariant(Initial(), events);
  }
}
