/** The posing tool as the page runs it: the module-level variables and the
    scene objects whose fields the handlers assign in place, and one method
    per handler. Each method is proved to leave the state the matching
    transition of `Posing` describes and to end the way it does. */
module Tool {
  import opened Wrappers
  import opened Vectors
  import opened Posing
  import opened PosingProperties

  class PosingTool {
    var loaded: bool
    var pointer: Pointer
    var modelPosition: Vec3
    var pivot: Pose
    var marker: Marker
    var view: View
    var lightPosition: Vec3
    var pivotUi: PivotUi
    var panel: Panel

    /** The abstract value of the fields. */
    function State(): ToolState
      reads this
    {
      ToolState(loaded, pointer, modelPosition, pivot, marker, view, lightPosition, pivotUi, panel)
    }

    /** Module evaluation and `init()` up to the start of the OBJ load. */
    constructor ()
      ensures State() == Initial()
      ensures Invariant(State())
    {
      loaded := false;
      pointer := Pointer(false, false, None, Zero);
      modelPosition := Zero;
      pivot := Pose(Zero, Zero);
      marker := Marker(Zero, Zero, White, White);
      view := View(true, CameraHome, OrbitTargetHome, FovHome, ZoomHome);
      lightPosition := LightHome;
      pivotUi := PivotUi(false, 0.0, false, false, 0.0, 0.0);
      panel := Panel(Zero, Zero, Zero, FovHome, ZoomHome, LightHome);
    }

    /** The OBJ loader's success callback. */
    method OnLoad(minY: real) returns (completion: Completion)
      requires !loaded
      requires Invariant(State())
      modifies this
      ensures State() == Posing.OnLoad(old(State()), minY).next
      ensures completion == Posing.OnLoad(old(State()), minY).completion
      ensures Invariant(State())
    {
      DispatchKeepsInvariant(State(), Loaded(minY));
      pivot := Pose(Zero, Zero);
      modelPosition := Vec3(0.0, -minY, 0.0);
      marker := Marker(BellyOffset, BellyOffset, White, White);
      loaded := true;
      // setupGUI
      panel := Panel(pivot.position, Zero, pivot.position, view.fov, view.zoom, lightPosition);
      pivotUi := pivotUi.(pivotLockChanged := false);
      UpdatePivotLock(true);
      completion := Threw(ReferenceError("updateModelColor"));
    }

    method MouseDown(hit: Option<Vec3>, viewDir: Vec3) returns (completion: Completion)
      requires Invariant(State())
      modifies this
      ensures State() == Posing.MouseDown(old(State()), hit, viewDir).next
      ensures completion == Posing.MouseDown(old(State()), hit, viewDir).completion
      ensures Invariant(State())
    {
      DispatchKeepsInvariant(State(), PointerDown(hit, viewDir));
      completion := Normal;
      if !pointer.isHovering {
        return;
      }
      if !loaded {
        completion := Threw(TypeError("cubeMesh"));
        return;
      }
      if hit.Some? {
        pointer := pointer.(isDragging := true, dragStart := hit.value,
                            dragPlane := Some(PlaneThrough(Neg(viewDir), hit.value)));
      }
    }

    method MouseMove(intersect: Option<Vec3>) returns (completion: Completion)
      requires Invariant(State())
      modifies this
      ensures State() == Posing.MouseMove(old(State()), intersect).next
      ensures completion == Posing.MouseMove(old(State()), intersect).completion
      ensures Invariant(State())
    {
      DispatchKeepsInvariant(State(), PointerMove(intersect));
      completion := Normal;
      if !pointer.isDragging || pointer.dragPlane.None? {
        return;
      }
      if intersect.Some? {
        var offset := Sub(intersect.value, pointer.dragStart);
        pointer := pointer.(dragStart := intersect.value);
        if !loaded {
          return Threw(TypeError("model"));
        }
        modelPosition := Add(modelPosition, offset);
        completion := SyncUnbound;
      }
    }

    method MouseUp() returns (completion: Completion)
      requires Invariant(State())
      modifies this
      ensures State() == Posing.MouseUp(old(State())).next
      ensures completion == Posing.MouseUp(old(State())).completion
      ensures Invariant(State())
    {
      DispatchKeepsInvariant(State(), PointerUp);
      completion := Normal;
      if pointer.isDragging {
        pointer := pointer.(isDragging := false, dragPlane := None);
        completion := SyncUnbound;
      }
    }

    /** `checkIntersection`, given whether the pointer ray meets the cube and
        its outline. */
    method CheckIntersection(meshHit: bool, edgesHit: bool)
      requires Invariant(State())
      modifies this
      ensures State() == Posing.CheckIntersection(old(State()), meshHit, edgesHit).next
      ensures Invariant(State())
    {
      if !loaded {
        return;
      }
      if meshHit || edgesHit {
        marker := marker.(meshColor := Orange, edgesColor := Orange);
        pointer := pointer.(isHovering := true);
        view := view.(controlsEnabled := false);
      } else {
        marker := marker.(meshColor := White, edgesColor := White);
        pointer := pointer.(isHovering := false);
        view := view.(controlsEnabled := true);
      }
    }

    /** One `animate` frame. */
    method AnimateFrame(meshHit: bool, edgesHit: bool) returns (completion: Completion)
      requires Invariant(State())
      modifies this
      ensures State() == Posing.AnimateFrame(old(State()), meshHit, edgesHit).next
      ensures completion == Posing.AnimateFrame(old(State()), meshHit, edgesHit).completion
      ensures Invariant(State())
    {
      DispatchKeepsInvariant(State(), Frame(meshHit, edgesHit));
      if !pointer.isDragging {
        if !loaded {
          return Threw(TypeError("pivot"));
        }
        var corrected := Add(pivot.position, BellyOffset);
        marker := marker.(cubePosition := corrected, edgesPosition := corrected);
      }
      CheckIntersection(meshHit, edgesHit);
      completion := Normal;
    }

    method PositionSlider(name: string, value: real, matrixWorld: Affine)
      requires loaded && name in PositionControls
      requires Invariant(State())
      modifies this
      ensures State() == Posing.PositionSlider(old(State()), name, value, matrixWorld).next
      ensures Invariant(State())
    {
      DispatchKeepsInvariant(State(), PositionInput(name, value, matrixWorld));
      var a := ControlAxis(name).value;
      panel := panel.(position := With(panel.position, a, value));
      modelPosition := With(modelPosition, a, value);
      var worldOffset := ApplyAffine(matrixWorld, BellyOffset);
      marker := marker.(cubePosition := worldOffset, edgesPosition := worldOffset);
    }

    method RotationSlider(a: Axis, degrees: real)
      requires loaded
      requires Invariant(State())
      modifies this
      ensures State() == Posing.RotationSlider(old(State()), a, degrees).next
      ensures Invariant(State())
    {
      DispatchKeepsInvariant(State(), RotationInput(a, degrees));
      panel := panel.(rotation := With(panel.rotation, a, degrees));
      pivot := pivot.(rotation := With(pivot.rotation, a, degrees * Pi / 180.0));
    }

    method FovSlider(value: real)
      requires loaded
      requires Invariant(State())
      modifies this
      ensures State() == Posing.FovSlider(old(State()), value).next
      ensures Invariant(State())
    {
      DispatchKeepsInvariant(State(), FovInput(value));
      panel := panel.(fov := value);
      view := view.(fov := value);
    }

    method ZoomSlider(value: real)
      requires loaded
      requires Invariant(State())
      modifies this
      ensures State() == Posing.ZoomSlider(old(State()), value).next
      ensures Invariant(State())
    {
      DispatchKeepsInvariant(State(), ZoomInput(value));
      panel := panel.(zoom := value);
      view := view.(zoom := value);
    }

    method LightSlider(a: Axis, value: real)
      requires loaded
      requires Invariant(State())
      modifies this
      ensures State() == Posing.LightSlider(old(State()), a, value).next
      ensures Invariant(State())
    {
      DispatchKeepsInvariant(State(), LightInput(a, value));
      panel := panel.(light := With(panel.light, a, value));
      lightPosition := With(lightPosition, a, value);
    }

    method EnablePivotControl(value: bool)
      requires loaded
      requires Invariant(State())
      modifies this
      ensures State() == Posing.EnablePivotControl(old(State()), value).next
      ensures Invariant(State())
    {
      DispatchKeepsInvariant(State(), PivotToggle(value));
      pivotUi := pivotUi.(isPivotEnabled := value);
      if !value {
        pivotUi := pivotUi.(savedPivotY := pivot.position.y);
      }
    }

    /** A pivot slider's `onChange`; `orientation` is the rotation of the
        pivot's quaternion. */
    method PivotAxisEdit(a: Axis, value: real, orientation: Mat3)
      requires loaded
      requires Invariant(State())
      modifies this
      ensures State() == Posing.PivotAxisEdit(old(State()), a, value, orientation).next
      ensures Invariant(State())
    {
      DispatchKeepsInvariant(State(), PivotInput(a, value, orientation));
      panel := panel.(pivot := With(panel.pivot, a, value));
      if !pivotUi.isPivotEnabled {
        return;
      }
      var delta := value - Get(pivot.position, a);
      pivot := pivot.(position := With(pivot.position, a, value));
      var worldDelta := Apply(orientation, AlongAxis(a, delta));
      modelPosition := Sub(modelPosition, worldDelta);
    }

    method UpdatePivotLock(lock: bool)
      modifies this
      ensures State() == Posing.UpdatePivotLock(old(State()), lock)
    {
      var scaleFactor := LockScale(lock);
      pivotUi := pivotUi.(isPivotLocked := lock, pivotMin := -PivotHalfRange * scaleFactor,
                          pivotMax := PivotHalfRange * scaleFactor);
    }

    method UnlockToggle(unlock: bool)
      requires loaded
      requires Invariant(State())
      modifies this
      ensures State() == Posing.UnlockToggle(old(State()), unlock).next
      ensures Invariant(State())
    {
      DispatchKeepsInvariant(State(), UnlockInput(unlock));
      pivotUi := pivotUi.(pivotLockChanged := true);
      UpdatePivotLock(!unlock);
    }

    method AttachToGround(minY: real)
      requires Invariant(State())
      modifies this
      ensures State() == Posing.AttachToGround(old(State()), minY).next
      ensures Invariant(State())
    {
      DispatchKeepsInvariant(State(), GroundSnap(minY));
      if !loaded {
        return;
      }
      pivot := pivot.(position := pivot.position.(y := pivot.position.y - minY));
      var onGround := Vec3(0.0, pivot.position.y + CubeYOffset, 0.0);
      marker := marker.(cubePosition := onGround, edgesPosition := onGround);
    }

    method ResetPosition() returns (completion: Completion)
      requires Invariant(State())
      modifies this
      ensures State() == Posing.ResetPosition(old(State())).next
      ensures completion == Posing.ResetPosition(old(State())).completion
      ensures Invariant(State())
    {
      DispatchKeepsInvariant(State(), ResetPositionClick);
      if !loaded {
        return Threw(TypeError("model"));
      }
      modelPosition := Zero;
      completion := SyncUnbound;
    }

    method ResetRotation() returns (completion: Completion)
      requires Invariant(State())
      modifies this
      ensures State() == Posing.ResetRotation(old(State())).next
      ensures completion == Posing.ResetRotation(old(State())).completion
      ensures Invariant(State())
    {
      DispatchKeepsInvariant(State(), ResetRotationClick);
      if !loaded {
        return Threw(TypeError("pivot"));
      }
      pivot := pivot.(rotation := Zero);
      completion := Normal;
    }

    /** `resetCamera`; each `setValue` runs the slider's change callback. */
    method ResetCamera() returns (completion: Completion)
      requires Invariant(State())
      modifies this
      ensures State() == Posing.ResetCamera(old(State())).next
      ensures completion == Posing.ResetCamera(old(State())).completion
      ensures Invariant(State())
    {
      DispatchKeepsInvariant(State(), ResetCameraClick);
      view := view.(cameraPosition := CameraHome, fov := FovHome, zoom := ZoomHome,
                    controlsTarget := OrbitTargetHome);
      if !loaded {
        return Threw(TypeError("fovCtrl"));
      }
      FovSlider(FovHome);
      ZoomSlider(ZoomHome);
      completion := Normal;
    }

    /** `resetLight`; each `setValue` runs the slider's change callback. */
    method ResetLight() returns (completion: Completion)
      requires Invariant(State())
      modifies this
      ensures State() == Posing.ResetLight(old(State())).next
      ensures completion == Posing.ResetLight(old(State())).completion
      ensures Invariant(State())
    {
      DispatchKeepsInvariant(State(), ResetLightClick);
      lightPosition := LightHome;
      if !loaded {
        return Threw(TypeError("lightXCtrl"));
      }
      LightSlider(X, LightHome.x);
      LightSlider(Y, LightHome.y);
      LightSlider(Z, LightHome.z);
      completion := Normal;
    }

    /** `resetPivot`; each `setValue` on a pivot control runs its change
        callback, with the pivot's orientation back at the identity. */
    method ResetPivot() returns (completion: Completion)
      requires Invariant(State())
      modifies this
      ensures State() == Posing.ResetPivot(old(State())).next
      ensures completion == Posing.ResetPivot(old(State())).completion
      ensures Invariant(State())
    {
      DispatchKeepsInvariant(State(), ResetPivotClick);
      if !loaded {
        return Threw(TypeError("pivot"));
      }
      pivot := Pose(Zero, Zero);
      modelPosition := Zero;
      ghost var q := State();
      PivotAxisEdit(X, 0.0, Identity);
      ghost var x := State();
      PivotEditToCurrentValue(q, X, 0.0, Identity);
      PivotAxisEdit(Y, 0.0, Identity);
      ghost var y := State();
      PivotEditToCurrentValue(x, Y, 0.0, Identity);
      PivotAxisEdit(Z, 0.0, Identity);
      PivotEditToCurrentValue(y, Z, 0.0, Identity);
      ResetPivotCallbacksComplete(old(State()));
      completion := Threw(TypeError("rotationXCtrl"));
    }
  }
}
