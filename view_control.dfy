/**
  The editing-mode camera of ViewControlWithEditing.cpp: a free camera that delegates
  to the base ViewControl, and six orthogonal modes that look along a coordinate axis.
  Every operation does nothing while the camera is locked for editing.

  The base ViewControl is not part of this model: its operations, the bounding-box
  centre, the projection update and the trigonometry of an orthogonal rotation are
  supplied as functions in a `BaseView` value.
 */
module ViewControlEditing {

  datatype EditingMode =
    | FreeMode
    | OrthoPositiveX | OrthoNegativeX
    | OrthoPositiveY | OrthoNegativeY
    | OrthoPositiveZ | OrthoNegativeZ

  datatype Vec3 = Vec3(x: real, y: real, z: real)

  function Dot(a: Vec3, b: Vec3): real {
    a.x * b.x + a.y * b.y + a.z * b.z
  }

  /** The unit vector along coordinate axis `axis` (0, 1, 2 for X, Y, Z) with sign `sign`. */
  function UnitAxis(axis: nat, sign: real): Vec3
    requires axis < 3
  {
    if axis == 0 then Vec3(sign, 0.0, 0.0)
    else if axis == 1 then Vec3(0.0, sign, 0.0)
    else Vec3(0.0, 0.0, sign)
  }

  /** `v` is one of the six signed coordinate axes. */
  predicate IsUnitAxis(v: Vec3) {
    || (v.y == 0.0 && v.z == 0.0 && (v.x == 1.0 || v.x == -1.0))
    || (v.x == 0.0 && v.z == 0.0 && (v.y == 1.0 || v.y == -1.0))
    || (v.x == 0.0 && v.y == 0.0 && (v.z == 1.0 || v.z == -1.0))
  }

  /** `ViewControl::FIELD_OF_VIEW_MIN` and `ViewControl::ZOOM_DEFAULT`. */
  const FIELD_OF_VIEW_MIN: real := 5.0
  const ZOOM_DEFAULT: real := 0.7

  /** The camera fields of the base ViewControl that this class reads or assigns. */
  datatype Camera = Camera(
    fieldOfView: real, zoom: real, lookat: Vec3, up: Vec3, front: Vec3, right: Vec3,
    windowWidth: int, windowHeight: int)

  /** `ViewParameters`, the saved view of the free camera. */
  datatype ViewParameters = ViewParameters(fieldOfView: real, zoom: real, lookat: Vec3, up: Vec3, front: Vec3)

  /** The base ViewControl's operations. `turnUp(c, x0, y0, x1, y1)` is
      `up * cos(theta) + right * sin(theta)` with `theta = atan2(y1, x1) - atan2(y0, x0)`. */
  datatype BaseView = BaseView(
    reset: Camera -> Camera,
    changeFieldOfView: (Camera, real) -> Camera,
    scale: (Camera, real) -> Camera,
    rotate: (Camera, real, real) -> Camera,
    translate: (Camera, real, real, real, real) -> Camera,
    setProjectionParameters: Camera -> Camera,
    convertToViewParameters: Camera -> ViewParameters,
    convertFromViewParameters: (Camera, ViewParameters) -> Camera,
    boundingBoxCenter: Camera -> Vec3,
    turnUp: (Camera, real, real, real, real) -> Vec3)

  /** Everything the editing camera keeps: mode, lock, camera and the saved free view. */
  datatype Editor = Editor(mode: EditingMode, locked: bool, camera: Camera, backup: ViewParameters)

  // ------------------------------------------------------------------------------------
  // The orthogonal views.

  /** The axis an orthogonal mode looks along, and its sign. */
  function ModeAxis(mode: EditingMode): (axis: nat)
    requires mode != FreeMode
    ensures axis < 3
  {
    match mode
    case OrthoPositiveX => 0
    case OrthoNegativeX => 0
    case OrthoPositiveY => 1
    case OrthoNegativeY => 1
    case OrthoPositiveZ => 2
    case OrthoNegativeZ => 2
  }

  function ModeSign(mode: EditingMode): real
    requires mode != FreeMode
  {
    if mode == OrthoPositiveX || mode == OrthoPositiveY || mode == OrthoPositiveZ then 1.0 else -1.0
  }

  /** The `up_` vector `Reset` assigns in an orthogonal mode. */
  function OrthoUp(mode: EditingMode): Vec3
    requires mode != FreeMode
  {
    match mode
    case OrthoPositiveX => Vec3(0.0, 0.0, 1.0)
    case OrthoNegativeX => Vec3(0.0, 0.0, 1.0)
    case OrthoPositiveY => Vec3(1.0, 0.0, 0.0)
    case OrthoNegativeY => Vec3(1.0, 0.0, 0.0)
    case OrthoPositiveZ => Vec3(0.0, 1.0, 0.0)
    case OrthoNegativeZ => Vec3(0.0, 1.0, 0.0)
  }

  /** The `front_` vector `Reset` assigns in an orthogonal mode. */
  function OrthoFront(mode: EditingMode): Vec3
    requires mode != FreeMode
  {
    match mode
    case OrthoPositiveX => Vec3(1.0, 0.0, 0.0)
    case OrthoNegativeX => Vec3(-1.0, 0.0, 0.0)
    case OrthoPositiveY => Vec3(0.0, 1.0, 0.0)
    case OrthoNegativeY => Vec3(0.0, -1.0, 0.0)
    case OrthoPositiveZ => Vec3(0.0, 0.0, 1.0)
    case OrthoNegativeZ => Vec3(0.0, 0.0, -1.0)
  }

  /** In every orthogonal mode, front is the unit vector along the mode's axis with the
      mode's sign, and up is a unit coordinate axis orthogonal to it. */
  lemma OrthoAxes(mode: EditingMode)
    requires mode != FreeMode
    ensures OrthoFront(mode) == UnitAxis(ModeAxis(mode), ModeSign(mode))
    ensures IsUnitAxis(OrthoFront(mode)) && IsUnitAxis(OrthoUp(mode))
    ensures Dot(OrthoUp(mode), OrthoFront(mode)) == 0.0
  {
    var (up, front) := (OrthoUp(mode), OrthoFront(mode));
    match mode
    case OrthoPositiveX => assert up == Vec3(0.0, 0.0, 1.0) && front == Vec3(1.0, 0.0, 0.0);
    case OrthoNegativeX => assert up == Vec3(0.0, 0.0, 1.0) && front == Vec3(-1.0, 0.0, 0.0);
    case OrthoPositiveY => assert up == Vec3(1.0, 0.0, 0.0) && front == Vec3(0.0, 1.0, 0.0);
    case OrthoNegativeY => assert up == Vec3(1.0, 0.0, 0.0) && front == Vec3(0.0, -1.0, 0.0);
    case OrthoPositiveZ => assert up == Vec3(0.0, 1.0, 0.0) && front == Vec3(0.0, 0.0, 1.0);
    case OrthoNegativeZ => assert up == Vec3(0.0, 1.0, 0.0) && front == Vec3(0.0, 0.0, -1.0);
  }

  /** The camera an orthogonal `Reset` hands to `SetProjectionParameters`. */
  function Oriented(base: BaseView, mode: EditingMode, c: Camera): Camera
    requires mode != FreeMode
  {
    c.(fieldOfView := FIELD_OF_VIEW_MIN, zoom := ZOOM_DEFAULT, lookat := base.boundingBoxCenter(c),
       up := OrthoUp(mode), front := OrthoFront(mode))
  }

  /** An orthogonal `Reset` looks at the bounding-box centre with the minimum field of view
      and the default zoom, and leaves the other camera fields alone... */
  lemma OrientedView(base: BaseView, mode: EditingMode, c: Camera)
    requires mode != FreeMode
    ensures Oriented(base, mode, c).fieldOfView == FIELD_OF_VIEW_MIN
    ensures Oriented(base, mode, c).zoom == ZOOM_DEFAULT
    ensures Oriented(base, mode, c).lookat == base.boundingBoxCenter(c)
    ensures Oriented(base, mode, c).(up := c.up, front := c.front, fieldOfView := c.fieldOfView,
                                     zoom := c.zoom, lookat := c.lookat) == c
  {
  }

  /** ... and looks along the mode's axis, with up orthogonal to front. */
  lemma OrientedAxes(base: BaseView, mode: EditingMode, c: Camera)
    requires mode != FreeMode
    ensures Oriented(base, mode, c).front == UnitAxis(ModeAxis(mode), ModeSign(mode))
    ensures IsUnitAxis(Oriented(base, mode, c).up)
    ensures Dot(Oriented(base, mode, c).up, Oriented(base, mode, c).front) == 0.0
  {
    OrthoAxes(mode);
  }

  function ResetCamera(base: BaseView, mode: EditingMode, c: Camera): Camera {
    if mode == FreeMode then base.reset(c)
    else base.setProjectionParameters(Oriented(base, mode, c))
  }

  /** The mouse offsets of an orthogonal `Rotate`, measured from the window centre. */
  datatype Drag = Drag(x0: real, y0: real, x1: real, y1: real)

  function DragFromCenter(c: Camera, x: real, y: real, xo: real, yo: real): Drag {
    var halfWidth := c.windowWidth as real / 2.0 - 0.5;
    var halfHeight := c.windowHeight as real / 2.0 - 0.5;
    Drag(xo - halfWidth, halfHeight - yo, xo + x - halfWidth, halfHeight - yo - y)
  }

  function Abs(r: real): real {
    if r < 0.0 then -r else r
  }

  /** A drag that starts or ends this close to the centre does not rotate. */
  predicate NearCenter(d: Drag) {
    Abs(d.x0 * d.y0) < 0.5 || Abs(d.x1 * d.y1) < 0.5
  }

  /** The camera an orthogonal `Rotate` hands to `SetProjectionParameters`. */
  function OrthoRotated(base: BaseView, c: Camera, x: real, y: real, xo: real, yo: real): Camera {
    var d := DragFromCenter(c, x, y, xo, yo);
    if NearCenter(d) then c else c.(up := base.turnUp(c, d.x0, d.y0, d.x1, d.y1))
  }

  /** An orthogonal rotation turns `up_` about the locked `front_`: it assigns `up_` and
      nothing else, and not even that when the drag is near the window centre. */
  lemma OrthoRotateAssignsOnlyUp(base: BaseView, c: Camera, x: real, y: real, xo: real, yo: real)
    ensures OrthoRotated(base, c, x, y, xo, yo) == c.(up := OrthoRotated(base, c, x, y, xo, yo).up)
    ensures OrthoRotated(base, c, x, y, xo, yo).front == c.front
    ensures NearCenter(DragFromCenter(c, x, y, xo, yo)) ==> OrthoRotated(base, c, x, y, xo, yo) == c
  {
  }

  // ------------------------------------------------------------------------------------
  // The operations, on values.

  /** `Reset`: a locked camera is left alone; otherwise only the camera changes, to the
      base reset in FreeMode and to the mode's oriented view otherwise. */
  function AfterReset(base: BaseView, s: Editor): (t: Editor)
    ensures t == s.(camera := t.camera)
    ensures s.locked ==> t == s
    ensures !s.locked && s.mode == FreeMode ==> t.camera == base.reset(s.camera)
    ensures !s.locked && s.mode != FreeMode ==> t.camera == base.setProjectionParameters(Oriented(base, s.mode, s.camera))
  {
    if s.locked then s else s.(camera := ResetCamera(base, s.mode, s.camera))
  }

  /** `ChangeFieldOfView`: only the free, unlocked camera changes, and only its camera. */
  function AfterChangeFieldOfView(base: BaseView, s: Editor, step: real): (t: Editor)
    ensures t == s.(camera := t.camera)
    ensures s.locked || s.mode != FreeMode ==> t == s
  {
    if s.locked || s.mode != FreeMode then s
    else s.(camera := base.changeFieldOfView(s.camera, step))
  }

  /** `Scale`: the base scale in every mode, unless the camera is locked. */
  function AfterScale(base: BaseView, s: Editor, scale: real): (t: Editor)
    ensures t == s.(camera := t.camera)
    ensures s.locked ==> t == s
  {
    if s.locked then s else s.(camera := base.scale(s.camera, scale))
  }

  /** `Rotate`: the base rotation in FreeMode; in an orthogonal mode only up is turned
      before the camera is projected. */
  function AfterRotate(base: BaseView, s: Editor, x: real, y: real, xo: real, yo: real): (t: Editor)
    ensures t == s.(camera := t.camera)
    ensures s.locked ==> t == s
    ensures !s.locked && s.mode != FreeMode ==>
      t.camera == base.setProjectionParameters(s.camera.(up := OrthoRotated(base, s.camera, x, y, xo, yo).up))
  {
    if s.locked then s
    else if s.mode == FreeMode then s.(camera := base.rotate(s.camera, x, y))
    else s.(camera := base.setProjectionParameters(OrthoRotated(base, s.camera, x, y, xo, yo)))
  }

  /** `Translate`: the base translation in every mode, unless the camera is locked. */
  function AfterTranslate(base: BaseView, s: Editor, x: real, y: real, xo: real, yo: real): (t: Editor)
    ensures t == s.(camera := t.camera)
    ensures s.locked ==> t == s
  {
    if s.locked then s else s.(camera := base.translate(s.camera, x, y, xo, yo))
  }

  /** `SetEditingMode`: an unlocked camera takes the new mode, and the saved view changes
      only when FreeMode is left. */
  function AfterSetEditingMode(base: BaseView, s: Editor, mode: EditingMode): (t: Editor)
    ensures s.locked ==> t == s
    ensures !s.locked ==> t.mode == mode && !t.locked
    ensures !s.locked && s.mode != FreeMode ==> t.backup == s.backup
  {
    if s.locked then s
    else
      var backup := if s.mode == FreeMode then base.convertToViewParameters(s.camera) else s.backup;
      var camera :=
        if mode == FreeMode then base.convertFromViewParameters(s.camera, backup)
        else ResetCamera(base, mode, s.camera);
      Editor(mode, false, camera, backup)
  }

  /** A locked camera ignores every operation. */
  lemma LockedIgnoresEverything(base: BaseView, s: Editor, r: real, x: real, y: real, xo: real, yo: real,
                                mode: EditingMode)
    requires s.locked
    ensures AfterReset(base, s) == s && AfterChangeFieldOfView(base, s, r) == s && AfterScale(base, s, r) == s
    ensures AfterRotate(base, s, x, y, xo, yo) == s && AfterTranslate(base, s, x, y, xo, yo) == s
    ensures AfterSetEditingMode(base, s, mode) == s
  {
  }

  /** No operation changes the lock, and only `SetEditingMode` touches the saved view or
      the mode. */
  lemma OperationsKeepLockAndBackup(base: BaseView, s: Editor, r: real, x: real, y: real, xo: real, yo: real)
    ensures var ops := [AfterReset(base, s), AfterChangeFieldOfView(base, s, r), AfterScale(base, s, r),
                        AfterRotate(base, s, x, y, xo, yo), AfterTranslate(base, s, x, y, xo, yo)];
      forall k :: 0 <= k < |ops| ==> ops[k] == s.(camera := ops[k].camera)
  {
  }

  /** In an orthogonal mode the field of view is locked. */
  lemma OrthoFieldOfViewLocked(base: BaseView, s: Editor, step: real)
    requires s.mode != FreeMode
    ensures AfterChangeFieldOfView(base, s, step) == s
  {
  }

  /** `SetEditingMode` on an unlocked camera: the new mode is the one asked for; the free
      view is saved exactly when the camera leaves FreeMode, restored when it enters
      FreeMode, and an orthogonal mode is entered through `Reset`. */
  lemma SetEditingModeRules(base: BaseView, s: Editor, mode: EditingMode)
    requires !s.locked
    ensures var t := AfterSetEditingMode(base, s, mode);
      && t.mode == mode && !t.locked
      && (s.mode == FreeMode ==> t.backup == base.convertToViewParameters(s.camera))
      && (s.mode != FreeMode ==> t.backup == s.backup)
      && (mode == FreeMode ==> t.camera == base.convertFromViewParameters(s.camera, t.backup))
      && (mode != FreeMode ==> t == AfterReset(base, s.(mode := mode, backup := t.backup)))
  {
  }

  /** Several mode switches in a row. */
  function SwitchModes(base: BaseView, s: Editor, modes: seq<EditingMode>): Editor
    decreases |modes|
  {
    if modes == [] then s else SwitchModes(base, AfterSetEditingMode(base, s, modes[0]), modes[1..])
  }

  /** Moving from the free camera through any number of orthogonal modes keeps the view
      saved when FreeMode was left: switching between two orthogonal modes never
      overwrites it. */
  lemma {:induction false} OrthoSwitchesKeepBackup(base: BaseView, s: Editor, modes: seq<EditingMode>)
    requires !s.locked && s.mode != FreeMode
    requires forall k :: 0 <= k < |modes| ==> modes[k] != FreeMode
    ensures SwitchModes(base, s, modes).backup == s.backup
    ensures modes != [] ==> SwitchModes(base, s, modes).mode == modes[|modes| - 1]
    ensures !SwitchModes(base, s, modes).locked
    decreases |modes|
  {
    if modes != [] {
      var t := AfterSetEditingMode(base, s, modes[0]);
      OrthoSwitchesKeepBackup(base, t, modes[1..]);
      if |modes| > 1 {
        assert modes[1..][|modes[1..]| - 1] == modes[|modes| - 1];
      }
    }
  }

  /** Leaving the free camera, visiting orthogonal modes and returning to FreeMode restores
      the view saved from the free camera's state at the moment it was left. */
  lemma FreeViewRestored(base: BaseView, s: Editor, first: EditingMode, modes: seq<EditingMode>)
    requires !s.locked && s.mode == FreeMode && first != FreeMode
    requires forall k :: 0 <= k < |modes| ==> modes[k] != FreeMode
    ensures var t := SwitchModes(base, s, [first] + modes + [FreeMode]);
      var before := SwitchModes(base, s, [first] + modes);
      && t.mode == FreeMode
      && t.backup == base.convertToViewParameters(s.camera)
      && t.camera == base.convertFromViewParameters(before.camera, base.convertToViewParameters(s.camera))
  {
    var t1 := AfterSetEditingMode(base, s, first);
    assert t1.backup == base.convertToViewParameters(s.camera);
    OrthoSwitchesKeepBackup(base, t1, modes);
    SwitchModesSnoc(base, s, [first] + modes, FreeMode);
    assert ([first] + modes)[1..] == modes;
  }

  lemma {:induction false} SwitchModesSnoc(base: BaseView, s: Editor, modes: seq<EditingMode>, last: EditingMode)
    ensures SwitchModes(base, s, modes + [last]) == AfterSetEditingMode(base, SwitchModes(base, s, modes), last)
    decreases |modes|
  {
    if modes == [] {
      assert modes + [last] == [last];
    } else {
      assert (modes + [last])[1..] == modes[1..] + [last];
      SwitchModesSnoc(base, AfterSetEditingMode(base, s, modes[0]), modes[1..], last);
    }
  }

  // ------------------------------------------------------------------------------------
  // The status line.

  const LockSuffix: string := ", lock camera for editing"

  function StatusPrefix(mode: EditingMode): string {
    match mode
    case FreeMode => "free view"
    case OrthoPositiveX => "orthogonal X axis view"
    case OrthoNegativeX => "orthogonal X axis view"
    case OrthoPositiveY => "orthogonal Y axis view"
    case OrthoNegativeY => "orthogonal Y axis view"
    case OrthoPositiveZ => "orthogonal Z axis view"
    case OrthoNegativeZ => "orthogonal Z axis view"
  }

  /** `GetStatusString`. */
  function StatusString(mode: EditingMode, locked: bool): (r: string)
    ensures locked ==> EndsWith(r, LockSuffix)
    ensures !locked ==> r == StatusPrefix(mode)
  {
    StatusPrefix(mode) + (if locked then LockSuffix else "")
  }

  predicate EndsWith(s: string, suffix: string) {
    |suffix| <= |s| && s[|s| - |suffix|..] == suffix
  }

  /** The lock suffix appears exactly when the camera is locked. */
  lemma StatusShowsLock(mode: EditingMode, locked: bool)
    ensures EndsWith(StatusString(mode, locked), LockSuffix) <==> locked
  {
    var s := StatusString(mode, locked);
    if locked {
      assert s[|s| - |LockSuffix|..] == LockSuffix;
    } else {
      assert |s| < |LockSuffix|;
    }
  }

  /** The status names the axis only: the two modes along an axis share their status, and
      modes along different axes, or the free camera, are told apart. */
  lemma StatusNamesAxis(a: EditingMode, b: EditingMode, locked: bool)
    ensures StatusString(a, locked) == StatusString(b, locked) <==>
      (a == FreeMode && b == FreeMode) || (a != FreeMode && b != FreeMode && ModeAxis(a) == ModeAxis(b))
  {
    var (sa, sb) := (StatusString(a, locked), StatusString(b, locked));
    if sa == sb {
      assert StatusPrefix(a) == sa[..|StatusPrefix(a)|];
      assert StatusPrefix(b) == sb[..|StatusPrefix(b)|];
      assert |StatusPrefix(a)| == |StatusPrefix(b)|;
      if a != FreeMode && b != FreeMode {
        assert StatusPrefix(a)[11] == sa[11] == sb[11] == StatusPrefix(b)[11];
      }
    }
  }

  // ------------------------------------------------------------------------------------
  // The class.

  class EditingViewControl {
    const base: BaseView
    var editingMode: EditingMode
    var locked: bool
    var camera: Camera
    var backup: ViewParameters

    function State(): Editor
      reads this
    {
      Editor(editingMode, locked, camera, backup)
    }

    constructor (base: BaseView, camera: Camera, backup: ViewParameters)
      ensures this.base == base && State() == Editor(FreeMode, false, camera, backup)
    {
      this.base := base;
      editingMode := FreeMode;
      locked := false;
      this.camera := camera;
      this.backup := backup;
    }

    method Reset()
      modifies this
      ensures State() == AfterReset(base, old(State()))
    {
      if locked {
        return;
      }
      if editingMode == FreeMode {
        camera := base.reset(camera);
      } else {
        camera := camera.(fieldOfView := FIELD_OF_VIEW_MIN, zoom := ZOOM_DEFAULT,
                          lookat := base.boundingBoxCenter(camera));
        match editingMode {
          case OrthoPositiveX =>
            camera := camera.(up := Vec3(0.0, 0.0, 1.0), front := Vec3(1.0, 0.0, 0.0));
          case OrthoNegativeX =>
            camera := camera.(up := Vec3(0.0, 0.0, 1.0), front := Vec3(-1.0, 0.0, 0.0));
          case OrthoPositiveY =>
            camera := camera.(up := Vec3(1.0, 0.0, 0.0), front := Vec3(0.0, 1.0, 0.0));
          case OrthoNegativeY =>
            camera := camera.(up := Vec3(1.0, 0.0, 0.0), front := Vec3(0.0, -1.0, 0.0));
          case OrthoPositiveZ =>
            camera := camera.(up := Vec3(0.0, 1.0, 0.0), front := Vec3(0.0, 0.0, 1.0));
          case OrthoNegativeZ =>
            camera := camera.(up := Vec3(0.0, 1.0, 0.0), front := Vec3(0.0, 0.0, -1.0));
        }
        camera := base.setProjectionParameters(camera);
      }
    }

    method ChangeFieldOfView(step: real)
      modifies this
      ensures State() == AfterChangeFieldOfView(base, old(State()), step)
    {
      if locked {
        return;
      }
      if editingMode == FreeMode {
        camera := base.changeFieldOfView(camera, step);
      }
    }

    /** Both modes scale through the base class. */
    method Scale(scale: real)
      modifies this
      ensures State() == AfterScale(base, old(State()), scale)
    {
      if locked {
        return;
      }
      camera := base.scale(camera, scale);
    }

    method Rotate(x: real, y: real, xo: real, yo: real)
      modifies this
      ensures State() == AfterRotate(base, old(State()), x, y, xo, yo)
    {
      if locked {
        return;
      }
      if editingMode == FreeMode {
        camera := base.rotate(camera, x, y);
      } else {
        var x0 := xo - (camera.windowWidth as real / 2.0 - 0.5);
        var y0 := camera.windowHeight as real / 2.0 - 0.5 - yo;
        var x1 := xo + x - (camera.windowWidth as real / 2.0 - 0.5);
        var y1 := camera.windowHeight as real / 2.0 - 0.5 - yo - y;
        if Abs(x0 * y0) < 0.5 || Abs(x1 * y1) < 0.5 {
          // too close to the centre: no rotation
        } else {
          camera := camera.(up := base.turnUp(camera, x0, y0, x1, y1));
        }
        camera := base.setProjectionParameters(camera);
      }
    }

    /** Both modes translate through the base class. */
    method Translate(x: real, y: real, xo: real, yo: real)
      modifies this
      ensures State() == AfterTranslate(base, old(State()), x, y, xo, yo)
    {
      if locked {
        return;
      }
      camera := base.translate(camera, x, y, xo, yo);
    }

    method SetEditingMode(mode: EditingMode)
      modifies this
      ensures State() == AfterSetEditingMode(base, old(State()), mode)
    {
      if locked {
        return;
      }
      if editingMode == FreeMode {
        backup := base.convertToViewParameters(camera);
      }
      editingMode := mode;
      if editingMode == FreeMode {
        camera := base.convertFromViewParameters(camera, backup);
      } else {
        Reset();
      }
    }

    function GetStatusString(): (s: string)
      reads this
      ensures EndsWith(s, LockSuffix) <==> locked
    {
      StatusShowsLock(editingMode, locked);
      StatusString(editingMode, locked)
    }
  }
}
