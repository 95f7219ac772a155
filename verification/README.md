# JoystickCamera in Dafny

A model of the camera-control core of JoystickCamera, an add-in for Fusion 360 that turns
the camera with a game controller. The model proves properties of the following parts.

- **Quaternion algebra** (module `Quaternions`): construction from an axis and an angle,
  the Hamilton product, turning a vector by conjugation, and the 4x4 matrix form.
  `Quaternion.py` and `lib/cameraUtils/quaternion.py` hold the same formulas, so one module
  serves both. The rows below cite whichever of the two files is clearer, and each
  statement holds for both.
- **The mailbox and one polling step** (modules `SharedState`, `JoystickThread`): the
  `SharedState` record, shaping a reading (dead zone, sign-preserving response curve),
  jump-limited smoothing, and what one iteration of the polling thread writes to the
  mailbox. The sleep interval it chooses is modelled too.
- **Device-reading helpers** (module `JoystickManager`): hat to D-pad, hat to an axis pair,
  the axis-index fallback, axis labels, button ranges and the selected-device fallback. The
  controller's readings are inputs.
- **Camera pose operations** (modules `Vectors`, `HostCamera`, `CameraController`,
  `CameraUtility`, `CameraRotations`, `ViewCube`). The host camera is a class with `eye`,
  `target`, `up`, `orientation` and `smooth`. Every operation is a method whose
  postcondition ties the new camera state to a function of the old one. Lemmas then prove
  what those functions promise: distances kept, round trips, clamps, the
  nearest-face tie-break and the dispatch of function ids.
- **The consumer tick** (module `JoystickCamera`): `CameraUpdateHandler.notify`, covering
  rate limiting, the auto-reset deadline, draining the dirty flag, and edge-triggered
  button and D-pad dispatch. The clock is a parameter.
- **Settings and assignment tables** (modules `Config`, `JsonValues`, `Text`, `Dicts`,
  `ButtonFunctions`, `DialogInputs`, `SettingsDialog`, `CommandDialog`):
  - the function table `AVAILABLE_FUNCTIONS`;
  - `save_settings` and `load_settings` on a settings document;
  - the OK handlers of the two settings dialogs.

  The settings document is a map of keys to JSON-like values. Python dictionaries are
  ordered association lists, because insertion order decides which button fires first
  and where a bad key stops a conversion.

`sqrt`, `sin`, `cos` and `pow` come from the Python runtime and are not available here.
They are fields of a `Numerics` value passed to the operations. The lemmas that need
them assume only the predicates `SqrtSound`, `TrigSound` and `PowSound`:
- a square root is non-negative and squares back;
- sin² + cos² = 1, sin 0 = 0 and cos 0 = 1, with sine odd and cosine even;
- the first power of a non-negative base is the base, and every power of a positive
  base is positive.

Floating-point numbers are reals. `math.radians` is `d * PI / 180`, with `PI` the double
value of `math.pi`.

Four places where the code behaves differently from what a reader of its documentation
might expect. The model follows the code in each:
- `rotate_screen_horizontal` in `lib/cameraUtils/camera_rotations.py` turns by the
  negated angle. `CameraRotations.HorizontalIsOppositeScreenRotation` proves that it is
  the controller's screen rotation by the opposite angle.
- The `*_clockwise` ids are offered in the function table, but the controller's dispatch
  does not handle them, so choosing one only logs. `ButtonFunctions.OfferedFunctionsDispatched`
  and `ButtonFunctions.IdleAreNotHandled` state this.
- The library's on-face test accepts any orientation but "arbitrary", so an isometric
  orientation counts as a face (`CameraRotations.IsometricCountsAsFace`). The controller
  instead compares the view direction with the six face directions.
- Before each stick update, the timer tick copies `ROTATION_SCALE` into
  `self.camera_controller.rotation_scale` (JoystickCamera.py:92). That write creates an
  attribute on the instance. `update_camera_position` is a static method and reads the
  class attribute `CameraController.rotation_scale` (module/CameraController.py:13, 86), so
  the tick's copy never reaches the camera. `JoystickCamera.CameraUpdateHandler.Notify`
  therefore leaves the controller's scale unchanged and turns the camera by the class-wide
  scale. Only `set_rotation_scale` and the dialogs' writes to the class attribute change
  that scale.

## Model

| member | source | states |
|---|---|---|
| Quaternions.FromAxisAngleZero | lib/cameraUtils/quaternion.py:17-35 | a zero angle gives the identity quaternion, whatever the axis |
| Quaternions.FromAxisAngleIsUnit | Quaternion.py:13-21 | a unit axis gives a unit quaternion for every angle |
| Quaternions.FromAxisAngleNegated | lib/cameraUtils/quaternion.py:17-35 | the opposite angle about the same axis gives the conjugate quaternion |
| Quaternions.MulIdentity | Quaternion.py:23-29 | (1, 0, 0, 0) is neutral for the Hamilton product on both sides |
| Quaternions.MulAssoc | Quaternion.py:23-52 | the product is associative, so `self * q_vector * q_conjugate` means the same however it is grouped |
| Quaternions.MulNormSq | lib/cameraUtils/quaternion.py:37-52 | the squared norm of a product is the product of the squared norms |
| Quaternions.MulUnit | lib/cameraUtils/quaternion.py:37-52 | the product of two unit quaternions is a unit quaternion |
| Quaternions.ConjugateMul | lib/cameraUtils/quaternion.py:88-90 | q* q and q q* are the real quaternion with value the squared norm of q |
| Quaternions.SandwichIsPure | lib/cameraUtils/quaternion.py:78-91 | for every q the scalar part of q (0, v) q* is zero, so keeping only the vector part loses nothing, and that vector part is the rotation formula |
| Quaternions.TransformIdentity | lib/cameraUtils/quaternion.py:78-91 | the identity quaternion leaves every vector unchanged |
| Quaternions.TransformPreservesNorm | Quaternion.py:49-53 | a unit quaternion preserves the squared length of the vector it turns |
| Quaternions.TransformRoundTrip | Quaternion.py:49-53 | turning by a unit q and then by its conjugate gives the vector back |
| Quaternions.MatrixIsAffineRotation | Quaternion.py:31-47 | the matrix has 16 entries, zero translation column and last row (0, 0, 0, 1) |
| Quaternions.UnitMatrix | lib/cameraUtils/quaternion.py:54-76 | for a unit q the matrix equals the general rotation matrix; only the unit norm was used to simplify its diagonal |
| Quaternions.ApplyRotationMatrix | lib/cameraUtils/quaternion.py:54-76 | the general rotation matrix applied to a vector gives the rotation formula |
| Quaternions.MatrixAgreesWithTransform | Quaternion.py:31-53 | for a unit q the upper 3x3 block of `to_matrix3d` turns a vector exactly as `transform_vector` does |
| HostCamera.OrbitKeepsDistance | lib/cameraUtils/camera_utility.py:149-152 | turning the eye about the target by a unit quaternion keeps its distance to the target |
| HostCamera.OrbitRoundTrip | lib/cameraUtils/camera_utility.py:149-152 | turning the eye by a unit q and then by its conjugate returns it to where it was |
| HostCamera.OrbitIdentity | lib/cameraUtils/camera_utility.py:149-152 | the identity quaternion leaves the eye in place |
| HostCamera.Camera.Assign | lib/cameraUtils/camera_utility.py:158-160 | `viewport.camera = camera`: the viewport's camera becomes exactly the assigned state |
| CameraUtility.QuaternionRotated | lib/cameraUtils/camera_utility.py:125-163 | the target stays and the move is not animated |
| CameraUtility.QuaternionRotationIsRigid | lib/cameraUtils/camera_utility.py:144-160 | a unit quaternion keeps the eye's distance to the target and the up vector's length |
| CameraUtility.QuaternionRotationRoundTrip | lib/cameraUtils/camera_utility.py:144-160 | turning by a unit q and then by its conjugate restores the pose |
| CameraUtility.QuaternionRotationIdentity | lib/cameraUtils/camera_utility.py:144-160 | the identity quaternion leaves the pose unchanged |
| CameraUtility.CameraVectorsOf | lib/cameraUtils/camera_utility.py:171-202 | up is returned as the camera holds it; forward is the normalised target-to-eye direction |
| CameraUtility.CameraVectorsFrame | lib/cameraUtils/camera_utility.py:192-202 | right is always a unit vector and, unless it is the world-X fallback, perpendicular to forward and up |
| CameraUtility.Oriented | lib/cameraUtils/camera_utility.py:210-226 | the camera takes the named orientation; the smooth flag set on the copy does not reach the viewport |
| CameraUtility.AxisRotated | lib/cameraUtils/camera_utility.py:262-305 | the smooth flag is the one passed in |
| CameraUtility.AxisRotationZero | lib/cameraUtils/camera_utility.py:287-305 | a zero angle leaves the pose unchanged |
| CameraUtility.AxisRotationRoundTrip | lib/cameraUtils/camera_utility.py:287-305 | turning by an angle and back about the same unit axis restores the pose |
| CameraUtility.CameraUtility.constructor | lib/cameraUtils/camera_utility.py:28-43 | the three settings are stored as given |
| CameraUtility.CameraUtility.SetRotationScale | lib/cameraUtils/camera_utility.py:59-66 | the scale is stored as given; the other settings stay |
| CameraUtility.CameraUtility.RotateCameraWithQuaternion | lib/cameraUtils/camera_utility.py:125-169 | the camera becomes the quaternion-rotated state |
| CameraUtility.CameraUtility.GetCameraVectors | lib/cameraUtils/camera_utility.py:171-208 | returns the camera frame of the current pose and changes nothing |
| CameraUtility.CameraUtility.SetViewcubeOrientation | lib/cameraUtils/camera_utility.py:210-231 | the camera becomes the oriented state |
| CameraUtility.CameraUtility.SetIsometricView | lib/cameraUtils/camera_utility.py:233-260 | eye (10, -10, 10), target at the origin, Z up, animated |
| CameraUtility.CameraUtility.RotateCamera | lib/cameraUtils/camera_utility.py:262-309 | the camera becomes the axis-rotated state |
| CameraRotations.IsometricCountsAsFace | lib/cameraUtils/camera_rotations.py:27-43 | every isometric orientation counts as being on a face, since only "arbitrary" is excluded |
| CameraRotations.NearestOriented | lib/cameraUtils/camera_rotations.py:45-115 | the camera ends on a face, with the smooth flag unchanged |
| CameraRotations.HorizontalRotated | lib/cameraUtils/camera_rotations.py:117-162 | target and up stay and the move is animated |
| CameraRotations.HorizontalKeepsDistance | lib/cameraUtils/camera_rotations.py:138-153 | with an up vector of nonzero length the eye keeps its distance to the target |
| CameraRotations.HorizontalRoundTrip | lib/cameraUtils/camera_rotations.py:138-153 | turning by an angle and then by its opposite restores the pose |
| CameraRotations.HorizontalIsOppositeScreenRotation | lib/cameraUtils/camera_rotations.py:138-153 | with a unit up vector the library's horizontal turn is the controller's screen rotation by the opposite angle |
| CameraRotations.VerticalRotated | lib/cameraUtils/camera_rotations.py:164-220 | the target stays and the move is animated |
| CameraRotations.VerticalIsRigid | lib/cameraUtils/camera_rotations.py:185-211 | unless view and up are parallel, the eye keeps its distance and the new up is a unit vector |
| CameraRotations.AxialRotated | lib/cameraUtils/camera_rotations.py:222-266 | eye and target stay and the move is animated |
| CameraRotations.AxialRoundTrip | lib/cameraUtils/camera_rotations.py:243-257 | turning about the view direction by an angle and back restores the pose |
| CameraRotations.SmartStart | lib/cameraUtils/camera_rotations.py:274-280 | a smart turn starts on a face, and from the camera itself when it already is on one |
| CameraRotations.SmartTurnCases | lib/cameraUtils/camera_rotations.py:268-316 | on a face a smart turn is the plain turn; from an arbitrary orientation it is the plain turn from the nearest face |
| CameraRotations.CameraRotations.constructor | lib/cameraUtils/camera_rotations.py:20-25 | keeps the camera utility it is given |
| CameraRotations.CameraRotations.IsOnViewcubeFace | lib/cameraUtils/camera_rotations.py:27-43 | true exactly when the reported orientation is not arbitrary |
| CameraRotations.CameraRotations.MoveToNearestViewcubeFace | lib/cameraUtils/camera_rotations.py:45-115 | the camera becomes the nearest-face state |
| CameraRotations.CameraRotations.RotateScreenHorizontal | lib/cameraUtils/camera_rotations.py:117-162 | the camera becomes the horizontally turned state |
| CameraRotations.CameraRotations.RotateScreenVertical | lib/cameraUtils/camera_rotations.py:164-220 | the camera becomes the vertically turned state |
| CameraRotations.CameraRotations.RotateScreenAxial | lib/cameraUtils/camera_rotations.py:222-266 | the camera becomes the axially turned state |
| CameraRotations.CameraRotations.SmartRotate | lib/cameraUtils/camera_rotations.py:268-316 | the camera becomes the smart-turned state for the chosen turn |
| ViewCube.NearestIndex | module/CameraController.py:441-459 | the chosen face has the largest dot product with the view direction, and every earlier face a strictly smaller one (the strict `>` scan keeps the first maximum) |
| ViewCube.NearestUnique | module/CameraController.py:453-459 | at most one face meets that rule, so the chosen face is determined by it |
| ViewCube.NearestFace | module/CameraController.py:452-459 | the loop, started at -2 with the front face as default, ends with the nearest face and its dot product |
| ViewCube.IsOnFace | module/CameraController.py:705-718 | the loop answers true exactly when some face's dot product exceeds the tolerance |
| ViewCube.AtMostOneFace | module/CameraController.py:686-718 | for a direction of length at most 1 and the default tolerance 0.9, no two faces are within tolerance at once |
| ViewCube.OnFaceIsNearest | module/CameraController.py:423-481 | a camera the on-face test accepts for a face snaps back to that same face |
| CameraController.ScaleInputSign | module/CameraController.py:86-90 | with a positive rotation scale the scaled input keeps the stick's sign and is zero only for a centred stick |
| CameraController.ScaleInputOdd | module/CameraController.py:86-90 | opposite stick positions give opposite angles |
| CameraController.FallbackIsSingular | module/CameraController.py:99-158 | whenever the alternate right vector is computed (length below 0.01) the frame takes the singular branch |
| CameraController.ZModePoleBranchUnreachable | module/CameraController.py:158-183 | in Z-axis mode forward is never within 0.95 of world Z, because such a pose already took the singular branch |
| CameraController.RollCorrectionSkipsPole | module/CameraController.py:231-283 | looking along the Z axis the roll correction leaves up as it is |
| CameraController.UpdatedIsClamped | module/CameraController.py:63-307 | a frame either leaves the camera alone or writes an eye within 1000 on each axis, not flipped in both x and z, with the target kept and smooth transitions off |
| CameraController.FrameRightIsUnit | module/CameraController.py:92-130 | outside the singular branch the right vector is a unit vector |
| CameraController.AxisAngleAlwaysUnit | module/CameraController.py:173-197 | a unit axis gives a unit rotation for every angle |
| CameraController.RotationsAreUnit | module/CameraController.py:158-197 | every branch builds its two rotations from unit axes, so both are unit quaternions |
| CameraController.ZModeRotations | module/CameraController.py:185-190 | away from the pole, Z-axis mode turns about right and about world Z by `z_direction * -x` |
| CameraController.OrbitRotationIsUnit | module/CameraController.py:200 | `q_horizontal * q_vertical` is a unit quaternion whenever up is a unit vector in the standard branch |
| CameraController.PlannedMoveKeepsDistance | module/CameraController.py:200-206 | hence one frame's orbit keeps the eye's distance from the target |
| CameraController.Snapped | module/CameraController.py:394-421 | the camera reports the requested orientation and is animated |
| CameraController.NearestSnappedIsFace | module/CameraController.py:423-481 | after a snap to the nearest face the camera reports one of the six faces |
| CameraController.SnapKeepsFace | module/CameraController.py:423-481 | a camera within the on-face tolerance of a face snaps to that face |
| CameraController.ScreenRotated | module/CameraController.py:539-586 | target and up stay and the move is animated |
| CameraController.ScreenRotationKeepsDistance | module/CameraController.py:559-571 | with a unit up vector the eye keeps its distance from the target |
| CameraController.ScreenRightThenLeft | module/CameraController.py:483-489 | `rotate_screen_right` followed by `rotate_screen_left` restores the pose |
| CameraController.VerticalAxisIsUnit | module/CameraController.py:613-637 | the vertical turn's axis is a unit vector in every case, near the pole and elsewhere |
| CameraController.RelevelledIsLevel | module/CameraController.py:654-664 | away from the pole, a tilt below 0.7 gives a horizontal unit up vector, or the original up |
| CameraController.ScreenRotatedVertically | module/CameraController.py:588-684 | the target stays and the move is animated |
| CameraController.VerticalRotationKeepsDistance | module/CameraController.py:639-649 | the vertical turn keeps the eye's distance from the target |
| CameraController.SmartRotationSequence | module/CameraController.py:491-537 | on a face a smart turn is the plain turn; off a face it is the plain turn from the nearest face's pose |
| CameraController.ActionOf | module/CameraController.py:317-385 | an id gets an action exactly when it is one of the 18 ids the dispatch tests |
| CameraController.OppositeIdsOppositeAngles | module/CameraController.py:359-381 | each left or down id turns by the opposite angle of its right or up id |
| CameraController.Executed | module/CameraController.py:383-385 | an id the dispatch does not know leaves the camera unchanged |
| CameraController.FaceButtonsReachFace | module/CameraController.py:323-339 | each `viewcube_*` id leaves the camera on its face, animated |
| CameraController.ComputeFrame | module/CameraController.py:92-130 | returns the frame `ViewFrame` describes: normalised forward, right with the fallback, and the unfixed right length |
| CameraController.ComputeRotations | module/CameraController.py:158-197 | returns the two rotations of the branch `Classify` picks |
| CameraController.ComputeMove | module/CameraController.py:200-283 | returns the eye and up one frame plans |
| CameraController.CameraController.constructor | module/CameraController.py:13 | the class-wide rotation scale starts at the configured value |
| CameraController.CameraController.SetRotationScale | module/CameraController.py:15-18 | the scale is stored as given |
| CameraController.CameraController.UpdateCameraPosition | module/CameraController.py:63-307 | the camera becomes `Updated` of its old state |
| CameraController.CameraController.SetViewcubeOrientation | module/CameraController.py:394-421 | the camera becomes the snapped state |
| CameraController.CameraController.MoveToNearestViewcubeFace | module/CameraController.py:423-481 | the camera becomes the state snapped to the nearest face |
| CameraController.CameraController.IsOnViewcubeFace | module/CameraController.py:686-723 | answers the on-face test for the current camera and changes nothing |
| CameraController.CameraController.RotateScreenByAngle | module/CameraController.py:539-586 | the camera becomes the screen-rotated state |
| CameraController.CameraController.RotateScreenVerticalByAngle | module/CameraController.py:588-684 | the camera becomes the vertically rotated state |
| CameraController.CameraController.SmartRotate | module/CameraController.py:491-537 | the camera becomes the smart-rotated state, horizontal or vertical |
| CameraController.CameraController.Perform | module/CameraController.py:317-381 | the camera becomes the state the action's branch produces |
| CameraController.CameraController.ExecuteButtonFunction | module/CameraController.py:309-392 | the camera becomes the executed state for the id |
| JoystickManager.DpadButtonStates | module/JoystickManager.py:236-262 | the map has exactly the four direction keys, and opposite directions are never pressed together |
| JoystickManager.DpadMapping | module/JoystickManager.py:242-262 | with no reading every direction is released; otherwise each direction is pressed exactly when the first hat points that way (x -1 left, 1 right; y -1 down, 1 up) |
| JoystickManager.DpadFirstHatOnly | module/JoystickManager.py:249 | hats after the first never influence the D-pad buttons |
| JoystickManager.HatAsAxis | module/JoystickManager.py:218-234 | an existing hat gives (x, -y); no reading or an index past the last hat gives the centre |
| JoystickManager.HatAxisAgreesWithDpad | module/JoystickManager.py:218-262 | the D-pad's "up" is a negative vertical value of the hat-as-axis reading and "left" a negative horizontal one, and so on for each direction |
| JoystickManager.ReadAxes | module/JoystickManager.py:155-176 | a reading needs at least two axes |
| JoystickManager.ReadAxesCases | module/JoystickManager.py:155-187 | fewer than two axes give no reading; an index past the last axis makes both fall back to axes 0 and 1; valid indices read those axes; a negative index raises, which is caught as no reading |
| JoystickManager.AxisLabelsDistinct | module/JoystickManager.py:112-117 | different axes get different labels, so each dropdown entry names one axis |
| JoystickManager.ButtonPressed | module/JoystickManager.py:283-290 | only an index inside the device's buttons can read as pressed |
| JoystickManager.SelectedDevice | module/JoystickManager.py:74-84 | a configured index at or past the end falls back to device 0, an index in range is used as it is, and any choice is a valid device |
| JoystickManager.Manager.constructor | module/JoystickManager.py:17-22 | the single instance starts with no device and the library not initialized |
| JoystickManager.Manager.InitializePygame | module/JoystickManager.py:28-50 | afterwards the manager is initialized exactly when it already was, or the library is present and its initialization succeeds |
| JoystickManager.Manager.GetJoysticks | module/JoystickManager.py:52-91 | lists every device when the library is present, a device is attached and the index does not raise, and then selects the configured device; otherwise lists none and keeps the selection |
| JoystickManager.Manager.QuitPygame | module/JoystickManager.py:339-358 | a clean shutdown releases the device and clears the initialized flag. An exception while releasing the device keeps both. An exception while shutting the library down comes after the release, so the device is gone and the flag stays set. Either way, unless the release itself fails, the manager is no longer ready |
| JoystickManager.Manager.GetAxisNames | module/JoystickManager.py:93-122 | one label per axis of the selected device, axis i labelled `AxisLabel(i)`; no labels without a device |
| JoystickManager.Manager.GetButtonState | module/JoystickManager.py:264-293 | pressed exactly when a device is ready, the index is one of its buttons and the reading is nonzero |
| JoystickManager.Manager.GetAllButtonStates | module/JoystickManager.py:295-321 | one entry per button of a ready device, each what `get_button_state` reports for that index; as many entries as `get_button_count` reports |
| JoystickManager.Manager.ButtonCount | module/JoystickManager.py:323-337 | a nonzero count needs a ready device |
| JoystickManager.Manager.HatValues | module/JoystickManager.py:189-216 | the device's hats when it is ready, no reading otherwise |
| SharedState.SharedState.constructor | module/SharedState.py:2-11 | stick centred, nothing pending, no button or D-pad readings |
| JoystickThread.ApplyDeadZone | module/JoystickThread.py:46-49 | a coordinate strictly inside the dead zone becomes 0 and any other passes unchanged |
| JoystickThread.DeadZoneIdempotent | module/JoystickThread.py:46-49 | applying the dead zone twice is applying it once |
| JoystickThread.CurvePreservesSign | module/JoystickThread.py:56-64 | the response curve keeps the sign of the input and maps 0 to 0 |
| JoystickThread.CurveLinear | module/JoystickThread.py:43-64 | with the default exponent 1.0 the curve is the identity |
| JoystickThread.SmoothBetween | module/JoystickThread.py:101-113 | the first iteration passes the reading through; later each smoothed coordinate lies between the previous value and the new reading |
| JoystickThread.SmoothSteady | module/JoystickThread.py:101-113 | a steady reading is a fixed point of smoothing |
| JoystickThread.SmoothStep | module/JoystickThread.py:103-113 | after a jump of more than 0.5 each coordinate moves a tenth of the way, otherwise three tenths |
| JoystickThread.Overlay | module/JoystickThread.py:72-73 | readings overwrite indices 0 to n-1 and every other entry of the mailbox's button map stays |
| JoystickThread.OverlayExtend | module/JoystickThread.py:72-73 | one more reading is one more map update |
| JoystickThread.ShapeReading | module/JoystickThread.py:32-64 | returns the dead zone and curve applied to the reading, centre when there is none |
| JoystickThread.CopyButtons | module/JoystickThread.py:72-73 | the button map becomes the overlay of the readings on the old map |
| JoystickThread.SmoothReading | module/JoystickThread.py:101-113 | returns the smoothed reading |
| JoystickThread.Publish | module/JoystickThread.py:120-144 | a moving position is published and marked new with a 20 ms sleep; otherwise a stale non-zero position is cleared and marked consumed, and the sleep is 200 ms |
| JoystickThread.JoystickThread.constructor | module/JoystickThread.py:16-21 | the given dead zone, or the configured one when none is given; no previous values; not stopped |
| JoystickThread.JoystickThread.Stop | module/JoystickThread.py:167-168 | the stop event is set |
| JoystickThread.JoystickThread.Step | module/JoystickThread.py:25-144 | one iteration: dead zone reloaded, the smoothed shaped reading remembered and published as `Publish` says, the button map overlaid or cleared, the D-pad map copied or cleared |
| JoystickCamera.FiredFunctions | JoystickCamera.py:101-145 | at most one function per assignment, and never "none" |
| JoystickCamera.FiredFunctionsExactly | JoystickCamera.py:105-118 | a function fires exactly when it is not "none" and some entry assigns it to a key that is pressed now and was not at the previous tick |
| JoystickCamera.FiredStep | JoystickCamera.py:105-118 | each further entry runs its function after the earlier ones exactly when its key rose and it is not "none" |
| JoystickCamera.DisabledButtonsDisableDpad | JoystickCamera.py:101-145 | with buttons disabled no D-pad function fires either, because the D-pad loop sits inside the button branch |
| JoystickCamera.Repeat | JoystickCamera.py:110-114 | a run of `count` equal readings |
| JoystickCamera.HeldFiresNothing | JoystickCamera.py:110-121 | under the edge rule, a button held down through further ticks counts no further edge |
| JoystickCamera.ReleasedFiresNothing | JoystickCamera.py:110-121 | under the edge rule, ticks with the button up count no edge |
| JoystickCamera.PressAndHoldFiresOnce | JoystickCamera.py:110-121 | under the edge rule, a press held for any number of ticks counts exactly one edge |
| JoystickCamera.EdgeExample | JoystickCamera.py:110-121 | one example under the edge rule: the readings released, released, pressed, pressed, released count exactly one edge |
| JoystickCamera.TicksFiringCountsEdges | JoystickCamera.py:105-121 | over a run of ticks, each compared with the button map of the tick before as `notify` saves it, an assignment's function fires on exactly as many ticks as its key's readings count edges. So the counts above are what the tick loop fires |
| JoystickCamera.CameraUpdateHandler.constructor | JoystickCamera.py:19-32 | a fresh controller, last update now, the update interval capped at 0.01, no previous states |
| JoystickCamera.CameraUpdateHandler.FireAll | JoystickCamera.py:105-118 | the camera ends as the fired functions, run in assignment order, leave it |
| JoystickCamera.CameraUpdateHandler.Notify | JoystickCamera.py:34-159 | the update interval is reloaded; the reset runs exactly when enabled and overdue; a rate-limited tick changes nothing else; otherwise pending input is drained into the orbit, turned by the controller's class-wide scale, which the tick leaves unchanged; the fired functions run, the previous states are saved and the update time advances |
| JsonValues.TruncateToInt | config.py:191 | `int(x)` on a float truncates toward zero: the result is within 1 of x, on the zero side |
| JsonValues.ConversionsOfOwnType | config.py:144-244 | `bool`, `int` and `float` give back a value of their own type unchanged, and `null`, arrays and objects convert to no number |
| JsonValues.IntTextConvertsAlike | config.py:147-244 | the decimal text of an integer converts to that integer by `int` and to the same number by `float` |
| Text.NatToString | config.py:110-122 | the decimal text of a natural number is nonempty and all digits |
| Text.DigitsOfNat | config.py:262-263 | reading the digits of a natural number gives the number back |
| Text.ParseIntToString | config.py:262-263 | `int(str(k)) == k` for every integer, so a button key written by `json.dump` reads back as the same key |
| Text.IntToStringInjective | config.py:110-122 | distinct button numbers are written as distinct keys |
| Text.ParseFloatOfIntText | config.py:147-152 | `float(str(k)) == k` for every integer |
| Text.ParseFloatNeedsDigit | config.py:151-153 | text without a digit never converts to a number |
| Config.NoneIsFirst | config.py:64-65 | the first entry of the function list is "no function", id "none" |
| Config.IdsDistinct | config.py:64-88 | the 23 ids are pairwise distinct |
| Config.DisplayNamesDistinct | config.py:64-88 | the 23 display names are pairwise distinct, so the name-to-id dictionary loses no entry |
| Config.DisplayNamesAreNotIds | config.py:64-88 | no display name is also an id, so the loader's two lookups never overlap |
| Config.DefaultsAreConsistent | config.py:14-61 | the default log level follows the default debug flag, and both default tables hold function ids only |
| Config.Resolve | config.py:265-274 | whatever a stored value is, a value the loader stores is a function id |
| Config.ResolveByTable | config.py:260-269 | every id is stored as it is and every display name is converted to its own entry's id |
| Config.ResolveUnknown | config.py:272-274 | a string that is neither an id nor a display name is skipped |
| Config.NormalizedIsIdTable | config.py:252-316 | whatever the file holds, a loaded table holds function ids only and no key twice |
| Config.NormalizedStopsAtBadKey | config.py:262-263 | a key that does not convert ends the loop, keeping exactly what the items before it produced |
| Config.SavedItems | config.py:110-122 | `json.dump` writes one item per table entry |
| Config.SavedItemsRestored | config.py:110-122 | reading back the items written for an id table appends that table, in its order, to what was built before |
| Config.LoadRoundTrip | config.py:94-328 | saving and loading again restores every saved setting, both tables in their order; the log level follows debug mode and the unsaved legacy button keeps its value |
| Config.SavedScalarsRestored | config.py:97-109 | every setting outside the tables reads back as saved |
| Config.SavedButtonsRestored | config.py:252-288 | the saved button table and its enabled flag read back as saved |
| Config.ButtonTableRestored | config.py:254-274 | the items written for a button id table read back as that table |
| Config.SavedDpadRestored | config.py:291-316 | the saved D-pad table and its enabled flag read back as saved |
| Config.LoadedLogLevel | config.py:319 | after a complete load the log level follows debug mode; a failed load leaves it as it was |
| Config.FloatFieldsLoaded | config.py:147-221 | each float setting takes the converted file value when there is one, and otherwise keeps its previous value |
| Config.ButtonTableNotAnObject | config.py:254-262 | a button table that is present but not an object fails the whole load with the table emptied, and the D-pad settings and the log level untouched |
| Config.BadButtonKey | config.py:262-288 | a button key that is not an integer stops the button section: the table keeps what came before it and the enabled flag is not read, while the rest of the load goes on |
| Config.LegacyButtons | config.py:275-281 | without a button table the legacy home-view button becomes the only assignment; with neither key the previous table stays |
| Config.DpadTableCases | config.py:291-297 | an absent D-pad table loads as empty; a present value that is not an object leaves the previous table |
| Config.LoadKeepsIdTables | config.py:133-328 | loading keeps both tables id tables, whatever the file holds |
| Config.ButtonsLoadedIsIdTable | config.py:252-288 | the button section leaves an id table |
| Config.DpadLoadedIsIdTable | config.py:291-316 | the D-pad section leaves an id table |
| Config.NormalizeItems | config.py:262-274 | the loop builds the table the item-by-item definition describes, and says whether it ran to its end |
| Config.Config.constructor | config.py:14-61 | the globals start at their defaults |
| Config.Config.SaveSettings | config.py:94-130 | the object written holds every saved setting |
| Config.Config.LoadSettings | config.py:133-328 | the settings become the loaded ones, and the result says whether the load completed |
| Config.Config.LoadScalarSettings | config.py:144-249 | the fields before the tables become the loaded ones |
| Config.Config.LoadSpeedSettings | config.py:144-188 | DEBUG, ROTATION_SCALE, DEAD_ZONE and UPDATE_RATE are loaded, nothing else changes |
| Config.Config.LoadDeviceSettings | config.py:190-221 | the joystick index, both axes (AXIS_Y only when AXIS_X converted) and the response curve are loaded |
| Config.Config.LoadModeSettings | config.py:224-249 | the Z-axis mode, the welcome message and the automatic reset are loaded |
| Config.Config.LoadButtonSettings | config.py:252-288 | the button table and flag become the loaded ones, and the result says whether the section crashed |
| Config.Config.LoadButtonTable | config.py:254-274 | a present table is reset, then filled from its items |
| Config.Config.LoadLegacyButton | config.py:275-283 | the legacy button and the enabled flag are loaded |
| Config.Config.LoadDpadSettings | config.py:291-316 | the D-pad table and flag become the loaded ones |
| ButtonFunctions.OfferedFunctionsDispatched | config.py:64-88 | the ids the dispatch acts on are exactly the offered ids other than "none" and the four clockwise turns, which are only logged |
| ButtonFunctions.HandledAreOffered | module/CameraController.py:317-381 | every id the dispatch tests is offered in the function list |
| ButtonFunctions.OfferedAreHandledOrIdle | config.py:64-88 | every offered id has an action, or is "none" or a clockwise turn |
| ButtonFunctions.IdleAreNotHandled | module/CameraController.py:383-385 | "none" and the clockwise turns have no action |
| DialogInputs.ChosenJoystick | commands/settingsDialog/entry.py:476-477 | no selection, or the "no controller" label, keeps the index; any other selection stores its position |
| SettingsDialog.Chosen | commands/settingsDialog/entry.py:545-553 | a dropdown assigns only a function id, never "none" |
| SettingsDialog.RebuiltTable | commands/settingsDialog/entry.py:521-584 | a rebuilt table maps exactly the offered keys whose dropdown chooses a function, to that function; it holds ids only, never "none", and no key twice |
| SettingsDialog.SettingsDialogButtons | commands/settingsDialog/entry.py:521-553 | after OK, button k is assigned exactly when it is one of slots 0 to 9 and its dropdown chooses a function; other old entries are gone |
| SettingsDialog.SettingsDialogDpad | commands/settingsDialog/entry.py:564-584 | after OK the D-pad table maps exactly the four directions whose dropdown chooses a function |
| SettingsDialog.RebuildTable | commands/settingsDialog/entry.py:537-553 | the loop builds the table the key-by-key definition describes |
| SettingsDialog.ApplySettingsDialog | commands/settingsDialog/entry.py:474-584 | the settings become the dialog's applied settings |
| SettingsDialog.ApplyTables | commands/settingsDialog/entry.py:521-584 | the button table, the D-pad flag and the D-pad table are set; nothing else changes |
| SettingsDialog.ApplyDeviceChoices | commands/settingsDialog/entry.py:476-488 | the controller and both axes are set; nothing else changes |
| SettingsDialog.ApplyToggles | commands/settingsDialog/entry.py:491-518 | the welcome message, the automatic reset and the buttons' flag are set; nothing else changes |
| CommandDialog.FunctionNamed | commands/commandDialog/entry.py:358-365 | a selected name always resolves to a function id |
| CommandDialog.FunctionNamedByTable | commands/commandDialog/entry.py:358-365 | each display name of the function list resolves to its own entry's id |
| CommandDialog.FunctionNamedNone | commands/commandDialog/entry.py:358-371 | a name resolves to "none" exactly when it is the "no function" entry's name or no entry's name at all |
| CommandDialog.SlotUpdatedGet | commands/commandDialog/entry.py:354-373 | reading one slot changes that slot's entry to its outcome and no other entry |
| CommandDialog.SlotsUpdatedGet | commands/commandDialog/entry.py:354-373 | after slots 0 to n-1 are read, each holds what its dropdown says (or what it held, without a selection), and every other key keeps its entry |
| CommandDialog.SlotUpdatedIdTable | commands/commandDialog/entry.py:366-373 | reading one slot keeps an id table an id table |
| CommandDialog.SlotsUpdatedIdTable | commands/commandDialog/entry.py:354-373 | reading all slots keeps an id table an id table |
| CommandDialog.CommandDialogButtons | commands/commandDialog/entry.py:354-373 | after OK, slots 0 to 7 with a selection hold their chosen id or nothing for "none", every other button keeps its entry, and an id table stays one |
| CommandDialog.DialogsAgree | commands/commandDialog/entry.py:358-373 | when a dropdown shows the function list in order, reading it by position (settings dialog) and by name (this dialog) assign the same function |
| CommandDialog.ApplyCommandDialog | commands/commandDialog/entry.py:331-375 | the settings become the dialog's applied settings |
| CommandDialog.ApplyCommandChoices | commands/commandDialog/entry.py:333-351 | the controller, both axes and the buttons' flag are set; nothing else changes |
| CommandDialog.UpdateButtonSlots | commands/commandDialog/entry.py:354-373 | the loop over slots 0 to 7 leaves the table the slot-by-slot definition describes; nothing else changes |
| CommandDialog.UpdateButtonSlot | commands/commandDialog/entry.py:355-373 | one slot's entry is deleted in place for "none", otherwise set; nothing else changes |
| Dicts.PutGet | commands/commandDialog/entry.py:372-373 | after `d[k] = v`, key `k` reads back as `v` and every other key reads as before |
| Dicts.PutKeys | commands/commandDialog/entry.py:372-373 | `d[k] = v` adds `k` to the keys and no other key |
| Dicts.PutPresentKeepsOrder | commands/commandDialog/entry.py:372-373 | assigning a key that is already present keeps every key in its place and the length unchanged |
| Dicts.PutAbsentAppends | commands/commandDialog/entry.py:372-373 | assigning a new key appends it at the end, in insertion order |
| Dicts.DeleteGet | commands/commandDialog/entry.py:369-370 | after `del d[k]`, `k` is missing and every other key reads as before |
| Dicts.DeleteKeys | commands/commandDialog/entry.py:369-370 | `del d[k]` removes exactly `k` from the keys |

## Left out

- Host API: `app.activeViewport`, `viewport.refresh`, `fit`, `goHome`, message boxes and
  command definitions. The poses the host computes (home view, fit, snapping to a
  `viewOrientation`) are inputs of the methods (`Host`). So is the orientation the host
  reports after the add-in writes a pose.
- `navigate_to_home_view`: only the path through `goHome` is modelled. The backup path
  that runs the host's home-view command is a foreign call.
- pygame: `init`, `quit`, `event.pump` and the `Joystick` objects. Device readings are
  inputs. Three paths are not modelled:
  - re-initialisation after "video system not initialized";
  - the `[0.0, 0.0]` answer on that error;
  - the re-initialisation paths of `get_axes`. `JoystickManager.ReadAxes` models the
    index logic only.
- Threads and sleeping: the polling loop itself, `time.sleep`, the exception and
  re-initialisation handler of `run` (module/JoystickThread.py:148-163), the dialogs'
  timers, `JoystickAddIn` start/stop/join, and the sleeps between the steps of a smart
  rotation. `JoystickThread.JoystickThread.Step` models one iteration and returns the
  interval it would sleep.
- Auto-reset: the thread restart (JoystickCamera.py:59-75) is left out. Only the timing
  decision and the reset request are modelled. `last_reset_time`, a module global in the
  source, is a field of the handler.
- Sampled refreshes: the viewport refreshes gated on `int(time*1000) % n` are
  nondeterministic. This includes the refresh after a tick with buttons disabled
  (JoystickCamera.py:146-151).
- Floating point: values are reals, with no rounding, overflow, `inf` or `nan`.
- CameraController.ComputeMove: the numeric result of the Z-axis-mode roll correction
  (module/CameraController.py:231-283) is not proved. Only its guards are modelled.
- Config.Config.LoadSettings: reading and writing the JSON file is left out. `None`
  stands for a file that is missing, unreadable or not a JSON object. Three other limits:
  - `float()` on an integer too large for a double raises `OverflowError` in Python; the
    model converts every integer;
  - numeric text is limited to a sign, digits and an optional decimal point: no
    whitespace, underscores, exponents, `inf` or `nan`;
  - the `ZeroDivisionError` of the `UPDATE_RATE` log line after a rate of 0 comes after
    the assignment, so the model keeps the value.
- JoystickCamera.CameraUpdateHandler.Notify: the instance attribute the tick writes at
  JoystickCamera.py:92 is not modelled, because nothing reads it.
- Logging, debug counters and tracebacks everywhere, including the DEBUG output of the
  polling thread.
- Settings dialog: the rows cover the OK handler from the controller selection to the D-pad
  table (commands/settingsDialog/entry.py:474-584). Not modelled:
  - the debug and log-level fields (423-424);
  - the rotation, dead-zone, rate and curve sliders (435-463);
  - the Z-axis field (470);
  - the loop that logs every input (588-593);
  - the `reset_system` restart of the polling thread and pygame (595-623);
  - the copy of `ROTATION_SCALE` into the class attribute `CameraController.rotation_scale`
    (626-627);
  - the call to `save_settings` (630-631).
- Command dialog: the rows cover the controller, axes and button table
  (commands/commandDialog/entry.py:331-375). Not modelled:
  - the debug field (287-288);
  - the sliders, including the copy of the rotation scale into the controller
    (299-327, 383-385);
  - the Z-rotation field (380);
  - the call to `save_settings` (388).
- Dialog UI construction, `command_input_changed`, validate, preview and destroy in both
  dialog files. `reset_config.py`, `commands/__init__.py`, the demo script `CameraUtils_Demo.py`
  and `lib/cameraUtils/__init__.py` are not part of this model.
- SharedState: the single module-level instance is not modelled as a global. The tick
  and the polling step receive the same `SharedState` object as a parameter.
