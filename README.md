# Vessel-harvesting tutor: jaw kinematics

This project models the trigger handler of the vessel-harvesting tutor, a
3D Slicer module. A tracked trigger sits on an endoscopic vessel-harvesting cutter.
Whenever the `TriggerToCutter` transform node changes, the handler does three things:

1. It clamps the trigger angle to the mechanical range [86°, 102°].
   It then maps the clamped angle linearly to the opening angle of the cutter's moving jaw:
   `openAngle = (clamped − 86) · (−2.2)`.
2. It builds the jaw's local transform with three `vtkTransform` calls:
   translate (0, 0, −20), rotate about Y by the opening angle, translate (0, 0, +20).
   This is a rotation about the hinge pivot (0, 0, −20).
3. It replaces the transform-to-parent of one scene node, `CutterMovingToCutterTip`.

The project has three modules:

- `Transforms` (`transforms.dfy`) models a `vtkTransform`.
  It is an ordered list of the elementary operations the handler concatenates (translations and rotations about Y).
  It also defines the map of points that the list stands for.
  In VTK's default PreMultiply mode, the operation called last is the first one applied to a point.
  A rotation is given by the cosine and sine of its angle (a `Rotor`), so no trigonometry is needed.
- `JawKinematics` (`jaw.dfy`) models clamp-and-map and the jaw transform.
  The constants are `TriggerLowDeg = 86`, `TriggerHighDeg = 102`, `OpenGain = −2.2` and `PivotOffset = 20`.
  Clamp-and-map is also defined for any range and gain (`ClampTrigger`, `OpenAngle`).
  Clamping is idempotent, monotone and the projection onto the range for every `low ≤ high`.
  The range and the monotonicity of the opening angle are proved for every `low ≤ high` and `gain ≤ 0`.
  Strict decrease and the two if-and-only-if lemmas (shut, fully open) need `low < high` and `gain < 0`.
  With `gain = 0` or `low = high` the opening angle is always 0.
  The range, shut and fully-open lemmas are also stated with the handler's constants.
- `Scene` (`scene.dfy`) models the scene as a map from node name to node.
  A node has a transform-to-parent and the name of the node it observes.
  `UpdatedNodes` gives the scene after one run of the handler.
  The class `SceneNodes` holds the scene as a field.
  Its method `UpdateTransforms` is the handler, written step by step as the source writes it, and proved against `UpdatedNodes`.

Inputs that come from foreign or floating-point code are parameters:

- `rawAngleDeg` is the trigger angle in degrees. VTK computes it from the `TriggerToCutter` transform.
- `cosSinDeg` gives VTK's cosine and sine of an angle in degrees.
  Lemmas that need facts about it say so in a precondition:
  `cosSinDeg(0.0) == NoTurn` for the angle 0, and `IsUnit` for cos² + sin² = 1.

Notes on the code as modelled:

- The lower clamp bound is 86° in this revision of the code (VesselHarvestingTutor.py:230-235).
  The general lemmas hold for any bounds.
- The pivot (0, 0, −20) and the hinge axis Y are in the cutter-tip frame (VesselHarvestingTutor.py:240-244).
  The jaw node observes `CutterTipToCutter` (line 144), which is loaded from a file when no node of that name exists yet (lines 136-140).
  The shaft direction (0, 1, 0) at line 221 is in the cutter frame.
  The code does not fix how the cutter-tip frame sits against the shaft, and neither does the model.
- A missing `TriggerToCutter` is logged, but the `return` after the log is commented out (VesselHarvestingTutor.py:211-213).
  The handler then dereferences `None`.
  A missing `CutterMovingToCutterTip` is dereferenced without any check.
  Either way, the handler stops before it writes anything.
  The model returns `Aborted(...)` in both cases, with the scene unchanged.
  `TriggerToCutter` is checked first, as in the code.

## Model

| member | source | states |
|---|---|---|
| JawKinematics.ClampTrigger | VesselHarvestingTutor/VesselHarvestingTutor.py:230-233 | for a range low ≤ high the clamped angle lies in [low, high], and an angle already in the range is returned unchanged |
| JawKinematics.ClampIdempotent | VesselHarvestingTutor/VesselHarvestingTutor.py:230-233 | clamping twice equals clamping once |
| JawKinematics.ClampIsNearest | VesselHarvestingTutor/VesselHarvestingTutor.py:230-233 | the clamped angle is no farther from the raw angle than any point of [low, high]: clamping is projection onto the range |
| JawKinematics.ClampMonotone | VesselHarvestingTutor/VesselHarvestingTutor.py:230-233 | a larger raw angle never gives a smaller clamped angle |
| JawKinematics.OpenAngle | VesselHarvestingTutor/VesselHarvestingTutor.py:230-235 | the opening angle `(clamp(raw) − low) · gain` for any range and gain; no contract of its own: `OpenAngleRange`, `OpenAngleMonotone`, `OpenAngleStrictlyDecreasing`, `OpenAngleShut` and `OpenAngleFullyOpen` state its properties |
| JawKinematics.JawOpenAngle | VesselHarvestingTutor/VesselHarvestingTutor.py:230-235 | `OpenAngle` with the handler's constants 86, 102 and −2.2; no contract of its own: `JawOpenAngleRange`, `JawShut` and `JawFullyOpen` state its properties |
| JawKinematics.OpenAngleRange | VesselHarvestingTutor/VesselHarvestingTutor.py:230-235 | for low ≤ high and gain ≤ 0 the opening angle lies in [(high − low)·gain, 0] |
| JawKinematics.OpenAngleMonotone | VesselHarvestingTutor/VesselHarvestingTutor.py:235 | the opening angle is non-increasing in the raw angle |
| JawKinematics.OpenAngleStrictlyDecreasing | VesselHarvestingTutor/VesselHarvestingTutor.py:235 | with gain < 0, the opening angle strictly decreases between raw angles inside [low, high] |
| JawKinematics.OpenAngleShut | VesselHarvestingTutor/VesselHarvestingTutor.py:230-235 | with low < high and gain < 0, the opening angle is 0 if and only if the raw angle is ≤ low |
| JawKinematics.OpenAngleFullyOpen | VesselHarvestingTutor/VesselHarvestingTutor.py:230-235 | with low < high and gain < 0, the opening angle is (high − low)·gain if and only if the raw angle is ≥ high |
| JawKinematics.JawOpenAngleRange | VesselHarvestingTutor/VesselHarvestingTutor.py:230-235 | with the handler's constants, every raw angle gives an opening angle in [−35.2, 0] |
| JawKinematics.JawShut | VesselHarvestingTutor/VesselHarvestingTutor.py:230-235 | with the handler's constants, the opening angle is 0 if and only if the raw angle is ≤ 86 |
| JawKinematics.JawFullyOpen | VesselHarvestingTutor/VesselHarvestingTutor.py:232-235 | with the handler's constants, the opening angle is −35.2 if and only if the raw angle is ≥ 102 |
| Transforms.ApplyIdentity | VesselHarvestingTutor/VesselHarvestingTutor.py:236 | a freshly created transform moves no point |
| Transforms.ApplyAppend | VesselHarvestingTutor/VesselHarvestingTutor.py:238-244 | an operation concatenated last is applied to a point first (PreMultiply order) |
| Transforms.RotationYFixesOrigin | VesselHarvestingTutor/VesselHarvestingTutor.py:242 | a rotation about Y fixes the origin |
| Transforms.RotationYFixesAxis | VesselHarvestingTutor/VesselHarvestingTutor.py:242 | a rotation about Y fixes every point of the Y axis |
| Transforms.RotationYKeepsY | VesselHarvestingTutor/VesselHarvestingTutor.py:242 | a rotation about Y does not change a point's Y coordinate |
| Transforms.RotationYNoTurn | VesselHarvestingTutor/VesselHarvestingTutor.py:242 | the rotation with cosine 1 and sine 0 is the identity |
| Transforms.RotationYKeepsNorm | VesselHarvestingTutor/VesselHarvestingTutor.py:242 | a rotation about Y with cos² + sin² = 1 keeps every point's distance to the origin |
| Transforms.Translate | VesselHarvestingTutor/VesselHarvestingTutor.py:240-244 | `vtkTransform::Translate`: appends a translation to the concatenation; no contract of its own: `ApplyAppend` states that it is applied to a point before everything concatenated earlier |
| Transforms.RotateY | VesselHarvestingTutor/VesselHarvestingTutor.py:242 | `vtkTransform::RotateY`, with the angle given by its rotor: appends a rotation about Y; no contract of its own: `ApplyAppend` states its order, and the `RotationY…` lemmas state what the rotation does |
| JawKinematics.JawTransform | VesselHarvestingTutor/VesselHarvestingTutor.py:236-244 | the jaw's local transform built by the three calls in source order; no contract of its own: `JawIsRotationAboutPivot`, `JawFixesHingeAxis`, `JawAtZeroIsIdentity`, `JawKeepsY` and `JawKeepsDistanceToPivot` state its properties |
| JawKinematics.JawIsRotationAboutPivot | VesselHarvestingTutor/VesselHarvestingTutor.py:236-244 | the three-call transform maps p to Pivot + RotY(p − Pivot): a rotation about the pivot (0, 0, −20) |
| JawKinematics.JawFixesHingeAxis | VesselHarvestingTutor/VesselHarvestingTutor.py:238-244 | for every opening angle, the jaw transform fixes the pivot (0, 0, −20) and every point (0, y, −20) of the hinge axis |
| JawKinematics.JawAtZeroIsIdentity | VesselHarvestingTutor/VesselHarvestingTutor.py:236-244 | at opening angle 0 the jaw transform moves no point |
| JawKinematics.JawKeepsY | VesselHarvestingTutor/VesselHarvestingTutor.py:236-244 | the jaw moves points only in planes normal to the hinge axis |
| JawKinematics.JawKeepsDistanceToPivot | VesselHarvestingTutor/VesselHarvestingTutor.py:236-244 | with a true cosine/sine pair, every point keeps its distance to the pivot |
| JawKinematics.ShutTriggerGivesIdentity | VesselHarvestingTutor/VesselHarvestingTutor.py:230-244 | a trigger angle ≤ 86 puts the jaw in its closed pose: the transform moves no point |
| Scene.UpdatedNodes | VesselHarvestingTutor/VesselHarvestingTutor.py:207-247 | the handler fails if and only if `TriggerToCutter` or `CutterMovingToCutterTip` is missing, reporting `TriggerToCutter` first; on success the node names are unchanged, every node other than `CutterMovingToCutterTip` (`TriggerToCutter` among them) is unchanged, and `CutterMovingToCutterTip` keeps its parent and gets the jaw transform of the clamped-and-mapped angle |
| Scene.SceneNodes.UpdateTransforms | VesselHarvestingTutor/VesselHarvestingTutor.py:207-247 | the step-by-step handler leaves the scene equal to `UpdatedNodes` of the old scene and reports `Updated`; on a missing node it reports that error and leaves the scene unchanged |
| Scene.UpdateIdempotent | VesselHarvestingTutor/VesselHarvestingTutor.py:246-247 | running the handler twice with the same reading gives the same scene as running it once |
| Scene.UpdateForgetsPreviousJaw | VesselHarvestingTutor/VesselHarvestingTutor.py:236-247 | the jaw transform is replaced, not accumulated: two scenes that differ only in the jaw node's previous transform give identical results |
| Scene.ReleasedTriggerClosesJaw | VesselHarvestingTutor/VesselHarvestingTutor.py:230-247 | with both nodes present and a trigger angle ≤ 86, the update succeeds and the jaw node's new transform moves no point |
| Scene.UpdatedJawFixesPivot | VesselHarvestingTutor/VesselHarvestingTutor.py:236-247 | with both nodes present, the update succeeds and the jaw node's new transform fixes the hinge pivot |

## Left out

- The computation of the raw trigger angle is not modelled; the angle is the input `rawAngleDeg`.
  It uses `TransformFloatVector`, `AngleBetweenVectors` and `DegreesFromRadians` (lines 215-226).
  These are foreign VTK calls and floating-point `acos`.
  For the same reason there is no degenerate-vector case.
- The cosine and sine of `RotateY` are not computed.
  They are the parameter `cosSinDeg`, because they are floating-point trigonometry.
- The 4×4 matrix a `vtkTransform` computes is not modelled.
  A transform is the ordered list of its operations and the map of points they define.
- All arithmetic is exact, over `real`. The source uses IEEE doubles.
  For example, a released trigger gives `(86.0 − 86.0) · −2.2`, which is the double `−0.0` at line 235, while the model gives 0.
  Likewise, the cosine and sine VTK computes satisfy cos² + sin² = 1 only up to rounding.
  So `JawKeepsDistanceToPivot`, which requires `IsUnit`, holds for the doubles only approximately.
- `GetFirstNodeByName` is modelled as a lookup in a map keyed by name.
  Slicer allows several nodes with one name and returns the first of them. That case is not modelled.
- The modified event that `SetAndObserveTransformToParent` raises is not modelled.
  Neither are observers, the observer registration (line 145), or world transforms along the parent chain.
  These are framework callback wiring.
- What happens to the exception a missing node raises, once it leaves the handler, is not modelled.
  The model reports it as `Aborted` with the scene unchanged.
- The `print` at line 228, the unused `angles` at line 217 and the log message at lines 211-213 produce no state.
- Widget and GUI setup (lines 41-103) is not modelled. It is user interface.
- `loadTransforms` and `loadModels` (lines 115-199) are not modelled. They are file I/O and get-or-create scene wiring.
- `run()` is not modelled. It only returns `True`.
- The test class (lines 250-273) asserts nothing.
- Metrics, trajectory fitting, branch-cut state and session control are not modelled.
  None of them appear in this source file.
