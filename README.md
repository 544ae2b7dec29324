# Mouthguard try-on: scheduling, gesture and pose core in Dafny

This project models the logic of a browser app that tracks a face in the
camera feed and draws a 3D mouthguard over the wearer's mouth. It covers
four parts of the app:

- **Adaptive detection scheduler and mouth-open classifier**
  (`FaceDetection`, from `FaceDetectionOptimized.jsx`). A time gate decides
  whether a tick runs detection. Each detected face updates an exponential
  moving average of how far the face box moved, and that velocity picks the
  next polling interval (30, 50 or 100 ms). While an overlay model is
  selected, each face also stores the 20-point mouth contour and the open or
  closed flag. The component's refs and state become the fields of the class
  `FaceDetector`. Its methods are proved equal to pure step functions
  (`AdaptiveMotion`, `ApplyFace`, `DetectionStep`), and the lemmas are
  proved about those functions.
- **Two pose mappers** (`OverlayOptimized` and `Overlay`, from
  `MouthOverlayOptimized.jsx` and `MouthOverlay/MouthOverlay.jsx`). Each
  frame callback turns the mouth landmarks and the frame size into a
  visibility flag, a position, a scale and a rotation, and writes them into
  a three.js object (`Scene.Object3D`) field by field. The arithmetic is
  modelled exactly over `real`. `OverlayVariants` compares the two mappers:
  - they use the same visibility rule;
  - they treat a closed mouth differently;
  - each applies the horizontal mirror exactly once.
- **Nearest-to-centre image picker** (`ImagesPanel`, from
  `ModelImagesPanel.jsx`). It covers:
  - the argmin search in the scroll handler;
  - the drag arithmetic;
  - the offset that scrolls an item to the centre.
- **Shared pixel arithmetic** (`Landmarks`). This holds the mouth centre,
  width and height, and the maps between pixels and normalised device
  coordinates, with their inverses.

Notes on how the code behaves:

- Motion is measured between the face boxes' top-left corners
  (`FaceDetectionOptimized.jsx:103-104`).
- When no face is found, the landmarks and gesture flag keep their old
  values. The branch that clears them
  (`FaceDetectionOptimized.jsx:196-200`) sits inside
  `if (detections.length > 0)`, so it can never run. Nothing hides the
  overlay after ticks without a face.
- The original overlay's scale has a floor. The floor wins for every mouth
  up to 10/9 of the frame width. So in practice that overlay's scale is the
  constant 0.001 (`Overlay.MouthScale`).
- The detection loop is driven by a 100 ms `setInterval`. So the 30 and
  50 ms bands never make detection run more often than every 100 ms. The
  model gives the interval only as the gate's threshold.

The calls JavaScript makes into `Math.sqrt`, `Math.tan` and `Math.atan2`
become function-valued parameters (`sqrt`, `tan`, `atan2`). Where a property
needs something of them (`sqrt(0) == 0`, a non-negative root), the lemma
states it as a `requires`. `Math.PI` is the constant `Scene.MathPI`. The
landmark provider (face-api.js) is an input: a sequence of faces, each with
a box and optionally a mouth contour.

Reading `mouth[19].y` from a contour with fewer than 20 points throws a
TypeError in the source. The model keeps that as an explicit outcome:

- In detection, the thrown error ends the loop over faces. The outer
  `catch` swallows it, and the landmarks stay stored.
- In a frame callback, the error stops the callback right after the
  visibility write.

## Model

| member | source | states |
|---|---|---|
| `Landmarks.MouthWidth` | src/components/MouthOverlayOptimized.jsx:62 | mouth width is never negative, and it is zero exactly when the two corners share a column |
| `Landmarks.NdcRoundTrip` | src/components/MouthOverlayOptimized.jsx:48-49 | the pixel-to-device maps for x and y have inverses, in both directions |
| `Landmarks.NdcOfFrame` | src/components/MouthOverlayOptimized.jsx:47-49 | the frame centre maps to device (0, 0), and points inside the frame map into [-1, 1] on each axis |
| `Landmarks.NdcOrder` | src/components/MouthOverlayOptimized.jsx:48-49 | device x keeps the left-to-right order of pixels; device y reverses the top-to-bottom order |
| `Landmarks.NdcMirror` | src/components/MouthOverlay/MouthOverlay.jsx:51-52 | flipping a pixel column about the frame's vertical axis is the same as negating its device x |
| `Scene.OverlayMounted` | src/components/MouthOverlayOptimized.jsx:80-82 | the wrapper mounts the scene iff the landmarks are non-null and non-empty (the same guard is at MouthOverlay.jsx:86-88) |
| `OverlayOptimized.MouthScale` | src/components/MouthOverlayOptimized.jsx:62-66 | the scale has no floor: it is never negative, it is zero exactly for a zero-width mouth, and scale × frame width = 0.015 × mouth width |
| `OverlayOptimized.MouthPose` | src/components/MouthOverlayOptimized.jsx:38-73 | position is (ndcX·planeWidth/2, ndcY·planeHeight/2, 0), and a mouth at the frame centre lands at the origin; scale is (s, 0.8s, 0.6s) with s = `MouthScale`, so s ≥ 0 and zero only for a zero-width mouth; rotation.x = π and rotation.z = −atan2 of the corner-to-corner vector |
| `OverlayOptimized.PositionProjectsToMouthCentre` | src/components/MouthOverlayOptimized.jsx:51-59 | projecting the model's position back through the same view plane gives the mouth centre in pixels |
| `OverlayOptimized.Frame` | src/components/MouthOverlayOptimized.jsx:27-74 | visible iff there are landmarks and the mouth is open; when hidden, the transform is unchanged; a short contour throws after visible := true; rotation.y is never written |
| `OverlayOptimized.UseFrame` | src/components/MouthOverlayOptimized.jsx:27-74 | the field-by-field writes to the object give exactly `Frame` of the old placement |
| `Overlay.MirroredX` | src/components/MouthOverlay/MouthOverlay.jsx:43-52 | the mirrored device x: the centre column maps to 0, column 0 to 1 and column w to −1, and the value equals NdcX of the flipped column |
| `Overlay.RaisedY` | src/components/MouthOverlay/MouthOverlay.jsx:44-53 | normalised y is NdcY + 0.1 (the offset is 1.1 instead of 1), so the frame centre maps to 0.1 |
| `Overlay.MouthScale` | src/components/MouthOverlay/MouthOverlay.jsx:47-61 | scale ≥ 0.001; it equals 0.001 exactly when 9 × mouth width ≤ 10 × frame width; above the floor it is proportional to mouth width |
| `Overlay.MouthPose` | src/components/MouthOverlay/MouthOverlay.jsx:36-69 | position is (1.8·mirroredX, 1.8·raisedY, −0.05); scale is `MouthScale` on all three axes, so at least 0.001 and exactly 0.001 up to 10/9 of the frame width; rotation.x = π and rotation.z = −atan2 of the corner-to-corner vector |
| `Overlay.Frame` | src/components/MouthOverlay/MouthOverlay.jsx:25-70 | with no landmarks, only visible := false; otherwise visible = isMouthOpen, and the pose is written even when the mouth is closed, with rotation (π, 0, −angle); a short contour throws after the visibility write |
| `Overlay.UseFrame` | src/components/MouthOverlay/MouthOverlay.jsx:25-70 | the field-by-field writes to the object give exactly `Frame` of the old placement |
| `OverlayVariants.MirroringAppliedOnce` | src/components/MouthOverlay/MouthOverlay.jsx:50-53 | each variant flips device x exactly once: after the CSS `scaleX(-1)` of the optimised wrapper (MouthOverlayOptimized.jsx:93), and after this variant's sign flip, the device x of the mouth centre equals NdcX of the mirrored column (before each variant's own map to world units) |
| `OverlayVariants.SameVisibility` | src/components/MouthOverlayOptimized.jsx:28-35 | both variants show the model on exactly the same frames (compare MouthOverlay.jsx:26-34) |
| `OverlayVariants.ClosedMouthPolicies` | src/components/MouthOverlay/MouthOverlay.jsx:33-56 | with a closed mouth, the optimised variant only hides the model, while the original one still moves it to the computed position |
| `FaceDetection.FaceDetector.constructor` | src/components/FaceDetectionOptimized.jsx:25-28 | initial state is `InitialDetector`: last detection time 0, interval 50, no previous position, velocity 0, no landmarks, mouth closed, count 0 |
| `FaceDetection.InitialValid` | src/components/FaceDetectionOptimized.jsx:25-28 | the initial state satisfies the scheduler invariant |
| `FaceDetection.Smooth` | src/components/FaceDetectionOptimized.jsx:107-108 | the new velocity lies between the old velocity and the new sample; a zero sample scales the velocity by 0.7 |
| `FaceDetection.IntervalFor` | src/components/FaceDetectionOptimized.jsx:110-117 | 30 iff v > 10; 50 iff 5 < v ≤ 10; 100 iff v ≤ 5 |
| `FaceDetection.IntervalAntitone` | src/components/FaceDetectionOptimized.jsx:110-117 | a faster face never gets a longer interval |
| `FaceDetection.SquaredDistance` | src/components/FaceDetectionOptimized.jsx:103-105 | the squared corner displacement is never negative, and it is zero for an unmoved corner |
| `FaceDetection.ResizeIsNotMotion` | src/components/FaceDetectionOptimized.jsx:103-105 | a box that only changes size has zero displacement, because motion is measured between top-left corners |
| `FaceDetection.AdaptiveMotion` | src/components/FaceDetectionOptimized.jsx:96-120 | the stored position is always the given box; the first call leaves velocity and interval unchanged; later calls set velocity to 0.7v + 0.3·distance and the interval to its band in {30, 50, 100} |
| `FaceDetection.FastMoveScenario` | src/components/FaceDetectionOptimized.jsx:103-117 | a corner moving from (100,100) to (150,140), with a resting history, gives the 30 ms interval |
| `FaceDetection.StillnessDecays` | src/components/FaceDetectionOptimized.jsx:108 | with zero displacement, v_n · (7 + 3n) ≤ 7 · v_0, and v_n stays ≥ 0 |
| `FaceDetection.StillnessReachesSlowest` | src/components/FaceDetectionOptimized.jsx:108-117 | a face that stays put reaches the 100 ms interval within any n ≥ 1 updates with 15n ≥ 7·v_0 |
| `FaceDetection.MouthIsOpen` | src/components/FaceDetectionOptimized.jsx:182-188 | open iff the inner lip centres are at least 10 px apart vertically, in either order |
| `FaceDetection.ClassifierBoundary` | src/components/FaceDetectionOptimized.jsx:185-188 | a gap of exactly 10 px counts as open; a smaller gap counts as closed |
| `FaceDetection.ClassifierScenarios` | src/components/FaceDetectionOptimized.jsx:183-188 | lips 10 px apart read as open; lips 4 px apart read as closed |
| `FaceDetection.ApplyFace` | src/components/FaceDetectionOptimized.jsx:172-194 | each face updates the motion; with no model selected, it clears the landmarks and the flag; with a full contour, it stores the contour and classifies it; with no contour or an empty one, the gesture is untouched; it throws exactly for a contour of 1 to 19 points, and then the contour is stored and the flag keeps its old value |
| `FaceDetection.ApplyFacesPreserves` | src/components/FaceDetectionOptimized.jsx:172-194 | handling the faces, up to the first one that throws, keeps velocity ≥ 0 and the interval in {30, 50, 100} |
| `FaceDetection.DetectionStepValid` | src/components/FaceDetectionOptimized.jsx:134-201 | every tick keeps the scheduler invariant |
| `FaceDetection.SkippedTickChangesNothing` | src/components/FaceDetectionOptimized.jsx:134-141 | a video without a size, or a closed time gate, leaves all state unchanged |
| `FaceDetection.OpenGateStampsTime` | src/components/FaceDetectionOptimized.jsx:138-157 | an open gate sets the last detection time to now whether or not a face is found; the count goes up only when a face is found |
| `FaceDetection.StampedFacesKeepClock` | src/components/FaceDetectionOptimized.jsx:172-194 | the loop over faces never changes the detection time or the count |
| `FaceDetection.NoFaceKeepsState` | src/components/FaceDetectionOptimized.jsx:156-201 | a tick with no face changes nothing but the time stamp: motion, landmarks and gesture stay as they were |
| `FaceDetection.NoModelClearsGesture` | src/components/FaceDetectionOptimized.jsx:190-193 | with no model selected, after a non-empty set of faces the landmarks are null, the mouth is closed, and the stored position is the last face's box |
| `FaceDetection.FaceDetector.Tick` | src/components/FaceDetectionOptimized.jsx:138-142 | returns whether now − last ≥ interval; if so it sets last := now; otherwise it changes nothing |
| `FaceDetection.FaceDetector.CalculateAdaptiveInterval` | src/components/FaceDetectionOptimized.jsx:96-120 | updating the refs in place gives exactly `AdaptiveMotion` of the old motion |
| `FaceDetection.FaceDetector.OnDetection` | src/components/FaceDetectionOptimized.jsx:172-194 | the new state and the completion flag are exactly `ApplyFace` of the old state |
| `FaceDetection.FaceDetector.DetectFace` | src/components/FaceDetectionOptimized.jsx:123-205 | the whole tick (size check, gate, count, loop over faces that stops at a throw) gives exactly `DetectionStep` |
| `ImagesPanel.Distance` | src/components/ModelImagesPanel/ModelImagesPanel.jsx:39-40 | an item's distance to the slider centre is ≥ 0, and it is zero iff the item's centre is at the slider centre |
| `ImagesPanel.ClosestIndex` | src/components/ModelImagesPanel/ModelImagesPanel.jsx:33-46 | gives 0 when every entry is null; otherwise gives a non-null entry whose distance is ≤ that of every non-null entry and < that of every earlier non-null entry (the first minimum wins) |
| `ImagesPanel.ClosestIsUnique` | src/components/ModelImagesPanel/ModelImagesPanel.jsx:41-44 | the contract of `ClosestIndex` determines its result |
| `ImagesPanel.CenteringOffset` | src/components/ModelImagesPanel/ModelImagesPanel.jsx:21-23 | after scrolling to the offset, the slider's centre is the item's centre |
| `ImagesPanel.CenteredItemIsClosest` | src/components/ModelImagesPanel/ModelImagesPanel.jsx:56-66 | after centring a mounted item, the scroll handler picks that item, unless an earlier item has the same centre |
| `ImagesPanel.DragScrollTop` | src/components/ModelImagesPanel/ModelImagesPanel.jsx:78-79 | during a drag, scrollTop + pointer y stays equal to its value at drag start; zero movement restores the starting scroll |
| `ImagesPanel.Panel.constructor` | src/components/ModelImagesPanel/ModelImagesPanel.jsx:5-10 | initial state: selected index 0, not dragging, both drag refs 0 |
| `ImagesPanel.Panel.HandleScroll` | src/components/ModelImagesPanel/ModelImagesPanel.jsx:27-54 | afterwards the selected index is the closest item to the slider centre; a selection is reported only when the index changed; nothing else changes |
| `ImagesPanel.Panel.ScrollToItem` | src/components/ModelImagesPanel/ModelImagesPanel.jsx:56-67 | a mounted item scrolls to its centring offset; an unmounted or missing index leaves the scroll unchanged |
| `ImagesPanel.Panel.TouchStart` | src/components/ModelImagesPanel/ModelImagesPanel.jsx:70-73 | records the touch y and the current scroll as the drag start |
| `ImagesPanel.Panel.TouchMove` | src/components/ModelImagesPanel/ModelImagesPanel.jsx:75-80 | scrollTop becomes the drag position, with no dragging check |
| `ImagesPanel.Panel.MouseDown` | src/components/ModelImagesPanel/ModelImagesPanel.jsx:87-93 | starts a mouse drag and records its start |
| `ImagesPanel.Panel.MouseMove` | src/components/ModelImagesPanel/ModelImagesPanel.jsx:95-101 | scrolls to the drag position only while dragging; otherwise it is ignored |
| `ImagesPanel.Panel.EndDrag` | src/components/ModelImagesPanel/ModelImagesPanel.jsx:103-115 | mouse up and mouse leave both end the drag |

## Left out

- Model loading, camera access, video readiness polling and the canvas
  sizing in `handleVideoPlay`. These are asynchronous browser I/O.
- The face-api.js detection and `resizeResults`. The detected faces are an
  input, already in display coordinates.
- Canvas clearing and drawing, and the other detection components
  (`FaceDetection.jsx`, `FaceDetectionSimple.jsx`). They are rendering only.
- The `setInterval` / `requestAnimationFrame` drivers and their cleanup.
  Each tick is one explicit call with its timestamp, and the timestamp is
  an input.
- The `await` between the gate (`FaceDetectionOptimized.jsx:142`) and the
  detection result (:146). The model runs each tick as one atomic step.
  `setInterval(async …, 100)` at :253-255 does not wait for the previous
  `detectFace`, so detections can overlap and their faces are applied in
  completion order. Neither is modelled.
- `preloadModelImage`. It is an image cache around asynchronous loading.
- The guard for missing video, canvas or model elements (`!video || ...`,
  `!modelRef.current`, `!sliderRef.current`). These are React mount
  plumbing, and the model assumes the elements are mounted.
- GLTF loading and cloning, material tweaks, lights and the `<Canvas>`
  markup. These are library scene-graph calls.
- IEEE-754 rounding, NaN and Infinity. Numbers are exact reals.
- `OverlayOptimized.UseFrame`: requires a positive frame width and height.
  A zero size (division giving Infinity or NaN) is not modelled.
- `Overlay.UseFrame`: requires a positive frame width and height, for the
  same reason.
- `FaceDetection.StillnessReachesSlowest`: needs `sqrt(0) == 0` from the
  square-root parameter.
- `FaceDetection.DetectionStepValid`: needs the square-root parameter
  never to return a negative number for a non-negative argument.
- `FaceDetection.FastMoveScenario`: needs the square-root parameter to be
  a true root at 4100.
- Errors thrown by the detector itself. They are caught and change no
  state beyond the time stamp, which is already written, so they behave
  like a detection with no face.
- React's state batching and stale closures (`selectedModel`,
  `isDragging`, `selectedIndex`). The model reads the latest values.
- `onImageSelect`. It is assumed to be provided, since the parent always
  passes one. The image it receives is recorded by its index.
- The browser's clamping of `scrollTop`, the smooth-scroll animation (only
  its end point is modelled), and the scroll events that a programmatic
  scroll fires.
- The early `return null` when no model is selected, and the no-op touch-end
  handler.
- `ThreeJsBackground.jsx`, `useWebGLFilter.js` and the UI-only components.
  They are decorative animation, WebGL calls and markup.
