# Face detection GUI: the annotation and session logic, in Dafny

This project models the deterministic core of `AdvancedFaceDetectionApp`, a
webcam face-detection GUI built on OpenCV and Tkinter. Everything the
program draws on a frame is computed from the boxes its Haar-cascade
detectors return. The model keeps that computation and replaces every
OpenCV drawing call with the primitive it would draw: a Gaussian blur, a
rectangle, a circle or a text. Those primitives are listed in drawing order.
The modules:

- `Format` renders numbers the way the program does. It covers `str(n)`,
  the `:03d` counter of snapshot file names and `", ".join`. A decimal
  parser serves as their inverse.
- `Features` covers the six feature toggles (`features_enabled`) and the
  single-key update. It also builds the `Features:` summary line, which
  lists enabled keys in the dictionary's order.
- `Geometry` holds points, boxes, colours, primitives and the palettes. It
  computes the seven synthetic landmarks, the three emotion-zone bands and
  the eye-centre dot.
- `Pipeline` specifies one frame's annotation stream. Blur comes first,
  only when enabled and at least one face exists. Then, for each face in
  detector order, come its box and "Face i+1" label, eyes, smiles,
  landmarks and emotion zones. Each stage is drawn only if its toggle is on.
- `Stats` covers the rolling detection history (at most 50 samples) and the
  four overlay lines. Each line is drawn twice: a white stroke, then a
  black fill.
- `Snapshot` covers the snapshot file name and what a snapshot request
  produces.
- `App` holds the class `FaceDetectionApp`. Its fields are the ones the
  program updates in place: the active flag, the capture, the toggles, the
  face count, the history and the snapshot counter. Its methods are the
  program's callbacks and drawing loops. Each loop is proved equal to the
  `Pipeline`, `Geometry` or `Stats` function that specifies it.

Detector outputs are inputs to the model, as `Detection(face, eyes,
smiles)` values. So are the camera's "is opened" answer, the current
instant, the formatted scale value and the function that renders an
instant as the overlay's time text.

## Model

| member | source | states |
|---|---|---|
| `Format.DecimalRoundTrip` | facedetection.py:323 | reading back the decimal text of any count gives the count |
| `Format.DecimalInjective` | facedetection.py:263 | two different numbers never render to the same text, so face labels are distinct |
| `Format.DecimalLength` | facedetection.py:364 | the decimal text of n has at most k digits exactly when n < 10^k |
| `Format.Format3RoundTrip` | facedetection.py:364 | the `:03d` text is all digits, reads back as the counter, is never narrower than 3, and is exactly 3 wide iff the counter is below 1000 |
| `Format.Format3Injective` | facedetection.py:364 | two different counters give different padded texts |
| `Format.FirstCounters` | facedetection.py:364 | counters 0, 1 and 2 render as 000, 001 and 002; 1000 renders as 1000 |
| `Features.FeatureOrderIsRanked` | facedetection.py:20-27 | the key order holds each of the six features once, at the position of its rank |
| `Features.Toggles.With` | facedetection.py:155-156 | setting one key gives it the new value and leaves every other key unchanged |
| `Features.SummaryListsEnabledInOrder` | facedetection.py:326 | a key is listed in the summary iff it is enabled, and listed keys keep the dictionary's order (each appears once) |
| `Features.NameInjective` | facedetection.py:20-27 | different keys have different names |
| `Features.SummaryNamesDistinct` | facedetection.py:326 | the summary lists one name per enabled key, each key enabled, and no name twice |
| `Features.DefaultSummary` | facedetection.py:20-27 | with the start-up toggles the summary is "Features: faces, eyes, smiles" |
| `Features.EmptySummary` | facedetection.py:326 | with every toggle off the summary is "Features: " with nothing after it |
| `Geometry.FaceColorCycles` | facedetection.py:258 | a face colour is a palette entry, the colour of face i+5 is that of face i, and face 5 reuses entry 0 |
| `Geometry.LandmarksInsideFace` | facedetection.py:182-202 | exactly seven filled radius-5 discs in landmark colour 0; for a box of non-negative size every centre is inside the box, rows go down the face and each row runs left to right |
| `Geometry.LandmarksExample` | facedetection.py:187-202 | the 90x90 box at the origin gives the seven points (45,15), (30,30), (60,30), (45,45), (30,60), (60,60), (45,75) |
| `Geometry.ZonesUpToAt` | facedetection.py:210-215 | after n bands, band i's rectangle is element 2i and its label is element 2i+1 |
| `Geometry.EmotionZonesTile` | facedetection.py:204-213 | six primitives; band i spans y + i(h//3) to y + (i+1)(h//3) across the full width; the bands are contiguous from the top; for h >= 0 the last ends within the box, leaving exactly h mod 3 rows uncovered |
| `Geometry.EmotionZoneLabels` | facedetection.py:206-215 | band i is labelled "Zone i+1" at (x+5, band top + 20) in its rectangle's colour; the colours are the first three of the four-entry list |
| `Geometry.EmotionZonesExample` | facedetection.py:209-213 | a face 100 rows tall gets bands 0-33, 33-66 and 66-99 |
| `Geometry.EyeDotInsideEye` | facedetection.py:276 | for an eye of non-negative size the dot lies inside the eye's rectangle, at most one pixel left of and above the true centre |
| `Pipeline.BlurRegions` | facedetection.py:217-224 | one blur per face |
| `Pipeline.BlurRegionsAt` | facedetection.py:217-224 | blur k covers face k's box with kernel 99 and sigma 30 |
| `Pipeline.FacePrimitiveCount` | facedetection.py:257-291 | a face draws 2 for its box, 2 per eye, 1 per smile, 7 landmarks and 6 zone primitives, each only when enabled |
| `Pipeline.LandmarksCount` | facedetection.py:190-202 | the landmark stage draws seven primitives |
| `Pipeline.EmotionZonesCount` | facedetection.py:210-215 | the emotion stage draws six primitives |
| `Pipeline.NoBlurInFace` | facedetection.py:257-291 | nothing in a face's stages is a blur |
| `Pipeline.FacesDrawnMembers` | facedetection.py:257 | every primitive of the face loop belongs to the stages of a face index below the face count |
| `Pipeline.BlurComesFirst` | facedetection.py:253-291 | the frame opens with one blur per face in detector order iff blur is on and a face exists; a primitive is a blur iff it is among those |
| `Pipeline.FacesDrawnStep` | facedetection.py:257-291 | one more turn of the face loop appends the next face's stages |
| `Pipeline.FacesDrawnPrefix` | facedetection.py:257 | the loop over the first i faces draws a prefix of the loop over all faces |
| `Pipeline.FaceFollowsEarlierFaces` | facedetection.py:257-291 | face i's stages come right after those of faces 0..i-1 |
| `Pipeline.FaceSliceAt` | facedetection.py:253-291 | face i's stages are one contiguous slice of the frame, after the blurs and the earlier faces' stages |
| `Pipeline.FaceOpensWithBox` | facedetection.py:261-264 | with the faces toggle on, a face's stages begin with its rectangle and label |
| `Pipeline.FaceStagesAt` | facedetection.py:257-264 | with the faces toggle on, face i's slice begins with its thickness-3 rectangle in palette colour i mod 5, then "Face i+1" at (x, y-10) |
| `Pipeline.FaceLabelDrawnIff` | facedetection.py:261-264 | a "Face k" label is in the frame iff the faces toggle is on and 1 <= k <= face count |
| `Pipeline.FaceLabelDrawn` | facedetection.py:261-264 | with the faces toggle on, every face number up to the count is drawn as a label |
| `Pipeline.FaceLabelOnlyForFaces` | facedetection.py:261-264 | a "Face k" label appears only with the faces toggle on and k numbering a detected face |
| `Pipeline.FaceTextIsLabel` | facedetection.py:261-291 | the only text in a face's stages starting with 'F' is that face's own label |
| `Pipeline.NoTextInEyes` | facedetection.py:273-276 | the eye stage draws no text |
| `Pipeline.NoTextInSmiles` | facedetection.py:281-283 | the smile stage draws no text |
| `Pipeline.ZoneTextsStartWithZ` | facedetection.py:214-215 | every zone label starts with 'Z' |
| `Pipeline.FaceRegionUsesFirstColours` | facedetection.py:271-283 | everything drawn on a face region uses eye colour 0 (eyes on) or smile colour 0 (smiles on) |
| `Pipeline.FaceRegionColoursOfFace` | facedetection.py:271-283 | the same property for the stages of one face |
| `Pipeline.EyeColours` | facedetection.py:273-276 | every eye mark is a rectangle or dot in eye colour 0 |
| `Pipeline.SmileColours` | facedetection.py:281-283 | every smile mark is a rectangle in smile colour 0 |
| `Pipeline.ZonesOnWholeFrame` | facedetection.py:210-215 | zone rectangles are drawn on the whole frame, not on a face region |
| `Pipeline.FaceStagesInOrder` | facedetection.py:257-291 | within a face the stages are ordered faces, eyes, smiles, landmarks, emotion, and each primitive belongs to a stage whose toggle is on |
| `Pipeline.FiveStages` | facedetection.py:257-291 | five one-stage blocks, in rank order and each empty unless its toggle is on, form a stream ordered by stage |
| `Pipeline.EyeStage` | facedetection.py:271-276 | the eye stage draws only eye-stage primitives |
| `Pipeline.SmileStage` | facedetection.py:279-283 | the smile stage draws only smile-stage primitives |
| `Pipeline.ZoneStage` | facedetection.py:290-291 | the emotion stage draws only emotion-stage primitives |
| `Stats.RollingAppendSpec` | facedetection.py:314-319 | the new sample is last; a history of at most 50 stays within 50; a full one loses exactly its oldest entry; a shorter one keeps every entry and grows by one |
| `Stats.HistoryIsLatestWindow` | facedetection.py:314-319 | after any number of frames the history is exactly the latest min(n, 50) samples, oldest first |
| `Stats.StatsLines` | facedetection.py:322-327 | the overlay has four lines |
| `Stats.OverlayStep` | facedetection.py:329-333 | one more line appends its white stroke, then its black fill |
| `Stats.OverlayLayout` | facedetection.py:329-333 | element k of the overlay draws line k/2 at y = 30 + 25(k/2): the stroke when k is even, the fill when k is odd |
| `Stats.OverlayRows` | facedetection.py:322-333 | eight texts at x = 10 on baselines 30, 30, 55, 55, 80, 80, 105, 105, alternately white and black; the face count first and the feature summary last |
| `Snapshot.SnapshotFilenameInjective` | facedetection.py:363-364 | two saves with stamps of equal width share a file name only if they share stamp and counter |
| `Snapshot.FirstSnapshotNames` | facedetection.py:364 | counters 0, 1, 2 give names ending in _000.jpg, _001.jpg, _002.jpg |
| `App.FaceDetectionApp.constructor` | facedetection.py:18-30 | inactive, no capture, start-up toggles, zero faces, empty history, counter 0 |
| `App.FaceDetectionApp.ToggleFeature` | facedetection.py:155-156 | the key takes the checkbox value and no other key changes |
| `App.FaceDetectionApp.StartDetection` | facedetection.py:164-165 | detection becomes active |
| `App.FaceDetectionApp.StopDetection` | facedetection.py:173-174 | detection becomes inactive |
| `App.FaceDetectionApp.ToggleDetection` | facedetection.py:158-162 | the active flag flips |
| `App.FaceDetectionApp.OpenCamera` | facedetection.py:227-231 | a capture now exists; an opened camera leaves the flag as it was, and one that could not be opened yields the "Could not access webcam" error and stops detection |
| `App.FaceDetectionApp.ApplyFaceBlur` | facedetection.py:217-224 | the blur loop draws exactly BlurRegions |
| `App.FaceDetectionApp.DrawEmotionZones` | facedetection.py:204-215 | the zone loop draws exactly the emotion-zone primitives |
| `App.FaceDetectionApp.AnnotateFaces` | facedetection.py:253-291 | blur, then the face loop, draws exactly the frame's specified stream |
| `App.FaceDetectionApp.AnnotateFace` | facedetection.py:257-291 | one face-loop turn draws exactly that face's stages |
| `App.FaceDetectionApp.DrawEyes` | facedetection.py:271-276 | the eye loop draws exactly the eye marks |
| `App.FaceDetectionApp.DrawSmiles` | facedetection.py:279-283 | the smile loop draws exactly the smile marks |
| `App.FaceDetectionApp.AddStatisticsOverlay` | facedetection.py:312-333 | the history becomes the rolling append of (now, count) and stays within 50; the four lines are drawn, their time text rendered from the same instant as the recorded sample |
| `App.FaceDetectionApp.DrawOverlayLines` | facedetection.py:329-333 | the overlay loop draws exactly OverlayPrimitives |
| `App.FaceDetectionApp.ProcessFrame` | facedetection.py:250-294 | one loop iteration sets the face count, updates the history, and draws the annotations followed by the overlay |
| `App.FaceDetectionApp.TakeSnapshot` | facedetection.py:353-366 | with no frame and no active capture it only warns and the counter is unchanged; otherwise it saves under the current counter, shows the banner, and adds exactly 1 |
| `App.ThreeSnapshots` | facedetection.py:364-366 | three saves from counter 0 use 000, 001 and 002 and leave the counter at 3 |

## Left out

- Tkinter widgets, layout, button text, the status bar and the
  `update_gui_stats` box text (facedetection.py:43-153, 338-351) are user
  interface.
- The cascade detectors (facedetection.py:243-248, 272, 280) are foreign
  code. The boxes they return are the model's `Detection` inputs.
- The pixel effects of blur, rectangle, circle, putText, flip and cvtColor
  are foreign image operations. Only each call's arguments and order are
  modelled.
- Camera, display and file I/O is not modelled: `VideoCapture.read`,
  `imshow`, `waitKey`, `imwrite` and `os.makedirs`. That leaves out the
  capture `while` loop, the end-of-stream `break` and the `q`/`s` key
  handling (facedetection.py:233-310). One iteration after detection is
  `ProcessFrame`.
- The background detection thread and the unsynchronised flag it reads
  (facedetection.py:170-171, 233) are concurrency, which is not modelled.
- The slider's floating-point scale factor and its `:.2f` text are an input
  string, and so is the `%Y%m%d_%H%M%S` snapshot stamp. `datetime.now()`
  is an input instant; its `%H:%M:%S` rendering is a caller-supplied
  function of that instant.
- The detectors return numpy int32 boxes; the model computes with unbounded
  integers and does not model overflow.
- App.FaceDetectionApp.TakeSnapshot: the camera read without a given frame
  (facedetection.py:355-358) is taken to succeed. If the read fails, `None`
  reaches `imwrite`, and what happens then depends on foreign code.
- App.FaceDetectionApp.StartDetection: sets the flag only; starting the
  thread and updating the button and status text are not modelled.
- App.FaceDetectionApp.StopDetection: sets the flag only; releasing the
  camera and closing windows are I/O.
