/** The application object: the state the GUI callbacks and the detection
    loop update in place, and the drawing loops of one frame, each proved
    against the specification functions of Pipeline, Geometry and Stats. */
module App {
  import opened Format
  import opened Features
  import opened Geometry
  import opened Pipeline
  import opened Stats
  import opened Snapshot

  /** What opening the camera gives: the capture loop may start, or the
      error dialog is shown with its message. */
  datatype CameraOutcome = Opened | Failed(message: string)

  const CameraError := "Could not access webcam"

  class FaceDetectionApp {
    /** Whether the detection loop should keep running. */
    var detectionActive: bool
    /** Whether a camera handle has been created (self.cap is not None). */
    var hasCapture: bool
    var features: Toggles
    /** Number of faces in the most recent frame. */
    var faceCount: nat
    var detectionHistory: seq<Sample>
    var snapshotCount: nat

    ghost predicate Valid()
      reads this`detectionHistory
    {
      |detectionHistory| <= MaxHistory
    }

    constructor ()
      ensures Valid()
      ensures !detectionActive && !hasCapture && features == DefaultToggles
      ensures faceCount == 0 && detectionHistory == [] && snapshotCount == 0
    {
      detectionActive := false;
      hasCapture := false;
      features := DefaultToggles;
      faceCount := 0;
      detectionHistory := [];
      snapshotCount := 0;
    }

    /** A feature checkbox was clicked: its key takes the checkbox's value
        and no other key changes. */
    method ToggleFeature(f: Feature, checked: bool)
      modifies this`features
      ensures features == old(features).With(f, checked)
      ensures features.Get(f) == checked
      ensures forall g :: g != f ==> features.Get(g) == old(features).Get(g)
    {
      features := features.With(f, checked);
    }

    method StartDetection()
      modifies this`detectionActive
      ensures detectionActive
    {
      detectionActive := true;
    }

    method StopDetection()
      modifies this`detectionActive
      ensures !detectionActive
    {
      detectionActive := false;
    }

    /** The start/stop button: start when idle, stop when running. */
    method ToggleDetection()
      modifies this`detectionActive
      ensures detectionActive == !old(detectionActive)
    {
      if !detectionActive {
        StartDetection();
      } else {
        StopDetection();
      }
    }

    /** The opening of run_detection: a camera handle now exists; when the
        camera could not be opened, the error dialog is shown, detection is
        stopped and the loop does not run. */
    method OpenCamera(isOpened: bool) returns (outcome: CameraOutcome)
      modifies this`hasCapture, this`detectionActive
      ensures hasCapture
      ensures isOpened ==> outcome == Opened && detectionActive == old(detectionActive)
      ensures !isOpened ==> outcome == Failed(CameraError) && !detectionActive
    {
      hasCapture := true;
      if !isOpened {
        StopDetection();
        return Failed(CameraError);
      }
      outcome := Opened;
    }

    /** apply_face_blur over every face in detector order. */
    method ApplyFaceBlur(ds: seq<Detection>) returns (prims: seq<Primitive>)
      ensures prims == BlurRegions(ds)
    {
      prims := [];
      for i := 0 to |ds|
        invariant prims == BlurRegions(ds[..i])
      {
        assert ds[..i + 1][..i] == ds[..i];
        prims := prims + [GaussianBlur(ds[i].face, BlurKernel, BlurSigma)];
      }
      assert ds[..|ds|] == ds;
    }

    /** draw_emotion_zones: for each of the three bands its rectangle and
        its label. */
    method DrawEmotionZones(face: Box) returns (prims: seq<Primitive>)
      ensures prims == EmotionZonePrimitives(face)
    {
      var zoneHeight := face.h / 3;
      prims := [];
      for i := 0 to 3
        invariant prims == ZonesUpTo(face, i)
      {
        var zoneY := face.y + i * zoneHeight;
        prims := prims + [Rectangle(WholeFrame, Point(face.x, zoneY), Point(face.x + face.w, zoneY + zoneHeight), ZonePalette[i], 2)];
        prims := prims + [Text("Zone " + DecimalString(i + 1), Point(face.x + 5, zoneY + 20), 5, ZonePalette[i], 1)];
      }
    }

    /** The annotation part of one iteration of run_detection: blur when it
        is enabled and a face exists, then the stages of each face in
        detector order. */
    method AnnotateFaces(ds: seq<Detection>) returns (prims: seq<Primitive>)
      ensures prims == FramePrimitives(features, ds)
    {
      var t := features;
      var blurred := [];
      if t.blur && |ds| > 0 {
        blurred := ApplyFaceBlur(ds);
      }
      prims := blurred;
      for i := 0 to |ds|
        invariant prims == blurred + FacesDrawn(t, ds[..i])
      {
        var drawn := AnnotateFace(ds[i], i);
        FacesDrawnStep(t, ds, i);
        AppendAssoc(blurred, FacesDrawn(t, ds[..i]), drawn);
        prims := prims + drawn;
      }
      assert ds[..|ds|] == ds;
    }

    /** The body of the face loop for face i: its face box and label, eyes,
        smiles, landmarks and emotion zones, each stage gated by its toggle. */
    method AnnotateFace(d: Detection, i: nat) returns (prims: seq<Primitive>)
      ensures prims == FacePrimitives(features, d, i)
    {
      var face := d.face;
      var boxes: seq<Primitive> := [];
      if features.faces {
        var faceColor := FacePalette[i % |FacePalette|];
        boxes := [Rectangle(WholeFrame, Point(face.x, face.y), Point(face.x + face.w, face.y + face.h), faceColor, 3),
                  Text("Face " + DecimalString(i + 1), Point(face.x, face.y - 10), 7, faceColor, 2)];
      }
      var eyes: seq<Primitive> := [];
      if features.eyes {
        eyes := DrawEyes(face, d.eyes);
      }
      var smiles: seq<Primitive> := [];
      if features.smiles {
        smiles := DrawSmiles(face, d.smiles);
      }
      var landmarks: seq<Primitive> := [];
      if features.landmarks {
        landmarks := DrawFacialLandmarks(face);
      }
      var zones: seq<Primitive> := [];
      if features.emotion {
        zones := DrawEmotionZones(face);
      }
      prims := boxes + eyes + smiles + landmarks + zones;
    }

    /** The eye loop of one face: each eye's rectangle and centre dot, drawn
        on the face region in the first eye colour. */
    method DrawEyes(face: Box, eyes: seq<Box>) returns (prims: seq<Primitive>)
      ensures prims == EyeMarks(face, eyes)
    {
      prims := [];
      for j := 0 to |eyes|
        invariant prims == EyeMarks(face, eyes[..j])
      {
        assert eyes[..j + 1][..j] == eyes[..j];
        var eye := eyes[j];
        var eyeColor := EyePalette[0];
        prims := prims + [Rectangle(FaceRegion(face), Point(eye.x, eye.y), Point(eye.x + eye.w, eye.y + eye.h), eyeColor, 2),
                          Circle(FaceRegion(face), Point(eye.x + eye.w / 2, eye.y + eye.h / 2), 2, eyeColor, Filled)];
      }
      assert eyes[..|eyes|] == eyes;
    }

    /** The smile loop of one face: each smile's rectangle, drawn on the
        face region in the first smile colour. */
    method DrawSmiles(face: Box, smiles: seq<Box>) returns (prims: seq<Primitive>)
      ensures prims == SmileMarks(face, smiles)
    {
      prims := [];
      for j := 0 to |smiles|
        invariant prims == SmileMarks(face, smiles[..j])
      {
        assert smiles[..j + 1][..j] == smiles[..j];
        var smile := smiles[j];
        var smileColor := SmilePalette[0];
        prims := prims + [Rectangle(FaceRegion(face), Point(smile.x, smile.y), Point(smile.x + smile.w, smile.y + smile.h), smileColor, 2)];
      }
      assert smiles[..|smiles|] == smiles;
    }

    /** add_statistics_overlay: record (now, faceCount) in the rolling
        history, then draw each of the four lines twice. */
    method AddStatisticsOverlay(count: nat, now: Instant, scaleText: string, clock: Instant -> string)
      returns (prims: seq<Primitive>)
      requires Valid()
      modifies this`detectionHistory
      ensures Valid()
      ensures detectionHistory == RollingAppend(old(detectionHistory), Sample(now, count))
      ensures prims == OverlayPrimitives(StatsLines(count, scaleText, clock(now), features))
    {
      detectionHistory := detectionHistory + [Sample(now, count)];
      if |detectionHistory| > MaxHistory {
        detectionHistory := detectionHistory[1..];
      }
      var lines := StatsLines(count, scaleText, clock(now), features);
      prims := DrawOverlayLines(lines);
    }

    /** The drawing loop of add_statistics_overlay: each line first as a
        white stroke, then as a black fill, 25 pixels below the previous. */
    method DrawOverlayLines(lines: seq<string>) returns (prims: seq<Primitive>)
      ensures prims == OverlayPrimitives(lines)
    {
      prims := [];
      for i := 0 to |lines|
        invariant prims == OverlayPrimitives(lines[..i])
      {
        OverlayStep(lines, i);
        prims := prims + [Text(lines[i], Point(10, 30 + i * 25), 6, White, 2),
                          Text(lines[i], Point(10, 30 + i * 25), 6, Black, 1)];
      }
      assert lines[..|lines|] == lines;
    }

    /** One iteration of the detection loop after the detectors have run:
        record the face count, annotate the frame, add the overlay. */
    method ProcessFrame(ds: seq<Detection>, now: Instant, scaleText: string, clock: Instant -> string)
      returns (prims: seq<Primitive>)
      requires Valid()
      modifies this`faceCount, this`detectionHistory
      ensures Valid()
      ensures faceCount == |ds|
      ensures detectionHistory == RollingAppend(old(detectionHistory), Sample(now, |ds|))
      ensures prims == FramePrimitives(features, ds) + OverlayPrimitives(StatsLines(|ds|, scaleText, clock(now), features))
    {
      faceCount := |ds|;
      var annotations := AnnotateFaces(ds);
      var overlay := AddStatisticsOverlay(|ds|, now, scaleText, clock);
      prims := annotations + overlay;
    }

    /** take_snapshot. Without a frame of its own it reads one from the
        camera when a capture exists and detection is active, and otherwise
        only warns. A save names the file with the current counter and then
        advances the counter by one. */
    method TakeSnapshot(frameGiven: bool, stamp: string) returns (outcome: SnapshotOutcome)
      modifies this`snapshotCount
      ensures !frameGiven && !(hasCapture && detectionActive) ==>
                outcome == Warned(NoFeedWarning) && snapshotCount == old(snapshotCount)
      ensures frameGiven || (hasCapture && detectionActive) ==>
                outcome == Saved(SnapshotFilename(stamp, old(snapshotCount)), SavedBanner) &&
                snapshotCount == old(snapshotCount) + 1
    {
      if !frameGiven && !(hasCapture && detectionActive) {
        return Warned(NoFeedWarning);
      }
      var filename := "snapshots/snapshot_" + stamp + "_" + Format3(snapshotCount) + ".jpg";
      snapshotCount := snapshotCount + 1;
      outcome := Saved(filename, Text("SNAPSHOT SAVED!", Point(50, 50), 10, Color(0, 255, 0), 3));
    }
  }

  /** Three saves in a row from a fresh application use the counters 000,
      001 and 002 in their file names and leave the counter at 3. */
  method ThreeSnapshots(app: FaceDetectionApp, stamp: string)
    returns (a: SnapshotOutcome, b: SnapshotOutcome, c: SnapshotOutcome)
    requires app.snapshotCount == 0
    modifies app`snapshotCount
    ensures a == Saved(SnapshotPrefix + stamp + "_000.jpg", SavedBanner)
    ensures b == Saved(SnapshotPrefix + stamp + "_001.jpg", SavedBanner)
    ensures c == Saved(SnapshotPrefix + stamp + "_002.jpg", SavedBanner)
    ensures app.snapshotCount == 3
  {
    a := app.TakeSnapshot(true, stamp);
    b := app.TakeSnapshot(true, stamp);
    c := app.TakeSnapshot(true, stamp);
    FirstSnapshotNames(stamp);
  }
}
