/** The per-frame annotation stream of run_detection as a specification:
    given the toggles and what the detectors returned, the exact sequence of
    primitives drawn on the frame, in drawing order. The detectors
    themselves are not modelled; their boxes are inputs. */
module Pipeline {
  import opened Format
  import opened Features
  import opened Geometry

  /** One face box as the face detector returned it, with the eye and smile
      boxes the eye and smile detectors return for its region (relative to
      the face's top-left corner). */
  datatype Detection = Detection(face: Box, eyes: seq<Box>, smiles: seq<Box>)

  /** Kernel size and sigma of the face blur. */
  const BlurKernel: nat := 99
  const BlurSigma: nat := 30

  /** apply_face_blur: one Gaussian blur per face region, in detector order. */
  function BlurRegions(ds: seq<Detection>): (ps: seq<Primitive>)
    ensures |ps| == |ds|
    decreases |ds|
  {
    if ds == [] then []
    else BlurRegions(ds[..|ds| - 1]) + [GaussianBlur(ds[|ds| - 1].face, BlurKernel, BlurSigma)]
  }

  /** "Face i+1", the label of the face at index i. */
  function FaceLabel(i: nat): string {
    "Face " + DecimalString(i + 1)
  }

  /** The face stage for face i: its rectangle (thickness 3), then its label
      10 pixels above the top-left corner (scale 0.7, thickness 2), both in
      the face's palette colour. */
  function FaceBoxPrimitives(face: Box, i: nat): seq<Primitive> {
    [ Rectangle(WholeFrame, Point(face.x, face.y), Point(face.x + face.w, face.y + face.h), FaceColor(i), 3),
      Text(FaceLabel(i), Point(face.x, face.y - 10), 7, FaceColor(i), 2) ]
  }

  /** One eye: its rectangle and a radius-2 filled dot at its centre, on the
      face region, in the first eye colour. */
  function EyeMark(face: Box, eye: Box): seq<Primitive> {
    [ Rectangle(FaceRegion(face), Point(eye.x, eye.y), Point(eye.x + eye.w, eye.y + eye.h), EyePalette[0], 2),
      Circle(FaceRegion(face), EyeCentre(eye), 2, EyePalette[0], Filled) ]
  }

  function EyeMarks(face: Box, eyes: seq<Box>): (ps: seq<Primitive>)
    ensures |ps| == 2 * |eyes|
    decreases |eyes|
  {
    if eyes == [] then [] else EyeMarks(face, eyes[..|eyes| - 1]) + EyeMark(face, eyes[|eyes| - 1])
  }

  /** One smile: its rectangle on the face region, in the first smile colour. */
  function SmileMark(face: Box, smile: Box): Primitive {
    Rectangle(FaceRegion(face), Point(smile.x, smile.y), Point(smile.x + smile.w, smile.y + smile.h), SmilePalette[0], 2)
  }

  function SmileMarks(face: Box, smiles: seq<Box>): (ps: seq<Primitive>)
    ensures |ps| == |smiles|
    decreases |smiles|
  {
    if smiles == [] then [] else SmileMarks(face, smiles[..|smiles| - 1]) + [SmileMark(face, smiles[|smiles| - 1])]
  }

  /** Everything drawn for the face at index i, stage by stage: faces, eyes,
      smiles, landmarks, emotion zones, each only when its toggle is on. */
  function FacePrimitives(t: Toggles, d: Detection, i: nat): seq<Primitive> {
    (if t.faces then FaceBoxPrimitives(d.face, i) else []) +
    (if t.eyes then EyeMarks(d.face, d.eyes) else []) +
    (if t.smiles then SmileMarks(d.face, d.smiles) else []) +
    (if t.landmarks then DrawFacialLandmarks(d.face) else []) +
    (if t.emotion then EmotionZonePrimitives(d.face) else [])
  }

  /** The body of the face loop run over every face, in detector order. */
  function FacesDrawn(t: Toggles, ds: seq<Detection>): seq<Primitive>
    decreases |ds|
  {
    if ds == [] then []
    else FacesDrawn(t, ds[..|ds| - 1]) + FacePrimitives(t, ds[|ds| - 1], |ds| - 1)
  }

  lemma AppendAssoc<T>(a: seq<T>, b: seq<T>, c: seq<T>)
    ensures (a + b) + c == a + (b + c)
  {
  }

  /** One more turn of the face loop appends the stages of the next face. */
  lemma FacesDrawnStep(t: Toggles, ds: seq<Detection>, i: nat)
    requires i < |ds|
    ensures FacesDrawn(t, ds[..i + 1]) == FacesDrawn(t, ds[..i]) + FacePrimitives(t, ds[i], i)
  {
    assert ds[..i + 1][..i] == ds[..i];
  }

  /** Blur, only when it is enabled and there is a face, then the face loop. */
  function FramePrimitives(t: Toggles, ds: seq<Detection>): seq<Primitive> {
    (if t.blur && |ds| > 0 then BlurRegions(ds) else []) + FacesDrawn(t, ds)
  }

  /** Number of blur primitives at the head of the frame's stream. */
  function BlurCount(t: Toggles, ds: seq<Detection>): nat {
    if t.blur && |ds| > 0 then |ds| else 0
  }

  lemma {:induction false} BlurRegionsAt(ds: seq<Detection>)
    ensures |BlurRegions(ds)| == |ds|
    ensures forall k :: 0 <= k < |ds| ==> BlurRegions(ds)[k] == GaussianBlur(ds[k].face, BlurKernel, BlurSigma)
    decreases |ds|
  {
    if ds != [] {
      BlurRegionsAt(ds[..|ds| - 1]);
    }
  }

  /** Primitive count of one face: 2 for the face box, 2 per eye, 1 per
      smile, 7 landmarks and 6 for the emotion zones, each when enabled. */
  lemma FacePrimitiveCount(t: Toggles, d: Detection, i: nat)
    ensures |FacePrimitives(t, d, i)| ==
      (if t.faces then 2 else 0) + (if t.eyes then 2 * |d.eyes| else 0) +
      (if t.smiles then |d.smiles| else 0) + (if t.landmarks then 7 else 0) +
      (if t.emotion then 6 else 0)
  {
    LandmarksCount(d.face);
    EmotionZonesCount(d.face);
  }

  lemma LandmarksCount(face: Box)
    ensures |DrawFacialLandmarks(face)| == 7
  {
  }

  lemma EmotionZonesCount(face: Box)
    ensures |EmotionZonePrimitives(face)| == 6
  {
    assert |ZonesUpTo(face, 1)| == 2;
    assert |ZonesUpTo(face, 2)| == 4;
  }

  /** Whatever a face's stages draw is a rectangle, circle or text: none of
      them blurs. */
  lemma NoBlurInFace(t: Toggles, d: Detection, i: nat)
    ensures forall p <- FacePrimitives(t, d, i) :: !p.GaussianBlur?
  {
    NoBlurInEyes(d.face, d.eyes);
    NoBlurInSmiles(d.face, d.smiles);
    NoBlurInZones(d.face, 3);
  }

  lemma {:induction false} NoBlurInEyes(face: Box, eyes: seq<Box>)
    ensures forall p <- EyeMarks(face, eyes) :: !p.GaussianBlur?
    decreases |eyes|
  {
    if eyes != [] {
      NoBlurInEyes(face, eyes[..|eyes| - 1]);
    }
  }

  lemma {:induction false} NoBlurInSmiles(face: Box, smiles: seq<Box>)
    ensures forall p <- SmileMarks(face, smiles) :: !p.GaussianBlur?
    decreases |smiles|
  {
    if smiles != [] {
      NoBlurInSmiles(face, smiles[..|smiles| - 1]);
    }
  }

  lemma {:induction false} NoBlurInZones(face: Box, n: nat)
    requires n <= 3
    ensures forall p <- ZonesUpTo(face, n) :: !p.GaussianBlur?
  {
    if n > 0 {
      NoBlurInZones(face, n - 1);
    }
  }

  /** Every primitive of the face loop belongs to the stages of one face
      index below the face count. */
  lemma {:induction false} FacesDrawnMembers(t: Toggles, ds: seq<Detection>, p: Primitive)
    requires p in FacesDrawn(t, ds)
    ensures exists i :: 0 <= i < |ds| && p in FacePrimitives(t, ds[i], i)
    decreases |ds|
  {
    var n := |ds| - 1;
    if p in FacesDrawn(t, ds[..n]) {
      FacesDrawnMembers(t, ds[..n], p);
      var i :| 0 <= i < n && p in FacePrimitives(t, ds[..n][i], i);
      assert ds[..n][i] == ds[i];
    } else {
      assert p in FacePrimitives(t, ds[n], n);
    }
  }

  /** Blur comes first: the frame's stream opens with exactly one blur per
      face, in detector order, when blur is enabled and a face exists, and
      no blur appears anywhere else. */
  lemma BlurComesFirst(t: Toggles, ds: seq<Detection>)
    ensures var f := FramePrimitives(t, ds);
            BlurCount(t, ds) <= |f| &&
            (forall k :: 0 <= k < |f| ==> (f[k].GaussianBlur? <==> t.blur && k < |ds|)) &&
            (forall k :: 0 <= k < BlurCount(t, ds) ==> f[k] == GaussianBlur(ds[k].face, BlurKernel, BlurSigma))
  {
    var f := FramePrimitives(t, ds);
    var head := if t.blur && |ds| > 0 then BlurRegions(ds) else [];
    var tail := FacesDrawn(t, ds);
    BlurRegionsAt(ds);
    assert |head| == BlurCount(t, ds);
    forall k | |head| <= k < |f|
      ensures !f[k].GaussianBlur?
    {
      assert f[k] == tail[k - |head|];
      FacesDrawnMembers(t, ds, tail[k - |head|]);
      var i :| 0 <= i < |ds| && tail[k - |head|] in FacePrimitives(t, ds[i], i);
      NoBlurInFace(t, ds[i], i);
    }
  }

  /** The face loop run over a prefix of the faces draws a prefix of what it
      draws over all of them. */
  lemma {:induction false} FacesDrawnPrefix(t: Toggles, ds: seq<Detection>, i: nat)
    requires i <= |ds|
    ensures FacesDrawn(t, ds[..i]) <= FacesDrawn(t, ds)
    decreases |ds| - i
  {
    if i < |ds| {
      FacesDrawnPrefix(t, ds, i + 1);
      assert ds[..i + 1][..i] == ds[..i];
      assert FacesDrawn(t, ds[..i + 1]) == FacesDrawn(t, ds[..i]) + FacePrimitives(t, ds[i], i);
    } else {
      assert ds[..i] == ds;
    }
  }

  /** Offset in the frame's stream where the stages of face i begin. */
  function FaceOffset(t: Toggles, ds: seq<Detection>, i: nat): nat
    requires i <= |ds|
  {
    BlurCount(t, ds) + |FacesDrawn(t, ds[..i])|
  }

  /** The stages of face i occupy one contiguous slice of the frame's
      stream, starting at FaceOffset(t, ds, i). */
  lemma {:induction false} FaceSliceAt(t: Toggles, ds: seq<Detection>, i: nat)
    requires i < |ds|
    ensures var f := FramePrimitives(t, ds);
            var o := FaceOffset(t, ds, i);
            var n := |FacePrimitives(t, ds[i], i)|;
            o + n <= |f| && f[o .. o + n] == FacePrimitives(t, ds[i], i)
  {
    var head := if t.blur && |ds| > 0 then BlurRegions(ds) else [];
    FaceFollowsEarlierFaces(t, ds, i);
    assert |head| == BlurCount(t, ds);
    SlicePastPrefix(head, FacesDrawn(t, ds[..i]), FacePrimitives(t, ds[i], i), FacesDrawn(t, ds),
                    FramePrimitives(t, ds), FaceOffset(t, ds, i));
  }

  /** The face loop draws the stages of faces 0 .. i-1, then those of face
      i, then the rest. */
  lemma {:induction false} FaceFollowsEarlierFaces(t: Toggles, ds: seq<Detection>, i: nat)
    requires i < |ds|
    ensures FacesDrawn(t, ds[..i]) + FacePrimitives(t, ds[i], i) <= FacesDrawn(t, ds)
  {
    FacesDrawnPrefix(t, ds, i + 1);
    FacesDrawnStep(t, ds, i);
  }

  /** In f = head + all, where all starts with before + mine, mine sits
      right after head and before. */
  lemma SlicePastPrefix<T>(head: seq<T>, before: seq<T>, mine: seq<T>, all: seq<T>, f: seq<T>, o: nat)
    requires before + mine <= all && f == head + all && o == |head| + |before|
    ensures o + |mine| <= |f| && f[o .. o + |mine|] == mine
  {
    assert all[|before| .. |before| + |mine|] == mine;
  }

  /** With the faces toggle on, a face's stages open with its box and label. */
  lemma FaceOpensWithBox(t: Toggles, d: Detection, i: nat)
    requires t.faces
    ensures var mine := FacePrimitives(t, d, i);
            |mine| >= 2 && mine[0] == FaceBoxPrimitives(d.face, i)[0] && mine[1] == FaceBoxPrimitives(d.face, i)[1]
  {
  }

  /** With the faces toggle on, the stages of face i (the slice of
      FaceSliceAt) open with its rectangle in palette colour i mod 5 and its
      label "Face i+1" anchored at (x, y - 10). */
  lemma {:induction false} FaceStagesAt(t: Toggles, ds: seq<Detection>, i: nat)
    requires i < |ds| && t.faces
    ensures var f := FramePrimitives(t, ds);
            var o := FaceOffset(t, ds, i);
            var d := ds[i];
            o + 1 < |f| &&
            f[o] == Rectangle(WholeFrame, Point(d.face.x, d.face.y),
                              Point(d.face.x + d.face.w, d.face.y + d.face.h), FaceColor(i), 3) &&
            f[o + 1] == Text("Face " + DecimalString(i + 1), Point(d.face.x, d.face.y - 10), 7, FaceColor(i), 2)
  {
    var f := FramePrimitives(t, ds);
    var o := FaceOffset(t, ds, i);
    var m := FacePrimitives(t, ds[i], i);
    var b := FaceBoxPrimitives(ds[i].face, i);
    FaceSliceAt(t, ds, i);
    FaceOpensWithBox(t, ds[i], i);
    SliceOpensWith(f, o, m, b[0], b[1]);
  }

  /** A slice that opens with a and b puts them at its offset. */
  lemma SliceOpensWith<T>(f: seq<T>, o: nat, m: seq<T>, a: T, b: T)
    requires o + |m| <= |f| && f[o .. o + |m|] == m
    requires |m| >= 2 && m[0] == a && m[1] == b
    ensures o + 1 < |f| && f[o] == a && f[o + 1] == b
  {
    assert f[o .. o + |m|][0] == f[o] && f[o .. o + |m|][1] == f[o + 1];
  }

  /** A "Face k" label is drawn exactly when the faces toggle is on and k
      numbers one of the detected faces (1 <= k <= face count). */
  lemma FaceLabelDrawnIff(t: Toggles, ds: seq<Detection>, k: nat)
    ensures (exists p <- FramePrimitives(t, ds) :: p.Text? && p.text == "Face " + DecimalString(k))
            <==> t.faces && 1 <= k <= |ds|
  {
    if t.faces && 1 <= k <= |ds| {
      FaceLabelDrawn(t, ds, k);
    }
    if p :| p in FramePrimitives(t, ds) && p.Text? && p.text == "Face " + DecimalString(k) {
      FaceLabelOnlyForFaces(t, ds, k, p);
    }
  }

  lemma FaceLabelDrawn(t: Toggles, ds: seq<Detection>, k: nat)
    requires t.faces && 1 <= k <= |ds|
    ensures exists p <- FramePrimitives(t, ds) :: p.Text? && p.text == "Face " + DecimalString(k)
  {
    var f := FramePrimitives(t, ds);
    FaceStagesAt(t, ds, k - 1);
    var o := FaceOffset(t, ds, k - 1);
    assert f[o + 1] in f;
  }

  lemma FaceLabelOnlyForFaces(t: Toggles, ds: seq<Detection>, k: nat, p: Primitive)
    requires p in FramePrimitives(t, ds) && p.Text? && p.text == "Face " + DecimalString(k)
    ensures t.faces && 1 <= k <= |ds|
  {
    var head := if t.blur && |ds| > 0 then BlurRegions(ds) else [];
    BlurRegionsAt(ds);
    assert p !in head;
    FacesDrawnMembers(t, ds, p);
    var i :| 0 <= i < |ds| && p in FacePrimitives(t, ds[i], i);
    FaceTextIsLabel(t, ds[i], i, p);
    assert p.text[5..] == DecimalString(k);
    assert FaceLabel(i)[5..] == DecimalString(i + 1);
    DecimalInjective(i + 1, k);
  }

  /** The only texts of a face's stages are its "Face i+1" label (faces
      toggle on) and the "Zone n" labels; no zone label starts with 'F'. */
  lemma FaceTextIsLabel(t: Toggles, d: Detection, i: nat, p: Primitive)
    requires p in FacePrimitives(t, d, i) && p.Text? && |p.text| > 0 && p.text[0] == 'F'
    ensures t.faces && p.text == FaceLabel(i)
  {
    NoTextInEyes(d.face, d.eyes);
    NoTextInSmiles(d.face, d.smiles);
    ZoneTextsStartWithZ(d.face, 3);
  }

  lemma {:induction false} NoTextInEyes(face: Box, eyes: seq<Box>)
    ensures forall p <- EyeMarks(face, eyes) :: !p.Text?
    decreases |eyes|
  {
    if eyes != [] {
      NoTextInEyes(face, eyes[..|eyes| - 1]);
    }
  }

  lemma {:induction false} NoTextInSmiles(face: Box, smiles: seq<Box>)
    ensures forall p <- SmileMarks(face, smiles) :: !p.Text?
    decreases |smiles|
  {
    if smiles != [] {
      NoTextInSmiles(face, smiles[..|smiles| - 1]);
    }
  }

  lemma {:induction false} ZoneTextsStartWithZ(face: Box, n: nat)
    requires n <= 3
    ensures forall p <- ZonesUpTo(face, n) :: p.Text? ==> |p.text| > 0 && p.text[0] == 'Z'
  {
    if n > 0 {
      ZoneTextsStartWithZ(face, n - 1);
    }
  }

  /** Everything drawn on a face region (the eye and smile stages) uses
      entry 0 of the eye palette or entry 0 of the smile palette, and only
      when the eyes or smiles toggle is on. */
  lemma FaceRegionUsesFirstColours(t: Toggles, ds: seq<Detection>)
    ensures forall p <- FramePrimitives(t, ds) :: OnFaceRegion(p) ==> RegionColour(t, p)
  {
    var f := FramePrimitives(t, ds);
    var head := if t.blur && |ds| > 0 then BlurRegions(ds) else [];
    BlurRegionsAt(ds);
    forall p <- f | OnFaceRegion(p)
      ensures RegionColour(t, p)
    {
      assert p !in head;
      FacesDrawnMembers(t, ds, p);
      var i :| 0 <= i < |ds| && p in FacePrimitives(t, ds[i], i);
      FaceRegionColoursOfFace(t, ds[i], i);
    }
  }

  predicate OnFaceRegion(p: Primitive) {
    (p.Rectangle? || p.Circle?) && p.canvas.FaceRegion?
  }

  predicate RegionColour(t: Toggles, p: Primitive)
    requires p.Rectangle? || p.Circle?
  {
    (t.eyes && p.color == EyePalette[0]) || (t.smiles && p.color == SmilePalette[0])
  }

  lemma FaceRegionColoursOfFace(t: Toggles, d: Detection, i: nat)
    ensures forall p <- FacePrimitives(t, d, i) :: OnFaceRegion(p) ==> RegionColour(t, p)
  {
    EyeColours(d.face, d.eyes);
    SmileColours(d.face, d.smiles);
    ZonesOnWholeFrame(d.face, 3);
  }

  lemma {:induction false} EyeColours(face: Box, eyes: seq<Box>)
    ensures forall p <- EyeMarks(face, eyes) :: (p.Rectangle? || p.Circle?) && p.color == EyePalette[0]
    decreases |eyes|
  {
    if eyes != [] {
      EyeColours(face, eyes[..|eyes| - 1]);
    }
  }

  lemma {:induction false} SmileColours(face: Box, smiles: seq<Box>)
    ensures forall p <- SmileMarks(face, smiles) :: p.Rectangle? && p.color == SmilePalette[0]
    decreases |smiles|
  {
    if smiles != [] {
      SmileColours(face, smiles[..|smiles| - 1]);
    }
  }

  lemma {:induction false} ZonesOnWholeFrame(face: Box, n: nat)
    requires n <= 3
    ensures forall p <- ZonesUpTo(face, n) :: (p.Rectangle? && p.canvas == WholeFrame) || p.Text?
  {
    if n > 0 {
      ZonesOnWholeFrame(face, n - 1);
    }
  }

  /** The stage of the face loop that draws a primitive of that shape: the
      face box (thickness 3) and its label (thickness 2), the eye and smile
      marks (on the face region, told apart by colour), the landmark discs
      (on the whole frame) and the zone rectangles and labels. */
  function StageOf(p: Primitive): Feature {
    match p
    case GaussianBlur(_, _, _) => Blur
    case Rectangle(canvas, _, _, color, thickness) =>
      if canvas.FaceRegion? then (if color == EyePalette[0] then Eyes else Smiles)
      else if thickness == 3 then Faces else Emotion
    case Circle(canvas, _, _, _, _) => if canvas.FaceRegion? then Eyes else Landmarks
    case Text(_, _, _, _, thickness) => if thickness == 2 then Faces else Emotion
  }

  predicate AllOfStage(ps: seq<Primitive>, f: Feature) {
    forall p <- ps :: StageOf(p) == f
  }

  predicate StagesOrdered(ps: seq<Primitive>) {
    forall j, k :: 0 <= j < k < |ps| ==> Rank(StageOf(ps[j])) <= Rank(StageOf(ps[k]))
  }

  /** Within one face the stages come in the order faces, eyes, smiles,
      landmarks, emotion, and every primitive belongs to a stage whose
      toggle is on. */
  lemma FaceStagesInOrder(t: Toggles, d: Detection, i: nat)
    ensures StagesOrdered(FacePrimitives(t, d, i))
    ensures forall p <- FacePrimitives(t, d, i) :: t.Get(StageOf(p))
  {
    var face := d.face;
    var a := if t.faces then FaceBoxPrimitives(face, i) else [];
    var b := if t.eyes then EyeMarks(face, d.eyes) else [];
    var c := if t.smiles then SmileMarks(face, d.smiles) else [];
    var l := if t.landmarks then DrawFacialLandmarks(face) else [];
    var z := if t.emotion then EmotionZonePrimitives(face) else [];
    EyeStage(face, d.eyes);
    SmileStage(face, d.smiles);
    ZoneStage(face, 3);
    assert AllOfStage(a, Faces) && AllOfStage(l, Landmarks);
    FiveStages(t, a, b, c, l, z);
  }

  /** Five blocks, one per stage in rank order, each empty unless its toggle
      is on, concatenate into a stream ordered by stage. */
  lemma FiveStages(t: Toggles, a: seq<Primitive>, b: seq<Primitive>, c: seq<Primitive>,
                   l: seq<Primitive>, z: seq<Primitive>)
    requires AllOfStage(a, Faces) && AllOfStage(b, Eyes) && AllOfStage(c, Smiles)
    requires AllOfStage(l, Landmarks) && AllOfStage(z, Emotion)
    requires (a != [] ==> t.faces) && (b != [] ==> t.eyes) && (c != [] ==> t.smiles)
    requires (l != [] ==> t.landmarks) && (z != [] ==> t.emotion)
    ensures StagesOrdered(a + b + c + l + z)
    ensures forall p <- a + b + c + l + z :: t.Get(StageOf(p))
  {
    AppendStage([], a, Faces);
    assert [] + a == a;
    AppendStage(a, b, Eyes);
    AppendStage(a + b, c, Smiles);
    AppendStage(a + b + c, l, Landmarks);
    AppendStage(a + b + c + l, z, Emotion);
    forall p <- a + b + c + l + z
      ensures t.Get(StageOf(p))
    {
      assert p in a || p in b || p in c || p in l || p in z;
    }
  }

  /** Appending a block of one stage to a stream ordered by stage, none of
      whose stages comes later, keeps it ordered. */
  lemma AppendStage(ps: seq<Primitive>, qs: seq<Primitive>, f: Feature)
    requires StagesOrdered(ps) && AllOfStage(qs, f)
    requires forall p <- ps :: Rank(StageOf(p)) <= Rank(f)
    ensures StagesOrdered(ps + qs)
    ensures forall p <- ps + qs :: Rank(StageOf(p)) <= Rank(f)
  {
    var r := ps + qs;
    forall j, k | 0 <= j < k < |r|
      ensures Rank(StageOf(r[j])) <= Rank(StageOf(r[k]))
    {
      if k >= |ps| {
        assert r[k] == qs[k - |ps|];
        if j < |ps| {
          assert r[j] == ps[j];
        } else {
          assert r[j] == qs[j - |ps|];
        }
      }
    }
  }

  lemma {:induction false} EyeStage(face: Box, eyes: seq<Box>)
    ensures AllOfStage(EyeMarks(face, eyes), Eyes)
    decreases |eyes|
  {
    if eyes != [] {
      EyeStage(face, eyes[..|eyes| - 1]);
    }
  }

  lemma {:induction false} SmileStage(face: Box, smiles: seq<Box>)
    ensures AllOfStage(SmileMarks(face, smiles), Smiles)
    decreases |smiles|
  {
    if smiles != [] {
      SmileStage(face, smiles[..|smiles| - 1]);
    }
  }

  lemma {:induction false} ZoneStage(face: Box, n: nat)
    requires n <= 3
    ensures AllOfStage(ZonesUpTo(face, n), Emotion)
  {
    if n > 0 {
      ZoneStage(face, n - 1);
    }
  }
}
