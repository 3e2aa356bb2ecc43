/** Annotation geometry. Every OpenCV drawing call of the application is
    modelled by the primitive it would draw; the pixels themselves are not
    modelled. Coordinates are integers with the origin at the top-left, and
    Python's floor division by a positive constant is Dafny's `/`. */
module Geometry {
  import opened Format

  datatype Point = Point(x: int, y: int)

  /** A detector box (x, y, w, h). */
  datatype Box = Box(x: int, y: int, w: int, h: int)

  /** A colour in OpenCV's (blue, green, red) order. */
  datatype Color = Color(b: int, g: int, r: int)

  /** The image a primitive is drawn on: the whole frame, or the view of
      the frame under one face box (roi_color), whose coordinates are
      relative to that box's top-left corner. */
  datatype Canvas = WholeFrame | FaceRegion(face: Box)

  /** One drawing call. Font sizes are kept in tenths (0.7 is 7); a
      thickness of Filled draws a solid disc. */
  datatype Primitive =
    | GaussianBlur(region: Box, kernel: nat, sigma: nat)
    | Rectangle(canvas: Canvas, corner: Point, opposite: Point, color: Color, thickness: int)
    | Circle(canvas: Canvas, center: Point, radius: nat, color: Color, thickness: int)
    | Text(text: string, origin: Point, scaleTenths: nat, color: Color, thickness: int)

  const Filled: int := -1

  const FacePalette: seq<Color> :=
    [Color(0, 255, 0), Color(255, 0, 0), Color(0, 0, 255), Color(255, 255, 0), Color(255, 0, 255)]
  const EyePalette: seq<Color> := [Color(255, 255, 255), Color(200, 200, 255)]
  const SmilePalette: seq<Color> := [Color(0, 165, 255), Color(0, 200, 255)]
  const LandmarkPalette: seq<Color> := [Color(0, 255, 255), Color(255, 255, 0)]
  /** The local colour list of the emotion-zone drawing; only its first three
      entries are ever used. */
  const ZonePalette: seq<Color> := [Color(0, 255, 0), Color(0, 255, 255), Color(0, 165, 255), Color(0, 0, 255)]

  /** Closed containment of a point in a box, edges included. */
  predicate Inside(p: Point, b: Box) {
    b.x <= p.x <= b.x + b.w && b.y <= p.y <= b.y + b.h
  }

  /** Colour of the i-th face: the palette is cycled. */
  function FaceColor(i: nat): Color {
    FacePalette[i % |FacePalette|]
  }

  lemma FaceColorCycles(i: nat)
    ensures FaceColor(i) in FacePalette
    ensures FaceColor(i + 5) == FaceColor(i)
    ensures FaceColor(5) == FaceColor(0) == Color(0, 255, 0)
  {
  }

  /** The seven synthetic landmark positions, top to bottom: top centre,
      the two upper-third points, the centre, the two lower-third points and
      bottom centre. */
  function LandmarkPoints(face: Box): seq<Point> {
    var x, y, w, h := face.x, face.y, face.w, face.h;
    var cx, cy := x + w / 2, y + h / 2;
    [ Point(cx, y + h / 6),
      Point(x + w / 3, y + h / 3), Point(x + 2 * w / 3, y + h / 3),
      Point(cx, cy),
      Point(x + w / 3, y + 2 * h / 3), Point(x + 2 * w / 3, y + 2 * h / 3),
      Point(cx, y + 5 * h / 6) ]
  }

  /** draw_facial_landmarks: a filled radius-5 disc at each landmark, in the
      first landmark colour, on the whole frame. */
  function DrawFacialLandmarks(face: Box): seq<Primitive> {
    var pts := LandmarkPoints(face);
    seq(|pts|, k requires 0 <= k < |pts| => Circle(WholeFrame, pts[k], 5, LandmarkPalette[0], Filled))
  }

  /** Exactly seven discs, all in the first landmark colour; for a box of
      non-negative size every centre lies inside the box, the rows go down
      the face and each row is ordered left to right. */
  lemma LandmarksInsideFace(face: Box)
    requires face.w >= 0 && face.h >= 0
    ensures |DrawFacialLandmarks(face)| == 7
    ensures forall p <- DrawFacialLandmarks(face) ::
              p.Circle? && p.canvas == WholeFrame && p.radius == 5 &&
              p.color == LandmarkPalette[0] && p.thickness == Filled && Inside(p.center, face)
    ensures var pts := LandmarkPoints(face);
            pts[0].y <= pts[1].y == pts[2].y <= pts[3].y <= pts[4].y == pts[5].y <= pts[6].y &&
            pts[1].x <= pts[0].x == pts[3].x == pts[6].x <= pts[2].x &&
            pts[4].x == pts[1].x && pts[5].x == pts[2].x
  {
    var w, h := face.w, face.h;
    assert 0 <= h / 6 <= h / 3 <= h / 2 <= 2 * h / 3 <= 5 * h / 6 <= h;
    assert 0 <= w / 3 <= w / 2 <= 2 * w / 3 <= w;
    var pts := LandmarkPoints(face);
    forall k | 0 <= k < 7
      ensures Inside(pts[k], face)
    {
    }
  }

  /** The 90x90 box at the origin puts the top point at (45, 15), the centre
      at (45, 45) and the bottom point at (45, 75). */
  lemma LandmarksExample()
    ensures LandmarkPoints(Box(0, 0, 90, 90)) ==
      [Point(45, 15), Point(30, 30), Point(60, 30), Point(45, 45),
       Point(30, 60), Point(60, 60), Point(45, 75)]
  {
  }

  /** Top of emotion band i: y + i * (h // 3). */
  function ZoneTop(face: Box, i: nat): int {
    face.y + i * (face.h / 3)
  }

  /** Band i of draw_emotion_zones: its rectangle, then its "Zone i+1" label
      5 pixels in and 20 pixels down, both in colour i of the local list. */
  function ZonePrimitives(face: Box, i: nat): seq<Primitive>
    requires i < 3
  {
    var top := ZoneTop(face, i);
    [ Rectangle(WholeFrame, Point(face.x, top), Point(face.x + face.w, top + face.h / 3), ZonePalette[i], 2),
      Text("Zone " + DecimalString(i + 1), Point(face.x + 5, top + 20), 5, ZonePalette[i], 1) ]
  }

  /** The primitives of the first n bands, in drawing order. */
  function ZonesUpTo(face: Box, n: nat): seq<Primitive>
    requires n <= 3
  {
    if n == 0 then [] else ZonesUpTo(face, n - 1) + ZonePrimitives(face, n - 1)
  }

  function EmotionZonePrimitives(face: Box): seq<Primitive> {
    ZonesUpTo(face, 3)
  }

  /** The first n bands hold band i's rectangle at 2 i and its label at
      2 i + 1. */
  lemma {:induction false} ZonesUpToAt(face: Box, n: nat)
    requires n <= 3
    ensures |ZonesUpTo(face, n)| == 2 * n
    ensures forall i :: 0 <= i < n ==>
              ZonesUpTo(face, n)[2 * i] == ZonePrimitives(face, i)[0] &&
              ZonesUpTo(face, n)[2 * i + 1] == ZonePrimitives(face, i)[1]
  {
    if n > 0 {
      ZonesUpToAt(face, n - 1);
    }
  }

  /** Three bands of height h // 3 stacked without gap from the top of the
      face, each the full face width; for h >= 0 the last one ends at or
      above the bottom edge and the h mod 3 rows below it are in no band. */
  lemma EmotionZonesTile(face: Box)
    requires face.h >= 0
    ensures var z := EmotionZonePrimitives(face);
            |z| == 6 &&
            (forall i :: 0 <= i < 3 ==>
               z[2 * i] == Rectangle(WholeFrame, Point(face.x, face.y + i * (face.h / 3)),
                                     Point(face.x + face.w, face.y + (i + 1) * (face.h / 3)), ZonePalette[i], 2)) &&
            z[0].Rectangle? && z[2].Rectangle? && z[4].Rectangle? &&
            z[0].corner.y == face.y &&
            z[0].opposite.y == z[2].corner.y && z[2].opposite.y == z[4].corner.y &&
            z[4].opposite.y <= face.y + face.h &&
            face.y + face.h - z[4].opposite.y == face.h % 3
  {
    ZonesUpToAt(face, 3);
    var z := EmotionZonePrimitives(face);
    assert z[0] == ZonePrimitives(face, 0)[0] && z[2] == ZonePrimitives(face, 1)[0] && z[4] == ZonePrimitives(face, 2)[0];
    var zh := face.h / 3;
    assert face.h == 3 * zh + face.h % 3;
    assert (0 + 1) * zh == 1 * zh && (1 + 1) * zh == 2 * zh && (2 + 1) * zh == 3 * zh;
  }

  /** Band i is labelled "Zone i+1" at (x + 5, top of band + 20), in the
      same colour as its rectangle, one of the first three of the list. */
  lemma EmotionZoneLabels(face: Box)
    ensures var z := EmotionZonePrimitives(face);
            |z| == 6 &&
            (forall i :: 0 <= i < 3 ==>
               z[2 * i + 1] == Text("Zone " + DecimalString(i + 1), Point(face.x + 5, ZoneTop(face, i) + 20), 5, ZonePalette[i], 1) &&
               z[2 * i].Rectangle? && z[2 * i].color == ZonePalette[i]) &&
            z[0].Rectangle? && z[2].Rectangle? && z[4].Rectangle? &&
            z[1].Text? && z[3].Text? && z[5].Text? &&
            z[1].text == "Zone 1" && z[3].text == "Zone 2" && z[5].text == "Zone 3" &&
            ZonePalette[3] !in {z[0].color, z[2].color, z[4].color}
  {
    ZonesUpToAt(face, 3);
    var z := EmotionZonePrimitives(face);
    assert z[0] == ZonePrimitives(face, 0)[0] && z[2] == ZonePrimitives(face, 1)[0] && z[4] == ZonePrimitives(face, 2)[0];
    assert z[1] == ZonePrimitives(face, 0)[1] && z[3] == ZonePrimitives(face, 1)[1] && z[5] == ZonePrimitives(face, 2)[1];
    assert DecimalString(1) == "1" && DecimalString(2) == "2" && DecimalString(3) == "3";
  }

  /** A face 100 rows tall gets bands [0, 33), [33, 66) and [66, 99). */
  lemma EmotionZonesExample()
    ensures var z := EmotionZonePrimitives(Box(0, 0, 100, 100));
            z[0].corner.y == 0 && z[0].opposite.y == 33 &&
            z[2].corner.y == 33 && z[2].opposite.y == 66 &&
            z[4].corner.y == 66 && z[4].opposite.y == 99
  {
    EmotionZonesTile(Box(0, 0, 100, 100));
  }

  /** Centre of the dot drawn on an eye, relative to the face region. */
  function EyeCentre(eye: Box): Point {
    Point(eye.x + eye.w / 2, eye.y + eye.h / 2)
  }

  /** For an eye box of non-negative size the dot lies inside the eye's own
      rectangle, at most one pixel left of and above its true centre. */
  lemma EyeDotInsideEye(eye: Box)
    requires eye.w >= 0 && eye.h >= 0
    ensures Inside(EyeCentre(eye), eye)
    ensures 0 <= eye.w - 2 * (EyeCentre(eye).x - eye.x) <= 1
    ensures 0 <= eye.h - 2 * (EyeCentre(eye).y - eye.y) <= 1
  {
  }
}
