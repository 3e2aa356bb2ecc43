/** The statistics overlay: the rolling detection history and the four
    text lines written onto every frame. */
module Stats {
  import opened Format
  import opened Features
  import opened Geometry

  /** An instant as the caller's clock reports it; only its identity matters. */
  type Instant = int

  /** One entry of detection_history: (current_time, face_count). */
  datatype Sample = Sample(time: Instant, faceCount: nat)

  const MaxHistory: nat := 50

  /** append, then pop(0) once if the history has grown past MaxHistory. */
  function RollingAppend(h: seq<Sample>, s: Sample): seq<Sample> {
    var a := h + [s];
    if |a| > MaxHistory then a[1..] else a
  }

  /** The new sample is last; a history of at most 50 entries stays within
      50; a full one loses exactly its oldest entry; a shorter one keeps
      every earlier entry in place. */
  lemma RollingAppendSpec(h: seq<Sample>, s: Sample)
    ensures var r := RollingAppend(h, s);
            |r| > 0 && r[|r| - 1] == s &&
            (|h| <= MaxHistory ==> |r| <= MaxHistory) &&
            (|h| >= MaxHistory ==> r == h[1..] + [s]) &&
            (|h| < MaxHistory ==> r == h + [s])
  {
    if |h| >= MaxHistory {
      assert (h + [s])[1..] == h[1..] + [s];
    }
  }

  /** The history after appending every sample of ss, in order, to an empty
      one. */
  function HistoryAfter(ss: seq<Sample>): seq<Sample>
    decreases |ss|
  {
    if ss == [] then [] else RollingAppend(HistoryAfter(ss[..|ss| - 1]), ss[|ss| - 1])
  }

  function Min(a: nat, b: nat): nat {
    if a <= b then a else b
  }

  /** However many frames were processed, the history holds exactly the
      most recent min(n, 50) samples, oldest first. */
  lemma {:induction false} HistoryIsLatestWindow(ss: seq<Sample>)
    ensures HistoryAfter(ss) == ss[|ss| - Min(|ss|, MaxHistory)..]
    decreases |ss|
  {
    if ss != [] {
      var n := |ss|;
      var prev := ss[..n - 1];
      HistoryIsLatestWindow(prev);
      assert HistoryAfter(prev) == prev[|prev| - Min(|prev|, MaxHistory)..];
      var a := HistoryAfter(prev) + [ss[n - 1]];
      if n - 1 < MaxHistory {
        assert a == ss;
      } else {
        assert a == ss[n - 1 - MaxHistory..];
        assert a[1..] == ss[n - MaxHistory..];
      }
    }
  }

  /** The four overlay lines. The scale value and the clock time come
      already formatted ("{:.2f}" and "%H:%M:%S"). */
  function StatsLines(faceCount: nat, scaleText: string, clockText: string, t: Toggles): (lines: seq<string>)
    ensures |lines| == 4
  {
    [ "Faces Detected: " + DecimalString(faceCount),
      "Detection Scale: " + scaleText,
      "Time: " + clockText,
      FeaturesSummary(t) ]
  }

  const White := Color(255, 255, 255)
  const Black := Color(0, 0, 0)

  /** Line i drawn once: first as a white stroke of thickness 2, then as a
      black fill of thickness 1, at (10, 30 + 25 i), scale 0.6. */
  function StatText(line: string, i: nat, stroke: bool): Primitive {
    Text(line, Point(10, 30 + i * 25), 6, if stroke then White else Black, if stroke then 2 else 1)
  }

  function OverlayPrimitives(lines: seq<string>): seq<Primitive>
    decreases |lines|
  {
    if lines == [] then []
    else
      var i := |lines| - 1;
      OverlayPrimitives(lines[..i]) + [StatText(lines[i], i, true), StatText(lines[i], i, false)]
  }

  /** One more line appends its stroke and its fill. */
  lemma OverlayStep(lines: seq<string>, i: nat)
    requires i < |lines|
    ensures OverlayPrimitives(lines[..i + 1]) ==
            OverlayPrimitives(lines[..i]) + [StatText(lines[i], i, true), StatText(lines[i], i, false)]
  {
    assert lines[..i + 1][..i] == lines[..i];
  }

  /** Every line is drawn twice in a row, stroke then fill, at a baseline 25
      pixels below the previous line's. */
  lemma {:induction false} OverlayLayout(lines: seq<string>)
    ensures var o := OverlayPrimitives(lines);
            |o| == 2 * |lines| &&
            forall k :: 0 <= k < |o| ==> o[k] == StatText(lines[k / 2], k / 2, k % 2 == 0)
    decreases |lines|
  {
    if lines != [] {
      var i := |lines| - 1;
      OverlayLayout(lines[..i]);
    }
  }

  /** The overlay of one frame: eight texts at x = 10 on the baselines 30,
      30, 55, 55, 80, 80, 105, 105; the face count first and the features
      summary last. */
  lemma OverlayRows(faceCount: nat, scaleText: string, clockText: string, t: Toggles)
    ensures var o := OverlayPrimitives(StatsLines(faceCount, scaleText, clockText, t));
            |o| == 8 &&
            (forall k :: 0 <= k < 8 ==> o[k].Text? && o[k].origin.x == 10) &&
            o[0].origin.y == o[1].origin.y == 30 && o[2].origin.y == o[3].origin.y == 55 &&
            o[4].origin.y == o[5].origin.y == 80 && o[6].origin.y == o[7].origin.y == 105 &&
            o[0].text == o[1].text == "Faces Detected: " + DecimalString(faceCount) &&
            o[6].text == o[7].text == FeaturesSummary(t) &&
            (forall k :: 0 <= k < 8 ==> o[k].color == (if k % 2 == 0 then White else Black))
  {
    var lines := StatsLines(faceCount, scaleText, clockText, t);
    OverlayLayout(lines);
  }
}
