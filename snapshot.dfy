/** Snapshot naming and the result of take_snapshot. */
module Snapshot {
  import opened Format
  import opened Geometry

  const SnapshotPrefix := "snapshots/snapshot_"

  /** f"snapshots/snapshot_{stamp}_{counter:03d}.jpg", where stamp is the
      caller's "%Y%m%d_%H%M%S" rendering of the current time. */
  function SnapshotFilename(stamp: string, counter: nat): string {
    SnapshotPrefix + stamp + "_" + Format3(counter) + ".jpg"
  }

  /** What take_snapshot does: warn that there is no video feed, or save
      the frame under a file name and draw the "SNAPSHOT SAVED!" banner on
      it. */
  datatype SnapshotOutcome =
    | Warned(message: string)
    | Saved(filename: string, banner: Primitive)

  const NoFeedWarning := "No active video feed"

  /** Green text at (50, 50), scale 1, thickness 3. */
  const SavedBanner: Primitive := Text("SNAPSHOT SAVED!", Point(50, 50), 10, Color(0, 255, 0), 3)

  /** Two saves with time stamps of the same width (the stamp format always
      gives 15 characters) share a file name only if they share both the
      stamp and the counter; so one run, whose counter only grows, never
      overwrites its own snapshot. */
  lemma SnapshotFilenameInjective(s1: string, c1: nat, s2: string, c2: nat)
    requires |s1| == |s2|
    requires SnapshotFilename(s1, c1) == SnapshotFilename(s2, c2)
    ensures s1 == s2 && c1 == c2
  {
    var n1, n2 := SnapshotFilename(s1, c1), SnapshotFilename(s2, c2);
    var p := |SnapshotPrefix|;
    assert n1[p .. p + |s1|] == s1;
    assert n2[p .. p + |s2|] == s2;
    var f1, f2 := Format3(c1), Format3(c2);
    var at := p + |s1| + 1;
    assert n1[at .. at + |f1|] == f1;
    assert n2[at .. at + |f2|] == f2;
    assert |n1| == at + |f1| + 4 && |n2| == at + |f2| + 4;
    Format3Injective(c1, c2);
  }

  /** Counters 0, 1 and 2 give names ending in _000.jpg, _001.jpg and _002.jpg. */
  lemma FirstSnapshotNames(stamp: string)
    ensures SnapshotFilename(stamp, 0) == SnapshotPrefix + stamp + "_000.jpg"
    ensures SnapshotFilename(stamp, 1) == SnapshotPrefix + stamp + "_001.jpg"
    ensures SnapshotFilename(stamp, 2) == SnapshotPrefix + stamp + "_002.jpg"
  {
    FirstCounters();
  }
}
