/**
 * `getOrientation` of app/jni/src/camera.c: the display's coarse orientation
 * mapped to the angle the frame is drawn at, by a fixed table.
 */
module Orientation {
  import Layout

  /** SDL_DisplayOrientation, as the display subsystem reports it. */
  datatype DisplayOrientation = Unknown | Landscape | LandscapeFlipped | Portrait | PortraitFlipped

  /**
   * The switch of getOrientation. The table is a device convention of the
   * front camera: landscape draws at 180, not at 0.
   */
  function RotationOf(o: DisplayOrientation): (angle: int)
    ensures angle in {0, 90, 180, 270}
  {
    match o
    case Unknown => 180
    case Landscape => 180
    case LandscapeFlipped => 0
    case Portrait => 270
    case PortraitFlipped => 90
  }

  /**
   * getOrientation: a zero display id is a failed query, which reports false
   * and leaves the caller's angle untouched; otherwise the reported
   * orientation is mapped by the table.
   */
  function GetOrientation(displayId: nat, reported: DisplayOrientation, prev: int): (r: (bool, int))
    ensures r.0 <==> displayId != 0
    ensures r.0 ==> r.1 == RotationOf(reported) && r.1 in {0, 90, 180, 270}
    ensures !r.0 ==> r.1 == prev
  {
    if displayId == 0 then (false, prev) else (true, RotationOf(reported))
  }

  /** The table, entry by entry; an unknown orientation is drawn as landscape. */
  lemma RotationTable()
    ensures RotationOf(Unknown) == RotationOf(Landscape) == 180
    ensures RotationOf(LandscapeFlipped) == 0
    ensures RotationOf(Portrait) == 270
    ensures RotationOf(PortraitFlipped) == 90
  {
  }

  /** The four known orientations receive four different angles, and every angle is used. */
  lemma KnownOrientationsBijective(angle: int)
    requires angle in {0, 90, 180, 270}
    ensures exists o :: o != Unknown && RotationOf(o) == angle
    ensures forall o1, o2 :: o1 != Unknown && o2 != Unknown && RotationOf(o1) == RotationOf(o2) ==> o1 == o2
  {
    if angle == 0 {
      assert RotationOf(LandscapeFlipped) == angle;
    } else if angle == 90 {
      assert RotationOf(PortraitFlipped) == angle;
    } else if angle == 180 {
      assert RotationOf(Landscape) == angle;
    } else {
      assert RotationOf(Portrait) == angle;
    }
  }

  /** calculateRect takes its portrait branch exactly for the two portrait orientations. */
  lemma PortraitBranchForPortraitDisplays(o: DisplayOrientation)
    ensures Layout.IsPortrait(RotationOf(o)) <==> o == Portrait || o == PortraitFlipped
  {
  }
}
