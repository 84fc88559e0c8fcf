/**
 * The Java side in CameraXsdl3Activity.java: packing an image's planes into
 * one byte array for the native slot, and the lifecycle registry's state.
 */
module Activity {
  import FrameSlot
  import Camera

  /** A captured image: the remaining bytes of each plane's buffer, and its size. */
  datatype ImageProxy = ImageProxy(planes: seq<seq<bv8>>, width: int, height: int)

  /** The planes' bytes, one after the other in plane order. */
  function Concat(planes: seq<seq<bv8>>): (bytes: seq<bv8>)
  {
    if planes == [] then [] else Concat(planes[..|planes| - 1]) + planes[|planes| - 1]
  }

  /** The sum of the planes' remaining byte counts. */
  function TotalSize(planes: seq<seq<bv8>>): (size: nat)
  {
    if planes == [] then 0 else TotalSize(planes[..|planes| - 1]) + |planes[|planes| - 1]|
  }

  /** The packed array is exactly as long as the planes together. */
  lemma {:induction false} ConcatLength(planes: seq<seq<bv8>>)
    ensures |Concat(planes)| == TotalSize(planes)
    decreases |planes|
  {
    if planes != [] {
      ConcatLength(planes[..|planes| - 1]);
    }
  }

  /**
   * Plane i sits in the packed array at the sum of the lengths of planes
   * 0..i-1, with nothing dropped and nothing in between.
   */
  lemma {:induction false} PlaneAt(planes: seq<seq<bv8>>, i: nat)
    requires i < |planes|
    ensures TotalSize(planes[..i]) + |planes[i]| <= |Concat(planes)|
    ensures Concat(planes)[TotalSize(planes[..i])..TotalSize(planes[..i]) + |planes[i]|] == planes[i]
    decreases |planes|
  {
    var n := |planes| - 1;
    var init := planes[..n];
    ConcatLength(init);
    ConcatLength(planes);
    if i == n {
      assert planes[..i] == init;
    } else {
      PlaneAt(init, i);
      assert Concat(planes) == Concat(init) + planes[n];
      assert init[..i] == planes[..i];
      assert init[i] == planes[i];
    }
  }

  /**
   * The two loops of processImage: sum the planes' sizes, allocate an array
   * of that size, then copy each plane in at a running offset. The result is
   * the concatenation of the planes.
   */
  method PackPlanes(planes: seq<seq<bv8>>) returns (data: array<bv8>)
    ensures data.Length == TotalSize(planes)
    ensures data[..] == Concat(planes)
  {
    var totalSize := 0;
    for k := 0 to |planes|
      invariant totalSize == TotalSize(planes[..k])
    {
      assert planes[..k + 1][..k] == planes[..k];
      totalSize := totalSize + |planes[k]|;
    }
    assert planes[..|planes|] == planes;
    data := new bv8[totalSize];
    ConcatLength(planes);
    var offset := 0;
    for k := 0 to |planes|
      invariant offset == TotalSize(planes[..k]) <= totalSize
      invariant data[..offset] == Concat(planes[..k])
    {
      assert planes[..k + 1][..k] == planes[..k];
      PlaneAt(planes, k);
      var remaining := |planes[k]|;
      forall j | 0 <= j < remaining {
        data[offset + j] := planes[k][j];
      }
      assert data[..offset + remaining] == data[..offset] + planes[k];
      offset := offset + remaining;
    }
  }

  /** Lifecycle.State, in its declared order. */
  datatype LifecycleState = Destroyed | Initialized | Created | Started | Resumed

  /** The position of a state in the lifecycle order. */
  function Level(s: LifecycleState): (level: nat)
  {
    match s
    case Destroyed => 0
    case Initialized => 1
    case Created => 2
    case Started => 3
    case Resumed => 4
  }

  /** The activity: its lifecycle registry's current state. */
  class CameraActivity {
    var lifecycleState: LifecycleState

    /** onCreate: a new registry, set to CREATED. */
    constructor ()
      ensures lifecycleState == Created
    {
      lifecycleState := Created;
    }

    method OnStart()
      modifies this`lifecycleState
      ensures lifecycleState == Started
    {
      lifecycleState := Started;
    }

    method OnResume()
      modifies this`lifecycleState
      ensures lifecycleState == Resumed
    {
      lifecycleState := Resumed;
    }

    /** onPause: one level down from RESUMED. */
    method OnPause()
      modifies this`lifecycleState
      ensures lifecycleState == Started && Level(lifecycleState) + 1 == Level(Resumed)
    {
      lifecycleState := Started;
    }

    /** onStop: one level down from STARTED. */
    method OnStop()
      modifies this`lifecycleState
      ensures lifecycleState == Created && Level(lifecycleState) + 1 == Level(Started)
    {
      lifecycleState := Created;
    }

    method OnDestroy()
      modifies this`lifecycleState
      ensures lifecycleState == Destroyed && Level(lifecycleState) == 0
    {
      lifecycleState := Destroyed;
    }

    /**
     * processImage: pack the planes and hand them, with the image's own width
     * and height, to the native slot.
     */
    method ProcessImage(app: Camera.App, image: ImageProxy, allocOk: bool)
      requires app.Valid() && !app.image.locked
      modifies app.image, app.image.data
      ensures app.Valid() && !app.image.locked
      ensures app.image.Slot()
              == FrameSlot.Submitted(old(app.image.Slot()), Concat(image.planes), image.width, image.height, allocOk)
      ensures app.image.data == null || app.image.data == old(app.image.data) || fresh(app.image.data)
    {
      var data := PackPlanes(image.planes);
      app.ProcessYUVImage(data[..], image.width, image.height, allocOk);
    }
  }

  /**
   * From the camera to the slot: when the frame's allocation succeeds, the
   * slot holds the planes in order at the front of its storage, and the
   * image's dimensions.
   */
  lemma PackedFrameStored(s: FrameSlot.SlotState, image: ImageProxy)
    requires FrameSlot.Valid(s)
    ensures var r := FrameSlot.Submitted(s, Concat(image.planes), image.width, image.height, true);
            r.width == image.width && r.height == image.height && r.isNew
            && r.length >= TotalSize(image.planes)
            && (TotalSize(image.planes) > 0 ==> r.data.Some? && forall i :: 0 <= i < |image.planes| ==>
                  TotalSize(image.planes[..i]) + |image.planes[i]| <= |r.data.value|
                  && r.data.value[TotalSize(image.planes[..i])..TotalSize(image.planes[..i]) + |image.planes[i]|]
                     == image.planes[i])
  {
    var bytes := Concat(image.planes);
    ConcatLength(image.planes);
    FrameSlot.SubmitStores(s, bytes, image.width, image.height, true);
    var r := FrameSlot.Submitted(s, bytes, image.width, image.height, true);
    if TotalSize(image.planes) > 0 {
      forall i | 0 <= i < |image.planes|
        ensures TotalSize(image.planes[..i]) + |image.planes[i]| <= |r.data.value|
                && r.data.value[TotalSize(image.planes[..i])..TotalSize(image.planes[..i]) + |image.planes[i]|]
                   == image.planes[i]
      {
        PlaneAt(image.planes, i);
        var a := TotalSize(image.planes[..i]);
        var b := a + |image.planes[i]|;
        assert r.data.value[..|bytes|] == bytes;
        assert r.data.value[a..b] == bytes[a..b];
      }
    }
  }
}
