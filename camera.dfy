/**
 * The native side of app/jni/src/camera.c as state: the `cImage` struct, the
 * file's globals, and the functions that update them in place. Each function
 * that takes the image mutex is one atomic step; the mutex is a ghost flag.
 */
module Camera {
  import opened Wrappers
  import FrameSlot
  import TextureSync
  import Layout
  import Orientation

  /** The `cImage` struct: one latest-frame slot plus its texture. */
  class Image {
    var texture: Option<TextureSync.Texture>
    var data: array?<bv8>
    var length: nat
    var width: int
    var height: int
    var videoRatio: real
    var isNew: bool
    /** Whether the image mutex is held. */
    ghost var locked: bool

    ghost predicate Valid()
      reads this
    {
      data != null ==> data.Length == length
    }

    /** The slot this struct holds. */
    ghost function Slot(): (s: FrameSlot.SlotState)
      reads this, data
    {
      FrameSlot.SlotState(if data == null then None else Some(data[..]), length, width, height, isNew)
    }

    /** The zero-filled struct of cImage_New. */
    constructor ()
      ensures Valid() && Slot() == FrameSlot.Empty && !locked
      ensures texture == None && videoRatio == 0.0
    {
      texture := None;
      data := null;
      length, width, height := 0, 0, 0;
      videoRatio := 0.0;
      isNew := false;
      locked := false;
    }

    /** SDL_LockMutex: blocks other callers until the matching unlock. */
    ghost method Lock()
      requires !locked
      modifies this`locked
      ensures locked
    {
      locked := true;
    }

    /** SDL_UnlockMutex. */
    ghost method Unlock()
      requires locked
      modifies this`locked
      ensures !locked
    {
      locked := false;
    }
  }

  /**
   * cImage_New: allocating the struct or creating its mutex may fail, and then
   * no image is handed out; otherwise the image is zero-filled and unlocked.
   */
  method ImageNew(callocOk: bool, mutexOk: bool) returns (img: Image?)
    ensures img != null <==> callocOk && mutexOk
    ensures img != null ==> fresh(img) && img.Valid() && img.Slot() == FrameSlot.Empty && !img.locked
                            && img.texture == None && img.videoRatio == 0.0
  {
    if !callocOk {
      return null;
    }
    img := new Image();
    if !mutexOk {
      // cImage_Destroy releases the half-built struct
      img := null;
    }
  }

  datatype AppResult = Continue | Success | Failure

  datatype EventType = Quit | WindowResized | OtherEvent

  /** SDL_FlipMode: how the drawn texture is mirrored. */
  datatype FlipMode = FlipNone | FlipHorizontal | FlipVertical

  /** The renderer calls of one iteration, in the order they are made. */
  datatype Step = Clear | Sync | Draw(rect: Layout.Rect, angle: int, flip: FlipMode) | Present

  /** The draw of cImage_Render: the layout rectangle, rotated by `angle` and flipped vertically. */
  function DrawStep(screen: Layout.Rect, angle: int, videoRatio: real): (step: Step)
    requires videoRatio > 0.0
  {
    Draw(Layout.CalculateRect(screen, angle, videoRatio), angle, FlipVertical)
  }

  /** The globals of camera.c: the cached texture size, the image, the orientation and the screen rectangle. */
  class App {
    var mWidth: int
    var mHeight: int
    const image: Image
    var mOrientation: int
    var screenRect: Layout.Rect

    ghost predicate Valid()
      reads this, image
    {
      image.Valid() && TextureSync.Valid(TextureView())
    }

    /** The presenter state: the cached size and the image's texture and ratio. */
    ghost function TextureView(): (t: TextureSync.TextureState)
      reads this, image
    {
      TextureSync.TextureState(mWidth, mHeight, image.texture, image.videoRatio)
    }

    /** The statics before SDL_AppInit queries the display, holding a new image. */
    constructor (img: Image)
      requires img.Valid() && img.Slot() == FrameSlot.Empty && !img.locked
      requires img.texture == None && img.videoRatio == 0.0
      ensures Valid() && image == img && TextureView() == TextureSync.Initial
      ensures mOrientation == 270 && screenRect == Layout.Rect(0.0, 0.0, 0.0, 0.0)
    {
      mWidth, mHeight := 0, 0;
      image := img;
      mOrientation := 270;
      screenRect := Layout.Rect(0.0, 0.0, 0.0, 0.0);
    }

    /**
     * processYUVImage: store one frame in the slot under the mutex. The new
     * slot is `Submitted` of the old one; the texture side is not touched, and
     * the mutex is released on every path.
     */
    method ProcessYUVImage(yuv: seq<bv8>, width: int, height: int, allocOk: bool)
      requires Valid() && !image.locked
      modifies image, image.data
      ensures Valid() && !image.locked
      ensures image.Slot() == FrameSlot.Submitted(old(image.Slot()), yuv, width, height, allocOk)
      ensures image.texture == old(image.texture) && image.videoRatio == old(image.videoRatio)
      ensures image.data == null || image.data == old(image.data) || fresh(image.data)
    {
      image.Lock();
      ghost var before := image.Slot();
      var dataLen := |yuv|;
      var stored := true;
      if dataLen > image.length || (image.data == null && dataLen > 0) {
        if dataLen > image.length {
          image.length := dataLen;
        }
        // free the old storage, then calloc the new one
        image.data := null;
        if allocOk {
          image.data := new bv8[image.length](_ => 0);
        } else {
          stored := false;
        }
      }
      if stored {
        var d := image.data;
        if d != null {
          ghost var prev := d[..];
          assert prev == (if FrameSlot.MustGrow(before, dataLen) then FrameSlot.Zeros(d.Length)
                          else before.data.value);
          forall i | 0 <= i < dataLen {
            d[i] := yuv[i];
          }
          assert d[..] == FrameSlot.CopyIn(prev, yuv);
        }
        image.isNew := true;
        image.width := width;
        image.height := height;
      }
      image.Unlock();
    }

    /**
     * cImage_TextureUpdate: under the mutex, recreate the texture if the
     * cached size differs from the slot's, then upload new data. The result,
     * the presenter state and the `new` flag are those of `TextureUpdated`;
     * the rest of the slot is untouched and the mutex is released on every path.
     */
    method TextureUpdate(createOk: bool, uploadOk: bool) returns (ok: bool)
      requires Valid() && !image.locked
      modifies this`mWidth, this`mHeight, image
      ensures Valid() && !image.locked
      ensures var r := TextureSync.TextureUpdated(old(TextureView()), old(image.Slot()), createOk, uploadOk);
              ok == r.ok && TextureView() == r.state && image.Slot() == old(image.Slot()).(isNew := r.isNew)
      ensures image.data == old(image.data)
    {
      image.Lock();
      ok := false;
      var failed := false;
      if mWidth != image.width || mHeight != image.height {
        // destroy the old texture, then create one at the slot's size
        image.texture := None;
        image.texture := TextureSync.CreateTexture(image.width, image.height, createOk);
        if image.texture.None? {
          failed := true;
        } else {
          mWidth := image.width;
          mHeight := image.height;
          image.videoRatio := image.width as real / image.height as real;
        }
      }
      if !failed && image.length != 0 && image.isNew {
        if !TextureSync.UploadSucceeds(image.texture, image.data != null, uploadOk) {
          failed := true;
        } else {
          image.isNew := false;
        }
      }
      if !failed {
        ok := true;
      }
      image.Unlock();
    }

    /**
     * cImage_Render: update the texture, then, if there is one, draw it at
     * `mOrientation` into the layout rectangle of the screen. The steps made
     * are Sync, then Draw when a texture exists; the call fails when the
     * update or the draw fails.
     */
    method Render(createOk: bool, uploadOk: bool, drawOk: bool) returns (ok: bool, ghost steps: seq<Step>)
      requires Valid() && !image.locked
      modifies this`mWidth, this`mHeight, image
      ensures Valid() && !image.locked && image.data == old(image.data)
      ensures var r := TextureSync.TextureUpdated(old(TextureView()), old(image.Slot()), createOk, uploadOk);
              TextureView() == r.state && image.Slot() == old(image.Slot()).(isNew := r.isNew)
              && ok == (r.ok && (r.state.texture.None? || drawOk))
              && (r.ok && r.state.texture.Some? ==> image.videoRatio > 0.0 && steps == [Sync, DrawStep(screenRect, mOrientation, image.videoRatio)])
              && (!r.ok || r.state.texture.None? ==> steps == [Sync])
    {
      ok := false;
      steps := [Sync];
      var synced := TextureUpdate(createOk, uploadOk);
      if synced {
        if image.texture.Some? {
          TextureSync.RatioPositive(TextureView());
          var rect := Layout.CalculateRect(screenRect, mOrientation, image.videoRatio);
          steps := steps + [Draw(rect, mOrientation, FlipVertical)];
          ok := drawOk;
        } else {
          ok := true;
        }
      }
    }

    /**
     * SDL_AppEvent: a quit event ends the program with success; a resize
     * re-queries the orientation and then the screen rectangle, failing at the
     * first query that fails (the orientation may already have changed then);
     * any other event changes nothing.
     */
    method AppEvent(ev: EventType, displayId: nat, reported: Orientation.DisplayOrientation, output: Option<Layout.Size>)
      returns (r: AppResult)
      modifies this`mOrientation, this`screenRect
      ensures ev == Quit ==> r == Success && mOrientation == old(mOrientation) && screenRect == old(screenRect)
      ensures ev == OtherEvent ==> r == Continue && mOrientation == old(mOrientation) && screenRect == old(screenRect)
      ensures ev == WindowResized ==>
                var o := Orientation.GetOrientation(displayId, reported, old(mOrientation));
                var sr := Layout.GetScreenRect(output, old(screenRect));
                mOrientation == o.1
                && screenRect == (if o.0 then sr.1 else old(screenRect))
                && r == (if o.0 && sr.0 then Continue else Failure)
    {
      if ev == Quit {
        return Success;
      }
      if ev == WindowResized {
        var o := Orientation.GetOrientation(displayId, reported, mOrientation);
        mOrientation := o.1;
        if !o.0 {
          return Failure;
        }
        var sr := Layout.GetScreenRect(output, screenRect);
        screenRect := sr.1;
        if !sr.0 {
          return Failure;
        }
      }
      return Continue;
    }

    /**
     * SDL_AppIterate: clear, render, present, stopping at the first failure.
     * The steps made are recorded in order; every step that ran succeeded but
     * the last one when the result is Failure.
     */
    method AppIterate(clearOk: bool, createOk: bool, uploadOk: bool, drawOk: bool, presentOk: bool)
      returns (r: AppResult, ghost steps: seq<Step>)
      requires Valid() && !image.locked
      modifies this`mWidth, this`mHeight, image
      ensures Valid() && !image.locked && image.data == old(image.data)
      ensures !clearOk ==> r == Failure && steps == [Clear]
                           && TextureView() == old(TextureView()) && image.Slot() == old(image.Slot())
      ensures clearOk ==>
                var u := TextureSync.TextureUpdated(old(TextureView()), old(image.Slot()), createOk, uploadOk);
                var rendered := u.ok && (u.state.texture.None? || drawOk);
                TextureView() == u.state && image.Slot() == old(image.Slot()).(isNew := u.isNew)
                && r == (if rendered && presentOk then Continue else Failure)
                && (u.ok && u.state.texture.Some? ==> image.videoRatio > 0.0)
                && steps == [Clear, Sync]
                            + (if u.ok && u.state.texture.Some?
                               then [DrawStep(screenRect, mOrientation, image.videoRatio)] else [])
                            + (if rendered then [Present] else [])
      ensures r == Continue ==> steps[|steps| - 1] == Present
    {
      steps := [Clear];
      if !clearOk {
        return Failure, steps;
      }
      var ok, renderSteps := Render(createOk, uploadOk, drawOk);
      steps := steps + renderSteps;
      if !ok {
        return Failure, steps;
      }
      steps := steps + [Present];
      if !presentOk {
        return Failure, steps;
      }
      return Continue, steps;
    }
  }
}
