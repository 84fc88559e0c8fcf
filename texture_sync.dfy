/**
 * `cImage_TextureUpdate` of app/jni/src/camera.c as values: the cached size
 * `mWidth`/`mHeight`, the image's texture and `videoRatio`, and the slot's
 * `new` flag. The SDL texture is an opaque handle; creating and uploading it
 * succeed or fail as given.
 */
module TextureSync {
  import opened Wrappers
  import FrameSlot

  /** A streaming NV12 texture handle, with the size it was created at. */
  datatype Texture = Texture(width: int, height: int)

  /** The presenter's state: the globals mWidth/mHeight and the image's texture and videoRatio. */
  datatype TextureState = TextureState(mWidth: int, mHeight: int, texture: Option<Texture>, videoRatio: real)

  /** Before the first update: zero cached size, no texture, zero ratio. */
  const Initial := TextureState(0, 0, None, 0.0)

  /**
   * A live texture has the cached size, which is positive, and the ratio is
   * that size's width over its height.
   */
  predicate Valid(t: TextureState)
  {
    t.texture.Some? ==>
      t.texture.value == Texture(t.mWidth, t.mHeight) && t.mWidth > 0 && t.mHeight > 0
      && t.videoRatio == t.mWidth as real / t.mHeight as real
  }

  /** Whenever a texture is there to draw, the ratio handed to the layout is positive. */
  lemma RatioPositive(t: TextureState)
    requires Valid(t) && t.texture.Some?
    ensures t.videoRatio > 0.0
  {
  }

  /**
   * SDL_CreateTexture: a zero or negative size is refused; otherwise the
   * outcome is the given one.
   */
  function CreateTexture(width: int, height: int, createOk: bool): (t: Option<Texture>)
    ensures t.Some? <==> createOk && width > 0 && height > 0
    ensures t.Some? ==> t.value == Texture(width, height)
  {
    if createOk && width > 0 && height > 0 then Some(Texture(width, height)) else None
  }

  /**
   * SDL_UpdateTexture: a null texture or null pixels are refused; otherwise
   * the outcome is the given one.
   */
  predicate UploadSucceeds(texture: Option<Texture>, hasPixels: bool, uploadOk: bool)
  {
    texture.Some? && hasPixels && uploadOk
  }

  /**
   * What one update did: its result, the new presenter state, the new value
   * of the slot's `new` flag, and whether it recreated the texture and whether
   * it uploaded the slot's bytes.
   */
  datatype SyncOutcome = SyncOutcome(ok: bool, state: TextureState, isNew: bool, recreated: bool, uploaded: bool)

  /**
   * One call of cImage_TextureUpdate. A size change destroys the texture and
   * creates one at the slot's size; on success the cached size and the ratio
   * follow. Bytes are uploaded only when `length != 0` and `new`, and a
   * successful upload clears `new`. A successful call leaves the cached size
   * equal to the slot's.
   */
  function TextureUpdated(t: TextureState, s: FrameSlot.SlotState, createOk: bool, uploadOk: bool): (r: SyncOutcome)
    requires Valid(t)
    ensures Valid(r.state)
    ensures r.ok ==> r.state.mWidth == s.width && r.state.mHeight == s.height
    ensures r.ok && r.state.texture.Some? ==> r.state.texture.value == Texture(s.width, s.height)
  {
    var resized := t.mWidth != s.width || t.mHeight != s.height;
    var created := CreateTexture(s.width, s.height, createOk);
    if resized && created.None? then
      SyncOutcome(false, t.(texture := None), s.isNew, true, false)
    else
      var t1 := if resized then TextureState(s.width, s.height, created, s.width as real / s.height as real)
                else t;
      if s.length != 0 && s.isNew then
        if UploadSucceeds(t1.texture, s.data.Some?, uploadOk) then SyncOutcome(true, t1, false, resized, true)
        else SyncOutcome(false, t1, true, resized, false)
      else SyncOutcome(true, t1, s.isNew, resized, false)
  }

  /** The texture is recreated exactly when the cached size differs from the slot's. */
  lemma RecreatedIffResized(t: TextureState, s: FrameSlot.SlotState, createOk: bool, uploadOk: bool)
    requires Valid(t)
    ensures TextureUpdated(t, s, createOk, uploadOk).recreated
            <==> (t.mWidth, t.mHeight) != (s.width, s.height)
    ensures !TextureUpdated(t, s, createOk, uploadOk).recreated
            ==> TextureUpdated(t, s, createOk, uploadOk).state == t
  {
  }

  /**
   * A recreation that succeeds records the slot's size and its ratio; one that
   * fails returns false with no texture and the cached size untouched, so the
   * next call on the same slot tries again.
   */
  lemma Recreation(t: TextureState, s: FrameSlot.SlotState, createOk: bool, uploadOk: bool, createOk2: bool, uploadOk2: bool)
    requires Valid(t) && (t.mWidth, t.mHeight) != (s.width, s.height)
    ensures var r := TextureUpdated(t, s, createOk, uploadOk);
            if createOk && s.width > 0 && s.height > 0 then
              r.state.mWidth == s.width && r.state.mHeight == s.height
              && r.state.texture == Some(Texture(s.width, s.height))
              && r.state.videoRatio == s.width as real / s.height as real
            else
              !r.ok && r.state.texture.None? && r.state.mWidth == t.mWidth && r.state.mHeight == t.mHeight
              && r.isNew == s.isNew && TextureUpdated(r.state, s, createOk2, uploadOk2).recreated
  {
  }

  /**
   * Bytes are uploaded only when the slot has data and it is new, and then a
   * successful call always uploads them and clears the flag; otherwise the
   * flag is left as it was, also when the call fails.
   */
  lemma UploadOnlyNewData(t: TextureState, s: FrameSlot.SlotState, createOk: bool, uploadOk: bool)
    requires Valid(t)
    ensures var r := TextureUpdated(t, s, createOk, uploadOk);
            (r.uploaded ==> s.length != 0 && s.isNew && r.ok && !r.isNew)
            && (r.ok && s.length != 0 && s.isNew ==> r.uploaded)
            && (!r.uploaded ==> r.isNew == s.isNew)
  {
  }

  /**
   * No duplicate consume: a second update with no submission in between
   * recreates nothing, uploads nothing and succeeds, changing nothing.
   */
  lemma NoDuplicateConsume(t: TextureState, s: FrameSlot.SlotState, c1: bool, u1: bool, c2: bool, u2: bool)
    requires Valid(t) && TextureUpdated(t, s, c1, u1).ok
    ensures var r1 := TextureUpdated(t, s, c1, u1);
            var r2 := TextureUpdated(r1.state, s.(isNew := r1.isNew), c2, u2);
            r2.ok && !r2.recreated && !r2.uploaded && r2.state == r1.state && r2.isNew == r1.isNew
  {
  }

  /**
   * After any burst of submissions ending in a stored frame, a successful
   * update uploads that frame's bytes and leaves the texture at its size.
   */
  lemma LatestFrameUploaded(t: TextureState, s: FrameSlot.SlotState, subs: seq<FrameSlot.Submission>, createOk: bool, uploadOk: bool)
    requires Valid(t) && FrameSlot.Valid(s)
    requires subs != [] && subs[|subs| - 1].allocOk && |subs[|subs| - 1].bytes| > 0
    ensures var last := subs[|subs| - 1];
            var slot := FrameSlot.SubmittedAll(s, subs);
            var r := TextureUpdated(t, slot, createOk, uploadOk);
            slot.data.Some? && |last.bytes| <= |slot.data.value| && slot.data.value[..|last.bytes|] == last.bytes
            && (r.ok ==> r.uploaded && !r.isNew && r.state.mWidth == last.width && r.state.mHeight == last.height)
  {
    FrameSlot.LatestWins(s, subs);
    FrameSlot.LengthIsHighWaterMark(s, subs);
  }
}
