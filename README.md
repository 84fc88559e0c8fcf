# CameraXSDL3 frame path, modelled in Dafny

This project models the frame path of CameraXSDL3. On the Java side, the
activity packs each camera image's planes into one byte array. It hands that
array, with the image's size, to the native `processYUVImage`. On the native
side (`camera.c`), frames go into a single latest-wins slot guarded by a
mutex. The render loop keeps an NV12 texture in step with the slot
(`cImage_TextureUpdate`). It works out the destination rectangle from the
screen, the display orientation and the video's aspect ratio
(`calculateRect`, `getOrientation`, `getScreenRect`). Then it draws and
presents the frame (`SDL_AppIterate`, `SDL_AppEvent`).

Modules:

- `Layout` (layout.dfy): `calculateRect` and `getScreenRect`, over reals.
- `Orientation` (orientation.dfy): the display-orientation table of `getOrientation`.
- `FrameSlot` (frame_slot.dfy): the slot as values. `Submitted` is one call of
  `processYUVImage`; `SubmittedAll` is a burst of calls. This module also
  holds the high-water, latest-wins and tail-keeping lemmas.
- `TextureSync` (texture_sync.dfy): `cImage_TextureUpdate` as values. Its
  lemmas cover recreation, upload, duplicate consumes and the retry after a
  failed creation.
- `Camera` (camera.dfy): the imperative model. Class `Image` is the `cImage`
  struct. Class `App` holds the file's globals (`mWidth`, `mHeight`, `image`,
  `mOrientation`, `screenRect`) and the methods that change them in place.
  Each method takes and releases a ghost `locked` flag where the source
  takes the mutex. The method's contract ties its new state to the
  `FrameSlot`/`TextureSync` functions.
- `Activity` (activity.dfy): `processImage` as two loops over a byte array,
  proved to produce the concatenation of the planes. The class
  `CameraActivity` holds the lifecycle registry's state.

External calls are parameters with two outcomes:

- `calloc` succeeds or fails.
- `SDL_CreateTexture` refuses a zero or negative size; otherwise it succeeds
  or fails as given.
- `SDL_UpdateTexture` refuses a null texture or null pixels; otherwise it
  succeeds or fails as given.
- The clear, draw and present calls succeed or fail as given.
- The display id and orientation are given values.
- The renderer's output size may be missing.

The SDL texture is an opaque handle that remembers only its size.

## What the code does that its comments do not say

- `calculateRect`'s comment (app/jni/src/camera.c:254-255) says the rectangle
  is made to "fit" within the display rectangle. The code makes it *cover* the
  display instead. Before the swap, both adjusted sides are at least the
  display's, and one of them equals it (`Layout.Adjusted`,
  `Layout.FootprintCovers`, `Layout.CoverNotContain`). For 1080x1920 at
  rotation 270 with a 320x280 video, the rectangle is 1920x1680 at
  (-420, 120), so it extends past the display (`Layout.PortraitExample`).
- The same comment (app/jni/src/camera.c:259) says portrait orientations swap
  the width and height adjustments. The portrait branch also inverts the
  ratio test, so the swap undoes the inversion. The rectangle's width is
  `videoRatio` times its height for *every* rotation, 90 and 270 included.
  Only the rotated footprint has the exchanged sides.
- The struct comment on `length` (app/jni/src/camera.c:53) calls it the size
  of the image data in bytes. It is a high-water mark: it is raised only by a
  larger frame, and a smaller frame leaves it as it is. After a 100-byte frame
  and then a 50-byte frame, `length` is still 100, and bytes 50..99 still hold
  the first frame (`FrameSlot.SmallerFrameKeepsTail`).
- The comment on `processYUVImage` (app/jni/src/camera.c:604-605) says a
  failed allocation logs an error and exits. "Exits" means the function
  returns; the program does not stop. It leaves `data` null with `length`
  already raised, and the next frame is handled in that state (see
  "## Findings").
- The comment in `cImage_TextureUpdate` (app/jni/src/camera.c:175) says the
  texture is recreated when its dimensions differ from the frame's. The
  dimensions compared are the cached `mWidth`/`mHeight`, which a failed
  `SDL_CreateTexture` leaves at their old values (app/jni/src/camera.c:187-196).
  The next frame of a new size retries the creation (`TextureSync.Recreation`),
  but a frame of the old cached size does not: the texture stays null and the
  upload fails on it (`TextureSync.TextureUpdated`). `SDL_AppIterate` already
  ends the program on the first failure, so this is not listed as a finding.

## Model

| member | source | states |
|---|---|---|
| `Layout.Adjusted` | app/jni/src/camera.c:274-302 | the adjusted size keeps the video ratio (inverted for 90/270), covers the display and equals it along one axis |
| `Layout.CalculateRect` | app/jni/src/camera.c:266-319 | for every rotation, the rectangle's width is `videoRatio` times its height, and its centre is the display's centre |
| `Layout.FootprintCovers` | app/jni/src/camera.c:279-314 | once rotated by the drawing angle, the rectangle covers the display and meets it along one axis |
| `Layout.CoverNotContain` | app/jni/src/camera.c:279-302 | when the display's shape differs from the frame's, the rectangle extends past the display along one axis |
| `Layout.PortraitExample` | app/jni/src/camera.c:279-318 | 1080x1920 at rotation 270 with ratio 320/280 gives the rectangle (-420, 120, 1920, 1680) |
| `Layout.GetScreenRect` | app/jni/src/camera.c:231-250 | The query succeeds exactly when the renderer reports an output size, and then the rectangle is that size placed at the origin, while a failed query leaves the caller's rectangle as it was. |
| `Orientation.RotationOf` | app/jni/src/camera.c:348-367 | every display orientation maps to one of 0, 90, 180, 270 |
| `Orientation.GetOrientation` | app/jni/src/camera.c:333-373 | a zero display id fails and leaves the angle untouched; otherwise the result is the table's angle |
| `Orientation.RotationTable` | app/jni/src/camera.c:352-367 | UNKNOWN and LANDSCAPE give 180, LANDSCAPE_FLIPPED 0, PORTRAIT 270, PORTRAIT_FLIPPED 90 |
| `Orientation.KnownOrientationsBijective` | app/jni/src/camera.c:352-367 | the four known orientations get four distinct angles, and every angle is used |
| `Orientation.PortraitBranchForPortraitDisplays` | app/jni/src/camera.c:279 | the layout takes its portrait branch exactly for PORTRAIT and PORTRAIT_FLIPPED |
| `FrameSlot.Submitted` | app/jni/src/camera.c:618-656 | with the corrected growth test, storage always holds exactly `length` bytes, and `length` becomes max(old length, frame size) |
| `FrameSlot.SubmittedAsWritten` | app/jni/src/camera.c:625-647 | the code as written faults exactly when storage is null and 0 < frame size <= length; everywhere else it equals `Submitted` |
| `FrameSlot.NullCopyAfterFailedGrowth` | app/jni/src/camera.c:625-647 | a growth whose calloc fails, followed by any non-empty frame no larger, makes the code as written copy into null |
| `FrameSlot.SubmitStores` | app/jni/src/camera.c:646-652 | a submission without allocation failure puts the bytes at the front of storage and keeps the old tail (or calloc's zeros after growth); it records width and height and sets `new` |
| `FrameSlot.SubmitAllocFailure` | app/jni/src/camera.c:625-643 | a failed growth leaves `data` null and `length` raised to cover the frame; `new`, `width` and `height` are unchanged |
| `FrameSlot.SmallerFrameKeepsTail` | app/jni/src/camera.c:625-652 | a smaller frame after a larger one overwrites only its own prefix; the larger frame's remaining bytes stay |
| `FrameSlot.LengthIsHighWaterMark` | app/jni/src/camera.c:625-628 | after any sequence of submissions, `length` is the larger of its old value and the largest frame, so it never decreases |
| `FrameSlot.LatestWins` | app/jni/src/camera.c:646-652 | after a burst of submissions whose last allocation succeeds, the slot holds the last frame's size and bytes, marked new |
| `TextureSync.RatioPositive` | app/jni/src/camera.c:193-196 | whenever a texture exists, `videoRatio` is positive, so the layout's precondition holds whenever something is drawn |
| `TextureSync.TextureUpdated` | app/jni/src/camera.c:169-219 | a live texture has the cached size and ratio; a successful update leaves the cached size, and the texture's size, equal to the slot's |
| `TextureSync.RecreatedIffResized` | app/jni/src/camera.c:176-197 | the texture is recreated iff (mWidth, mHeight) differs from the slot's size; otherwise the presenter state is untouched |
| `TextureSync.Recreation` | app/jni/src/camera.c:176-197 | successful recreation records the slot's size and `width/height`; failure returns false with no texture, keeps mWidth/mHeight and the `new` flag, and the next call tries again |
| `TextureSync.UploadOnlyNewData` | app/jni/src/camera.c:199-214 | bytes are uploaded only when `length != 0` and `new`; a successful call then always uploads and clears `new`; otherwise, also on failure, `new` is unchanged |
| `TextureSync.NoDuplicateConsume` | app/jni/src/camera.c:176-214 | after a successful update, a second update with no submission in between recreates nothing, uploads nothing and changes nothing |
| `TextureSync.LatestFrameUploaded` | app/jni/src/camera.c:199-212 | after a burst of submissions ending in a stored non-empty frame, a successful update uploads that frame and is at its size |
| `Camera.Image.constructor` | app/jni/src/camera.c:132-133 | the new struct is all zero: no storage, zero length and size, not new, no texture, ratio 0 |
| `Camera.ImageNew` | app/jni/src/camera.c:128-156 | an image is handed out iff calloc and mutex creation both succeed, and it is zero-filled and unlocked |
| `Camera.App.constructor` | app/jni/src/camera.c:61-67 | cached size 0x0, no texture, orientation 270, empty screen rectangle |
| `Camera.App.ProcessYUVImage` | app/jni/src/camera.c:613-656 | the new slot is `Submitted` of the old one; the texture and ratio are untouched; the mutex is released on every path; the slot's storage is either the old array, null, or a freshly allocated array, never one the caller holds |
| `Camera.App.TextureUpdate` | app/jni/src/camera.c:169-219 | result, cached size, texture, ratio and `new` are those of `TextureUpdated`; the slot's storage, length and size are untouched; the mutex is released on every path |
| `Camera.App.Render` | app/jni/src/camera.c:388-419 | syncs the texture, then, if one exists, draws it at `mOrientation`, flipped vertically, into `CalculateRect(screenRect, mOrientation, videoRatio)`; fails iff the sync fails or the draw fails |
| `Camera.App.AppEvent` | app/jni/src/camera.c:521-543 | quit gives SUCCESS and changes nothing; resize re-queries orientation and then screen rectangle, failing at the first failed query; other events give CONTINUE |
| `Camera.App.AppIterate` | app/jni/src/camera.c:556-579 | the steps are exactly Clear, Sync, the Draw (its rectangle, angle and vertical flip) when a texture exists, then Present when rendering succeeded, stopping at the first failure; CONTINUE iff clear, render and present all succeed |
| `Activity.ConcatLength` | app/src/main/java/com/example/cameraxsdl3/CameraXsdl3Activity.java:145-151 | the packed bytes are exactly as many as the planes' remaining bytes together |
| `Activity.PlaneAt` | app/src/main/java/com/example/cameraxsdl3/CameraXsdl3Activity.java:154-160 | plane i sits in the packed bytes at the sum of the lengths of planes 0..i-1 |
| `Activity.PackPlanes` | app/src/main/java/com/example/cameraxsdl3/CameraXsdl3Activity.java:144-160 | the array has length `totalSize` and holds the planes' bytes concatenated in plane order |
| `Activity.PackedFrameStored` | app/src/main/java/com/example/cameraxsdl3/CameraXsdl3Activity.java:140-164 | a packed image stored in the slot carries the image's own size, with each plane at its offset |
| `Activity.CameraActivity.ProcessImage` | app/src/main/java/com/example/cameraxsdl3/CameraXsdl3Activity.java:140-164 | the native slot receives the concatenated planes with the image's own width and height, copied into storage that is the old array, null, or freshly allocated |
| `Activity.CameraActivity.constructor` | app/src/main/java/com/example/cameraxsdl3/CameraXsdl3Activity.java:59-68 | onCreate sets the registry to CREATED |
| `Activity.CameraActivity.OnStart` | app/src/main/java/com/example/cameraxsdl3/CameraXsdl3Activity.java:166-170 | onStart sets STARTED unconditionally |
| `Activity.CameraActivity.OnResume` | app/src/main/java/com/example/cameraxsdl3/CameraXsdl3Activity.java:172-176 | onResume sets RESUMED unconditionally |
| `Activity.CameraActivity.OnPause` | app/src/main/java/com/example/cameraxsdl3/CameraXsdl3Activity.java:178-182 | onPause sets STARTED, one level below RESUMED |
| `Activity.CameraActivity.OnStop` | app/src/main/java/com/example/cameraxsdl3/CameraXsdl3Activity.java:184-188 | onStop sets CREATED, one level below STARTED |
| `Activity.CameraActivity.OnDestroy` | app/src/main/java/com/example/cameraxsdl3/CameraXsdl3Activity.java:190-197 | onDestroy sets DESTROYED, the lowest level |

## Findings

| source | as written | input that shows it | evidently intended | confidence | as-written member | corrected member |
|---|---|---|---|---|---|---|
| app/jni/src/camera.c:625-647 | growth is decided by `data_len > length` alone, but a failed `calloc` leaves `data` null with `length` already raised | a frame of n > length bytes whose calloc fails, then any frame of 1..n bytes: no reallocation, and `GetByteArrayRegion` copies into a null pointer | also reallocate (at the recorded `length`) when `data` is null and the frame is non-empty | high, not executed | `FrameSlot.NullCopyAfterFailedGrowth` | `FrameSlot.SubmitStores` |

The as-written step is `FrameSlot.SubmittedAsWritten`. The corrected step is
`FrameSlot.Submitted`, which `Camera.App.ProcessYUVImage` implements. The two
agree on every input except the faulting one. The corrected step still
reproduces the failure state: the old storage is gone, `data` is null,
`length` is raised, and `new`, `width` and `height` are untouched.

## Left out

- Threads and the real mutex: each function that locks is one atomic step, and the mutex is a ghost flag that must be free on entry and is free on every exit.
- Floating point: `calculateRect` and `videoRatio` are over reals, so the aspect and centring facts are exact rather than within rounding.
- Camera.App.Render: `calculateRect` at camera.c:397 also runs when there is no texture and `videoRatio` is still 0 (a division by zero in float). That rectangle is never used, so the model computes the rectangle only when it is drawn.
- Texture contents: the pitch argument of `SDL_UpdateTexture` and how many bytes it reads are not modelled. A texture remembers only its size.
- `free_memory` and `cImage_Destroy` (camera.c:80-115) only release resources; `SDL_AppQuit` only calls `cImage_Destroy`.
- Camera.ImageNew: when mutex creation fails, the source leaves `*addressImage` pointing at the freed struct; the model hands back no image, because what later uses that pointer (`SDL_AppQuit`) is not part of this model.
- `SDL_AppInit`, `JavaStartCamera`, the permission request, window/renderer creation, `startCameraX`, `bindImageAnalysis`, the executor and `getLifecycle` are platform and library plumbing.
- Orientation.GetOrientation: the display orientation is one of SDL's five enum values, so the `270` assigned before the switch is always overwritten and is not modelled separately.
- Activity.PackPlanes: does not model 32-bit `int` overflow of `totalSize` or `offset`, which needs frames over 2 GiB.
- The lifecycle methods leave out the `super.onX()` calls, the registry's observer dispatch and `cameraExecutor.shutdown()`.
