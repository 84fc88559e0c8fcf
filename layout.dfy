/**
 * Destination-rectangle geometry of app/jni/src/camera.c: `calculateRect` and
 * `getScreenRect`. Floats are modelled as reals.
 */
module Layout {
  import opened Wrappers

  /** An SDL_FRect: top-left corner and size. */
  datatype Rect = Rect(x: real, y: real, w: real, h: real)

  /** A render-output size in pixels, as the renderer reports it. */
  datatype Size = Size(width: int, height: int)

  /** Rotations under which the frame's width axis lies along the display's height axis. */
  predicate IsPortrait(rotation: int)
  {
    rotation == 90 || rotation == 270
  }

  /**
   * The adjusted width and height before the axis swap. The pair keeps the
   * video's aspect ratio (inverted for portrait rotations), covers the display
   * rectangle, and meets it exactly along one axis.
   */
  function Adjusted(display: Rect, rotation: int, videoRatio: real): (wh: (real, real))
    requires videoRatio > 0.0
    ensures wh.0 >= display.w && wh.1 >= display.h
    ensures wh.0 == display.w || wh.1 == display.h
    ensures if IsPortrait(rotation) then wh.1 == videoRatio * wh.0 else wh.0 == videoRatio * wh.1
  {
    var w, h := display.w, display.h;
    if IsPortrait(rotation) then
      if h > w * videoRatio then
        assert (h / videoRatio) * videoRatio == h;
        (h / videoRatio, h)
      else (w, w * videoRatio)
    else
      if w > h * videoRatio then
        assert (w / videoRatio) * videoRatio == w;
        (w, w / videoRatio)
      else (h * videoRatio, h)
  }

  /**
   * The rectangle the frame is drawn into: for every rotation its width is
   * `videoRatio` times its height, and it is centred on the display's centre.
   */
  function CalculateRect(display: Rect, rotation: int, videoRatio: real): (rect: Rect)
    requires videoRatio > 0.0
    ensures rect.w == videoRatio * rect.h
    ensures rect.x + rect.w / 2.0 == display.x + display.w / 2.0
    ensures rect.y + rect.h / 2.0 == display.y + display.h / 2.0
  {
    var midX := display.x + display.w / 2.0;
    var midY := display.y + display.h / 2.0;
    var wh := Adjusted(display, rotation, videoRatio);
    var w := if IsPortrait(rotation) then wh.1 else wh.0;
    var h := if IsPortrait(rotation) then wh.0 else wh.1;
    Rect(midX - w / 2.0, midY - h / 2.0, w, h)
  }

  /**
   * The on-screen extent of a rectangle once the renderer has rotated it by
   * `rotation` about its centre: a quarter turn exchanges its axes.
   */
  function Footprint(rect: Rect, rotation: int): (wh: (real, real))
  {
    if IsPortrait(rotation) then (rect.h, rect.w) else (rect.w, rect.h)
  }

  /**
   * Once rotated, the drawn frame covers the whole display and is cut off
   * along at most one axis: the smallest aspect-preserving cover.
   */
  lemma FootprintCovers(display: Rect, rotation: int, videoRatio: real)
    requires videoRatio > 0.0
    ensures var f := Footprint(CalculateRect(display, rotation, videoRatio), rotation);
            f.0 >= display.w && f.1 >= display.h && (f.0 == display.w || f.1 == display.h)
  {
  }

  /**
   * The rectangle never fits inside a display it does not already match:
   * whenever the display's shape differs from the rotated frame's, the
   * rectangle pokes out of the display along one axis.
   */
  lemma CoverNotContain(display: Rect, rotation: int, videoRatio: real)
    requires videoRatio > 0.0
    requires if IsPortrait(rotation) then display.h != videoRatio * display.w
             else display.w != videoRatio * display.h
    ensures var f := Footprint(CalculateRect(display, rotation, videoRatio), rotation);
            f.0 > display.w || f.1 > display.h
  {
  }

  /**
   * A 1080x1920 display at rotation 270 with a 320x280 video: the portrait
   * branch widens the frame to 1680, and the swapped 1920x1680 rectangle is
   * centred at (540, 960), so it extends 420 units past the left edge.
   */
  lemma PortraitExample()
    ensures CalculateRect(Rect(0.0, 0.0, 1080.0, 1920.0), 270, 320.0 / 280.0)
            == Rect(-420.0, 120.0, 1920.0, 1680.0)
  {
  }

  /**
   * getScreenRect: when the renderer reports its output size the screen
   * rectangle is that size at the origin; otherwise the call fails and the
   * caller's rectangle is left as it was.
   */
  function GetScreenRect(output: Option<Size>, prev: Rect): (r: (bool, Rect))
    ensures r.0 <==> output.Some?
    ensures r.0 ==> r.1.x == 0.0 && r.1.y == 0.0
                    && r.1.w == output.value.width as real && r.1.h == output.value.height as real
    ensures !r.0 ==> r.1 == prev
  {
    match output
    case None => (false, prev)
    case Some(size) => (true, Rect(0.0, 0.0, size.width as real, size.height as real))
  }
}
