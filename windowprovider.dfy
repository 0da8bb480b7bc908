/**
 * The window image provider (WindowProvider.cs): the bounds of the whole
 * desktop, the fixed output size, the choice of the strip of the output
 * bitmap cleared before a window is stretched into it, and how failures of
 * a capture are reported.
 *
 * The window is given by its state at the moment it is read: whether it
 * is alive and its rectangle after Rectangle.Even(). The scaled size the
 * window is stretched to is an input (it is computed in floating point).
 */
module WindowCapture {
  import opened Wrappers

  datatype Rectangle = Rectangle(x: int, y: int, width: int, height: int)

  /** A GDI RECT: left, top, right and bottom edges. */
  datatype Rect = Rect(left: int, top: int, right: int, bottom: int)

  predicate InRect(px: int, py: int, r: Rect) {
    r.left <= px < r.right && r.top <= py < r.bottom
  }

  // ---------------------------------------------------------------------------
  // Desktop bounds

  /**
   * RefreshDesktopSize: the desktop rectangle has its origin at (0, 0) and
   * extends to the farthest right and bottom edge of any screen, and never
   * below 0.
   */
  method RefreshDesktopSize(screens: seq<Rectangle>) returns (desktop: Rectangle)
    ensures desktop.x == 0 && desktop.y == 0
    ensures desktop.width >= 0 && desktop.height >= 0
    ensures forall s :: s in screens ==> s.x + s.width <= desktop.width && s.y + s.height <= desktop.height
    ensures desktop.width == 0 || exists s :: s in screens && s.x + s.width == desktop.width
    ensures desktop.height == 0 || exists s :: s in screens && s.y + s.height == desktop.height
  {
    var height := 0;
    var width := 0;
    for i := 0 to |screens|
      invariant width >= 0 && height >= 0
      invariant forall j :: 0 <= j < i ==> screens[j].x + screens[j].width <= width
      invariant forall j :: 0 <= j < i ==> screens[j].y + screens[j].height <= height
      invariant width == 0 || exists j :: 0 <= j < i && screens[j].x + screens[j].width == width
      invariant height == 0 || exists j :: 0 <= j < i && screens[j].y + screens[j].height == height
    {
      var w := screens[i].x + screens[i].width;
      var h := screens[i].y + screens[i].height;
      if height < h {
        height := h;
      }
      if width < w {
        width := w;
      }
    }
    desktop := Rectangle(0, 0, width, height);
  }

  // ---------------------------------------------------------------------------
  // The strip cleared before stretching

  /**
   * OnCapture clears at most one strip of the output bitmap: the one to the
   * right of the stretched image when the widths differ, otherwise the one
   * below it when the heights differ.
   */
  function ClearedStrip(width: int, height: int, resizeWidth: int, resizeHeight: int): (r: Option<Rect>)
    ensures r.Some? <==> width != resizeWidth || height != resizeHeight
    ensures width != resizeWidth ==> r == Some(Rect(resizeWidth, 0, width, height))
    ensures width == resizeWidth && height != resizeHeight ==> r == Some(Rect(0, resizeHeight, width, height))
  {
    if width != resizeWidth then Some(Rect(resizeWidth, 0, width, height))
    else if height != resizeHeight then Some(Rect(0, resizeHeight, width, height))
    else None
  }

  /**
   * When the stretched image fills the bitmap in at least one direction (as
   * the aspect-preserving ratio intends) every pixel of the bitmap is either
   * drawn by the stretch or cleared, and no pixel is both.
   */
  lemma StripCompletesImage(width: int, height: int, resizeWidth: int, resizeHeight: int, px: int, py: int)
    requires 0 <= resizeWidth <= width && 0 <= resizeHeight <= height
    requires resizeWidth == width || resizeHeight == height
    requires 0 <= px < width && 0 <= py < height
    ensures var strip := ClearedStrip(width, height, resizeWidth, resizeHeight);
      InRect(px, py, Rect(0, 0, resizeWidth, resizeHeight)) != (strip.Some? && InRect(px, py, strip.value))
  {
  }

  /**
   * When both sizes differ only the right strip is cleared: a pixel below
   * the image and left of its right edge is neither drawn nor cleared.
   */
  lemma BottomLeftUncleared(width: int, height: int, resizeWidth: int, resizeHeight: int)
    requires 0 < resizeWidth < width && 0 <= resizeHeight < height
    ensures var strip := ClearedStrip(width, height, resizeWidth, resizeHeight);
      strip.Some? && !InRect(0, resizeHeight, strip.value) && !InRect(0, resizeHeight, Rect(0, 0, resizeWidth, resizeHeight))
  {
  }

  // ---------------------------------------------------------------------------
  // The provider

  /** The window as the provider reads it: alive or not, and its evened rectangle. */
  datatype WindowState = WindowState(isAlive: bool, rect: Rectangle)

  datatype ProviderError = ArgumentNull

  /** The outcome of Capture: a frame, the repeat sentinel, or the propagated cancellation. */
  datatype CaptureResult =
    | Frame(cleared: Option<Rect>, cursorDrawn: bool)
    | Repeat
    | Canceled

  class WindowProvider {
    /** The output size, taken from the window at construction. */
    const width: int
    const height: int
    const includeCursor: bool

    constructor (window: WindowState, includeCursor: bool)
      ensures width == window.rect.width && height == window.rect.height
      ensures this.includeCursor == includeCursor
    {
      width := window.rect.width;
      height := window.rect.height;
      this.includeCursor := includeCursor;
    }

    /** The constructor as callers see it: a missing window is an ArgumentNullException. */
    static method Create(window: Option<WindowState>, includeCursor: bool) returns (r: Result<WindowProvider, ProviderError>)
      ensures r.Err? <==> window.None?
      ensures r.Err? ==> r.error == ArgumentNull
      ensures r.Ok? ==> fresh(r.value)
      ensures r.Ok? ==> r.value.width == window.value.rect.width && r.value.height == window.value.rect.height
      ensures r.Ok? ==> r.value.includeCursor == includeCursor
    {
      match window {
        case None => r := Err(ArgumentNull);
        case Some(w) =>
          var p := new WindowProvider(w, includeCursor);
          r := Ok(p);
      }
    }

    /**
     * One capture of the window. A dead window cancels the recording; any
     * other exception along the way (fails) gives the repeat sentinel.
     * Otherwise the frame holds the stretched window, with the strip it
     * leaves cleared, and the cursor when it is included.
     */
    method Capture(window: WindowState, resizeWidth: int, resizeHeight: int, fails: bool) returns (r: CaptureResult)
      ensures r == Canceled <==> !window.isAlive
      ensures r == Repeat <==> window.isAlive && fails
      ensures r.Frame? <==> window.isAlive && !fails
      ensures r.Frame? ==> r.cleared == ClearedStrip(width, height, resizeWidth, resizeHeight)
      ensures r.Frame? ==> r.cursorDrawn == includeCursor
    {
      var captured := OnCapture(window, resizeWidth, resizeHeight);
      match captured {
        case Err(_) => return Canceled;
        case Ok(strip) =>
          if fails {
            return Repeat;
          }
          return Frame(strip, includeCursor);
      }
    }

    /** OnCapture: cancel on a dead window, else the strip to clear before stretching. */
    method OnCapture(window: WindowState, resizeWidth: int, resizeHeight: int) returns (r: Result<Option<Rect>, ()>)
      ensures r.Err? <==> !window.isAlive
      ensures r.Ok? ==> r.value == ClearedStrip(width, height, resizeWidth, resizeHeight)
    {
      if !window.isAlive {
        return Err(());
      }
      var strip: Option<Rect> := None;
      if width != resizeWidth {
        strip := Some(Rect(resizeWidth, 0, width, height));
      } else if height != resizeHeight {
        strip := Some(Rect(0, resizeHeight, width, height));
      }
      return Ok(strip);
    }
  }
}
