/**
 * Placement of the overlay frames in the overlay editor (ResizeWindow2.xaml.cs):
 * an overlay's alignment and X/Y offsets become the frame's alignment and
 * margin, and moving or resizing a frame writes its position (and, for the
 * webcam overlay, its size) back into the overlay's settings.
 *
 * The frame reports its position and size as double values; they are reals
 * here. Opacity and the keystrokes overlay's appearance are not modelled.
 */
module OverlayPlacement {

  datatype Alignment = Start | Center | End

  datatype HorizontalAlignment = Left | HCenter | Right
  datatype VerticalAlignment = Top | VCenter | Bottom

  datatype Thickness = Thickness(left: int, top: int, right: int, bottom: int)

  /** What Update gives the frame: its two alignments and its margin. */
  datatype Placement = Placement(horizontal: HorizontalAlignment, vertical: VerticalAlignment, margin: Thickness)

  /**
   * Update: Start and Center measure the offset from the left/top edge, End
   * from the right/bottom edge; the other margins stay 0.
   */
  function Place(h: Alignment, v: Alignment, x: int, y: int): (p: Placement)
    ensures p.horizontal == (match h case Start => Left case Center => HCenter case End => Right)
    ensures p.vertical == (match v case Start => Top case Center => VCenter case End => Bottom)
    ensures h != End ==> p.margin.left == x && p.margin.right == 0
    ensures h == End ==> p.margin.right == x && p.margin.left == 0
    ensures v != End ==> p.margin.top == y && p.margin.bottom == 0
    ensures v == End ==> p.margin.bottom == y && p.margin.top == 0
  {
    var (horizontal, left, right) :=
      match h
      case Start => (Left, x, 0)
      case Center => (HCenter, x, 0)
      case End => (Right, 0, x);
    var (vertical, top, bottom) :=
      match v
      case Start => (Top, y, 0)
      case Center => (VCenter, y, 0)
      case End => (Bottom, 0, y);
    Placement(horizontal, vertical, Thickness(left, top, right, bottom))
  }

  /** The offsets a placement measures: the margin on the side its alignment names. */
  function Offsets(p: Placement): (int, int) {
    (if p.horizontal == Right then p.margin.right else p.margin.left,
     if p.vertical == Bottom then p.margin.bottom else p.margin.top)
  }

  /** A placement records the offsets it was made from, and nothing on the opposite sides. */
  lemma PlaceRecordsOffsets(h: Alignment, v: Alignment, x: int, y: int)
    ensures Offsets(Place(h, v, x, y)) == (x, y)
    ensures var m := Place(h, v, x, y).margin; m.left * m.right == 0 && m.top * m.bottom == 0
  {
  }

  /** Different alignments or offsets give different placements. */
  lemma PlaceInjective(h1: Alignment, v1: Alignment, x1: int, y1: int, h2: Alignment, v2: Alignment, x2: int, y2: int)
    requires Place(h1, v1, x1, y1) == Place(h2, v2, x2, y2)
    ensures h1 == h2 && v1 == v2 && x1 == x2 && y1 == y2
  {
    PlaceRecordsOffsets(h1, v1, x1, y1);
    PlaceRecordsOffsets(h2, v2, x2, y2);
  }

  /** The (int) cast of a double: truncation toward zero. */
  function Truncate(r: real): (t: int)
    ensures r >= 0.0 ==> 0.0 <= t as real <= r < t as real + 1.0
    ensures r < 0.0 ==> t as real - 1.0 < r <= t as real <= 0.0
  {
    if r >= 0.0 then r.Floor else -((-r).Floor)
  }

  /** Whole values survive the cast unchanged. */
  lemma TruncateWhole(n: int)
    ensures Truncate(n as real) == n
  {
  }

  /** The settings of a positioned overlay. */
  class OverlaySettings {
    var horizontalAlignment: Alignment
    var verticalAlignment: Alignment
    var x: int
    var y: int
    /** Only the webcam overlay has a size. */
    var resizeWidth: int
    var resizeHeight: int

    constructor (h: Alignment, v: Alignment, x: int, y: int, w: int, hgt: int)
      ensures horizontalAlignment == h && verticalAlignment == v && this.x == x && this.y == y
      ensures resizeWidth == w && resizeHeight == hgt
    {
      horizontalAlignment, verticalAlignment := h, v;
      this.x, this.y := x, y;
      resizeWidth, resizeHeight := w, hgt;
    }
  }

  /** The frame (LayerFrame2) that stands for an overlay in the editor. */
  class LayerFrame {
    var placement: Placement

    constructor ()
      ensures placement == Placement(Left, Top, Thickness(0, 0, 0, 0))
    {
      placement := Placement(Left, Top, Thickness(0, 0, 0, 0));
    }

    /** Update: place the frame from the settings. */
    method Update(settings: OverlaySettings)
      modifies this
      ensures placement == Place(settings.horizontalAlignment, settings.verticalAlignment, settings.x, settings.y)
    {
      var left, top, right, bottom := 0, 0, 0, 0;
      var horizontal, vertical := placement.horizontal, placement.vertical;
      match settings.horizontalAlignment {
        case Start => horizontal := Left; left := settings.x;
        case Center => horizontal := HCenter; left := settings.x;
        case End => horizontal := Right; right := settings.x;
      }
      match settings.verticalAlignment {
        case Start => vertical := Top; top := settings.y;
        case Center => vertical := VCenter; top := settings.y;
        case End => vertical := Bottom; bottom := settings.y;
      }
      placement := Placement(horizontal, vertical, Thickness(left, top, right, bottom));
    }
  }

  /** PositionUpdated of any generated frame: the truncated position is stored. */
  method PositionUpdated(settings: OverlaySettings, px: real, py: real, w: real, h: real)
    modifies settings
    ensures settings.x == Truncate(px) && settings.y == Truncate(py)
    ensures settings.resizeWidth == old(settings.resizeWidth) && settings.resizeHeight == old(settings.resizeHeight)
    ensures settings.horizontalAlignment == old(settings.horizontalAlignment)
    ensures settings.verticalAlignment == old(settings.verticalAlignment)
  {
    settings.x := Truncate(px);
    settings.y := Truncate(py);
  }

  /** The webcam frame runs both handlers: the position, then its own handler for the size. */
  method WebcamPositionUpdated(settings: OverlaySettings, px: real, py: real, w: real, h: real)
    modifies settings
    ensures settings.x == Truncate(px) && settings.y == Truncate(py)
    ensures settings.resizeWidth == Truncate(w) && settings.resizeHeight == Truncate(h)
    ensures settings.horizontalAlignment == old(settings.horizontalAlignment)
    ensures settings.verticalAlignment == old(settings.verticalAlignment)
  {
    PositionUpdated(settings, px, py, w, h);
    settings.resizeWidth := Truncate(w);
    settings.resizeHeight := Truncate(h);
  }
}
