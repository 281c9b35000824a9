/**
 * The image viewer: which image is shown, its zoom factor and pan offset,
 * the mouse-drag session, the recentering effect and the geometry of the
 * bounding-box overlays.
 *
 * The on-screen image is taken to be laid out at its natural size, under the
 * CSS transform `translate(offset) scale(scale)` with its origin at the top
 * left, so an image-space point p is drawn at `p * scale + offset` (ToScreen).
 * The page's `max-w-full max-h-full` shrinks the layout box of an image larger
 * than its container, so the geometry below holds for images that fit it.
 */
module ImgView {
  import opened Records

  /** Zoom factor bounds and the factor one zoom button press applies. */
  const MinScale: real := 0.2
  const MaxScale: real := 5.0
  const ZoomStep: real := 1.2

  datatype Point = Point(x: real, y: real)

  const Origin: Point := Point(0.0, 0.0)

  /** An on-screen rectangle: top-left corner and size, in pixels. */
  datatype Rect = Rect(left: real, top: real, width: real, height: real)

  // ---------------------------------------------------------------------
  // The transform shared by the image and its overlays
  // ---------------------------------------------------------------------

  /** Where the image-space point p is drawn under `(scale, offset)`. */
  function ToScreen(p: Point, scale: real, offset: Point): Point {
    Point(p.x * scale + offset.x, p.y * scale + offset.y)
  }

  /** The screen rectangle covered by an image of natural size iw x ih. */
  function ImageRect(iw: real, ih: real, scale: real, offset: Point): (r: Rect)
    ensures Point(r.left, r.top) == ToScreen(Origin, scale, offset)
    ensures Point(r.left + r.width, r.top + r.height) == ToScreen(Point(iw, ih), scale, offset)
  {
    Rect(offset.x, offset.y, iw * scale, ih * scale)
  }

  /** The rectangle `r` lies inside `outer`. */
  predicate Within(r: Rect, outer: Rect) {
    outer.left <= r.left && r.left + r.width <= outer.left + outer.width &&
    outer.top <= r.top && r.top + r.height <= outer.top + outer.height
  }

  // ---------------------------------------------------------------------
  // Bounding-box overlays
  // ---------------------------------------------------------------------

  /**
   * The overlay drawn for one box: its corners are the box's image-space
   * corners under the image's own transform, so the overlay tracks the
   * pixels it annotates through every zoom and pan.
   */
  function OverlayRect(b: BBox, scale: real, offset: Point): (r: Rect)
    ensures Point(r.left, r.top) == ToScreen(Point(b.x, b.y), scale, offset)
    ensures Point(r.left + r.width, r.top + r.height)
         == ToScreen(Point(b.x + b.width, b.y + b.height), scale, offset)
  {
    Rect(b.x * scale + offset.x, b.y * scale + offset.y, b.width * scale, b.height * scale)
  }

  /** One overlay per box, in the order of the boxes. */
  function Overlays(boxes: seq<BBox>, scale: real, offset: Point): (r: seq<Rect>)
    ensures |r| == |boxes|
    ensures forall i :: 0 <= i < |boxes| ==> r[i] == OverlayRect(boxes[i], scale, offset)
  {
    if boxes == [] then []
    else [OverlayRect(boxes[0], scale, offset)] + Overlays(boxes[1..], scale, offset)
  }

  /** A box covering the whole image is drawn exactly on the image. */
  lemma FullImageBoxCoversImage(iw: real, ih: real, confidence: real, labelText: string,
                                scale: real, offset: Point)
    ensures OverlayRect(BBox(confidence, labelText, 0.0, 0.0, iw, ih), scale, offset)
         == ImageRect(iw, ih, scale, offset)
  {
  }

  /** A box inside the image yields an overlay inside the drawn image. */
  lemma BoxInsideImageStaysInside(b: BBox, iw: real, ih: real, scale: real, offset: Point)
    requires 0.0 <= b.x && 0.0 <= b.width && b.x + b.width <= iw
    requires 0.0 <= b.y && 0.0 <= b.height && b.y + b.height <= ih
    requires scale > 0.0
    ensures Within(OverlayRect(b, scale, offset), ImageRect(iw, ih, scale, offset))
  {
    var o := OverlayRect(b, scale, offset);
    MulMonotone(0.0, b.x, scale);
    MulMonotone(b.x + b.width, iw, scale);
    assert o.left + o.width == (b.x + b.width) * scale + offset.x;
    MulMonotone(0.0, b.y, scale);
    MulMonotone(b.y + b.height, ih, scale);
    assert o.top + o.height == (b.y + b.height) * scale + offset.y;
  }

  lemma MulMonotone(a: real, b: real, s: real)
    requires a <= b && s > 0.0
    ensures a * s <= b * s
  {
    assert b * s - a * s == (b - a) * s;
  }

  // ---------------------------------------------------------------------
  // Recentering
  // ---------------------------------------------------------------------

  /**
   * The offset the recentering effect writes: it places the scaled image so
   * that the space left over in the container is split evenly on both sides.
   */
  function Centered(containerWidth: real, containerHeight: real,
                    imageWidth: real, imageHeight: real, scale: real): (r: Point)
    ensures 2.0 * r.x + imageWidth * scale == containerWidth
    ensures 2.0 * r.y + imageHeight * scale == containerHeight
  {
    Point((containerWidth - imageWidth * scale) / 2.0,
          (containerHeight - imageHeight * scale) / 2.0)
  }

  /**
   * The margins left and right of (above and below) the drawn image are equal
   * exactly when the offset is the centered one.
   */
  lemma CenteredIffEqualMargins(cw: real, ch: real, iw: real, ih: real, scale: real, offset: Point)
    ensures var img := ImageRect(iw, ih, scale, offset);
            (img.left == cw - (img.left + img.width) && img.top == ch - (img.top + img.height))
            <==> offset == Centered(cw, ch, iw, ih, scale)
  {
  }

  // ---------------------------------------------------------------------
  // Zoom
  // ---------------------------------------------------------------------

  /** The zoom factor after the zoom-in button: one step up, saturating at MaxScale. */
  function ZoomedIn(scale: real): (r: real)
    ensures r <= MaxScale && r <= scale * ZoomStep
    ensures r == MaxScale || r == scale * ZoomStep
  {
    if scale * ZoomStep < MaxScale then scale * ZoomStep else MaxScale
  }

  /** The zoom factor after the zoom-out button: one step down, saturating at MinScale. */
  function ZoomedOut(scale: real): (r: real)
    ensures r >= MinScale && r >= scale / ZoomStep
    ensures r == MinScale || r == scale / ZoomStep
  {
    if scale / ZoomStep > MinScale then scale / ZoomStep else MinScale
  }

  datatype ZoomButton = ZoomIn | ZoomOut

  /** The zoom factor after pressing the buttons in order. */
  function ApplyZooms(scale: real, presses: seq<ZoomButton>): real
    decreases |presses|
  {
    if presses == [] then scale
    else
      var next := if presses[0] == ZoomIn then ZoomedIn(scale) else ZoomedOut(scale);
      ApplyZooms(next, presses[1..])
  }

  /** A zoom factor within bounds stays within bounds whatever buttons are pressed. */
  lemma {:induction false} ZoomsStayInRange(scale: real, presses: seq<ZoomButton>)
    requires MinScale <= scale <= MaxScale
    ensures MinScale <= ApplyZooms(scale, presses) <= MaxScale
    decreases |presses|
  {
    if presses != [] {
      var next := if presses[0] == ZoomIn then ZoomedIn(scale) else ZoomedOut(scale);
      ZoomsStayInRange(next, presses[1..]);
    }
  }

  /** From the initial factor 1 no sequence of presses leaves [MinScale, MaxScale]. */
  lemma ZoomsFromInitialStayInRange(presses: seq<ZoomButton>)
    ensures MinScale <= ApplyZooms(1.0, presses) <= MaxScale
  {
    ZoomsStayInRange(1.0, presses);
  }

  // ---------------------------------------------------------------------
  // Navigation
  // ---------------------------------------------------------------------

  /** The index after "Next" among `count` images: one further unless at the last. */
  function NextIndex(index: int, count: int): (r: int)
    ensures r == index + 1 <==> index < count - 1
    ensures r == index <==> index >= count - 1
  {
    if index < count - 1 then index + 1 else index
  }

  /** The index after "Previous": one back unless at the first. */
  function PreviousIndex(index: int): (r: int)
    ensures r == index - 1 <==> index > 0
    ensures r == index <==> index <= 0
  {
    if index > 0 then index - 1 else index
  }

  /** The navigation buttons are disabled exactly at the bounds. */
  predicate PreviousDisabled(index: int) { index == 0 }
  predicate NextDisabled(index: int, count: int) { index == count - 1 }

  /** Within range, a button is disabled exactly when pressing it would do nothing. */
  lemma DisabledIffNoMove(index: int, count: int)
    requires 0 <= index < count
    ensures PreviousDisabled(index) <==> PreviousIndex(index) == index
    ensures NextDisabled(index, count) <==> NextIndex(index, count) == index
  {
  }

  datatype NavButton = Previous | Next

  /** The index after pressing the navigation buttons in order. */
  function ApplyNavigation(index: int, count: int, presses: seq<NavButton>): int
    decreases |presses|
  {
    if presses == [] then index
    else
      var next := if presses[0] == Next then NextIndex(index, count) else PreviousIndex(index);
      ApplyNavigation(next, count, presses[1..])
  }

  /** An index in range stays in range whatever buttons are pressed. */
  lemma {:induction false} NavigationStaysInRange(index: int, count: int, presses: seq<NavButton>)
    requires 0 <= index < count
    ensures 0 <= ApplyNavigation(index, count, presses) < count
    decreases |presses|
  {
    if presses != [] {
      var next := if presses[0] == Next then NextIndex(index, count) else PreviousIndex(index);
      NavigationStaysInRange(next, count, presses[1..]);
    }
  }

  // ---------------------------------------------------------------------
  // Mouse-drag panning
  // ---------------------------------------------------------------------

  /**
   * The offset during a drag that began at pointer `down` with offset `start`:
   * the image moves by exactly the pointer's displacement since mouse-down.
   */
  function DragOffset(start: Point, down: Point, pointer: Point): (r: Point)
    ensures r.x - start.x == pointer.x - down.x && r.y - start.y == pointer.y - down.y
  {
    Point(start.x + (pointer.x - down.x), start.y + (pointer.y - down.y))
  }

  /** Bringing the pointer back to the mouse-down point restores the mouse-down offset. */
  lemma DragReturnRestores(start: Point, down: Point)
    ensures DragOffset(start, down, down) == start
  {
  }

  /** Two drags back to back move the image as one drag over the whole way. */
  lemma DragsCompose(start: Point, a: Point, b: Point, c: Point)
    ensures DragOffset(DragOffset(start, a, b), b, c) == DragOffset(start, a, c)
  {
  }

  // ---------------------------------------------------------------------
  // The viewer's state
  // ---------------------------------------------------------------------

  class ImageViewer {
    const images: seq<ImageRecord>
    var currentIndex: int
    var scale: real
    var offset: Point
    var isDragging: bool
    /** Pointer position and offset captured at mouse-down. */
    var dragStart: Point
    var offsetStart: Point

    /** The index names an image and the zoom factor is within bounds. */
    predicate Valid()
      reads this
    {
      0 <= currentIndex < |images| && MinScale <= scale <= MaxScale
    }

    /** The image on display. */
    function CurrentImage(): (img: ImageRecord)
      reads this
      requires Valid()
      ensures img in images
    {
      images[currentIndex]
    }

    /** The overlays drawn over the image on display, one per box, in order. */
    function CurrentOverlays(): (r: seq<Rect>)
      reads this
      requires Valid()
      ensures |r| == |CurrentImage().bboxes|
      ensures forall i :: 0 <= i < |r| ==> r[i] == OverlayRect(CurrentImage().bboxes[i], scale, offset)
    {
      Overlays(CurrentImage().bboxes, scale, offset)
    }

    /** The viewer is only mounted with at least one image. */
    constructor (images: seq<ImageRecord>)
      requires |images| > 0
      ensures Valid()
      ensures this.images == images && currentIndex == 0
      ensures scale == 1.0 && offset == Origin && !isDragging
      ensures dragStart == Origin && offsetStart == Origin
    {
      this.images := images;
      currentIndex := 0;
      scale := 1.0;
      offset := Origin;
      isDragging := false;
      dragStart := Origin;
      offsetStart := Origin;
    }

    method ResetView()
      requires Valid()
      modifies this`scale, this`offset
      ensures Valid()
      ensures scale == 1.0 && offset == Origin
    {
      scale := 1.0;
      offset := Origin;
    }

    method HandleNext()
      requires Valid()
      modifies this`currentIndex, this`scale, this`offset
      ensures Valid()
      ensures currentIndex == NextIndex(old(currentIndex), |images|)
      ensures if old(currentIndex) < |images| - 1
              then scale == 1.0 && offset == Origin
              else scale == old(scale) && offset == old(offset)
    {
      if currentIndex < |images| - 1 {
        ResetView();
        currentIndex := currentIndex + 1;
      }
    }

    method HandlePrevious()
      requires Valid()
      modifies this`currentIndex, this`scale, this`offset
      ensures Valid()
      ensures currentIndex == PreviousIndex(old(currentIndex))
      ensures if old(currentIndex) > 0
              then scale == 1.0 && offset == Origin
              else scale == old(scale) && offset == old(offset)
    {
      if currentIndex > 0 {
        ResetView();
        currentIndex := currentIndex - 1;
      }
    }

    method HandleZoomIn()
      requires Valid()
      modifies this`scale
      ensures Valid()
      ensures scale == ZoomedIn(old(scale))
    {
      scale := ZoomedIn(scale);
    }

    method HandleZoomOut()
      requires Valid()
      modifies this`scale
      ensures Valid()
      ensures scale == ZoomedOut(old(scale))
    {
      scale := ZoomedOut(scale);
    }

    /** Starts a drag: remembers the pointer and the offset at this moment. */
    method OnMouseDown(pointer: Point)
      requires Valid()
      modifies this`isDragging, this`dragStart, this`offsetStart
      ensures Valid()
      ensures isDragging && dragStart == pointer && offsetStart == offset
    {
      isDragging := true;
      dragStart := pointer;
      offsetStart := offset;
    }

    /** While dragging, moves the image with the pointer; otherwise does nothing. */
    method OnMouseMove(pointer: Point)
      requires Valid()
      modifies this`offset
      ensures Valid()
      ensures isDragging ==> offset == DragOffset(offsetStart, dragStart, pointer)
      ensures !isDragging ==> offset == old(offset)
    {
      if !isDragging {
        return;
      }
      offset := DragOffset(offsetStart, dragStart, pointer);
    }

    method OnMouseUp()
      requires Valid()
      modifies this`isDragging
      ensures Valid()
      ensures !isDragging
    {
      isDragging := false;
    }

    method OnMouseLeave()
      requires Valid()
      modifies this`isDragging
      ensures Valid()
      ensures !isDragging
    {
      isDragging := false;
    }

    /**
     * The recentering effect's body, given the container's client size and
     * the displayed image's natural size.
     */
    method Recenter(containerWidth: real, containerHeight: real,
                    naturalWidth: real, naturalHeight: real)
      requires Valid()
      modifies this`offset
      ensures Valid()
      ensures offset == Centered(containerWidth, containerHeight, naturalWidth, naturalHeight, scale)
    {
      offset := Centered(containerWidth, containerHeight, naturalWidth, naturalHeight, scale);
    }

    /**
     * What follows a state update: the recentering effect runs when the image
     * on display or the zoom factor differs from the previous render. The run
     * after the first render is this method with a `prevIndex` that is no
     * index (say -1), so from that run on the offset is the centred one.
     */
    method AfterRender(prevIndex: int, prevScale: real,
                       containerWidth: real, containerHeight: real,
                       naturalWidth: real, naturalHeight: real)
      requires Valid()
      modifies this`offset
      ensures Valid()
      ensures if currentIndex != prevIndex || scale != prevScale
              then offset == Centered(containerWidth, containerHeight, naturalWidth, naturalHeight, scale)
              else offset == old(offset)
    {
      if currentIndex != prevIndex || scale != prevScale {
        Recenter(containerWidth, containerHeight, naturalWidth, naturalHeight);
      }
    }
  }

  /** A drag followed by a return of the pointer leaves the image where it was. */
  method DragAndReturn(v: ImageViewer, down: Point, path: seq<Point>)
    requires v.Valid()
    modifies v
    ensures v.Valid()
    ensures v.isDragging && v.offset == old(v.offset)
    ensures v.currentIndex == old(v.currentIndex) && v.scale == old(v.scale)
  {
    v.OnMouseDown(down);
    for i := 0 to |path|
      invariant v.isDragging && v.dragStart == down && v.offsetStart == old(v.offset)
      invariant v.currentIndex == old(v.currentIndex) && v.scale == old(v.scale)
      invariant v.Valid()
    {
      v.OnMouseMove(path[i]);
    }
    v.OnMouseMove(down);
    DragReturnRestores(old(v.offset), down);
  }
}
