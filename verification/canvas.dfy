/** Canvas sizing, coordinate conversion and drag-to-scroll (js/canvas.js).

    The scroll container is described by a `Viewport`: where its top-left
    corner sits on the screen and how far it is scrolled. The browser's own
    clamping of scroll offsets to the scrollable range is not modelled. */
module Canvas {
  import opened State
  import opened Geometry

  /** Margin added beyond the furthest box, in each axis. */
  const CanvasPadding: real := 500.0
  /** Scroll distance beyond which the back-to-origin button shows. */
  const ScrollThreshold: real := 100.0

  /** The size `updateCanvasBounds` gives the canvas: unset ("auto", fit the
      container) when there are no boxes, otherwise a fixed size. */
  datatype Extent = Auto | Fixed(width: real, height: real)

  function RightEdge(): Box -> real { (b: Box) => b.x + b.width }
  function BottomEdge(): Box -> real { (b: Box) => b.y + b.height }

  /** The running `Math.max` of `updateCanvasBounds`, started at 0 and taken
      over the boxes in order. */
  function MaxEdge(bs: seq<Box>, edge: Box -> real): (m: real)
    ensures m >= 0.0
    ensures forall i :: 0 <= i < |bs| ==> edge(bs[i]) <= m
    ensures m == 0.0 || exists i :: 0 <= i < |bs| && edge(bs[i]) == m
    decreases |bs|
  {
    if |bs| == 0 then 0.0
    else
      var m := MaxEdge(bs[..|bs| - 1], edge);
      var e := edge(bs[|bs| - 1]);
      if m >= e then m else e
  }

  /** `updateCanvasBounds`: the smallest origin-anchored size that holds every
      box's bottom-right corner plus the padding, and is never below the padding. */
  function CanvasBounds(d: Document): (e: Extent)
    ensures e.Auto? <==> |d.boxes| == 0
    ensures e.Fixed? ==> e.width >= CanvasPadding && e.height >= CanvasPadding
    ensures e.Fixed? ==> forall b :: b in d.boxes ==>
              b.x + b.width + CanvasPadding <= e.width && b.y + b.height + CanvasPadding <= e.height
    ensures e.Fixed? ==> (e.width == CanvasPadding
                          || exists b :: b in d.boxes && e.width == b.x + b.width + CanvasPadding)
    ensures e.Fixed? ==> (e.height == CanvasPadding
                          || exists b :: b in d.boxes && e.height == b.y + b.height + CanvasPadding)
  {
    if |d.boxes| == 0 then Auto
    else
      var w := MaxEdge(d.boxes, RightEdge()) + CanvasPadding;
      var h := MaxEdge(d.boxes, BottomEdge()) + CanvasPadding;
      assert forall b :: b in d.boxes ==> b.x + b.width + CanvasPadding <= w by {
        forall b | b in d.boxes ensures b.x + b.width + CanvasPadding <= w {
          var i :| 0 <= i < |d.boxes| && d.boxes[i] == b;
          assert RightEdge()(d.boxes[i]) <= w - CanvasPadding;
        }
      }
      assert forall b :: b in d.boxes ==> b.y + b.height + CanvasPadding <= h by {
        forall b | b in d.boxes ensures b.y + b.height + CanvasPadding <= h {
          var i :| 0 <= i < |d.boxes| && d.boxes[i] == b;
          assert BottomEdge()(d.boxes[i]) <= h - CanvasPadding;
        }
      }
      assert w == CanvasPadding || exists b :: b in d.boxes && w == b.x + b.width + CanvasPadding by {
        if w != CanvasPadding {
          var i :| 0 <= i < |d.boxes| && RightEdge()(d.boxes[i]) == w - CanvasPadding;
          assert d.boxes[i] in d.boxes;
        }
      }
      assert h == CanvasPadding || exists b :: b in d.boxes && h == b.y + b.height + CanvasPadding by {
        if h != CanvasPadding {
          var i :| 0 <= i < |d.boxes| && BottomEdge()(d.boxes[i]) == h - CanvasPadding;
          assert d.boxes[i] in d.boxes;
        }
      }
      Fixed(w, h)
  }

  /** The scroll container: its on-screen top-left corner and its scroll offsets. */
  datatype Viewport = Viewport(left: real, top: real, scrollLeft: real, scrollTop: real)

  /** `getCanvasPosition`: a client (screen) point in canvas coordinates. */
  function CanvasPosition(v: Viewport, clientX: real, clientY: real): (p: Point)
    ensures p.x - v.scrollLeft == clientX - v.left
    ensures p.y - v.scrollTop == clientY - v.top
  {
    Point(clientX - v.left + v.scrollLeft, clientY - v.top + v.scrollTop)
  }

  // ---------------------------------------------------------------------------
  // Drag-to-scroll

  /** The `canvasDrag` record: whether a drag-scroll is active, the pointer
      position where it began and the scroll offsets at that moment. */
  datatype ScrollDrag = ScrollDrag(active: bool, startX: real, startY: real,
                                   scrollLeft: real, scrollTop: real)

  const InitialScrollDrag: ScrollDrag := ScrollDrag(false, 0.0, 0.0, 0.0, 0.0)

  const MiddleButton: int := 1
  const RightButton: int := 2

  /** The pointer-down test: middle button or a press on empty canvas, not
      over a box, popover or floating button, and never the right button. */
  predicate StartsScrollDrag(button: int, onEmptyArea: bool, overExcluded: bool) {
    (button == MiddleButton || onEmptyArea) && !overExcluded && button != RightButton
  }

  /** Pointer-down on the scroll container. `onEmptyArea` says the target is
      the canvas, the container, the inner canvas or the hint;
      `overExcluded` says it lies inside a box, popover or floating button. */
  function ScrollPointerDown(s: ScrollDrag, v: Viewport, button: int, onEmptyArea: bool,
                             overExcluded: bool, clientX: real, clientY: real): (r: ScrollDrag)
    ensures button == RightButton ==> r == s
    ensures !StartsScrollDrag(button, onEmptyArea, overExcluded) ==> r == s
    ensures StartsScrollDrag(button, onEmptyArea, overExcluded) ==>
              (r.active && r.startX == clientX && r.startY == clientY
               && r.scrollLeft == v.scrollLeft && r.scrollTop == v.scrollTop)
  {
    if !(button == MiddleButton || onEmptyArea) then s
    else if overExcluded then s
    else if button == RightButton then s
    else ScrollDrag(true, clientX, clientY, v.scrollLeft, v.scrollTop)
  }

  /** Pointer-move during a drag-scroll: the new scroll offsets; the viewport
      is untouched when no drag-scroll is active. */
  function ScrollPointerMove(s: ScrollDrag, v: Viewport, clientX: real, clientY: real): (r: Viewport)
    ensures !s.active ==> r == v
    ensures s.active ==> (r.scrollLeft + (clientX - s.startX) == s.scrollLeft
                          && r.scrollTop + (clientY - s.startY) == s.scrollTop)
    ensures r.left == v.left && r.top == v.top
  {
    if !s.active then v
    else v.(scrollLeft := s.scrollLeft - (clientX - s.startX),
            scrollTop := s.scrollTop - (clientY - s.startY))
  }

  /** `endDrag`, bound to pointer-up and pointer-cancel. */
  function EndScrollDrag(s: ScrollDrag): (r: ScrollDrag)
    ensures !r.active
    ensures r.startX == s.startX && r.startY == s.startY
    ensures r.scrollLeft == s.scrollLeft && r.scrollTop == s.scrollTop
  {
    if s.active then s.(active := false) else s
  }

  /** `updateVisibility`: the back-to-origin button shows once the view is
      scrolled more than the threshold along either axis. */
  function BackToOriginVisible(v: Viewport): (visible: bool)
    ensures !visible <==> v.scrollLeft <= ScrollThreshold && v.scrollTop <= ScrollThreshold
  {
    v.scrollLeft > ScrollThreshold || v.scrollTop > ScrollThreshold
  }
}
