/** Properties of the canvas maths: how the extent responds to the document
    operations, and what a drag-scroll does to canvas coordinates. */
module CanvasLaws {
  import opened State
  import opened Geometry
  import opened Canvas

  /** Clearing the document returns the canvas to container-fit sizing. */
  lemma ClearedCanvasIsAuto(d: Document)
    ensures CanvasBounds(ClearState(d)) == Auto
  {
  }

  /** Adding a box never shrinks the canvas, and the new box fits inside it
      with the full padding to spare. */
  lemma AddBoxGrowsExtent(d: Document, b: Box)
    ensures CanvasBounds(AddBox(d, b)).Fixed?
    ensures b.x + b.width + CanvasPadding <= CanvasBounds(AddBox(d, b)).width
    ensures b.y + b.height + CanvasPadding <= CanvasBounds(AddBox(d, b)).height
    ensures CanvasBounds(d).Fixed? ==>
              CanvasBounds(d).width <= CanvasBounds(AddBox(d, b)).width
              && CanvasBounds(d).height <= CanvasBounds(AddBox(d, b)).height
  {
    var a := AddBox(d, b);
    assert a.boxes[|d.boxes|] in a.boxes;
    if CanvasBounds(d).Fixed? {
      var e := CanvasBounds(d);
      if e.width != CanvasPadding {
        var k :| k in d.boxes && e.width == k.x + k.width + CanvasPadding;
        var i :| 0 <= i < |d.boxes| && d.boxes[i] == k;
        assert a.boxes[i] == k;
      }
      if e.height != CanvasPadding {
        var k :| k in d.boxes && e.height == k.y + k.height + CanvasPadding;
        var i :| 0 <= i < |d.boxes| && d.boxes[i] == k;
        assert a.boxes[i] == k;
      }
    }
  }

  /** The extent depends only on the boxes' geometry: renaming the document
      or changing its connections leaves it alone. */
  lemma ExtentIgnoresConnections(d: Document, c: Connection, id: string)
    ensures CanvasBounds(AddConnection(d, c)) == CanvasBounds(d)
    ensures CanvasBounds(RemoveConnection(d, id)) == CanvasBounds(d)
  {
  }

  /** During a drag-scroll the canvas point under the pointer stays the one
      that was under it when the drag began: the content follows the pointer. */
  lemma DragScrollKeepsPointUnderPointer(v: Viewport, button: int, onEmptyArea: bool, overExcluded: bool,
                                         startX: real, startY: real, clientX: real, clientY: real)
    requires StartsScrollDrag(button, onEmptyArea, overExcluded)
    ensures var s := ScrollPointerDown(InitialScrollDrag, v, button, onEmptyArea, overExcluded, startX, startY);
            CanvasPosition(ScrollPointerMove(s, v, clientX, clientY), clientX, clientY)
            == CanvasPosition(v, startX, startY)
  {
  }

  /** Once a drag-scroll has ended, moving the pointer scrolls nothing, and
      ending it again changes nothing. */
  lemma EndedDragScrollIsInert(s: ScrollDrag, v: Viewport, clientX: real, clientY: real)
    ensures ScrollPointerMove(EndScrollDrag(s), v, clientX, clientY) == v
    ensures EndScrollDrag(EndScrollDrag(s)) == EndScrollDrag(s)
  {
  }

  /** Scrolling further right or down never hides a shown button. */
  lemma BackToOriginMonotone(v: Viewport, w: Viewport)
    requires v.scrollLeft <= w.scrollLeft && v.scrollTop <= w.scrollTop
    ensures BackToOriginVisible(v) ==> BackToOriginVisible(w)
  {
  }

  /** A drag-scroll that pulls the content more than the threshold from an
      unscrolled view shows the button; one that stays within the threshold
      on both axes leaves it hidden. */
  lemma DragScrollShowsButton(s: ScrollDrag, v: Viewport, clientX: real, clientY: real)
    requires s.active && s.scrollLeft == 0.0 && s.scrollTop == 0.0
    ensures BackToOriginVisible(ScrollPointerMove(s, v, clientX, clientY))
            <==> s.startX - clientX > ScrollThreshold || s.startY - clientY > ScrollThreshold
  {
  }

  /** Scrolling back to the origin hides the back-to-origin button. */
  lemma BackAtOriginHidesButton(v: Viewport)
    ensures !BackToOriginVisible(v.(scrollLeft := 0.0, scrollTop := 0.0))
  {
  }
}
