/** Properties of the box gestures: a move never pushes a box off the
    canvas, a whole gesture writes to the store once, the resize watcher
    settles, and edits behave as field updates. */
module BoxGesturesLaws {
  import opened Wrappers
  import opened State
  import Seqs
  import Geometry
  import Canvas
  import StateLaws
  import opened BoxGestures

  /** Whatever events arrive, a box that starts on the canvas stays at
      non-negative coordinates. */
  lemma {:induction false} RunKeepsPositionNonNegative(b: Box, h: DragHandlers, es: seq<PointerEvent>)
    requires b.x >= 0.0 && b.y >= 0.0
    ensures Run(b, h, es).box.x >= 0.0 && Run(b, h, es).box.y >= 0.0
    decreases |es|
  {
    if |es| > 0 {
      var st := Step(b, h, es[0]);
      RunKeepsPositionNonNegative(st.box, st.handlers, es[1..]);
    }
  }

  predicate AllMoves(es: seq<PointerEvent>) {
    forall i :: 0 <= i < |es| ==> es[i].MoveTo?
  }

  /** Intermediate moves write nothing and keep the handlers as they are. */
  lemma {:induction false} MovesDoNotPersist(b: Box, h: DragHandlers, es: seq<PointerEvent>)
    requires AllMoves(es)
    ensures Run(b, h, es).saves == 0 && Run(b, h, es).handlers == h
    decreases |es|
  {
    if |es| > 0 {
      var st := Step(b, h, es[0]);
      assert AllMoves(es[1..]) by {
        forall i | 0 <= i < |es[1..]| ensures es[1..][i].MoveTo? {
          assert es[1..][i] == es[i + 1];
        }
      }
      MovesDoNotPersist(st.box, st.handlers, es[1..]);
    }
  }

  /** Running two event sequences one after the other. */
  lemma {:induction false} RunAppend(b: Box, h: DragHandlers, es: seq<PointerEvent>, fs: seq<PointerEvent>)
    ensures var r1 := Run(b, h, es);
            var r2 := Run(r1.box, r1.handlers, fs);
            Run(b, h, es + fs) == r2.(saves := r1.saves + r2.saves)
    decreases |es|
  {
    if |es| == 0 {
      assert es + fs == fs;
    } else {
      var st := Step(b, h, es[0]);
      assert (es + fs)[0] == es[0];
      assert (es + fs)[1..] == es[1..] + fs;
      RunAppend(st.box, st.handlers, es[1..], fs);
    }
  }

  /** A complete move gesture (an accepted press, any moves, a release)
      writes the document exactly once and leaves the move handler detached. */
  lemma GestureSavesOnce(b: Box, h: DragHandlers, down: PointerEvent, moves: seq<PointerEvent>)
    requires down.Down? && DragStartAllowed(down.target, down.rect, down.clientX, down.clientY)
    requires AllMoves(moves)
    ensures Run(b, h, [down] + moves + [Up]).saves == 1
    ensures Run(b, h, [down] + moves + [Up]).handlers.move.None?
  {
    var st := Step(b, h, down);
    RunAppend(b, h, [down], moves);
    RunAppend(b, h, [down] + moves, [Up]);
    MovesDoNotPersist(st.box, st.handlers, moves);
    assert Run(b, h, [down]) == DragRun(st.box, st.handlers, 0) by {
      assert [down][1..] == [];
    }
  }

  /** A cancelled drag is not ended: no handler listens for pointer-cancel,
      so nothing is written and the move handler stays attached, and a later
      move still drags the box by the grip taken at the press. */
  lemma CancelledDragKeepsMoving(b: Box, down: PointerEvent, mx: real, my: real)
    requires down.Down? && DragStartAllowed(down.target, down.rect, down.clientX, down.clientY)
    ensures var g := Grip(down.clientX - down.offsetLeft, down.clientY - down.offsetTop);
            var r := Run(b, NoHandlers, [down, Cancel, MoveTo(mx, my)]);
            && r.saves == 0
            && r.handlers == DragHandlers(Some(g), true)
            && r.box == DragMoveBox(b, g, mx, my)
  {
    var es := [down, Cancel, MoveTo(mx, my)];
    var s1 := Step(b, NoHandlers, down);
    var s2 := Step(s1.box, s1.handlers, Cancel);
    var s3 := Step(s2.box, s2.handlers, MoveTo(mx, my));
    assert es[1..] == [Cancel, MoveTo(mx, my)] && es[1..][1..] == [MoveTo(mx, my)];
    assert Run(s3.box, s3.handlers, []) == DragRun(s3.box, s3.handlers, 0);
    assert Run(s2.box, s2.handlers, [MoveTo(mx, my)]) == DragRun(s3.box, s3.handlers, 0);
    assert Run(s1.box, s1.handlers, [Cancel, MoveTo(mx, my)]) == DragRun(s3.box, s3.handlers, 0);
  }

  /** A press that the guard refuses (editable text, the controls, the
      connect handle, or the resize corner) starts no drag. */
  lemma RefusedPressStartsNothing(b: Box, target: PointerTarget, rect: Geometry.ElementRect,
                                  cx: real, cy: real, offL: real, offT: real, mx: real, my: real)
    requires target != BoxBody || InResizeCorner(rect, cx, cy)
    ensures Run(b, NoHandlers, [Down(target, cx, cy, rect, offL, offT), MoveTo(mx, my)])
            == DragRun(b, NoHandlers, 0)
  {
    var es := [Down(target, cx, cy, rect, offL, offT), MoveTo(mx, my)];
    var st := Step(b, NoHandlers, es[0]);
    assert st == DragStep(b, NoHandlers, false);
    assert es[1..] == [MoveTo(mx, my)];
    assert es[1..][1..] == [];
    assert Run(b, NoHandlers, es[1..]) == DragRun(b, NoHandlers, 0);
  }

  /** When the element sits where the box says, the box moves by exactly the
      pointer's displacement, clamped at zero. */
  lemma GripTracksPointer(b: Box, rect: Geometry.ElementRect, cx: real, cy: real, dx: real, dy: real)
    requires DragStartAllowed(BoxBody, rect, cx, cy)
    ensures var st := Step(b, NoHandlers, Down(BoxBody, cx, cy, rect, b.x, b.y));
            var moved := Step(st.box, st.handlers, MoveTo(cx + dx, cy + dy)).box;
            && moved.x == (if b.x + dx <= 0.0 then 0.0 else b.x + dx)
            && moved.y == (if b.y + dy <= 0.0 then 0.0 else b.y + dy)
            && moved.width == b.width && moved.height == b.height && moved.id == b.id
  {
  }

  /** The release handler stays installed after a gesture, so a later
      release on the same element writes the document again. */
  lemma LaterReleaseWritesAgain(b: Box, down: PointerEvent)
    requires down.Down? && DragStartAllowed(down.target, down.rect, down.clientX, down.clientY)
    ensures Run(b, NoHandlers, [down, Up, Up]).saves == 2
  {
    var es := [down, Up, Up];
    var s1 := Step(b, NoHandlers, down);
    assert s1.handlers.releaseInstalled && !s1.persisted;
    var s2 := Step(s1.box, s1.handlers, Up);
    assert s2.handlers.releaseInstalled && s2.persisted;
    assert es[1..] == [Up, Up];
    assert es[1..][1..] == [Up];
    assert es[1..][1..][1..] == [];
    assert Run(s2.box, s2.handlers, [Up]).saves == 1;
    assert Run(s1.box, s1.handlers, [Up, Up]).saves == 2;
  }

  // ---------------------------------------------------------------------------
  // Resize watcher

  /** A second observation of the same rendered size changes nothing: the
      watcher does not write again for the size it has just adopted. */
  lemma ObserveSizeSettles(b: Box, w: real, h: real)
    ensures ObserveSize(ObserveSize(b, w, h).0, w, h) == (ObserveSize(b, w, h).0, false)
  {
  }

  /** Jitter of at most one unit in both dimensions is ignored. */
  lemma ObserveSizeIgnoresJitter(b: Box, dw: real, dh: real)
    requires -1.0 <= dw <= 1.0 && -1.0 <= dh <= 1.0
    ensures ObserveSize(b, b.width + dw, b.height + dh) == (b, false)
  {
  }

  /** Writing an observed size back keeps the document well formed. */
  lemma ObserveSizeKeepsWellFormed(d: Document, b: Box, w: real, h: real)
    requires WellFormed(d)
    ensures WellFormed(UpdateBox(d, ObserveSize(b, w, h).0))
  {
    StateLaws.UpdateBoxPreservesWellFormed(d, ObserveSize(b, w, h).0);
  }

  // ---------------------------------------------------------------------------
  // Edits

  /** Committing a field's own value changes nothing, and a later commit to
      the same field overrides an earlier one. */
  lemma CommitLaws(b: Box, f: Field, v: string, w: string)
    ensures Commit(b, f, Read(b, f)) == b
    ensures Commit(Commit(b, f, v), f, w) == Commit(b, f, w)
  {
  }

  /** Commits to different fields do not interfere. */
  lemma CommitsCommute(b: Box, f: Field, g: Field, v: string, w: string)
    requires f != g
    ensures Commit(Commit(b, f, v), g, w) == Commit(Commit(b, g, w), f, v)
  {
  }

  // ---------------------------------------------------------------------------
  // Creation and deletion

  /** A box created centred on a point has that point as its centre, and it
      fits on the canvas with the padding to spare. */
  lemma CreatedBoxFitsCanvas(d: Document, id: string, x: real, y: real, centered: bool)
    ensures var r := CreateBox(d, id, x, y, centered);
            Canvas.CanvasBounds(r).Fixed?
            && r.boxes[|d.boxes|].x + DefaultWidth + Canvas.CanvasPadding <= Canvas.CanvasBounds(r).width
            && r.boxes[|d.boxes|].y + DefaultHeight + Canvas.CanvasPadding <= Canvas.CanvasBounds(r).height
  {
    var b := NewBox(id, x, y, centered);
    assert b in CreateBox(d, id, x, y, centered).boxes;
  }

  /** The elements `deleteBox` removes are those of the connections the
      cascade removes, one per connection. */
  lemma DeleteBoxElementsMatchCascade(d: Document, boxId: string)
    ensures |DeleteBox(d, boxId).removedElements| + |DeleteBox(d, boxId).doc.connections| == |d.connections|
  {
    Seqs.FilterPartition(d.connections, NotIncidentTo(boxId), IncidentTo(boxId));
  }
}
