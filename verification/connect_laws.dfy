/** What the drag-to-connect guard achieves, given that `addConnection`
    itself checks nothing: no self-loops, no second link between the same
    two boxes, and well-formedness kept when the rendered boxes match the
    document. */
module ConnectLaws {
  import opened Wrappers
  import opened State
  import opened Geometry
  import opened Connect

  /** A gesture adds at most one connection, and the one it adds is neither
      a self-loop nor a second link between an already linked pair. */
  lemma DragEndAddsSimpleLink(s: ConnectState, d: Document, rects: seq<ElementRect>,
                              x: real, y: real, freshId: string)
    ensures var d' := DragEnd(s, d, rects, x, y, freshId).1;
            d'.connections == d.connections
            || (|d'.connections| == |d.connections| + 1
                && d'.connections[..|d.connections|] == d.connections
                && var c := d'.connections[|d.connections|];
                   c.fromBox != c.toBox && !Linked(d.connections, c.fromBox, c.toBox))
  {
  }

  /** The rendered box elements are exactly boxes of the document. */
  predicate RectsMatch(d: Document, rects: seq<ElementRect>) {
    forall i :: 0 <= i < |rects| ==> HasBox(d, rects[i].id)
  }

  /** A connect gesture from an existing box, over rectangles that belong to
      the document's boxes, with a fresh connection id, keeps the document
      well formed. */
  lemma DragEndPreservesWellFormed(d: Document, from: string, rects: seq<ElementRect>,
                                   x: real, y: real, freshId: string)
    requires WellFormed(d) && HasBox(d, from)
    requires RectsMatch(d, rects)
    requires forall c :: c in d.connections ==> c.id != freshId
    ensures WellFormed(DragEnd(Connecting(from), d, rects, x, y, freshId).1)
  {
    var t := FindBoxAtPoint(rects, x, y, from);
    var d' := DragEnd(Connecting(from), d, rects, x, y, freshId).1;
    if CommitAllowed(d.connections, from, t) {
      var c := NewConnection(freshId, from, t.value);
      assert HasBox(d, t.value);
      assert d'.connections == d.connections + [c];
      forall k | k in d'.connections
        ensures HasBox(d', k.fromBox) && HasBox(d', k.toBox) && k.fromBox != k.toBox
      {
        if k != c { assert k in d.connections; }
      }
      forall i, j | 0 <= i < j < |d'.connections|
        ensures !Links(d'.connections[j], d'.connections[i].fromBox, d'.connections[i].toBox)
      {
        if j == |d.connections| {
          assert d'.connections[i] in d.connections;
        }
      }
    }
  }

  /** Connecting the same two boxes a second time, in either direction, is a
      no-op: after the first gesture commits, the pair is linked and both
      later gestures are rejected. */
  lemma ConnectTwiceAddsOnce(d: Document, a: string, t: string,
                             rects1: seq<ElementRect>, x1: real, y1: real, id1: string,
                             rects2: seq<ElementRect>, x2: real, y2: real, id2: string)
    requires FindBoxAtPoint(rects1, x1, y1, a) == Some(t)
    ensures var d1 := DragEnd(Connecting(a), d, rects1, x1, y1, id1).1;
            && |d1.connections| <= |d.connections| + 1
            && (FindBoxAtPoint(rects2, x2, y2, a) == Some(t) ==>
                  DragEnd(Connecting(a), d1, rects2, x2, y2, id2).1 == d1)
            && (FindBoxAtPoint(rects2, x2, y2, t) == Some(a) ==>
                  DragEnd(Connecting(t), d1, rects2, x2, y2, id2).1 == d1)
  {
    var d1 := DragEnd(Connecting(a), d, rects1, x1, y1, id1).1;
    if CommitAllowed(d.connections, a, Some(t)) {
      var c := NewConnection(id1, a, t);
      assert c in d1.connections && Links(c, a, t) && Links(c, t, a);
    } else if a != "" && t != "" {
      var c :| c in d.connections && Links(c, a, t);
      assert c in d1.connections && Links(c, t, a);
    }
  }

  /** The box highlighted during the drag is the one a release at the same
      point connects to: releasing changes the document exactly when a box is
      highlighted and not yet linked to the source, and then appends the
      connection to that box. */
  lemma HighlightIsCommitTarget(d: Document, from: string, rects: seq<ElementRect>, v: Canvas.Viewport,
                                x: real, y: real, freshId: string)
    requires HasBox(d, from) && from != ""
    ensures var p := DragMove(Connecting(from), d, rects, v, x, y);
            var d' := DragEnd(Connecting(from), d, rects, x, y, freshId).1;
            && p.Some?
            && (d' != d <==> p.value.target.Some? && !Linked(d.connections, from, p.value.target.value))
            && (p.value.target.Some? && !Linked(d.connections, from, p.value.target.value) ==>
                  d'.connections == d.connections + [NewConnection(freshId, from, p.value.target.value)])
  {
    var d' := DragEnd(Connecting(from), d, rects, x, y, freshId).1;
    if d' != d {
      assert |d'.connections| == |d.connections| + 1;
    }
  }

  /** Pressing the connect handle of a box that is not in the document starts nothing. */
  lemma StartOnMissingBoxStaysIdle(d: Document, boxId: string)
    requires !HasBox(d, boxId)
    ensures StartConnect(Idle, d, boxId) == Idle
  {
  }

  /** Move and release while idle do nothing; release always ends the gesture. */
  lemma IdleGestureIsInert(d: Document, rects: seq<ElementRect>, v: Canvas.Viewport,
                           x: real, y: real, freshId: string)
    ensures DragMove(Idle, d, rects, v, x, y) == None
    ensures DragEnd(Idle, d, rects, x, y, freshId) == (Idle, d)
  {
  }

  /** The full gesture on a two-box board: press A's handle, release over B,
      and one solid "#2c3e50" connection A to B appears. */
  lemma ConnectScenario()
    ensures var a := Box("A", 0.0, 0.0, 200.0, 150.0, "", "", "#3498db");
            var b := Box("B", 400.0, 0.0, 200.0, 150.0, "", "", "#3498db");
            var d := Document("s", [a, b], []);
            var rects := [ElementRect("A", 0.0, 0.0, 200.0, 150.0), ElementRect("B", 400.0, 0.0, 600.0, 150.0)];
            var s := StartConnect(Idle, d, "A");
            DragEnd(s, d, rects, 500.0, 75.0, "c1")
            == (Idle, Document("s", [a, b], [Connection("c1", "A", "B", "#2c3e50", Solid)]))
  {
    var a := Box("A", 0.0, 0.0, 200.0, 150.0, "", "", "#3498db");
    var b := Box("B", 400.0, 0.0, 200.0, 150.0, "", "", "#3498db");
    var d := Document("s", [a, b], []);
    var rects := [ElementRect("A", 0.0, 0.0, 200.0, 150.0), ElementRect("B", 400.0, 0.0, 600.0, 150.0)];
    assert d.boxes[0].id == "A";
    assert HasBox(d, "A");
    assert !HitBy(500.0, 75.0, "A")(rects[0]) && HitBy(500.0, 75.0, "A")(rects[1]);
    assert FindBoxAtPoint(rects, 500.0, 75.0, "A") == Some("B");
  }
}
