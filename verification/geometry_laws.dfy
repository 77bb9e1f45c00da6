/** Properties of the derived connector geometry: the worked example of
    two boxes, locality of a move, and the render-skip of stale connections. */
module GeometryLaws {
  import opened Wrappers
  import opened State
  import opened Geometry
  import StateLaws

  /** Two default-size boxes at (100,100) and (400,100) joined A to B give the
      segment (200,175)-(500,175); moving A to (300,300) moves only the first end. */
  lemma TwoBoxScenario()
    ensures var a := Box("A", 100.0, 100.0, 200.0, 150.0, "", "", "#3498db");
            var b := Box("B", 400.0, 100.0, 200.0, 150.0, "", "", "#3498db");
            var c := Connection("c", "A", "B", "#2c3e50", Solid);
            var d := Document("s", [a, b], [c]);
            && ConnectorEndpoints(d, c) == Some(Segment(Point(200.0, 175.0), Point(500.0, 175.0)))
            && ConnectorEndpoints(UpdateBox(d, a.(x := 300.0, y := 300.0)), c)
               == Some(Segment(Point(400.0, 375.0), Point(500.0, 175.0)))
  {
    var a := Box("A", 100.0, 100.0, 200.0, 150.0, "", "", "#3498db");
    var b := Box("B", 400.0, 100.0, 200.0, 150.0, "", "", "#3498db");
    var c := Connection("c", "A", "B", "#2c3e50", Solid);
    var d := Document("s", [a, b], [c]);
    assert d.boxes[0].id == "A" && d.boxes[1].id == "B";
    assert GetBox(d, "A") == Some(a);
    assert GetBox(d, "B") == Some(b);
    var a' := a.(x := 300.0, y := 300.0);
    var d' := UpdateBox(d, a');
    assert d'.boxes[0] == a' && d'.boxes[1] == b;
    assert GetBox(d', "A") == Some(a');
    assert GetBox(d', "B") == Some(b);
  }

  /** Moving or resizing a box that is neither end of a connector leaves the
      connector where it was. */
  lemma UnrelatedMoveKeepsConnector(d: Document, b: Box, c: Connection)
    requires HasBox(d, b.id)
    requires b.id != c.fromBox && b.id != c.toBox
    ensures ConnectorEndpoints(UpdateBox(d, b), c) == ConnectorEndpoints(d, c)
  {
    StateLaws.UpdateBoxLookup(d, b, c.fromBox);
    StateLaws.UpdateBoxLookup(d, b, c.toBox);
  }

  /** Moving the source box of a connector moves its first end to the new
      centre and leaves the second end alone. */
  lemma SourceMoveMovesFirstEnd(d: Document, b: Box, c: Connection)
    requires HasBox(d, b.id) && HasBox(d, c.toBox)
    requires b.id == c.fromBox && b.id != c.toBox
    ensures ConnectorEndpoints(UpdateBox(d, b), c).Some?
    ensures ConnectorEndpoints(UpdateBox(d, b), c).value.p1 == Center(b)
    ensures ConnectorEndpoints(UpdateBox(d, b), c).value.p2 == ConnectorEndpoints(d, c).value.p2
  {
    StateLaws.UpdateBoxLookup(d, b, c.fromBox);
    StateLaws.UpdateBoxLookup(d, b, c.toBox);
  }

  /** After a box is deleted, a connector that pointed at it is skipped
      rather than drawn to a missing box. */
  lemma StaleConnectorSkipped(d: Document, id: string, c: Connection)
    requires Incident(c, id)
    ensures ConnectorEndpoints(RemoveBox(d, id), c).None?
  {
  }

  /** A point on or inside several rectangles picks the earliest one, and a
      point inside only the excluded source picks nothing. */
  lemma FindBoxAtPointScenario()
    ensures var src := ElementRect("A", 0.0, 0.0, 200.0, 150.0);
            var t1 := ElementRect("B", 150.0, 100.0, 350.0, 250.0);
            var t2 := ElementRect("C", 200.0, 150.0, 400.0, 300.0);
            && FindBoxAtPoint([src, t1, t2], 200.0, 150.0, "A") == Some("B")
            && FindBoxAtPoint([src, t1, t2], 10.0, 10.0, "A") == None
  {
    var src := ElementRect("A", 0.0, 0.0, 200.0, 150.0);
    var t1 := ElementRect("B", 150.0, 100.0, 350.0, 250.0);
    var t2 := ElementRect("C", 200.0, 150.0, 400.0, 300.0);
    var rs := [src, t1, t2];
    assert !HitBy(200.0, 150.0, "A")(rs[0]) && HitBy(200.0, 150.0, "A")(rs[1]);
    assert !HitBy(10.0, 10.0, "A")(rs[1]);
    assert !HitBy(10.0, 10.0, "A")(rs[2]);
  }
}
