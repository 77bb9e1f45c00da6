/** Connector geometry and hit-testing (js/connections.js).

    Endpoint coordinates are never stored: they are derived from the boxes
    each time a connector is drawn, and a connector whose box lookup fails
    is simply not drawn. */
module Geometry {
  import opened Wrappers
  import opened State
  import Seqs

  datatype Point = Point(x: real, y: real)

  /** A straight connector from `p1` to `p2`. */
  datatype Segment = Segment(p1: Point, p2: Point)

  /** `getBoxBottomCenter`: the connect handle, in the middle of the bottom edge. */
  function BottomCenter(b: Box): (p: Point)
    ensures p.x - b.x == b.x + b.width - p.x
    ensures p.y == b.y + b.height
  {
    Point(b.x + b.width / 2.0, b.y + b.height)
  }

  /** The middle of a box, where connectors attach. */
  function Center(b: Box): (p: Point)
    ensures p.x - b.x == b.x + b.width - p.x
    ensures p.y - b.y == b.y + b.height - p.y
  {
    Point(b.x + b.width / 2.0, b.y + b.height / 2.0)
  }

  /** The path `updateConnectionPath` draws for `c`: centre of the source box
      to centre of the target box, or None when either lookup fails. */
  function ConnectorEndpoints(d: Document, c: Connection): (r: Option<Segment>)
    ensures r.Some? <==> HasBox(d, c.fromBox) && HasBox(d, c.toBox)
    ensures r.Some? ==> (r.value.p1 == Center(GetBox(d, c.fromBox).value)
                         && r.value.p2 == Center(GetBox(d, c.toBox).value))
  {
    match (GetBox(d, c.fromBox), GetBox(d, c.toBox))
    case (Some(from), Some(to)) => Some(Segment(Center(from), Center(to)))
    case _ => None
  }

  /** The connections `updateConnectionsForBox` redraws: those incident to the box. */
  function IncidentConnections(d: Document, boxId: string): (r: seq<Connection>)
    ensures forall i :: 0 <= i < |r| ==> r[i] in d.connections && Incident(r[i], boxId)
    ensures forall c :: c in d.connections && Incident(c, boxId) ==> c in r
  {
    var r := Seqs.Filter(d.connections, IncidentTo(boxId));
    assert forall c :: c in d.connections && Incident(c, boxId) ==> c in r by {
      forall c | c in d.connections && Incident(c, boxId) ensures c in r {
        var i :| 0 <= i < |d.connections| && d.connections[i] == c;
      }
    }
    r
  }

  /** The on-screen rectangle of a rendered box element, in client coordinates. */
  datatype ElementRect = ElementRect(id: string, left: real, top: real, right: real, bottom: real)

  /** Edges count as inside. */
  predicate RectContains(r: ElementRect, x: real, y: real) {
    r.left <= x <= r.right && r.top <= y <= r.bottom
  }

  function HitBy(x: real, y: real, excludeId: string): ElementRect -> bool {
    (r: ElementRect) => r.id != excludeId && RectContains(r, x, y)
  }

  /** `findBoxAtPoint`: the id of the first box element, in document order,
      whose rectangle contains the point, skipping the element `excludeId`. */
  function FindBoxAtPoint(rects: seq<ElementRect>, x: real, y: real, excludeId: string): (r: Option<string>)
    ensures r.Some? ==> r.value != excludeId
    ensures r.Some? ==> exists i :: 0 <= i < |rects| && rects[i].id == r.value && RectContains(rects[i], x, y)
                                    && forall j :: 0 <= j < i ==> !HitBy(x, y, excludeId)(rects[j])
    ensures r.None? <==> forall i :: 0 <= i < |rects| ==> rects[i].id == excludeId || !RectContains(rects[i], x, y)
  {
    match Seqs.FirstIndex(rects, HitBy(x, y, excludeId))
    case None => None
    case Some(i) => Some(rects[i].id)
  }
}
