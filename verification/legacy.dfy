/** The earlier single-file version of the editor (app.js): the same
    document operations written as loops over the arrays, a `loadState`
    without the bundled default, a looser drag guard and its own new-box
    defaults. Each operation is related to its counterpart in the current
    model. */
module Legacy {
  import opened Wrappers
  import opened State
  import Seqs
  import Geometry
  import BoxGestures

  /** The state the page starts from before anything is loaded. */
  const InitialState: Document := Document(UntitledName, [], [])

  /** `getBox`: the first box with that id, found by a scan. */
  method GetBox(d: Document, id: string) returns (r: Option<Box>)
    ensures r == State.GetBox(d, id)
    ensures r.None? <==> !HasBox(d, id)
  {
    var i := 0;
    while i < |d.boxes|
      invariant 0 <= i <= |d.boxes|
      invariant forall k :: 0 <= k < i ==> d.boxes[k].id != id
    {
      if d.boxes[i].id == id {
        ghost var f := Seqs.FirstIndex(d.boxes, BoxIdIs(id));
        assert f.Some? && f.value <= i;
        assert f.value == i;
        return Some(d.boxes[i]);
      }
      i := i + 1;
    }
    return None;
  }

  /** `getConnection`: the first connection with that id, or None when no
      connection has it. */
  method GetConnection(d: Document, id: string) returns (r: Option<Connection>)
    ensures r.Some? ==> exists i :: 0 <= i < |d.connections| && d.connections[i] == r.value
                                    && r.value.id == id
                                    && forall k :: 0 <= k < i ==> d.connections[k].id != id
    ensures r.None? <==> forall c :: c in d.connections ==> c.id != id
  {
    var i := 0;
    while i < |d.connections|
      invariant 0 <= i <= |d.connections|
      invariant forall k :: 0 <= k < i ==> d.connections[k].id != id
    {
      if d.connections[i].id == id {
        return Some(d.connections[i]);
      }
      i := i + 1;
    }
    return None;
  }

  /** `addBox`: pushes the box. */
  method AddBox(d: Document, b: Box) returns (r: Document)
    ensures r == State.AddBox(d, b)
  {
    r := d.(boxes := d.boxes + [b]);
  }

  /** `addConnection`: pushes the connection, unchecked. */
  method AddConnection(d: Document, c: Connection) returns (r: Document)
    ensures r == State.AddConnection(d, c)
  {
    r := d.(connections := d.connections + [c]);
  }

  /** `Array.prototype.filter` as the scan it performs: the passing
      elements, appended in order to an initially empty array. */
  method FilterScan<T>(s: seq<T>, p: T -> bool) returns (r: seq<T>)
    ensures r == Seqs.Filter(s, p)
  {
    r := [];
    var i := 0;
    while i < |s|
      invariant 0 <= i <= |s|
      invariant r == Seqs.Filter(s[..i], p)
    {
      Seqs.FilterAppend(s[..i], [s[i]], p);
      assert s[..i + 1] == s[..i] + [s[i]];
      if p(s[i]) {
        r := r + [s[i]];
      }
      i := i + 1;
    }
    assert s[..i] == s;
  }

  /** `removeBox`: the two scans. The result is the current model's cascade delete. */
  method RemoveBox(d: Document, id: string) returns (r: Document)
    ensures r == State.RemoveBox(d, id)
    ensures !HasBox(r, id) && forall c :: c in r.connections ==> !Incident(c, id)
  {
    var boxes := FilterScan(d.boxes, NotBoxId(id));
    var conns := FilterScan(d.connections, NotIncidentTo(id));
    r := Document(d.name, boxes, conns);
  }

  /** `removeConnection`: a scan keeping the connections with another id. */
  method RemoveConnection(d: Document, id: string) returns (r: Document)
    ensures r == State.RemoveConnection(d, id)
    ensures forall c :: c in r.connections ==> c.id != id
  {
    var conns := FilterScan(d.connections, NotConnectionId(id));
    r := d.(connections := conns);
  }

  /** `loadState`: a non-empty stored text that parses replaces the state;
      anything else keeps the state as it was. There is no bundled default. */
  function LoadState(prev: Document, saved: Option<string>, parse: string -> ParseResult<Document>): (r: Document)
    ensures saved.Some? && saved.value != "" && parse(saved.value).Parsed? ==> r == parse(saved.value).value
    ensures saved.None? || saved.value == "" || parse(saved.value).ParseFailed? ==> r == prev
  {
    if saved.Some? && saved.value != "" && parse(saved.value).Parsed? then parse(saved.value).value
    else prev
  }

  /** The legacy drag guard: only a press on editable text is refused. */
  predicate DragStartAllowed(target: BoxGestures.PointerTarget) {
    target != BoxGestures.EditableText
  }

  /** `makeDraggable` of app.js, one event at a time. Move and release are
      the same handlers as in the current version; only the press differs. */
  function Step(b: Box, h: BoxGestures.DragHandlers, e: BoxGestures.PointerEvent): (r: BoxGestures.DragStep)
    ensures !e.Down? ==> r == BoxGestures.Step(b, h, e)
    ensures e.Down? ==> r.box == b && !r.persisted
    ensures e.Down? && DragStartAllowed(e.target) ==>
              r.handlers == BoxGestures.DragHandlers(Some(BoxGestures.Grip(e.clientX - e.offsetLeft, e.clientY - e.offsetTop)), true)
    ensures e.Down? && !DragStartAllowed(e.target) ==> r.handlers == h
    ensures e.MoveTo? && b.x >= 0.0 && b.y >= 0.0 ==> r.box.x >= 0.0 && r.box.y >= 0.0
  {
    match e
    case Down(target, cx, cy, _, offLeft, offTop) =>
      if target == BoxGestures.EditableText then BoxGestures.DragStep(b, h, false)
      else BoxGestures.DragStep(b, BoxGestures.DragHandlers(Some(BoxGestures.Grip(cx - offLeft, cy - offTop)), true), false)
    case MoveTo(cx, cy) =>
      if h.move.None? then BoxGestures.DragStep(b, h, false)
      else BoxGestures.DragStep(BoxGestures.DragMoveBox(b, h.move.value, cx, cy), h, false)
    case Up =>
      BoxGestures.DragStep(b, h.(move := None), h.releaseInstalled)
    case Cancel =>
      BoxGestures.DragStep(b, h, false)
  }

  const NewBoxText: string := "New box"

  /** The Add Box button's box: 200 by 150, text "New box", the default
      border colour, placed 100 to 300 units from the origin on each axis.
      The legacy box has no title; it is modelled as the empty title. */
  function NewBox(id: string, rx: real, ry: real): (b: Box)
    requires 0.0 <= rx < 1.0 && 0.0 <= ry < 1.0
    ensures b.id == id && b.width == 200.0 && b.height == 150.0
    ensures b.text == NewBoxText && b.title == "" && b.borderColor == BoxGestures.DefaultBorderColor
    ensures 100.0 <= b.x < 300.0 && 100.0 <= b.y < 300.0
  {
    Box(id, 100.0 + rx * 200.0, 100.0 + ry * 200.0, 200.0, 150.0, "", NewBoxText, BoxGestures.DefaultBorderColor)
  }
}
