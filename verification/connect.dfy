/** The drag-to-connect gesture (js/connections.js): Idle, then Connecting
    from a source box while the pointer is down, then Idle again.

    The rectangles of the rendered box elements are an input, in document
    order; the gesture reads them to find the box under the pointer. */
module Connect {
  import opened Wrappers
  import opened State
  import opened Geometry
  import Canvas

  /** The `dragConnection` record: inactive, or active with a source box id. */
  datatype ConnectState = Idle | Connecting(fromBoxId: string)

  const NewConnectionColor: string := "#2c3e50"

  /** The connection a successful gesture stores. */
  function NewConnection(id: string, from: string, to: string): (c: Connection)
    ensures c.id == id && c.fromBox == from && c.toBox == to
    ensures c.color == NewConnectionColor && c.style == Solid
  {
    Connection(id, from, to, NewConnectionColor, Solid)
  }

  /** `startDragConnection`, fired by pointer-down on a box's connect handle.
      A missing box leaves the gesture as it was. */
  function StartConnect(s: ConnectState, d: Document, boxId: string): (r: ConnectState)
    ensures HasBox(d, boxId) ==> r == Connecting(boxId)
    ensures !HasBox(d, boxId) ==> r == s
  {
    if GetBox(d, boxId).None? then s else Connecting(boxId)
  }

  /** What a pointer-move shows: the guide line from the source's connect
      handle to the pointer, and the highlighted candidate target (None when
      no box is under the pointer or the one found has an empty id, which
      the highlight's truthiness test skips). */
  datatype Preview = Preview(start: Point, end: Point, target: Option<string>)

  /** `handleDragMove`. `None` means the handler returns early and updates
      nothing: while idle, or when the source box has gone (whatever guide
      and highlight were drawn before stay as they were). */
  function DragMove(s: ConnectState, d: Document, rects: seq<ElementRect>, v: Canvas.Viewport,
                    clientX: real, clientY: real): (r: Option<Preview>)
    ensures s.Idle? ==> r.None?
    ensures s.Connecting? ==> (r.Some? <==> HasBox(d, s.fromBoxId))
    ensures r.Some? ==> (r.value.start == BottomCenter(GetBox(d, s.fromBoxId).value)
                         && r.value.end == Canvas.CanvasPosition(v, clientX, clientY))
    ensures r.Some? && r.value.target.Some? ==> r.value.target.value != s.fromBoxId
    ensures r.Some? ==>
              (r.value.target.Some? <==> var hit := FindBoxAtPoint(rects, clientX, clientY, s.fromBoxId);
                                         hit.Some? && hit.value != "")
    ensures r.Some? && r.value.target.Some? ==>
              r.value.target == FindBoxAtPoint(rects, clientX, clientY, s.fromBoxId)
  {
    match s
    case Idle => None
    case Connecting(from) =>
      match GetBox(d, from)
      case None => None
      case Some(source) =>
        var hit := FindBoxAtPoint(rects, clientX, clientY, from);
        Some(Preview(BottomCenter(source), Canvas.CanvasPosition(v, clientX, clientY),
                     if hit.Some? && hit.value != "" then hit else None))
  }

  /** The commit test of `handleDragEnd`: a (non-empty) target was found
      under the pointer, the source id is non-empty, and no connection yet
      joins the two in either direction. */
  predicate CommitAllowed(conns: seq<Connection>, from: string, target: Option<string>) {
    target.Some? && target.value != "" && from != "" && !Linked(conns, from, target.value)
  }

  /** `handleDragEnd`. Ends the gesture unconditionally and, when the commit
      test passes, appends one new connection with id `freshId`. */
  function DragEnd(s: ConnectState, d: Document, rects: seq<ElementRect>,
                   clientX: real, clientY: real, freshId: string): (r: (ConnectState, Document))
    ensures r.0 == Idle
    ensures r.1.boxes == d.boxes && r.1.name == d.name
    ensures s.Idle? ==> r.1 == d
    ensures s.Connecting? ==>
              var t := FindBoxAtPoint(rects, clientX, clientY, s.fromBoxId);
              (CommitAllowed(d.connections, s.fromBoxId, t) ==>
                 r.1.connections == d.connections + [NewConnection(freshId, s.fromBoxId, t.value)])
              && (!CommitAllowed(d.connections, s.fromBoxId, t) ==> r.1 == d)
  {
    match s
    case Idle => (Idle, d)
    case Connecting(from) =>
      var t := FindBoxAtPoint(rects, clientX, clientY, from);
      if CommitAllowed(d.connections, from, t)
      then (Idle, AddConnection(d, NewConnection(freshId, from, t.value)))
      else (Idle, d)
  }
}
