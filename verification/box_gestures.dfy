/** Box creation, deletion and the per-box gestures (js/box.js): moving by
    drag, passive resize detection, and field edits committed on blur. */
module BoxGestures {
  import opened Wrappers
  import opened State
  import Seqs
  import Geometry
  import Canvas

  // ---------------------------------------------------------------------------
  // Creation and deletion

  const DefaultWidth: real := 200.0
  const DefaultHeight: real := 150.0
  const DefaultBorderColor: string := "#3498db"

  /** The box `createBox` builds: default size, empty title and text, the
      default border colour; `centered` puts its centre, not its top-left
      corner, on the given point. */
  function NewBox(id: string, x: real, y: real, centered: bool): (b: Box)
    ensures b.id == id && b.width == DefaultWidth && b.height == DefaultHeight
    ensures b.title == "" && b.text == "" && b.borderColor == DefaultBorderColor
    ensures centered ==> Geometry.Center(b) == Geometry.Point(x, y)
    ensures !centered ==> b.x == x && b.y == y
  {
    Box(id,
        if centered then x - DefaultWidth / 2.0 else x,
        if centered then y - DefaultHeight / 2.0 else y,
        DefaultWidth, DefaultHeight, "", "", DefaultBorderColor)
  }

  /** `createBox`: the new box is appended to the document. */
  function CreateBox(d: Document, id: string, x: real, y: real, centered: bool): (r: Document)
    ensures |r.boxes| == |d.boxes| + 1 && r.boxes[..|d.boxes|] == d.boxes
    ensures r.boxes[|d.boxes|] == NewBox(id, x, y, centered)
    ensures r.connections == d.connections && r.name == d.name
  {
    AddBox(d, NewBox(id, x, y, centered))
  }

  /** `createBoxInView`: a box placed 100 to 300 units into the visible area.
      `rx` and `ry` stand for the two `Math.random()` draws. */
  function CreateBoxInView(d: Document, id: string, v: Canvas.Viewport, rx: real, ry: real): (r: Document)
    requires 0.0 <= rx < 1.0 && 0.0 <= ry < 1.0
    ensures |r.boxes| == |d.boxes| + 1 && r.boxes[..|d.boxes|] == d.boxes
    ensures r.connections == d.connections && r.name == d.name
    ensures r.boxes[|d.boxes|] == NewBox(id, r.boxes[|d.boxes|].x, r.boxes[|d.boxes|].y, false)
    ensures v.scrollLeft + 100.0 <= r.boxes[|d.boxes|].x < v.scrollLeft + 300.0
    ensures v.scrollTop + 100.0 <= r.boxes[|d.boxes|].y < v.scrollTop + 300.0
  {
    CreateBox(d, id, v.scrollLeft + 100.0 + rx * 200.0, v.scrollTop + 100.0 + ry * 200.0, false)
  }

  /** What `deleteBox` does: the cascade in the document, the `data-id` of
      the box element it takes off the screen (the selector removes only the
      first element carrying it), and the ids of the connection elements it
      removes (collected before the cascade). */
  datatype DeleteOutcome = DeleteOutcome(doc: Document, removedBox: string, removedElements: seq<string>)

  function ConnectionId(): Connection -> string { (c: Connection) => c.id }

  function DeleteBox(d: Document, boxId: string): (r: DeleteOutcome)
    ensures r.doc == RemoveBox(d, boxId)
    ensures r.removedBox == boxId
    ensures forall c :: c in d.connections ==> (c in r.doc.connections <==> !Incident(c, boxId))
    ensures forall c :: c in d.connections && Incident(c, boxId) ==> c.id in r.removedElements
    ensures forall k :: k in r.removedElements ==>
              exists c :: c in d.connections && Incident(c, boxId) && c.id == k
  {
    var incident := Seqs.Filter(d.connections, IncidentTo(boxId));
    var ids := Seqs.Map(incident, ConnectionId());
    assert forall c :: c in d.connections && Incident(c, boxId) ==> c.id in ids by {
      forall c | c in d.connections && Incident(c, boxId) ensures c.id in ids {
        var i :| 0 <= i < |d.connections| && d.connections[i] == c;
        assert c in incident;
        var j :| 0 <= j < |incident| && incident[j] == c;
        assert ids[j] == c.id;
      }
    }
    assert forall k :: k in ids ==> exists c :: c in d.connections && Incident(c, boxId) && c.id == k by {
      forall k | k in ids ensures exists c :: c in d.connections && Incident(c, boxId) && c.id == k {
        var j :| 0 <= j < |ids| && ids[j] == k;
        assert incident[j] in d.connections;
      }
    }
    DeleteOutcome(RemoveBox(d, boxId), boxId, ids)
  }

  // ---------------------------------------------------------------------------
  // Drag to move (`makeDraggable`)

  /** Where a pointer-down on a box element lands. The connect handle stops
      the event itself, so the drag handler never sees it. */
  datatype PointerTarget = EditableText | Controls | ConnectHandle | BoxBody

  /** The bottom-right square left to the browser's resize grip. */
  const ResizeCorner: real := 16.0

  predicate InResizeCorner(rect: Geometry.ElementRect, clientX: real, clientY: real) {
    clientX > rect.right - ResizeCorner && clientY > rect.bottom - ResizeCorner
  }

  /** Whether a pointer-down may start a move. */
  predicate DragStartAllowed(target: PointerTarget, rect: Geometry.ElementRect, clientX: real, clientY: real) {
    target == BoxBody && !InResizeCorner(rect, clientX, clientY)
  }

  /** The pointer's offset from the box element at pointer-down. */
  datatype Grip = Grip(startX: real, startY: real)

  /** The element's handlers: the move handler with its grip (None once
      detached) and whether a release handler has been installed. The
      release handler detaches the move handler but is never removed itself. */
  datatype DragHandlers = DragHandlers(move: Option<Grip>, releaseInstalled: bool)

  const NoHandlers: DragHandlers := DragHandlers(None, false)

  /** The pointer events a box element sees. `makeDraggable` installs no
      handler for pointer-cancel, so `Cancel` changes nothing. */
  datatype PointerEvent =
    | Down(target: PointerTarget, clientX: real, clientY: real,
           rect: Geometry.ElementRect, offsetLeft: real, offsetTop: real)
    | MoveTo(clientX: real, clientY: real)
    | Up
    | Cancel

  /** The move handler's clamp: the box follows the pointer but never leaves
      the canvas at the top or the left. */
  function DragMoveBox(b: Box, g: Grip, clientX: real, clientY: real): (r: Box)
    ensures r.x >= 0.0 && r.y >= 0.0
    ensures r.x >= clientX - g.startX && r.y >= clientY - g.startY
    ensures (r.x == 0.0 || r.x == clientX - g.startX) && (r.y == 0.0 || r.y == clientY - g.startY)
    ensures r == b.(x := r.x, y := r.y)
  {
    var nx := clientX - g.startX;
    var ny := clientY - g.startY;
    b.(x := if 0.0 >= nx then 0.0 else nx, y := if 0.0 >= ny then 0.0 else ny)
  }

  /** The outcome of one pointer event: the box, the handlers, and whether
      the document was written to the store. */
  datatype DragStep = DragStep(box: Box, handlers: DragHandlers, persisted: bool)

  function Step(b: Box, h: DragHandlers, e: PointerEvent): (r: DragStep)
    ensures e.MoveTo? ==> !r.persisted && r.handlers == h
    ensures e.MoveTo? ==>
              r.box == (if h.move.Some? then DragMoveBox(b, h.move.value, e.clientX, e.clientY) else b)
    ensures e.MoveTo? && h.move.Some? ==> r.box.x >= 0.0 && r.box.y >= 0.0
    ensures e.Cancel? ==> r.box == b && r.handlers == h && !r.persisted
    ensures e.Up? ==> r.box == b && r.handlers.move.None? && r.persisted == h.releaseInstalled
    ensures e.Down? ==> r.box == b && !r.persisted
    ensures e.Down? && DragStartAllowed(e.target, e.rect, e.clientX, e.clientY) ==>
              r.handlers == DragHandlers(Some(Grip(e.clientX - e.offsetLeft, e.clientY - e.offsetTop)), true)
    ensures e.Down? && !DragStartAllowed(e.target, e.rect, e.clientX, e.clientY) ==> r.handlers == h
  {
    match e
    case Down(target, cx, cy, rect, offLeft, offTop) =>
      if target == EditableText then DragStep(b, h, false)
      else if target == Controls then DragStep(b, h, false)
      else if target == ConnectHandle then DragStep(b, h, false)
      else if InResizeCorner(rect, cx, cy) then DragStep(b, h, false)
      else DragStep(b, DragHandlers(Some(Grip(cx - offLeft, cy - offTop)), true), false)
    case MoveTo(cx, cy) =>
      if h.move.None? then DragStep(b, h, false)
      else DragStep(DragMoveBox(b, h.move.value, cx, cy), h, false)
    case Up =>
      DragStep(b, h.(move := None), h.releaseInstalled)
    case Cancel =>
      DragStep(b, h, false)
  }

  /** The box, handlers and number of store writes after a sequence of events. */
  datatype DragRun = DragRun(box: Box, handlers: DragHandlers, saves: nat)

  function Run(b: Box, h: DragHandlers, es: seq<PointerEvent>): (r: DragRun)
    decreases |es|
  {
    if |es| == 0 then DragRun(b, h, 0)
    else
      var st := Step(b, h, es[0]);
      var rest := Run(st.box, st.handlers, es[1..]);
      rest.(saves := rest.saves + (if st.persisted then 1 else 0))
  }

  // ---------------------------------------------------------------------------
  // Passive resize (the ResizeObserver callback)

  /** Size differences up to this much are ignored as jitter. */
  const ResizeTolerance: real := 1.0

  function Abs(v: real): real { if v < 0.0 then -v else v }

  /** The observer callback: the rendered size is adopted, both dimensions
      at once, only when one of them is off by more than the tolerance.
      There is no minimum size. The flag says the box changed (and was persisted). */
  function ObserveSize(b: Box, renderedW: real, renderedH: real): (r: (Box, bool))
    ensures r.1 <==> Abs(b.width - renderedW) > ResizeTolerance || Abs(b.height - renderedH) > ResizeTolerance
    ensures r.1 ==> r.0 == b.(width := renderedW, height := renderedH)
    ensures !r.1 ==> r.0 == b
    ensures Abs(r.0.width - renderedW) <= ResizeTolerance && Abs(r.0.height - renderedH) <= ResizeTolerance
  {
    if Abs(b.width - renderedW) > ResizeTolerance || Abs(b.height - renderedH) > ResizeTolerance
    then (b.(width := renderedW, height := renderedH), true)
    else (b, false)
  }

  // ---------------------------------------------------------------------------
  // Field edits: title and text on blur, border colour on change

  datatype Field = Title | Text | BorderColor

  function Read(b: Box, f: Field): string {
    match f
    case Title => b.title
    case Text => b.text
    case BorderColor => b.borderColor
  }

  /** The commit of an edit: the field takes the element's content; nothing
      else of the box changes. Typing before the blur changes nothing. */
  function Commit(b: Box, f: Field, content: string): (r: Box)
    ensures Read(r, f) == content
    ensures forall g :: g != f ==> Read(r, g) == Read(b, g)
    ensures r.id == b.id && r.x == b.x && r.y == b.y && r.width == b.width && r.height == b.height
  {
    match f
    case Title => b.(title := content)
    case Text => b.(text := content)
    case BorderColor => b.(borderColor := content)
  }
}
