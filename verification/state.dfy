/** The storyboard document and its mutations (js/state.js).

    A document is a name, an ordered sequence of boxes and a sequence of
    connections. Connections refer to boxes by id only, so a lookup can fail.
    Every mutation in the editor is followed by a write of the whole document
    to the store; that write is foreign I/O and is not part of this module. */
module State {
  import opened Wrappers
  import Seqs

  /** A box on the canvas; coordinates are canvas pixels. */
  datatype Box = Box(
    id: string,
    x: real, y: real, width: real, height: real,
    title: string, text: string, borderColor: string)

  /** The three line styles the connection popover offers. */
  datatype Style = Solid | Dashed | Double

  /** A directed link between two boxes, named by id. */
  datatype Connection = Connection(
    id: string, fromBox: string, toBox: string, color: string, style: Style)

  datatype Document = Document(name: string, boxes: seq<Box>, connections: seq<Connection>)

  const UntitledName: string := "Untitled Storyboard"

  // ---------------------------------------------------------------------------
  // Predicates handed to find/filter. Each is defined once so that every use
  // of a filter mentions the same function value.

  function BoxIdIs(id: string): Box -> bool { (b: Box) => b.id == id }
  function NotBoxId(id: string): Box -> bool { (b: Box) => b.id != id }
  function ConnectionIdIs(id: string): Connection -> bool { (c: Connection) => c.id == id }
  function NotConnectionId(id: string): Connection -> bool { (c: Connection) => c.id != id }

  /** A connection is incident to a box when either endpoint names it. */
  predicate Incident(c: Connection, boxId: string) {
    c.fromBox == boxId || c.toBox == boxId
  }
  function IncidentTo(boxId: string): Connection -> bool { (c: Connection) => Incident(c, boxId) }
  function NotIncidentTo(boxId: string): Connection -> bool { (c: Connection) => !Incident(c, boxId) }

  // ---------------------------------------------------------------------------
  // Well-formedness: what the editor's gestures are meant to keep true.

  predicate HasBox(d: Document, id: string) {
    exists i :: 0 <= i < |d.boxes| && d.boxes[i].id == id
  }

  predicate DistinctBoxIds(d: Document) {
    forall i, j :: 0 <= i < j < |d.boxes| ==> d.boxes[i].id != d.boxes[j].id
  }

  predicate DistinctConnectionIds(d: Document) {
    forall i, j :: 0 <= i < j < |d.connections| ==> d.connections[i].id != d.connections[j].id
  }

  /** Every connection names two boxes of the document. */
  predicate EndpointsExist(d: Document) {
    forall c :: c in d.connections ==> HasBox(d, c.fromBox) && HasBox(d, c.toBox)
  }

  predicate NoSelfLoops(d: Document) {
    forall c :: c in d.connections ==> c.fromBox != c.toBox
  }

  /** `c` joins `a` and `b` in one direction or the other. */
  predicate Links(c: Connection, a: string, b: string) {
    (c.fromBox == a && c.toBox == b) || (c.fromBox == b && c.toBox == a)
  }

  /** Some connection joins the unordered pair {a, b}. */
  predicate Linked(conns: seq<Connection>, a: string, b: string) {
    exists c :: c in conns && Links(c, a, b)
  }

  /** No unordered pair of boxes is joined twice. */
  predicate NoDuplicatePairs(d: Document) {
    forall i, j :: 0 <= i < j < |d.connections| ==>
      !Links(d.connections[j], d.connections[i].fromBox, d.connections[i].toBox)
  }

  predicate WellFormed(d: Document) {
    && DistinctBoxIds(d)
    && DistinctConnectionIds(d)
    && EndpointsExist(d)
    && NoSelfLoops(d)
    && NoDuplicatePairs(d)
  }

  // ---------------------------------------------------------------------------
  // Accessors and mutations

  /** `getBox`: the first box with that id, or None when no box has it. */
  function GetBox(d: Document, id: string): (r: Option<Box>)
    ensures r.Some? ==> r.value.id == id && r.value in d.boxes
    ensures r.Some? ==> exists i :: 0 <= i < |d.boxes| && d.boxes[i] == r.value
                                    && forall j :: 0 <= j < i ==> d.boxes[j].id != id
    ensures r.None? <==> !HasBox(d, id)
  {
    match Seqs.FirstIndex(d.boxes, BoxIdIs(id))
    case None => None
    case Some(i) => Some(d.boxes[i])
  }

  /** `addBox`: the box becomes the last one; nothing else changes. */
  function AddBox(d: Document, b: Box): (r: Document)
    ensures |r.boxes| == |d.boxes| + 1 && r.boxes[|d.boxes|] == b
    ensures r.boxes[..|d.boxes|] == d.boxes
    ensures r.name == d.name && r.connections == d.connections
    ensures !HasBox(d, b.id) ==> GetBox(r, b.id) == Some(b)
  {
    var r := d.(boxes := d.boxes + [b]);
    assert !HasBox(d, b.id) ==> forall j :: 0 <= j < |d.boxes| ==> r.boxes[j].id != b.id;
    r
  }

  /** `removeBox`: drops the box and, in cascade, every connection touching it. */
  function RemoveBox(d: Document, id: string): (r: Document)
    ensures !HasBox(r, id)
    ensures forall c :: c in r.connections ==> !Incident(c, id)
    ensures forall b :: b in d.boxes && b.id != id ==> b in r.boxes
    ensures forall b :: b in r.boxes ==> b in d.boxes
    ensures forall c :: c in d.connections && !Incident(c, id) ==> c in r.connections
    ensures forall c :: c in r.connections ==> c in d.connections
    ensures r.name == d.name
  {
    var r := Document(d.name,
                      Seqs.Filter(d.boxes, NotBoxId(id)),
                      Seqs.Filter(d.connections, NotIncidentTo(id)));
    assert forall b :: b in d.boxes && b.id != id ==> b in r.boxes by {
      forall b | b in d.boxes && b.id != id ensures b in r.boxes {
        var i :| 0 <= i < |d.boxes| && d.boxes[i] == b;
      }
    }
    assert forall c :: c in d.connections && !Incident(c, id) ==> c in r.connections by {
      forall c | c in d.connections && !Incident(c, id) ensures c in r.connections {
        var i :| 0 <= i < |d.connections| && d.connections[i] == c;
      }
    }
    r
  }

  /** `addConnection`: appends the connection as given. It checks nothing:
      the guards against self-loops and duplicates live in the connect gesture. */
  function AddConnection(d: Document, c: Connection): (r: Document)
    ensures |r.connections| == |d.connections| + 1 && r.connections[|d.connections|] == c
    ensures r.connections[..|d.connections|] == d.connections
    ensures r.name == d.name && r.boxes == d.boxes
  {
    d.(connections := d.connections + [c])
  }

  /** `removeConnection`: drops exactly the connections carrying that id. */
  function RemoveConnection(d: Document, id: string): (r: Document)
    ensures forall c :: c in r.connections ==> c.id != id && c in d.connections
    ensures forall c :: c in d.connections && c.id != id ==> c in r.connections
    ensures r.name == d.name && r.boxes == d.boxes
  {
    var r := d.(connections := Seqs.Filter(d.connections, NotConnectionId(id)));
    assert forall c :: c in d.connections && c.id != id ==> c in r.connections by {
      forall c | c in d.connections && c.id != id ensures c in r.connections {
        var i :| 0 <= i < |d.connections| && d.connections[i] == c;
      }
    }
    r
  }

  /** `clearState`: an empty, untitled document. */
  function ClearState(d: Document): (r: Document)
    ensures r.name == UntitledName && |r.boxes| == 0 && |r.connections| == 0
  {
    Document(UntitledName, [], [])
  }

  /** The box object a gesture holds is the one inside the document, so
      writing to it replaces the box with the same id. */
  function UpdateBox(d: Document, b: Box): (r: Document)
    ensures |r.boxes| == |d.boxes| && r.name == d.name && r.connections == d.connections
    ensures forall i :: 0 <= i < |d.boxes| ==> r.boxes[i].id == d.boxes[i].id
    ensures forall i :: 0 <= i < |d.boxes| && d.boxes[i].id != b.id ==> r.boxes[i] == d.boxes[i]
    ensures forall i :: 0 <= i < |d.boxes| && d.boxes[i].id == b.id ==> r.boxes[i] == b
  {
    d.(boxes := Seqs.Map(d.boxes, (o: Box) => if o.id == b.id then b else o))
  }

  /** The connection popover's colour picker. */
  function SetConnectionColor(d: Document, id: string, color: string): (r: Document)
    ensures |r.connections| == |d.connections| && r.name == d.name && r.boxes == d.boxes
    ensures forall i :: 0 <= i < |d.connections| ==>
      r.connections[i] == (if d.connections[i].id == id then d.connections[i].(color := color)
                           else d.connections[i])
  {
    d.(connections := Seqs.Map(d.connections,
                               (c: Connection) => if c.id == id then c.(color := color) else c))
  }

  /** The connection popover's style selector. */
  function SetConnectionStyle(d: Document, id: string, style: Style): (r: Document)
    ensures |r.connections| == |d.connections| && r.name == d.name && r.boxes == d.boxes
    ensures forall i :: 0 <= i < |d.connections| ==>
      r.connections[i] == (if d.connections[i].id == id then d.connections[i].(style := style)
                           else d.connections[i])
  {
    d.(connections := Seqs.Map(d.connections,
                               (c: Connection) => if c.id == id then c.(style := style) else c))
  }

  // ---------------------------------------------------------------------------
  // Persistence

  /** The texts of the example story's six boxes. */
  const PremiseText: string :=
    "A young cargo pilot finds an ancient control device that can awaken hidden space defense weapons from a long-forgotten war. The device imprints and ties itself to her for good.\n"
  const ChallengeText: string :=
    "She learns an invading empire fleet is on its way to attack a nearby colony, and only those old weapons could stop them."
  const OutcomeText: string :=
    "She hesitates too long, and the empire tracks the device's signal to her ship. Now she's forced into conflict anyway."
  const FailText: string :=
    "She ignores it and flies away, not wanting trouble. The colony is destroyed, the empire grows stronger and begins tracking her."
  const SuccessText: string :=
    "She activates the device and calls the ancient weapons. They power up and drive the empire fleet back. She is on the radar for the empire now."
  const FinaleText: string :=
    "She accepts that having the device means she can't stay neutral. Whether to run, hide and get rid of the device, or to face the empire, the parts are moving now."

  /** The generated ids of the example story's boxes and connections. */
  const PremiseId: string := "box-1770138458043-nmcfo"
  const ChallengeId: string := "box-1770135209917-7u3e9"
  const OutcomeId: string := "box-1770137669195-2xg70"
  const FailId: string := "box-1770135171097-lmw2d"
  const SuccessId: string := "box-1770134809821-dz3ni"
  const FinaleId: string := "box-1770136727073-cviex"
  const Link1: string := "conn-1770138478457-ve43o"
  const Link2: string := "conn-1770135329620-whtzn"
  const Link3: string := "conn-1770136597298-g6l41"
  const Link4: string := "conn-1770137671625-9jtar"
  const Link5: string := "conn-1770138396175-l5ujb"
  const Link6: string := "conn-1770138340780-dn4eu"
  const Link7: string := "conn-1770136749933-jpzgm"
  const Link8: string := "conn-1770136747391-2mg5f"

  /** The example story shown on first start. */
  const DefaultState: Document :=
    Document(
      "Story title",
      [ Box(PremiseId, 435.0, 27.0, 534.0, 150.0, "Premise",
            PremiseText, "#3498db"),
        Box(ChallengeId, 543.0, 215.0, 321.0, 153.0, "Initial challenge",
            ChallengeText, "#3498db"),
        Box(OutcomeId, 594.0, 437.0, 220.0, 216.0, "Guaranteed outcome",
            OutcomeText, "#3498db"),
        Box(FailId, 185.0, 618.0, 326.0, 150.0, "FAIL",
            FailText, "#f80d3c"),
        Box(SuccessId, 889.0, 620.0, 339.0, 150.0, "SUCCESS",
            SuccessText, "#33db36"),
        Box(FinaleId, 511.0, 846.0, 403.0, 164.0, "Finale",
            FinaleText, "#3498db")
      ],
      [ Connection(Link1, PremiseId, ChallengeId, "#2c3e50", Double),
        Connection(Link2, ChallengeId, FailId, "#2c3e50", Solid),
        Connection(Link3, ChallengeId, SuccessId, "#2c3e50", Dashed),
        Connection(Link4, OutcomeId, ChallengeId, "#2c3e50", Double),
        Connection(Link5, OutcomeId, FailId, "#ff0000", Double),
        Connection(Link6, OutcomeId, SuccessId, "#71b8fe", Dashed),
        Connection(Link7, FailId, FinaleId, "#ff0f0f", Double),
        Connection(Link8, SuccessId, FinaleId, "#0fff57", Dashed)
      ])

  /** `loadState`. `saved` is what the store holds under the document key
      (None when absent); `parse` stands for JSON.parse. An absent or empty
      entry, or one that does not parse, yields the example story. */
  function LoadState(saved: Option<string>, parse: string -> ParseResult<Document>): (r: Document)
    ensures saved.None? || saved.value == "" ==> r == DefaultState
    ensures saved.Some? && saved.value != "" && parse(saved.value).ParseFailed? ==> r == DefaultState
    ensures saved.Some? && saved.value != "" && parse(saved.value).Parsed? ==> r == parse(saved.value).value
  {
    if saved.None? || saved.value == "" then DefaultState
    else if parse(saved.value).Parsed? then parse(saved.value).value
    else DefaultState
  }
}
