/** How the legacy version relates to the current one: where it loads
    differently, where its drag guard is looser, and how its new box
    differs from a box created in view. */
module LegacyLaws {
  import opened Wrappers
  import opened State
  import Geometry
  import Canvas
  import BoxGestures
  import Legacy

  /** Both versions take a stored document that parses. */
  lemma LoadStatesAgreeOnParsed(prev: Document, saved: string, parse: string -> ParseResult<Document>)
    requires saved != "" && parse(saved).Parsed?
    ensures Legacy.LoadState(prev, Some(saved), parse) == State.LoadState(Some(saved), parse)
  {
  }

  /** With an empty store the legacy page stays on its empty untitled
      document, where the current version loads the example story. */
  lemma LoadStatesDifferOnEmptyStore(parse: string -> ParseResult<Document>)
    ensures Legacy.LoadState(Legacy.InitialState, None, parse) == Legacy.InitialState
    ensures State.LoadState(None, parse) == DefaultState
    ensures Legacy.InitialState != DefaultState
  {
    assert |Legacy.InitialState.boxes| == 0 && |DefaultState.boxes| == 6;
  }

  /** On a parse failure the legacy load keeps whatever was there, so a
      well-formed previous document stays well formed; the current version
      falls back to the example story, which is also well formed. */
  lemma LegacyLoadFailureKeepsWellFormed(prev: Document, saved: string, parse: string -> ParseResult<Document>)
    requires WellFormed(prev) && parse(saved).ParseFailed?
    ensures WellFormed(Legacy.LoadState(prev, Some(saved), parse))
  {
  }

  /** Every press the current guard accepts, the legacy guard accepts too. */
  lemma CurrentGuardIsStricter(target: BoxGestures.PointerTarget, rect: Geometry.ElementRect, cx: real, cy: real)
    ensures BoxGestures.DragStartAllowed(target, rect, cx, cy) ==> Legacy.DragStartAllowed(target)
  {
  }

  /** A press in the resize corner starts a legacy drag, but not a current one. */
  lemma ResizeCornerPressDiffers(b: Box)
    ensures var rect := Geometry.ElementRect(b.id, 0.0, 0.0, 200.0, 150.0);
            var e := BoxGestures.Down(BoxGestures.BoxBody, 195.0, 145.0, rect, 0.0, 0.0);
            Legacy.Step(b, BoxGestures.NoHandlers, e).handlers.move.Some?
            && BoxGestures.Step(b, BoxGestures.NoHandlers, e).handlers.move.None?
  {
  }

  /** The legacy button's box sits where the current version's in-view box
      sits on an unscrolled canvas, with the same size and border; only its
      text differs. */
  lemma NewBoxMatchesCreateInView(d: Document, id: string, v: Canvas.Viewport, rx: real, ry: real)
    requires 0.0 <= rx < 1.0 && 0.0 <= ry < 1.0
    requires v.scrollLeft == 0.0 && v.scrollTop == 0.0
    ensures BoxGestures.CreateBoxInView(d, id, v, rx, ry).boxes[|d.boxes|]
            == Legacy.NewBox(id, rx, ry).(text := "")
  {
  }

  /** The legacy button appends its box to the document. */
  method AddBoxButton(d: Document, id: string, rx: real, ry: real) returns (r: Document)
    requires 0.0 <= rx < 1.0 && 0.0 <= ry < 1.0
    ensures |r.boxes| == |d.boxes| + 1 && r.boxes[..|d.boxes|] == d.boxes
    ensures r.boxes[|d.boxes|].text == Legacy.NewBoxText
    ensures 100.0 <= r.boxes[|d.boxes|].x < 300.0 && 100.0 <= r.boxes[|d.boxes|].y < 300.0
    ensures r.connections == d.connections && r.name == d.name
    ensures r == State.AddBox(d, Legacy.NewBox(id, rx, ry))
  {
    r := Legacy.AddBox(d, Legacy.NewBox(id, rx, ry));
  }
}
