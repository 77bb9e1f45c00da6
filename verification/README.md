# Storyboard editor: a Dafny model of the document core

This project models the core of a browser storyboard editor. A document has a name, a sequence of boxes and a sequence of connections. A box is a positioned, sized card with a title, a text and a border colour. A connection is a coloured, styled line between two boxes.

The model covers:
- the document operations and persistence rules (`js/state.js`);
- the connector geometry and the drag-to-connect gesture (`js/connections.js`);
- box creation, deletion, dragging, resize detection and field edits (`js/box.js`);
- canvas sizing, coordinate conversion and drag-to-scroll (`js/canvas.js`);
- import and export (`js/io.js`);
- the earlier single-file version of the same editor (`app.js`).

Everything is immutable datatypes and pure functions. The exceptions are the legacy lookups, pushes and filters, which are loops or methods. `Legacy.GetBox`, the pushes and the removals are proved equal to the current functions; `Legacy.GetConnection` has no current counterpart and is proved against its own first-match contract.

Modules, one per source file plus two support modules:

| module | file | models |
|---|---|---|
| `Wrappers` | wrappers.dfy | `Option` and `ParseResult` |
| `Seqs` | seqs.dfy | `find` (`FirstIndex`), `filter` and `map` over sequences, with their laws |
| `State`, `StateLaws` | state.dfy, state_laws.dfy | js/state.js: the document, the invariant `WellFormed`, the operations, `DEFAULT_STATE` and `loadState` |
| `Geometry`, `GeometryLaws` | geometry.dfy, geometry_laws.dfy | js/connections.js: anchor points, connector endpoints, the incident filter, `findBoxAtPoint` |
| `Connect`, `ConnectLaws` | connect.dfy, connect_laws.dfy | js/connections.js: the `dragConnection` state machine and its commit guard |
| `Canvas`, `CanvasLaws` | canvas.dfy, canvas_laws.dfy | js/canvas.js |
| `BoxGestures`, `BoxGesturesLaws` | box_gestures.dfy, box_gestures_laws.dfy | js/box.js |
| `ImportExport`, `ImportExportLaws` | io.dfy, io_laws.dfy | js/io.js |
| `Legacy`, `LegacyLaws` | legacy.dfy, legacy_laws.dfy | app.js |

Inputs the code takes from its environment are made parameters:
- The store entry is an `Option<string>`, and `JSON.parse` is a function `string -> ParseResult<Document>`.
- A parsed import file is an `ImportedValue`.
- Freshly generated ids are `string` arguments.
- The two `Math.random()` draws are reals in `[0, 1)`.
- The on-screen rectangles of the box elements are a `seq<ElementRect>` in document order.
- The scroll container is a `Viewport`: its on-screen origin and its scroll offsets.

A well-formed document (`State.WellFormed`) satisfies all of these:
- box ids are distinct;
- connection ids are distinct;
- every connection endpoint names an existing box;
- there are no self-loops;
- no unordered pair of boxes is linked twice.

### Where the code and the design description differ

The model follows the code:
- `addConnection` (js/state.js:97-101) checks nothing. Self-loops are blocked only because `findBoxAtPoint` skips the source (js/connections.js:287). Duplicates are blocked only by the test in `handleDragEnd` (js/connections.js:258-266). By `StateLaws.AddConnectionUnchecked`, appending any inadmissible connection (a self-loop, for instance) is accepted and breaks `WellFormed`.
- The design says boxes have a minimum size after a resize. No code enforces one: the resize watcher adopts whatever size it observes (js/box.js:168-170).
- A box is written to the store once per gesture on release. However, the release handler is never removed (js/box.js:82-87), so any later release on the same element writes again (`BoxGesturesLaws.LaterReleaseWritesAgain`).
- The design names pointer-cancel as an exit of the move gesture, with one save. `makeDraggable` installs no pointer-cancel handler (js/box.js:57-89), unlike the canvas drag-scroll (js/canvas.js:93). A cancelled box drag therefore saves nothing and keeps its move handler, so later moves keep dragging the box (`BoxGesturesLaws.CancelledDragKeepsMoving`).
- Import does not check connection references (js/io.js:50-59). A file can therefore bring in connections to missing boxes, which the renderer then skips (`ImportExportLaws.ImportAcceptsStaleReference`).
- Exporting and importing a document with an empty name does not give it back: the name becomes "Imported Storyboard" (`ImportExportLaws.ExportImportRoundTrip`).
- The design says a load from a corrupt store returns a document. The code returns any value that parses, unchecked (js/state.js:125): a stored `null` or `{}` becomes the state. The model cannot express this (see `State.LoadState` under Left out).
- The legacy `loadState` has no bundled default. It keeps the previous state when the store is empty or the text does not parse (app.js:46-56).

## Model

| member | source | states |
|---|---|---|
| State.GetBox | js/state.js:80 | the result is the first box with the id, and None exactly when no box has it |
| State.AddBox | js/state.js:83-87 | the box becomes the last one, earlier boxes, connections and name are unchanged, and a fresh id is then found by lookup |
| State.RemoveBox | js/state.js:89-95 | no box with the id and no connection touching it remain; every other box and connection is kept, and nothing new appears |
| State.AddConnection | js/state.js:97-101 | exactly one connection is appended as given; boxes and name are unchanged |
| State.RemoveConnection | js/state.js:103-106 | exactly the connections with that id are dropped; boxes and name are unchanged |
| State.ClearState | js/state.js:108-114 | an empty document named "Untitled Storyboard" |
| State.UpdateBox | js/box.js:74-80 | writing a held box back replaces the box with the same id; ids, order, the other boxes and the connections are unchanged |
| State.SetConnectionColor | js/connections.js:161-163 | only the colour of the connection with the id changes |
| State.SetConnectionStyle | js/connections.js:181-184 | only the style of the connection with the id changes |
| State.LoadState | js/state.js:121-135 | a missing or empty entry, or one that fails to parse, yields the example story; otherwise the parsed document |
| StateLaws.DefaultStateWellFormed | js/state.js:11-67 | the bundled example story is well formed |
| StateLaws.DefaultIdsDistinct | js/state.js:11-67 | the example story's box ids and connection ids are distinct |
| StateLaws.DefaultNoSelfLoops | js/state.js:57-66 | no connection of the example story joins a box to itself |
| StateLaws.DefaultNoDuplicatePairs | js/state.js:57-66 | no unordered pair of boxes of the example story is linked twice |
| StateLaws.DefaultEndpointsExist | js/state.js:57-66 | every endpoint of the example story names one of its boxes |
| StateLaws.LoadFallbackWellFormed | js/state.js:126-133 | the fallback is well formed and is the six-box story titled "Story title" |
| StateLaws.LoadAfterSave | js/state.js:117-125 | a saved document whose text parses back is what the next load returns |
| StateLaws.AddThenRemoveBox | js/state.js:83-95 | removing a just-added box with a fresh, unreferenced id restores the document |
| StateLaws.RemoveBoxIdempotent | js/state.js:89-95 | deleting the same box twice is deleting it once |
| StateLaws.RemoveBoxPartition | js/state.js:89-95 | the kept and the cascaded connections (and boxes) together are exactly the originals, as multisets |
| StateLaws.RemoveBoxKeepsOrder | js/state.js:89-91 | removal distributes over concatenation and keeps a single box exactly when its id differs, so the surviving boxes stay in their original order |
| StateLaws.RemoveBoxKeepsConnectionOrder | js/state.js:92-94 | the cascade keeps the surviving connections in their original order in the same way |
| StateLaws.RemoveBoxHasBox | js/state.js:89-95 | every other id is present after the delete exactly when it was before |
| StateLaws.RemoveBoxPreservesWellFormed | js/state.js:89-95 | the cascade delete keeps a well-formed document well formed |
| StateLaws.AddBoxPreservesWellFormed | js/state.js:83-87 | appending a box with a fresh id keeps the document well formed |
| StateLaws.AddConnectionUnchecked | js/state.js:97-101 | for every document and connection, the appended document is well formed exactly when the document was and the connection joins two distinct existing, not yet linked boxes under a fresh id; anything else, a self-loop included, is stored and breaks the invariant |
| StateLaws.AddThenRemoveConnection | js/state.js:97-106 | removing a just-added connection with a fresh id restores the document |
| StateLaws.RemoveConnectionKeepsOrder | js/state.js:103-106 | removal distributes over concatenation and keeps a single connection exactly when its id differs, so the survivors keep their order |
| StateLaws.RemoveConnectionCounts | js/state.js:103-106 | every connection with another id occurs as often as before, and none with the id remains |
| StateLaws.RemoveConnectionDropsOne | js/state.js:103-106 | with distinct ids, removing an existing id shortens the connections by exactly one |
| StateLaws.RemoveConnectionPreservesWellFormed | js/state.js:103-106 | removing a connection keeps the document well formed |
| StateLaws.PopoverEditsWriteHeldConnection | js/connections.js:161-183 | with distinct connection ids, editing by the held connection's id changes only its position, and only the colour or style there |
| StateLaws.PopoverEditsPreserveWellFormed | js/connections.js:161-184 | recolouring or restyling a connection keeps the document well formed |
| StateLaws.ClearStateLaws | js/state.js:108-114 | a cleared document is well formed, has no boxes, and clearing again changes nothing |
| StateLaws.UpdateBoxPreservesWellFormed | js/box.js:168-173 | writing back a box with a moved or resized geometry keeps the document well formed |
| StateLaws.UpdateBoxWritesHeldBox | js/box.js:74-75 | with distinct box ids, writing back by the held box's id changes exactly that box's position |
| StateLaws.UpdateBoxRepeatedId | js/box.js:74-75 | with a repeated id the by-id write rewrites every copy, where the held object is only one of them |
| StateLaws.UpdateBoxLookup | js/state.js:80 | after a write-back, looking up that id finds the new box and any other id finds what it found before |
| Geometry.BottomCenter | js/connections.js:30-33 | the handle is on the bottom edge, equally far from the left and right edges |
| Geometry.Center | js/connections.js:44-47 | the attachment point is equally far from opposite edges in both axes |
| Geometry.ConnectorEndpoints | js/connections.js:36-47 | a connector exists exactly when both boxes are found, and runs centre to centre |
| Geometry.IncidentConnections | js/connections.js:57-61 | exactly the connections touching the box are redrawn |
| Geometry.FindBoxAtPoint | js/connections.js:285-294 | never the excluded id; the first rectangle containing the point, edges inclusive; None exactly when no other rectangle contains it |
| GeometryLaws.TwoBoxScenario | js/connections.js:36-47 | a worked two-box example: the connector runs from (200,175) to (500,175), then to (400,375) after a move |
| GeometryLaws.UnrelatedMoveKeepsConnector | js/connections.js:57-61 | moving a box that is neither end of a connection leaves its connector as it was |
| GeometryLaws.SourceMoveMovesFirstEnd | js/connections.js:44-47 | moving the source box moves only the connector's first end, to the new centre |
| GeometryLaws.StaleConnectorSkipped | js/connections.js:37-39 | after a box is deleted, no connector is drawn for a connection that touched it |
| GeometryLaws.FindBoxAtPointScenario | js/connections.js:285-294 | on overlapping rectangles the earliest wins, and the source box is skipped even when hit |
| Canvas.MaxEdge | js/canvas.js:39-43 | the running maximum is at least 0, bounds every box edge, and is 0 or some box's edge |
| Canvas.CanvasBounds | js/canvas.js:30-52 | auto exactly when there are no boxes; otherwise at least 500 in each axis, holds every box's corner plus 500, and is the least such size |
| Canvas.CanvasPosition | js/canvas.js:114-120 | the canvas point is the client point moved by the container origin and the scroll offsets |
| Canvas.ScrollPointerDown | js/canvas.js:56-77 | a right press never starts a drag-scroll; otherwise one starts exactly for the middle button or an empty-area press outside excluded elements, recording pointer and offsets |
| Canvas.ScrollPointerMove | js/canvas.js:79-83 | while active, scroll offset plus pointer displacement equals the recorded offset; inactive, nothing changes |
| Canvas.EndScrollDrag | js/canvas.js:85-90 | the drag-scroll becomes inactive and the recorded values stay |
| Canvas.BackToOriginVisible | js/canvas.js:98-103 | hidden exactly when both scroll offsets are at most 100 |
| CanvasLaws.ClearedCanvasIsAuto | js/canvas.js:31-37 | a cleared board sizes its canvas to the container |
| CanvasLaws.AddBoxGrowsExtent | js/canvas.js:39-46 | adding a box never shrinks the canvas and the new box fits with the padding |
| CanvasLaws.ExtentIgnoresConnections | js/canvas.js:30-52 | adding or removing connections leaves the canvas size unchanged |
| CanvasLaws.DragScrollKeepsPointUnderPointer | js/canvas.js:69-82 | during a drag-scroll the canvas point under the pointer stays the one under it at the press |
| CanvasLaws.EndedDragScrollIsInert | js/canvas.js:79-90 | after the end, moves scroll nothing, and ending again changes nothing |
| CanvasLaws.BackToOriginMonotone | js/canvas.js:98-106 | scrolling further right or down never hides a shown button |
| CanvasLaws.DragScrollShowsButton | js/canvas.js:79-106 | from an unscrolled view, a drag-scroll shows the button exactly when it pulls the content more than 100 units along either axis |
| CanvasLaws.BackAtOriginHidesButton | js/canvas.js:98-106 | scrolling back to the origin hides the button |
| Connect.NewConnection | js/connections.js:267-273 | a new connection joins source to target with colour "#2c3e50" and style solid |
| Connect.StartConnect | js/connections.js:210-215 | the gesture starts from an existing box, and a missing box leaves the state as it was |
| Connect.DragMove | js/connections.js:233-249 | no update at all (the previous guide and highlight stay) while idle or when the source is gone; otherwise the guide runs from the source's handle to the pointer's canvas point, and the highlighted box is exactly the non-empty id `findBoxAtPoint` returns, never the source |
| Connect.DragEnd | js/connections.js:251-282 | always back to idle; a connection is appended exactly when a non-empty target other than the source is found and the pair is not yet linked either way |
| ConnectLaws.DragEndAddsSimpleLink | js/connections.js:258-276 | a gesture adds at most one connection, never a self-loop and never a second link for a pair |
| ConnectLaws.DragEndPreservesWellFormed | js/connections.js:251-282 | from an existing box, over rendered boxes of the document, with a fresh id, a gesture keeps the document well formed |
| ConnectLaws.HighlightIsCommitTarget | js/connections.js:245-266 | with a live source, a release at the pointer changes the document exactly when a box is highlighted there and not yet linked to the source, and then connects to that box |
| ConnectLaws.ConnectTwiceAddsOnce | js/connections.js:258-266 | after one gesture between two boxes, a second in either direction changes nothing |
| ConnectLaws.StartOnMissingBoxStaysIdle | js/connections.js:210-212 | pressing the handle of a missing box leaves the gesture idle |
| ConnectLaws.IdleGestureIsInert | js/connections.js:233-252 | move and release while idle do nothing |
| ConnectLaws.ConnectScenario | js/connections.js:251-282 | press A's handle, release over B: one solid "#2c3e50" connection A to B appears |
| BoxGestures.NewBox | js/box.js:15-30 | default 200 by 150, empty title and text, border "#3498db"; centred boxes have the point as centre, others as top-left corner |
| BoxGestures.CreateBox | js/box.js:24-35 | the new box is appended and nothing else changes |
| BoxGestures.CreateBoxInView | js/box.js:38-42 | appends a default box (the given id, 200 by 150, empty title and text, the default border) lying 100 to 300 units past the scroll offsets on each axis; earlier boxes, connections and name are unchanged |
| BoxGestures.DeleteBox | js/box.js:45-54 | the document gets the cascade delete, the box's own element (by its `data-id`) is removed, and the removed connection elements are exactly the ids of the connections that touched the box |
| BoxGestures.DragMoveBox | js/box.js:74-76 | the box follows the pointer minus the grip, clamped at 0, and nothing else of it changes |
| BoxGestures.Step | js/box.js:60-88 | a press starts a drag only on the body outside the 16-unit resize corner; a move never persists, keeps the handlers, and with a grip moves the box to the pointer minus the grip clamped at 0 (so a box created at negative coordinates is clamped on its first move), without a grip leaves it; a release detaches the move handler and persists exactly when a release handler was installed; a pointer-cancel changes nothing |
| BoxGestures.ObserveSize | js/box.js:165-174 | the observed size is adopted, both dimensions together, exactly when one differs by more than 1, leaving the box within 1 of it |
| BoxGestures.Commit | js/box.js:134-149 | the edited field takes the content; every other field and the geometry are unchanged |
| BoxGesturesLaws.RunKeepsPositionNonNegative | js/box.js:74-76 | any sequence of pointer events keeps a box that starts at non-negative coordinates at non-negative coordinates |
| BoxGesturesLaws.MovesDoNotPersist | js/box.js:74-80 | intermediate moves write nothing and keep the handlers |
| BoxGesturesLaws.RunAppend | js/box.js:60-88 | running two event sequences in turn equals running them joined, the writes adding up |
| BoxGesturesLaws.CancelledDragKeepsMoving | js/box.js:57-89 | after an accepted press, a pointer-cancel writes nothing and leaves the move handler attached, so a later move still drags the box by the press's grip |
| BoxGesturesLaws.GestureSavesOnce | js/box.js:60-88 | an accepted press, any moves and a release write the document exactly once and detach the move handler |
| BoxGesturesLaws.RefusedPressStartsNothing | js/box.js:61-66 | a refused press followed by a move leaves box and handlers unchanged and writes nothing |
| BoxGesturesLaws.GripTracksPointer | js/box.js:71-76 | when the element sits where the box says, the box moves by the pointer displacement, clamped at 0 |
| BoxGesturesLaws.LaterReleaseWritesAgain | js/box.js:82-87 | press, release, release writes the document twice |
| BoxGesturesLaws.ObserveSizeSettles | js/box.js:168-174 | observing the adopted size again changes nothing |
| BoxGesturesLaws.ObserveSizeIgnoresJitter | js/box.js:168 | size differences of at most 1 in both axes are ignored |
| BoxGesturesLaws.ObserveSizeKeepsWellFormed | js/box.js:168-173 | writing an adopted size back keeps the document well formed |
| BoxGesturesLaws.CommitLaws | js/box.js:134-149 | committing a field's current value changes nothing, and a later commit to the same field overrides an earlier one |
| BoxGesturesLaws.CommitsCommute | js/box.js:134-149 | commits to different fields do not interfere |
| BoxGesturesLaws.CreatedBoxFitsCanvas | js/box.js:24-33 | after creating a box the canvas is fixed-size and holds the box with the padding |
| BoxGesturesLaws.DeleteBoxElementsMatchCascade | js/box.js:45-53 | removed elements plus remaining connections number exactly the connections before |
| ImportExport.ImportName | js/io.js:57 | a non-empty imported name is kept; otherwise the name is "Imported Storyboard" |
| ImportExport.ImportState | js/io.js:44-66 | replaced exactly when both properties are arrays, wholesale and with the name fallback; a parse failure or null, and a missing array, leave the document unchanged with the matching alert |
| ImportExport.Exported | js/io.js:30-31 | the exported value passes the import check and carries the document's name, boxes and connections |
| ImportExport.ExportFilename | js/io.js:37 | the file name is the name, or "storyboard" when empty, followed by ".json" |
| ImportExportLaws.ExportImportRoundTrip | js/io.js:30-59 | importing an exported document gives it back exactly when its name is non-empty; an empty name becomes "Imported Storyboard" |
| ImportExportLaws.RejectedImportKeepsDocument | js/io.js:50-53 | any rejected import leaves the document as it was |
| ImportExportLaws.ImportReplacesWholesale | js/io.js:57-59 | an accepted import's result does not depend on the document it replaces, and importing it again changes nothing |
| ImportExportLaws.ImportAcceptsStaleReference | js/io.js:50-59 | a file with a connection to a missing box is accepted, not well formed, and that connector is skipped |
| ImportExportLaws.ExportFilenameInjective | js/io.js:37 | documents with non-empty names share a file name exactly when their names agree |
| ImportExportLaws.ExportFilenameFallbackCollides | js/io.js:37 | an unnamed document and one named "storyboard" both download as "storyboard.json" |
| Legacy.GetBox | app.js:15 | the scan finds what the current lookup finds: the first box with the id, None exactly when absent |
| Legacy.GetConnection | app.js:16 | the first connection with the id, and None exactly when no connection has it |
| Legacy.AddBox | app.js:18-22 | the legacy push is the current `addBox` |
| Legacy.AddConnection | app.js:30-34 | the legacy push is the current unchecked `addConnection` |
| Legacy.FilterScan | app.js:25-26 | the element-by-element scan keeps exactly the passing elements, in their order (the filter the current model is written with) |
| Legacy.RemoveBox | app.js:24-28 | the two scans compute the current cascade delete: the box and every connection touching it go |
| Legacy.RemoveConnection | app.js:36-39 | the scan computes the current `removeConnection`: exactly the connections with the id go |
| Legacy.LoadState | app.js:46-56 | a non-empty entry that parses replaces the state; a missing or empty entry, or a parse failure, keeps the previous state |
| Legacy.Step | app.js:69-99 | only a press on editable text is refused; moves and releases behave as in the current version, keeping positions non-negative |
| Legacy.NewBox | app.js:155-164 | the button's box is 200 by 150 with text "New box" and lies in [100, 300) on each axis |
| LegacyLaws.LoadStatesAgreeOnParsed | app.js:46-56 | both versions return a stored document that parses |
| LegacyLaws.LoadStatesDifferOnEmptyStore | app.js:5-9 | with an empty store the legacy page keeps its empty untitled document where the current one loads the example story |
| LegacyLaws.LegacyLoadFailureKeepsWellFormed | app.js:46-56 | a failed legacy load keeps a well-formed document well formed |
| LegacyLaws.CurrentGuardIsStricter | app.js:72-74 | every press the current guard accepts, the legacy guard accepts |
| LegacyLaws.ResizeCornerPressDiffers | app.js:72-80 | a press in the resize corner starts a legacy drag but not a current one |
| LegacyLaws.NewBoxMatchesCreateInView | app.js:155-164 | on an unscrolled canvas the legacy button's box is the current in-view box up to its text |
| LegacyLaws.AddBoxButton | app.js:155-166 | the button appends one box with text "New box" inside [100, 300) on each axis; it is the current `addBox` of the legacy box, so earlier boxes, connections and name are unchanged |

## Left out

- DOM and SVG rendering: element creation, CSS classes, `applyConnectionStyle`, `createInnerPath`, the guide line and highlight elements. These are display side effects that hold no document state.
- The connection popover's layout, placement and outside-click handling (js/connections.js:129-207). Only its colour and style setters are modelled.
- localStorage, FileReader, Blob, object URLs and `JSON.parse`/`JSON.stringify`. These are foreign I/O, and they are parameters here. Writes to the store are modelled as flags and counts: the drag gesture's `persisted` flag and `saves` count, the `ObserveSize` change flag (js/box.js:173), and the `Replaced` import status (js/io.js:62). The saves after a field edit (js/box.js:115, 137, 148), a document operation or a popover edit are not represented; every mutation there is followed by a whole-document write.
- `generateId`, `Date.now` and `Math.random`. Ids and random draws are arguments.
- `getBoundingClientRect`, `offsetLeft`/`offsetTop` and `offsetWidth`/`offsetHeight`. They are inputs.
- The browser clamping scroll offsets to the scrollable range, and the smooth scroll of the back-to-origin button.
- `toggleTheme` and the theme key (js/state.js:137-143). These are display preferences.
- js/main.js is event wiring (the name field, menus, the clear-all button) and is not part of this model. Its clear-all button does nothing when the board has no boxes, even if it has a name or stale connections; otherwise, after a confirmation, it applies `ClearState`. That guard is not modelled.
- State.UpdateBox: a gesture writes to the box object it holds; the model writes every box with that id. The two agree when box ids are distinct (`StateLaws.UpdateBoxWritesHeldBox`), which the editor's own gestures keep; import and load accept repeated ids, and then the by-id write changes every copy (`StateLaws.UpdateBoxRepeatedId`).
- State.SetConnectionColor: the popover writes to the connection object it was opened on; the model writes every connection with that id. They agree when connection ids are distinct (`StateLaws.PopoverEditsWriteHeldConnection`).
- State.SetConnectionStyle: the same held-object write modelled as a write by id, agreeing when connection ids are distinct (`StateLaws.PopoverEditsWriteHeldConnection`).
- Legacy.LoadState: like the current version, the legacy `loadState` assigns whatever `JSON.parse` yields, unchecked (app.js:50). A stored `null` or `{}` becomes the state; the Document-typed `parse` cannot express that.
- State.LoadState: `loadState` returns whatever `JSON.parse` yields, unchecked (js/state.js:125). A stored `null`, `{}` or `42` becomes the state and rendering then fails. Here `parse` yields a `Document` or a failure, so such a value cannot be expressed; unlike import, load performs no shape check.
- Floating-point arithmetic. Coordinates are reals, so the halvings are exact.
- ImportExport.ImportName: a truthy name that is not a string (a number, an object) is not modelled; the name is a string or absent.
- ImportExport.ImportState: entries of the imported arrays are taken to be well-typed boxes and connections. A box missing a field, or an entry that is not an object, is not modelled.
- Legacy.NewBox: the legacy box object has no title property; it is modelled with the empty title, which is how the current renderer shows a missing title.
- The render-time exception paths (a missing SVG path element for a connection) are not modelled; they only skip drawing.
