/** Import and export of a whole document (js/io.js).

    The file's text and `JSON.parse` are not modelled: an import receives
    the parse outcome, and a parsed value is described by the three
    properties the import reads. */
module ImportExport {
  import opened Wrappers
  import opened State

  /** A property that must hold an array: either it does, with these
      elements, or it holds something else (or is absent). */
  datatype JsonArray<T> = Array(items: seq<T>) | NotArray

  /** The parsed file. `Null` is JSON `null`, on which reading a property
      throws; any other value is described by its `name` (None when it is
      absent or not a string), `boxes` and `connections` properties. A
      number, string or boolean has no such properties and so is a
      `Record(None, NotArray, NotArray)`. */
  datatype ImportedValue =
    | Null
    | Record(name: Option<string>, boxes: JsonArray<Box>, connections: JsonArray<Connection>)

  /** How an import ends: the document was replaced (and saved), or one of
      the two alerts was raised and nothing changed. */
  datatype ImportStatus = Replaced | InvalidFile | ParseError

  datatype ImportOutcome = ImportOutcome(doc: Document, status: ImportStatus)

  const ImportedName: string := "Imported Storyboard"
  const DefaultFileStem: string := "storyboard"
  const FileExtension: string := ".json"

  /** The name an import gives the document: the imported one when it is a
      non-empty string, otherwise the fixed fallback. */
  function ImportName(name: Option<string>): (r: string)
    ensures r != ""
    ensures name.Some? && name.value != "" ==> r == name.value
    ensures name.None? || name.value == "" ==> r == ImportedName
  {
    if name.Some? && name.value != "" then name.value else ImportedName
  }

  /** Whether the parsed value passes the array check. */
  predicate ValidImport(v: ImportedValue) {
    v.Record? && v.boxes.Array? && v.connections.Array?
  }

  /** `importState`'s load handler. A parse failure, or reading a property of
      `null`, ends in the parse-error alert; a value without both arrays ends
      in the invalid-file alert; otherwise the document is replaced
      wholesale, the name falling back when the imported one is empty or
      missing. No reference of a connection is checked. */
  function ImportState(d: Document, parsed: ParseResult<ImportedValue>): (r: ImportOutcome)
    ensures r.status == Replaced <==> parsed.Parsed? && ValidImport(parsed.value)
    ensures r.status != Replaced ==> r.doc == d
    ensures r.status == ParseError <==> parsed.ParseFailed? || parsed.value.Null?
    ensures r.status == Replaced ==>
              r.doc.boxes == parsed.value.boxes.items
              && r.doc.connections == parsed.value.connections.items
              && r.doc.name == ImportName(parsed.value.name)
  {
    match parsed
    case ParseFailed => ImportOutcome(d, ParseError)
    case Parsed(v) =>
      match v
      case Null => ImportOutcome(d, ParseError)
      case Record(name, boxes, connections) =>
        if boxes.NotArray? || connections.NotArray? then ImportOutcome(d, InvalidFile)
        else ImportOutcome(Document(ImportName(name), boxes.items, connections.items), Replaced)
  }

  /** What `JSON.stringify(state)` writes, read back as the import reads it. */
  function Exported(d: Document): (v: ImportedValue)
    ensures ValidImport(v)
    ensures v.name == Some(d.name) && v.boxes.items == d.boxes && v.connections.items == d.connections
  {
    Record(Some(d.name), Array(d.boxes), Array(d.connections))
  }

  /** The download name of `exportState`: the document's name, or the
      fallback stem when the name is empty, followed by ".json". */
  function ExportFilename(name: string): (r: string)
    ensures |r| > |FileExtension| && r[|r| - |FileExtension|..] == FileExtension
    ensures name != "" ==> r[..|r| - |FileExtension|] == name
    ensures name == "" ==> r[..|r| - |FileExtension|] == DefaultFileStem
  {
    var stem := if name == "" then DefaultFileStem else name;
    var r := stem + FileExtension;
    assert r[..|stem|] == stem && r[|stem|..] == FileExtension;
    r
  }
}
