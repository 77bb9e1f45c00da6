/** Properties of import and export: the round trip, where it loses the
    name, that import trusts the file's references, and the download name. */
module ImportExportLaws {
  import opened Wrappers
  import opened State
  import Geometry
  import opened ImportExport

  /** Importing an exported document gives it back exactly when its name is
      non-empty; an empty name comes back as the fallback name. */
  lemma ExportImportRoundTrip(prev: Document, d: Document)
    ensures ImportState(prev, Parsed(Exported(d))).status == Replaced
    ensures ImportState(prev, Parsed(Exported(d))).doc == d <==> d.name != ""
    ensures d.name == "" ==> ImportState(prev, Parsed(Exported(d))).doc == d.(name := ImportedName)
  {
  }

  /** A rejected import, for either reason, leaves the document as it was. */
  lemma RejectedImportKeepsDocument(d: Document, parsed: ParseResult<ImportedValue>)
    requires parsed.ParseFailed? || !ValidImport(parsed.value)
    ensures ImportState(d, parsed) == ImportOutcome(d, if parsed.ParseFailed? || parsed.value.Null? then ParseError else InvalidFile)
  {
  }

  /** Importing twice is importing once: the outcome depends only on the
      file, not on the document it replaces. */
  lemma ImportReplacesWholesale(d1: Document, d2: Document, v: ImportedValue)
    requires ValidImport(v)
    ensures ImportState(d1, Parsed(v)) == ImportState(d2, Parsed(v))
    ensures ImportState(ImportState(d1, Parsed(v)).doc, Parsed(v)) == ImportState(d1, Parsed(v))
  {
  }

  /** A file whose connection names a box it does not contain is accepted
      as it is: the result is not well formed, and the renderer skips that
      connector because one end cannot be found. */
  lemma ImportAcceptsStaleReference(prev: Document)
    ensures var a := Box("a", 0.0, 0.0, 200.0, 150.0, "", "", "#3498db");
            var c := Connection("c", "a", "gone", "#2c3e50", Solid);
            var r := ImportState(prev, Parsed(Record(Some("s"), Array([a]), Array([c]))));
            && r.status == Replaced
            && !WellFormed(r.doc)
            && Geometry.ConnectorEndpoints(r.doc, c).None?
  {
    var a := Box("a", 0.0, 0.0, 200.0, 150.0, "", "", "#3498db");
    var c := Connection("c", "a", "gone", "#2c3e50", Solid);
    var r := ImportState(prev, Parsed(Record(Some("s"), Array([a]), Array([c]))));
    assert r.doc.boxes == [a] && r.doc.connections == [c];
    assert !HasBox(r.doc, "gone") by {
      assert a.id != "gone";
    }
    assert !EndpointsExist(r.doc) by {
      assert c in r.doc.connections;
    }
  }

  /** Two documents with non-empty names download under the same file name
      only when their names agree; an empty name shares its file name with
      a document called "storyboard". */
  lemma ExportFilenameInjective(a: string, b: string)
    requires a != "" && b != ""
    ensures ExportFilename(a) == ExportFilename(b) <==> a == b
  {
    if ExportFilename(a) == ExportFilename(b) {
      var fa := ExportFilename(a);
      assert a == fa[..|fa| - |FileExtension|];
    }
  }

  lemma ExportFilenameFallbackCollides()
    ensures ExportFilename("") == ExportFilename(DefaultFileStem) == "storyboard.json"
  {
  }
}
