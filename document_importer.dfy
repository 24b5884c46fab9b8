/** The extension-dispatching importer of
  * Smarteller/Smarteller/DocumentImporter.swift: `.txt` is read as UTF-8
  * unmodified, `.pdf` page by page, and `.docx` is decoded whole as UTF-8
  * without any parsing. */
module Importer {
  import opened Wrappers
  import opened TextUtil
  import opened FileSource

  /** The types `supportedTypes` offers; `Docx` stands for
    * `UTType(filenameExtension: "docx") ?? .data`. */
  datatype FileType = PlainText | Pdf | Docx

  const SupportedTypes: seq<FileType> := [PlainText, Pdf, Docx]

  /** `importTextFile`: the UTF-8 decoding, as it is. */
  function ImportTextFile(f: File): (r: Option<string>)
    ensures r.Some? <==> Utf8 in f.decoded
    ensures r.Some? ==> r.value == f.decoded[Utf8]
  {
    if Utf8 in f.decoded then Some(f.decoded[Utf8]) else None
  }

  /** What one page with text adds: its text and a newline. */
  function Line(text: string): string {
    text + "\n"
  }

  /** What `importPDFFile` returns: every page, no cap. */
  function PdfImport(doc: Option<PdfDocument>): Option<string> {
    if doc.None? then None
    else
      var text := Concat(doc.value.pages, Line);
      if text == "" then None else Some(text)
  }

  /** The PDF import fails exactly when the document cannot be opened or no
    * page has text; otherwise it is the page texts, each followed by a
    * newline, and the text of a document split in two is the text of its
    * first part followed by that of its second. */
  lemma PdfImportMeaning(doc: Option<PdfDocument>, k: nat)
    ensures PdfImport(doc).None? <==> doc.None? || !HasText(doc.value.pages)
    ensures PdfImport(doc).Some? && k <= |doc.value.pages| ==>
      PdfImport(doc).value == Concat(doc.value.pages[..k], Line) + Concat(doc.value.pages[k..], Line)
  {
    if doc.Some? {
      ConcatEmptyIff(doc.value.pages, Line);
      if k <= |doc.value.pages| {
        ConcatAppend(doc.value.pages[..k], doc.value.pages[k..], Line);
        assert doc.value.pages[..k] + doc.value.pages[k..] == doc.value.pages;
      }
    }
  }

  /** `importPDFFile`: the page loop. */
  method ImportPdfFile(doc: Option<PdfDocument>) returns (r: Option<string>)
    ensures r == PdfImport(doc)
  {
    if doc.None? {
      return None;
    }
    var pages := doc.value.pages;
    var extracted := "";
    for i := 0 to |pages|
      invariant extracted == Concat(pages[..i], Line)
    {
      assert pages[..i + 1][..i] == pages[..i];
      match pages[i] {
        case Some(text) =>
          extracted := extracted + text + "\n";
        case None =>
      }
    }
    assert pages[..|pages|] == pages;
    r := if extracted == "" then None else Some(extracted);
  }

  /** `importDocxFile`: the bytes read and decoded as UTF-8. */
  function ImportDocxFile(f: File): Option<string> {
    if f.bytes.None? then None
    else if Utf8 in f.decoded then Some(f.decoded[Utf8])
    else None
  }

  /** A readable `.docx` yields exactly what the same file would as `.txt`:
    * the whole file as UTF-8 text, no document parsing. */
  lemma DocxIsRawText(f: File)
    requires f.bytes.Some?
    ensures ImportDocxFile(f) == ImportTextFile(f)
    ensures ImportDocxFile(f).Some? <==> Utf8 in f.decoded
  {
  }

  /** `importDocument`: nil without the security scope, then dispatch on the
    * lower-cased extension. */
  method ImportDocument(f: File) returns (r: Option<string>)
    ensures !f.scopeGranted ==> r == None
    ensures Lower(f.pathExtension) !in {"txt", "pdf", "docx"} ==> r == None
    ensures f.scopeGranted && Lower(f.pathExtension) == "txt" ==> r == ImportTextFile(f)
    ensures f.scopeGranted && Lower(f.pathExtension) == "pdf" ==> r == PdfImport(f.pdf)
    ensures f.scopeGranted && Lower(f.pathExtension) == "docx" ==> r == ImportDocxFile(f)
  {
    if !f.scopeGranted {
      return None;
    }
    var fileExtension := Lower(f.pathExtension);
    if fileExtension == "txt" {
      r := ImportTextFile(f);
    } else if fileExtension == "pdf" {
      r := ImportPdfFile(f.pdf);
    } else if fileExtension == "docx" {
      r := ImportDocxFile(f);
    } else {
      r := None;
    }
  }
}
