/** A file picked for import, described by what the platform APIs report
  * on it: the security scope, the size attribute, the raw bytes, the
  * string decoders, PDFKit and the RTF reader. The importers only branch on
  * these reports, so the reports are the model's inputs. */
module FileSource {
  import opened Wrappers

  newtype Byte = b: int | 0 <= b < 256

  /** The `String.Encoding`s the importers try. */
  datatype Encoding = Utf8 | Utf16 | Gb18030 | Iso2022Jp

  /** A PDFKit document: for each page, `page(at:)?.string`, absent when the
    * page or its text is nil. */
  datatype PdfDocument = PdfDocument(pages: seq<Option<string>>)

  datatype File = File(
    pathExtension: string,
    /** `startAccessingSecurityScopedResource()` */
    scopeGranted: bool,
    /** the `.size` attribute from `FileManager.attributesOfItem` */
    size: Option<int>,
    /** `Data(contentsOf:)`, absent when reading throws */
    bytes: Option<seq<Byte>>,
    /** `String(contentsOf:encoding:)` for each encoding that decodes the file */
    decoded: map<Encoding, string>,
    /** `PDFDocument(url:)` */
    pdf: Option<PdfDocument>,
    /** `NSAttributedString(data:options:[.documentType: .rtf]).string` */
    rtf: Option<string>)

  /** The text a page-by-page loop builds: each page that has text adds
    * `piece(text)`, in page order; pages without text add nothing. */
  function Concat(pages: seq<Option<string>>, piece: string -> string): string
  {
    if pages == [] then ""
    else
      Concat(pages[..|pages| - 1], piece)
      + match pages[|pages| - 1] case Some(t) => piece(t) case None => ""
  }

  predicate HasText(pages: seq<Option<string>>) {
    exists i :: 0 <= i < |pages| && pages[i].Some?
  }

  /** The text of two runs of pages is the text of the first followed by
    * the text of the second: pages are joined in order. */
  lemma {:induction false} ConcatAppend(a: seq<Option<string>>, b: seq<Option<string>>, piece: string -> string)
    ensures Concat(a + b, piece) == Concat(a, piece) + Concat(b, piece)
  {
    if b != [] {
      ConcatAppend(a, b[..|b| - 1], piece);
      assert (a + b)[..|a + b| - 1] == a + b[..|b| - 1];
    } else {
      assert a + b == a;
    }
  }

  /** When every piece is non-empty, the joined text is empty exactly when no
    * page has text. */
  lemma {:induction false} ConcatEmptyIff(pages: seq<Option<string>>, piece: string -> string)
    requires forall t :: |piece(t)| > 0
    ensures Concat(pages, piece) == "" <==> !HasText(pages)
  {
    if pages != [] {
      var init := pages[..|pages| - 1];
      ConcatEmptyIff(init, piece);
      if HasText(init) {
        var i :| 0 <= i < |init| && init[i].Some?;
        assert pages[i].Some?;
      }
      if pages[|pages| - 1].None? && HasText(pages) {
        var i :| 0 <= i < |pages| && pages[i].Some?;
        assert init[i].Some?;
      }
    }
  }
}
