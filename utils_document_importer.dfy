/** The content-sniffing importer of
  * Smarteller/Smarteller/Utils/DocumentImporter.swift: a 50 MiB size cap,
  * classification by magic bytes (the `%PDF` header of ISO 32000-1 section
  * 7.5.2, the ZIP local file header signature `PK\x03\x04` of PKWARE's
  * APPNOTE.TXT section 4.3.7) or as NUL-free UTF-8 text, PDF text read from
  * at most 1000 pages, and every piece of text sanitized. DOCX is refused. */
module UtilsImporter {
  import opened Wrappers
  import opened TextUtil
  import opened FileSource

  const MaxFileSize: int := 50 * 1024 * 1024
  const MaxPdfPages: nat := 1000
  const PdfMagic: seq<Byte> := [0x25, 0x50, 0x44, 0x46]
  const ZipMagic: seq<Byte> := [0x50, 0x4B, 0x03, 0x04]

  /** The uniform type identifiers the importer distinguishes. */
  datatype FileType = PlainText | Pdf | Docx

  /** `supportedTypes`: DOCX is not offered. */
  const SupportedTypes: seq<FileType> := [PlainText, Pdf]

  /** `data.prefix(4)`: the first four bytes, or all of a shorter input. */
  function Prefix4(data: seq<Byte>): seq<Byte> {
    if |data| <= 4 then data else data[..4]
  }

  predicate IsPdf(data: seq<Byte>) {
    Prefix4(data) == PdfMagic
  }

  predicate IsDocx(data: seq<Byte>) {
    Prefix4(data) == ZipMagic
  }

  /** `isPlainText`: the bytes decode as UTF-8 and hold no 0x00 byte. */
  predicate IsPlainText(data: seq<Byte>, decodesAsUtf8: bool) {
    decodesAsUtf8 && 0 !in data
  }

  /** The magic tests look at exactly the first four bytes. */
  lemma MagicTests(data: seq<Byte>)
    ensures IsPdf(data) <==> |data| >= 4 && data[0] == 0x25 && data[1] == 0x50 && data[2] == 0x44 && data[3] == 0x46
    ensures IsDocx(data) <==> |data| >= 4 && data[0] == 0x50 && data[1] == 0x4B && data[2] == 0x03 && data[3] == 0x04
    ensures !(IsPdf(data) && IsDocx(data))
  {
    if |data| >= 4 {
      assert IsPdf(data) ==> data[..4][0] == 0x25;
      assert IsDocx(data) ==> data[..4][0] == 0x50;
    }
  }

  /** `validateFileType`: unreadable or shorter than four bytes gives nil;
    * otherwise PDF is tested first, then ZIP, then plain text. */
  function ValidateFileType(f: File): Option<FileType> {
    if f.bytes.None? || |f.bytes.value| < 4 then None
    else if IsPdf(f.bytes.value) then Some(Pdf)
    else if IsDocx(f.bytes.value) then Some(Docx)
    else if IsPlainText(f.bytes.value, Utf8 in f.decoded) then Some(PlainText)
    else None
  }

  /** Each readable input gets the class its leading bytes and content call
    * for, and at most one. */
  lemma ClassifiedByContent(f: File)
    ensures ValidateFileType(f) == Some(Pdf) <==>
      f.bytes.Some? && |f.bytes.value| >= 4 && f.bytes.value[..4] == PdfMagic
    ensures ValidateFileType(f) == Some(Docx) <==>
      f.bytes.Some? && |f.bytes.value| >= 4 && f.bytes.value[..4] == ZipMagic
    ensures ValidateFileType(f) == Some(PlainText) <==>
      f.bytes.Some? && |f.bytes.value| >= 4 && f.bytes.value[..4] != PdfMagic
      && f.bytes.value[..4] != ZipMagic && Utf8 in f.decoded && 0 !in f.bytes.value
  {
    if f.bytes.Some? {
      MagicTests(f.bytes.value);
    }
  }

  /** `sanitizeText`: NUL characters removed, then whitespace trimmed. */
  function Sanitize(text: string): string {
    Trim(RemoveNul(text))
  }

  /** Sanitized text holds no NUL, has no whitespace at either end, and
    * sanitizing it again changes nothing. */
  lemma SanitizeClean(text: string)
    ensures '\0' !in Sanitize(text)
    ensures IsTrimmed(Sanitize(text))
    ensures Sanitize(Sanitize(text)) == Sanitize(text)
  {
    var s := RemoveNul(text);
    var t := Trim(s);
    TrimKeepsCharacters(s);
    assert '\0' !in t;
    assert RemoveNul(t) == t by {
      assert forall i :: 0 <= i < |t| ==> t[i] in t;
    }
    TrimIsInnerPiece(s);
    TrimIdempotent(t);
  }

  /** `importTextFile`: UTF-8, else UTF-16, sanitized. */
  function ImportTextFile(f: File): Option<string> {
    if Utf8 in f.decoded then Some(Sanitize(f.decoded[Utf8]))
    else if Utf16 in f.decoded then Some(Sanitize(f.decoded[Utf16]))
    else None
  }

  /** What one page with text adds. */
  function SanitizedLine(text: string): string {
    Sanitize(text) + "\n"
  }

  /** The pages the PDF import reads: the first 1000 at most. */
  function ReadPages(doc: PdfDocument): seq<Option<string>> {
    if |doc.pages| <= MaxPdfPages then doc.pages else doc.pages[..MaxPdfPages]
  }

  /** What `importPDFFile` returns. */
  function PdfImport(doc: Option<PdfDocument>): Option<string> {
    if doc.None? then None
    else
      var text := Concat(ReadPages(doc.value), SanitizedLine);
      if text == "" then None else Some(text)
  }

  /** The PDF import fails exactly when the document cannot be opened or none
    * of its first 1000 pages has text; otherwise it is those pages'
    * sanitized texts, each followed by a newline, in page order. */
  lemma PdfImportMeaning(doc: Option<PdfDocument>)
    ensures PdfImport(doc).None? <==> doc.None? || !HasText(ReadPages(doc.value))
    ensures doc.Some? ==> |ReadPages(doc.value)| <= MaxPdfPages
    ensures PdfImport(doc).Some? ==> PdfImport(doc).value == Concat(ReadPages(doc.value), SanitizedLine)
  {
    if doc.Some? {
      ConcatEmptyIff(ReadPages(doc.value), SanitizedLine);
    }
  }

  /** `importPDFFile`: the page loop. */
  method ImportPdfFile(doc: Option<PdfDocument>) returns (r: Option<string>)
    ensures r == PdfImport(doc)
  {
    if doc.None? {
      return None;
    }
    var pages := doc.value.pages;
    var pageCount := if |pages| < MaxPdfPages then |pages| else MaxPdfPages;
    var extracted := "";
    for i := 0 to pageCount
      invariant extracted == Concat(pages[..i], SanitizedLine)
    {
      assert pages[..i + 1][..i] == pages[..i];
      match pages[i] {
        case Some(text) =>
          extracted := extracted + Sanitize(text) + "\n";
        case None =>
      }
    }
    assert pages[..pageCount] == ReadPages(doc.value);
    r := if extracted == "" then None else Some(extracted);
  }

  /** `importDocxFile`: always nil. */
  function ImportDocxFile(f: File): Option<string> {
    None
  }

  /** The file passes the scope and size checks. */
  predicate Admitted(f: File) {
    f.scopeGranted && f.size.Some? && f.size.value <= MaxFileSize
  }

  /** `importDocument`. */
  method ImportDocument(f: File) returns (r: Option<string>)
    ensures !Admitted(f) ==> r == None
    ensures ValidateFileType(f).None? ==> r == None
    ensures Admitted(f) && ValidateFileType(f) == Some(PlainText) ==> r == ImportTextFile(f)
    ensures Admitted(f) && ValidateFileType(f) == Some(Pdf) ==> r == PdfImport(f.pdf)
    ensures ValidateFileType(f) == Some(Docx) ==> r == None
  {
    if !f.scopeGranted {
      return None;
    }
    if f.size.None? || f.size.value > MaxFileSize {
      return None;
    }
    var fileType := ValidateFileType(f);
    if fileType.None? {
      return None;
    }
    match fileType.value {
      case PlainText => r := ImportTextFile(f);
      case Pdf => r := ImportPdfFile(f.pdf);
      case Docx => r := ImportDocxFile(f);
    }
  }

  /** Imported plain text is sanitized: no NUL character and no whitespace
    * at either end. A file classified as plain text decodes as UTF-8, so
    * its import never fails. */
  lemma ImportedTextIsClean(f: File)
    ensures ImportTextFile(f).Some? ==>
              IsTrimmed(ImportTextFile(f).value) && '\0' !in ImportTextFile(f).value
    ensures ValidateFileType(f) == Some(PlainText) ==> ImportTextFile(f).Some?
  {
    if Utf8 in f.decoded {
      SanitizeClean(f.decoded[Utf8]);
    } else if Utf16 in f.decoded {
      SanitizeClean(f.decoded[Utf16]);
    }
  }

  /** DOCX is neither offered in the picker nor imported. */
  lemma DocxRefused(f: File)
    requires ValidateFileType(f) == Some(Docx)
    ensures Docx !in SupportedTypes
    ensures f.bytes.Some? && f.bytes.value[..4] == ZipMagic
  {
    ClassifiedByContent(f);
  }
}
