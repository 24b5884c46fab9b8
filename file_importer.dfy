/** The throwing importer of FileImporter.swift that
  * `TeleprompterModel.importText` calls: dispatch on the lower-cased
  * extension among txt, rtf, pdf and docx, an encoding fallback for text,
  * and every successful result trimmed of surrounding whitespace. */
module FileImport {
  import opened Wrappers
  import opened TextUtil
  import opened FileSource

  /** `ImportError`. */
  datatype ImportError = UnsupportedFormat | EncodingError | PdfReadError | DocxReadError | DocxNotSupported

  /** What `importText` throws: one of its own errors, or an error that a
    * Foundation call (reading the file, parsing RTF) throws through it. */
  datatype Failure = Reported(error: ImportError) | SystemError

  /** The encodings `importTextFile` tries, in order. */
  const Encodings: seq<Encoding> := [Utf8, Utf16, Gb18030, Iso2022Jp]

  /** The first of `encodings` that decodes the file, with its text. */
  function FirstDecoding(encodings: seq<Encoding>, decoded: map<Encoding, string>): Option<(Encoding, string)>
  {
    if encodings == [] then None
    else if encodings[0] in decoded then Some((encodings[0], decoded[encodings[0]]))
    else FirstDecoding(encodings[1..], decoded)
  }

  /** `FirstDecoding` finds a decoding exactly when one of the encodings
    * decodes, and then it is the earliest such encoding in the list. */
  lemma {:induction false} FirstDecodingMeaning(encodings: seq<Encoding>, decoded: map<Encoding, string>)
    ensures FirstDecoding(encodings, decoded).None? <==> forall i :: 0 <= i < |encodings| ==> encodings[i] !in decoded
    ensures FirstDecoding(encodings, decoded).Some? ==>
      var (e, text) := FirstDecoding(encodings, decoded).value;
      exists k :: 0 <= k < |encodings| && encodings[k] == e && e in decoded && decoded[e] == text
        && forall j :: 0 <= j < k ==> encodings[j] !in decoded
  {
    if encodings != [] && encodings[0] !in decoded {
      FirstDecodingMeaning(encodings[1..], decoded);
      if FirstDecoding(encodings, decoded).Some? {
        var (e, text) := FirstDecoding(encodings, decoded).value;
        var k :| 0 <= k < |encodings[1..]| && encodings[1..][k] == e && e in decoded && decoded[e] == text
                 && forall j :: 0 <= j < k ==> encodings[1..][j] !in decoded;
        assert encodings[k + 1] == e;
      }
      assert forall i :: 1 <= i < |encodings| ==> encodings[i] == encodings[1..][i - 1];
    }
  }

  /** `importTextFile`: the first encoding that decodes, trimmed; if none
    * does, `encodingError`. */
  method ImportTextFile(f: File) returns (r: Result<string, Failure>)
    ensures FirstDecoding(Encodings, f.decoded).Some? ==> r == Ok(Trim(FirstDecoding(Encodings, f.decoded).value.1))
    ensures FirstDecoding(Encodings, f.decoded).None? ==> r == Err(Reported(EncodingError))
  {
    for i := 0 to |Encodings|
      invariant FirstDecoding(Encodings, f.decoded) == FirstDecoding(Encodings[i..], f.decoded)
    {
      var encoding := Encodings[i];
      if encoding in f.decoded {
        return Ok(Trim(f.decoded[encoding]));
      }
    }
    return Err(Reported(EncodingError));
  }

  /** `importRTFFile`: the attributed string's text, trimmed; errors from
    * reading or parsing propagate. */
  function ImportRtfFile(f: File): (r: Result<string, Failure>)
    ensures r.Ok? <==> f.bytes.Some? && f.rtf.Some?
    ensures r.Ok? ==> IsTrimmed(r.value)
    ensures r.Err? ==> r.error == SystemError
  {
    if f.bytes.None? || f.rtf.None? then Err(SystemError) else Ok(Trim(f.rtf.value))
  }

  /** What one page with text adds: its text and a blank line. */
  function Paragraph(text: string): string {
    text + "\n\n"
  }

  /** What `importPDFFile` returns for an opened document. */
  function PdfText(doc: PdfDocument): string {
    Trim(Concat(doc.pages, Paragraph))
  }

  /** `importPDFFile`: `pdfReadError` when the document cannot be opened;
    * otherwise every page's text followed by a blank line, trimmed. A
    * document without any page text imports as the empty string. */
  method ImportPdfFile(doc: Option<PdfDocument>) returns (r: Result<string, Failure>)
    ensures doc.None? ==> r == Err(Reported(PdfReadError))
    ensures doc.Some? ==> r == Ok(PdfText(doc.value))
    ensures doc.Some? && !HasText(doc.value.pages) ==> r == Ok("")
  {
    if doc.None? {
      return Err(Reported(PdfReadError));
    }
    var pages := doc.value.pages;
    var text := "";
    for i := 0 to |pages|
      invariant text == Concat(pages[..i], Paragraph)
    {
      assert pages[..i + 1][..i] == pages[..i];
      match pages[i] {
        case Some(pageText) =>
          text := text + pageText + "\n\n";
        case None =>
      }
    }
    assert pages[..|pages|] == pages;
    ConcatEmptyIff(pages, Paragraph);
    r := Ok(Trim(text));
  }

  /** `importDocxFile`: never succeeds. */
  function ImportDocxFile(f: File): (r: Result<string, Failure>)
    ensures r.Err?
    ensures r == Err(Reported(DocxReadError)) <==> f.bytes.None?
  {
    if f.bytes.None? then Err(Reported(DocxReadError)) else Err(Reported(DocxNotSupported))
  }

  /** `importText`. */
  method ImportText(f: File) returns (r: Result<string, Failure>)
    ensures Lower(f.pathExtension) !in {"txt", "rtf", "pdf", "docx"} ==> r == Err(Reported(UnsupportedFormat))
    ensures Lower(f.pathExtension) == "rtf" ==> r == ImportRtfFile(f)
    ensures Lower(f.pathExtension) == "pdf" ==> r == (if f.pdf.None? then Err(Reported(PdfReadError)) else Ok(PdfText(f.pdf.value)))
    ensures Lower(f.pathExtension) == "docx" ==> r == ImportDocxFile(f)
    ensures Lower(f.pathExtension) == "txt" ==>
      r == (match FirstDecoding(Encodings, f.decoded)
            case Some((_, text)) => Ok(Trim(text))
            case None => Err(Reported(EncodingError)))
    ensures r.Ok? ==> IsTrimmed(r.value)
  {
    var fileExtension := Lower(f.pathExtension);
    if fileExtension == "txt" {
      r := ImportTextFile(f);
      if r.Ok? {
        TrimIsInnerPiece(FirstDecoding(Encodings, f.decoded).value.1);
      }
    } else if fileExtension == "rtf" {
      r := ImportRtfFile(f);
      if r.Ok? {
        TrimIsInnerPiece(f.rtf.value);
      }
    } else if fileExtension == "pdf" {
      r := ImportPdfFile(f.pdf);
      if r.Ok? {
        TrimIsInnerPiece(Concat(f.pdf.value.pages, Paragraph));
      }
    } else if fileExtension == "docx" {
      r := ImportDocxFile(f);
    } else {
      r := Err(Reported(UnsupportedFormat));
    }
  }

  /** `ImportError.errorDescription`. */
  function ErrorDescription(e: ImportError): string {
    match e
    case UnsupportedFormat => "不支持的文件格式"
    case EncodingError => "文件编码错误，无法读取"
    case PdfReadError => "PDF文件读取失败"
    case DocxReadError => "Word文档读取失败"
    case DocxNotSupported => "暂不支持Word文档格式，请使用文本文件或PDF"
  }

  /** Every error has a non-empty message and no two errors share one. */
  lemma DescriptionsDistinct(e1: ImportError, e2: ImportError)
    ensures |ErrorDescription(e1)| > 0
    ensures e1 != e2 ==> ErrorDescription(e1) != ErrorDescription(e2)
  {
  }
}
