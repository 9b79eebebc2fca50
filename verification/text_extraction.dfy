/**
 * `extract_text`: turns an uploaded document of a declared media type into
 * plain text. It never fails: every failure becomes a descriptive text.
 *
 * The document libraries are collaborators. What PyPDF2 reads from the bytes
 * is a `PdfContent` (one entry per page, None for a page whose extraction
 * raised, and the page texts the PyMuPDF engine yields before it stops);
 * what python-docx reads is the sequence of paragraph texts. Either reader
 * may raise on the bytes, which is an `Err`.
 */
module TextExtraction {
  import opened Values
  import opened Text

  /** Which optional libraries were importable: PyPDF2 and python-docx. */
  datatype Libraries = Libraries(pdfReader: bool, wordReader: bool)

  datatype PdfContent = PdfContent(pages: seq<Option<string>>, alternate: seq<string>)

  const PdfType: string := "application/pdf"
  const DocxType: string := "application/vnd.openxmlformats-officedocument.wordprocessingml.document"
  const MsWordType: string := "application/msword"

  // The longer messages are written as the sentence and its installation hint.
  const NoPdfLibrary: string := "PDF processing not available." + " Please install PyPDF2."
  const NoWordLibrary: string := "Word processing not available." + " Please install python-docx."
  const NoPdfText: string := "Could not extract text from PDF"
  const NoWordText: string := "Could not extract text" + " from Word document"

  function UnsupportedType(name: string): string {
    "Unsupported file type: " + name + ". Please use PDF or Word documents."
  }

  function ExtractionError(message: string): string {
    "Error extracting text: " + message
  }

  /** What one PDF page adds: its text and a newline, unless it raised or is blank. */
  function PageContribution(page: Option<string>): string {
    match page
    case Some(t) => if Blank(t) then "" else t + "\n"
    case None => ""
  }

  /** The pages' contributions, in page order. */
  function PdfJoin(pages: seq<Option<string>>): string {
    if pages == [] then "" else PdfJoin(pages[..|pages| - 1]) + PageContribution(pages[|pages| - 1])
  }

  function Concat(parts: seq<string>): string {
    if parts == [] then "" else Concat(parts[..|parts| - 1]) + parts[|parts| - 1]
  }

  /** Every paragraph followed by a newline, blank paragraphs included. */
  function WordJoin(paragraphs: seq<string>): string {
    if paragraphs == [] then ""
    else WordJoin(paragraphs[..|paragraphs| - 1]) + paragraphs[|paragraphs| - 1] + "\n"
  }

  /** The PDF branch: the primary engine, then the alternate one on a blank result. */
  function PdfText(c: PdfContent): string {
    var primary := PdfJoin(c.pages);
    var text := if Blank(primary) then primary + Concat(c.alternate) else primary;
    if Blank(text) then NoPdfText else text
  }

  function WordText(paragraphs: seq<string>): string {
    var text := WordJoin(paragraphs);
    if Blank(text) then NoWordText else text
  }

  /** The text `extract_text(content, fileType)` returns. */
  function ExtractedText(content: Bytes, fileType: Json, libraries: Libraries,
                         readPdf: Bytes -> Result<PdfContent>,
                         readWord: Bytes -> Result<seq<string>>,
                         show: Json -> string): string
  {
    if fileType == JStr(PdfType) then
      if !libraries.pdfReader then NoPdfLibrary
      else match readPdf(content)
        case Err(m) => ExtractionError(m)
        case Ok(c) => PdfText(c)
    else if fileType == JStr(DocxType) || fileType == JStr(MsWordType) then
      if !libraries.wordReader then NoWordLibrary
      else match readWord(content)
        case Err(m) => ExtractionError(m)
        case Ok(paragraphs) => WordText(paragraphs)
    else
      UnsupportedType(Str(fileType, show))
  }

  /** `extract_text`: dispatch on the declared media type. */
  method ExtractText(content: Bytes, fileType: Json, libraries: Libraries,
                     readPdf: Bytes -> Result<PdfContent>,
                     readWord: Bytes -> Result<seq<string>>,
                     show: Json -> string)
    returns (text: string)
    ensures text == ExtractedText(content, fileType, libraries, readPdf, readWord, show)
  {
    if fileType == JStr(PdfType) {
      if !libraries.pdfReader {
        return NoPdfLibrary;
      }
      var reading := readPdf(content);
      if reading.Err? {
        return ExtractionError(reading.message);
      }
      text := ReadPdfText(reading.value);
    } else if fileType == JStr(DocxType) || fileType == JStr(MsWordType) {
      if !libraries.wordReader {
        return NoWordLibrary;
      }
      var reading := readWord(content);
      if reading.Err? {
        return ExtractionError(reading.message);
      }
      text := ReadWordText(reading.value);
    } else {
      text := UnsupportedType(Str(fileType, show));
    }
  }

  /** The PDF branch: `text += page_text + "\n"` page by page, then the alternate engine. */
  method ReadPdfText(c: PdfContent) returns (text: string)
    ensures text == PdfText(c)
  {
    var pages := c.pages;
    text := "";
    var i := 0;
    while i < |pages|
      invariant 0 <= i <= |pages|
      invariant text == PdfJoin(pages[..i])
    {
      match pages[i] {
        case Some(t) =>
          if !Blank(t) {
            text := text + t + "\n";
          }
        case None =>
      }
      assert pages[..i + 1][..i] == pages[..i];
      i := i + 1;
    }
    assert pages[..i] == pages;
    if Blank(text) {
      var alternate := c.alternate;
      var k := 0;
      while k < |alternate|
        invariant 0 <= k <= |alternate|
        invariant text == PdfJoin(pages) + Concat(alternate[..k])
      {
        text := text + alternate[k];
        assert alternate[..k + 1][..k] == alternate[..k];
        k := k + 1;
      }
      assert alternate[..k] == alternate;
    }
    if Blank(text) {
      text := NoPdfText;
    }
  }

  /** The Word branch: `text += paragraph.text + "\n"` for every paragraph. */
  method ReadWordText(paragraphs: seq<string>) returns (text: string)
    ensures text == WordText(paragraphs)
  {
    text := "";
    var i := 0;
    while i < |paragraphs|
      invariant 0 <= i <= |paragraphs|
      invariant text == WordJoin(paragraphs[..i])
    {
      text := text + paragraphs[i] + "\n";
      assert paragraphs[..i + 1][..i] == paragraphs[..i];
      i := i + 1;
    }
    assert paragraphs[..i] == paragraphs;
    if Blank(text) {
      text := NoWordText;
    }
  }

  /**
   * The PDF text is blank only when it is empty, and that happens exactly when
   * every page raised or was blank.
   */
  lemma {:induction false} PdfJoinBlank(pages: seq<Option<string>>)
    ensures Blank(PdfJoin(pages)) <==> PdfJoin(pages) == []
    ensures PdfJoin(pages) == [] <==> forall k | 0 <= k < |pages| :: pages[k].None? || Blank(pages[k].value)
  {
    if pages != [] {
      var init := pages[..|pages| - 1];
      var last := pages[|pages| - 1];
      PdfJoinBlank(init);
      var c := PageContribution(last);
      assert PdfJoin(pages) == PdfJoin(init) + c;
      BlankConcat(PdfJoin(init), c);
      if c != [] {
        BlankConcat(last.value, "\n");
      }
      forall k | 0 <= k < |init| ensures init[k] == pages[k] { }
    }
  }

  /** Readable page text decides the result: the alternate engine is not consulted. */
  lemma PdfTextKeepsPrimary(c: PdfContent)
    requires !Blank(PdfJoin(c.pages))
    ensures PdfText(c) == PdfJoin(c.pages)
  {
  }

  /** When no page yields text, the result is the alternate engine's text alone, or the placeholder. */
  lemma PdfTextFallsBackToAlternate(c: PdfContent)
    requires Blank(PdfJoin(c.pages))
    ensures PdfText(c) == if Blank(Concat(c.alternate)) then NoPdfText else Concat(c.alternate)
  {
    PdfJoinBlank(c.pages);
    var primary := PdfJoin(c.pages);
    assert primary == [];
    assert primary + Concat(c.alternate) == Concat(c.alternate);
  }

  /** The Word text is blank exactly when every paragraph is blank. */
  lemma {:induction false} WordJoinBlank(paragraphs: seq<string>)
    ensures Blank(WordJoin(paragraphs)) <==> forall k | 0 <= k < |paragraphs| :: Blank(paragraphs[k])
  {
    if paragraphs != [] {
      var init := paragraphs[..|paragraphs| - 1];
      var last := paragraphs[|paragraphs| - 1];
      WordJoinBlank(init);
      assert WordJoin(paragraphs) == WordJoin(init) + (last + "\n");
      BlankConcat(WordJoin(init), last + "\n");
      BlankConcat(last, "\n");
      forall k | 0 <= k < |init| ensures init[k] == paragraphs[k] { }
    }
  }

  lemma PlaceholdersNotBlank(name: string, message: string)
    ensures !Blank(NoPdfLibrary) && !Blank(NoWordLibrary)
    ensures !Blank(NoPdfText) && !Blank(NoWordText)
    ensures !Blank(UnsupportedType(name)) && !Blank(ExtractionError(message))
  {
    assert NoPdfLibrary[0] == 'P' && NoWordLibrary[0] == 'W';
    assert NoPdfText[0] == 'C' && NoWordText[0] == 'C';
    assert UnsupportedType(name)[0] == 'U' && ExtractionError(message)[0] == 'E';
  }

  /** extract_text always returns a usable, non-blank text, whatever the input. */
  lemma ExtractedTextNeverBlank(content: Bytes, fileType: Json, libraries: Libraries,
                                readPdf: Bytes -> Result<PdfContent>,
                                readWord: Bytes -> Result<seq<string>>,
                                show: Json -> string)
    ensures !Blank(ExtractedText(content, fileType, libraries, readPdf, readWord, show))
  {
    var text := ExtractedText(content, fileType, libraries, readPdf, readWord, show);
    if fileType == JStr(PdfType) {
      if libraries.pdfReader && readPdf(content).Ok? {
        PlaceholdersNotBlank("", "");
      } else if libraries.pdfReader {
        PlaceholdersNotBlank("", readPdf(content).message);
      } else {
        PlaceholdersNotBlank("", "");
      }
    } else if fileType == JStr(DocxType) || fileType == JStr(MsWordType) {
      if libraries.wordReader && readWord(content).Err? {
        PlaceholdersNotBlank("", readWord(content).message);
      } else {
        PlaceholdersNotBlank("", "");
      }
    } else {
      PlaceholdersNotBlank(Str(fileType, show), "");
    }
  }

  /** Any other media type is answered by a message that names it. */
  lemma UnsupportedTypeNamed(content: Bytes, fileType: Json, libraries: Libraries,
                             readPdf: Bytes -> Result<PdfContent>,
                             readWord: Bytes -> Result<seq<string>>,
                             show: Json -> string)
    requires fileType != JStr(PdfType) && fileType != JStr(DocxType) && fileType != JStr(MsWordType)
    ensures Contains(ExtractedText(content, fileType, libraries, readPdf, readWord, show), Str(fileType, show))
  {
    ContainsInside("Unsupported file type: ", Str(fileType, show), ". Please use PDF or Word documents.");
  }
}
