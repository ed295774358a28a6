/**
 * Document text extraction (`read_document`) and the document
 * summarization page built on it.
 *
 * The parsing libraries stay outside: an upload carries its declared MIME
 * type together with what the libraries would hand back for it, namely the
 * UTF-8 decoded bytes, the extracted text of each PDF page and the text of
 * each DOCX paragraph. Which of these `read_document` uses depends only on
 * the MIME type.
 */
module Document {
  import opened Text
  import opened Prompt

  const PlainTextType: string := "text/plain"
  const PdfType: string := "application/pdf"
  const DocxType: string := "application/vnd.openxmlformats-officedocument.wordprocessingml.document"

  /** What `read_document` returns for a MIME type it does not handle. */
  const UnsupportedMessage: string := "Unsupported file type."
  /** What the summarization page looks for to tell a failure. */
  const FailureMarker: string := "Unsupported file type"

  datatype Upload = Upload(
    mimeType: string,
    decoded: string,              // file.getvalue().decode("utf-8")
    pageTexts: seq<string>,       // page.extract_text() for each PDF page
    paragraphTexts: seq<string>)  // paragraph.text for each DOCX paragraph

  datatype Kind = PlainText | Pdf | Docx | Unsupported

  /** First match among three substring tests, in source order. */
  function Dispatch(mimeType: string): Kind {
    if Contains(mimeType, PlainTextType) then PlainText
    else if Contains(mimeType, PdfType) then Pdf
    else if Contains(mimeType, DocxType) then Docx
    else Unsupported
  }

  /** The page texts run together, in page order, with no separator. */
  function PdfText(pages: seq<string>): string {
    if pages == [] then "" else PdfText(pages[..|pages| - 1]) + pages[|pages| - 1]
  }

  /** Every paragraph followed by a newline, in document order. */
  function DocxText(paragraphs: seq<string>): string {
    if paragraphs == [] then ""
    else DocxText(paragraphs[..|paragraphs| - 1]) + paragraphs[|paragraphs| - 1] + "\n"
  }

  /** The text `read_document` returns for an upload. */
  function DocumentText(file: Upload): string {
    match Dispatch(file.mimeType)
    case PlainText => file.decoded
    case Pdf => PdfText(file.pageTexts)
    case Docx => DocxText(file.paragraphTexts)
    case Unsupported => UnsupportedMessage
  }

  /** The summarization page's test for a failed extraction. */
  predicate IsFailureText(text: string) {
    Contains(text, FailureMarker)
  }

  /** The PDF branch: `text += page.extract_text()` for every page. */
  method ExtractPdf(pages: seq<string>) returns (text: string)
    ensures text == PdfText(pages)
  {
    text := "";
    for i := 0 to |pages|
      invariant text == PdfText(pages[..i])
    {
      assert pages[..i + 1][..i] == pages[..i];
      text := text + pages[i];
    }
    assert pages[..|pages|] == pages;
  }

  /** The DOCX branch: `text += paragraph.text + "\n"` for every paragraph. */
  method ExtractDocx(paragraphs: seq<string>) returns (text: string)
    ensures text == DocxText(paragraphs)
  {
    text := "";
    for i := 0 to |paragraphs|
      invariant text == DocxText(paragraphs[..i])
    {
      assert paragraphs[..i + 1][..i] == paragraphs[..i];
      text := text + paragraphs[i] + "\n";
    }
    assert paragraphs[..|paragraphs|] == paragraphs;
  }

  /** `read_document` */
  method ReadDocument(file: Upload) returns (text: string)
    ensures text == DocumentText(file)
  {
    if Contains(file.mimeType, PlainTextType) {
      text := file.decoded;
    } else if Contains(file.mimeType, PdfType) {
      text := ExtractPdf(file.pageTexts);
    } else if Contains(file.mimeType, DocxType) {
      text := ExtractDocx(file.paragraphTexts);
    } else {
      text := UnsupportedMessage;
    }
  }

  /** What the summarization page shows. */
  datatype View = ShowSummary(summary: string) | ShowText(text: string)

  /** `document_summarization_interface` once a file is uploaded. `generate`
      stands for the hosted model: the text it answers a prompt with,
      or the error text that replaces it. */
  method DocumentSummarization(file: Upload, generate: string -> string) returns (view: View)
    ensures IsFailureText(DocumentText(file)) ==> view == ShowText(DocumentText(file))
    ensures !IsFailureText(DocumentText(file)) ==>
      view == ShowSummary(generate(SummarizePrompt(DocumentText(file))))
  {
    var documentText := ReadDocument(file);
    if !Contains(documentText, FailureMarker) {
      var summary := generate(SummarizePrompt(documentText));
      view := ShowSummary(summary);
    } else {
      view := ShowText(documentText);
    }
  }

  /** Dispatch takes the first test that matches, in the order plain text,
      PDF, DOCX; a type matching none is unsupported. */
  lemma DispatchFirstMatch(mimeType: string)
    ensures Dispatch(mimeType) == PlainText <==> Contains(mimeType, PlainTextType)
    ensures Dispatch(mimeType) == Pdf <==>
      !Contains(mimeType, PlainTextType) && Contains(mimeType, PdfType)
    ensures Dispatch(mimeType) == Docx <==>
      !Contains(mimeType, PlainTextType) && !Contains(mimeType, PdfType) && Contains(mimeType, DocxType)
    ensures Dispatch(mimeType) == Unsupported <==>
      !Contains(mimeType, PlainTextType) && !Contains(mimeType, PdfType) && !Contains(mimeType, DocxType)
  {
  }

  /** A MIME type is matched anywhere inside the declared type string, so
      parameters such as a charset do not change the dispatch. */
  lemma DispatchBySubstring(mimeType: string, before: string, after: string)
    requires mimeType == before + PdfType + after
    requires !Contains(mimeType, PlainTextType)
    ensures Dispatch(mimeType) == Pdf
  {
    assert mimeType[|before|..|before| + |PdfType|] == PdfType;
    assert OccursAt(mimeType, PdfType, |before|);
  }

  /** An unsupported type yields exactly the sentinel, whatever the payload. */
  lemma UnsupportedIgnoresPayload(file: Upload, other: Upload)
    requires Dispatch(file.mimeType) == Unsupported
    requires other.mimeType == file.mimeType
    ensures DocumentText(file) == UnsupportedMessage
    ensures DocumentText(other) == DocumentText(file)
  {
  }

  /** The sentinel is recognised as a failure by the summarization page. */
  lemma UnsupportedIsFailure(file: Upload)
    requires Dispatch(file.mimeType) == Unsupported
    ensures IsFailureText(DocumentText(file))
  {
    assert OccursAt(UnsupportedMessage, FailureMarker, 0);
  }

  /** A plain-text document is passed on exactly as decoded. */
  lemma PlainTextVerbatim(file: Upload)
    requires Contains(file.mimeType, PlainTextType)
    ensures DocumentText(file) == file.decoded
  {
  }

  /** The failure test cannot tell the sentinel from a supported document
      whose own text contains the marker: such a document is not summarized. */
  lemma SentinelIsAmbiguous(file: Upload)
    requires file.mimeType == PlainTextType && file.decoded == UnsupportedMessage
    ensures Dispatch(file.mimeType) != Unsupported
    ensures IsFailureText(DocumentText(file))
  {
    assert OccursAt(file.mimeType, PlainTextType, 0);
    assert OccursAt(UnsupportedMessage, FailureMarker, 0);
  }

  /** A plain-text upload holding "hello world" yields that text, which is
      not taken for a failure and so goes to summarization. */
  lemma HelloWorldUpload(file: Upload)
    requires file.mimeType == PlainTextType && file.decoded == "hello world"
    ensures DocumentText(file) == "hello world"
    ensures !IsFailureText(DocumentText(file))
  {
    assert OccursAt(file.mimeType, PlainTextType, 0);
  }

  /** Page texts are concatenated: extracting two runs of pages gives the two
      texts one after the other. */
  lemma {:induction false} PdfTextAppend(a: seq<string>, b: seq<string>)
    ensures PdfText(a + b) == PdfText(a) + PdfText(b)
    decreases |b|
  {
    if b == [] {
      assert a + b == a;
    } else {
      var c := b[..|b| - 1];
      assert (a + b)[..|a + b| - 1] == a + c;
      PdfTextAppend(a, c);
    }
  }

  /** Paragraph texts are concatenated the same way, each with its newline. */
  lemma {:induction false} DocxTextAppend(a: seq<string>, b: seq<string>)
    ensures DocxText(a + b) == DocxText(a) + DocxText(b)
    decreases |b|
  {
    if b == [] {
      assert a + b == a;
    } else {
      var c := b[..|b| - 1];
      assert (a + b)[..|a + b| - 1] == a + c;
      DocxTextAppend(a, c);
    }
  }

  /** No separator is inserted between pages. */
  lemma {:induction false} PdfTextLength(pages: seq<string>)
    ensures |PdfText(pages)| == TotalLength(pages)
    decreases |pages|
  {
    if pages != [] {
      PdfTextAppend([pages[0]], pages[1..]);
      assert [pages[0]] + pages[1..] == pages;
      PdfTextLength(pages[1..]);
      assert PdfText([pages[0]]) == pages[0] by {
        assert [pages[0]][..0] == [];
      }
    }
  }

  /** Each paragraph contributes its text and exactly one newline. */
  lemma {:induction false} DocxTextLength(paragraphs: seq<string>)
    ensures |DocxText(paragraphs)| == TotalLength(paragraphs) + |paragraphs|
    decreases |paragraphs|
  {
    if paragraphs != [] {
      DocxTextAppend([paragraphs[0]], paragraphs[1..]);
      assert [paragraphs[0]] + paragraphs[1..] == paragraphs;
      DocxTextLength(paragraphs[1..]);
      assert DocxText([paragraphs[0]]) == paragraphs[0] + "\n" by {
        assert [paragraphs[0]][..0] == [];
      }
    }
  }
}
