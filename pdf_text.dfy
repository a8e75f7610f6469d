/**
 * Text extraction from an uploaded PDF (`extract_text_from_pdf`). The PDF
 * parser is not modelled: a document is what the parser makes of the upload,
 * either a failure to open it or, page by page, what `extract_text()` gives.
 */
module PdfText {
  import opened Wrappers

  /** What one page's `extract_text()` does: return a string, return `None`, or raise. */
  datatype PageText = Text(s: string) | NoText | PageError

  /** What the parser makes of the uploaded bytes: no document at all, or its pages in order. */
  datatype PdfDocument = Unreadable | Pages(pages: seq<PageText>)

  /** The text a page contributes, `page.extract_text() or ""`: a page without text gives "". */
  function PageString(p: PageText): string {
    if p.Text? then p.s else ""
  }

  predicate RaisesNothing(pages: seq<PageText>) {
    forall i :: 0 <= i < |pages| ==> !pages[i].PageError?
  }

  /** The page texts joined in page order. */
  function Concat(pages: seq<PageText>): string {
    if pages == [] then "" else Concat(pages[..|pages| - 1]) + PageString(pages[|pages| - 1])
  }

  /** What the extraction returns: `None` when anything raised, otherwise the joined page texts. */
  function ExtractedText(doc: PdfDocument): Option<string> {
    if doc.Pages? && RaisesNothing(doc.pages) then Some(Concat(doc.pages)) else None
  }

  /** The page loop of `extract_text_from_pdf`: any exception ends it with `None`. */
  method ExtractTextFromPdf(doc: PdfDocument) returns (text: Option<string>)
    ensures text.None? <==> doc.Unreadable? || exists i :: 0 <= i < |doc.pages| && doc.pages[i].PageError?
    ensures text == ExtractedText(doc)
  {
    if doc.Unreadable? {
      return None;
    }
    var pages := doc.pages;
    var acc := "";
    var i := 0;
    while i < |pages|
      invariant 0 <= i <= |pages|
      invariant RaisesNothing(pages[..i])
      invariant acc == Concat(pages[..i])
    {
      if pages[i].PageError? {
        return None;
      }
      assert pages[..i + 1][..i] == pages[..i];
      acc := acc + PageString(pages[i]);
      i := i + 1;
    }
    assert pages[..i] == pages;
    return Some(acc);
  }

  /** Joining is compatible with splitting the page list anywhere. */
  lemma {:induction false} ConcatAppend(a: seq<PageText>, b: seq<PageText>)
    ensures Concat(a + b) == Concat(a) + Concat(b)
  {
    if b == [] {
      assert a + b == a;
    } else {
      var b' := b[..|b| - 1];
      var last := b[|b| - 1];
      var ab := a + b;
      assert ab[..|ab| - 1] == a + b';
      assert ab[|ab| - 1] == last;
      ConcatAppend(a, b');
      assert Concat(ab) == Concat(a + b') + PageString(last);
    }
  }

  /**
   * Every page contributes its own text at its own place: the text before it
   * comes from the pages before it, the text after it from the pages after it,
   * and a page without text contributes nothing.
   */
  lemma ConcatInOrder(a: seq<PageText>, p: PageText, b: seq<PageText>)
    ensures Concat(a + [p] + b) == Concat(a) + PageString(p) + Concat(b)
    ensures p.NoText? ==> Concat(a + [p] + b) == Concat(a + b)
  {
    var x := a + [p];
    ConcatAppend(x, b);
    assert x[..|x| - 1] == a;
    assert Concat(x) == Concat(a) + PageString(p);
    ConcatAppend(a, b);
  }
}
