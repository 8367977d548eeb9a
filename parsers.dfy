/**
 * The document extractor (parsers.py). The two document libraries are
 * replaced by what they hand over: a slide deck is a sequence of slides,
 * each a sequence of shapes; a PDF is the sequence of its pages' texts.
 */
module Parsers {
  import opened Wrappers
  import opened PyStr

  /** A shape on a slide: `Some(t)` when it has a `text` attribute, holding `t`; `None` otherwise. */
  datatype Shape = Shape(text: Option<string>)

  /** The shape has a `text` attribute and that text is non-empty. */
  predicate HasText(shape: Shape) {
    shape.text.Some? && shape.text.value != ""
  }

  // ------------------------------------------------------------------ pptx

  /** What one shape adds to its slide's entry. */
  function ShapeLine(shape: Shape): string {
    if HasText(shape) then shape.text.value + "\n" else ""
  }

  /** What the shapes of one slide add after its header, in shape order. */
  function ShapeLines(shapes: seq<Shape>): string {
    if shapes == [] then "" else ShapeLine(shapes[0]) + ShapeLines(shapes[1..])
  }

  /** The texts that reach a slide's entry: those of the shapes with non-empty text, in order. */
  function Texts(shapes: seq<Shape>): seq<string> {
    if shapes == [] then []
    else (if HasText(shapes[0]) then [shapes[0].text.value] else []) + Texts(shapes[1..])
  }

  /** Each text followed by a newline. */
  function Lines(texts: seq<string>): string {
    if texts == [] then "" else texts[0] + "\n" + Lines(texts[1..])
  }

  /** The header of the entry for slide number `number`. */
  function SlideHeader(number: nat): string {
    "Slide " + NatToString(number) + ":\n"
  }

  /** The entry for slide number `number`. */
  function SlideEntry(number: nat, shapes: seq<Shape>): string {
    SlideHeader(number) + ShapeLines(shapes)
  }

  /** One entry per slide, numbered from 1. */
  function SlideEntries(slides: seq<seq<Shape>>): seq<string> {
    seq(|slides|, k requires 0 <= k < |slides| => SlideEntry(k + 1, slides[k]))
  }

  /** The `content` that `parse_pptx` returns. */
  function PptxContent(slides: seq<seq<Shape>>): string {
    Join(SlideEntries(slides), "\n\n")
  }

  lemma {:induction false} ShapeLinesAppend(a: seq<Shape>, b: seq<Shape>)
    ensures ShapeLines(a + b) == ShapeLines(a) + ShapeLines(b)
  {
    if a == [] {
      assert a + b == b;
    } else {
      assert (a + b)[1..] == a[1..] + b;
      ShapeLinesAppend(a[1..], b);
    }
  }

  /** A slide's shapes contribute the non-empty texts, each followed by "\n", in shape order. */
  lemma {:induction false} ShapeLinesAreTexts(shapes: seq<Shape>)
    ensures ShapeLines(shapes) == Lines(Texts(shapes))
  {
    if shapes != [] {
      ShapeLinesAreTexts(shapes[1..]);
      if HasText(shapes[0]) {
        assert Texts(shapes) == [shapes[0].text.value] + Texts(shapes[1..]);
        assert Texts(shapes)[1..] == Texts(shapes[1..]);
      } else {
        assert Texts(shapes) == Texts(shapes[1..]);
      }
    }
  }

  /** A slide adds nothing after its header exactly when none of its shapes has non-empty text. */
  lemma {:induction false} ShapeLinesEmptyIff(shapes: seq<Shape>)
    ensures ShapeLines(shapes) == "" <==> forall k :: 0 <= k < |shapes| ==> !HasText(shapes[k])
  {
    if shapes != [] {
      ShapeLinesEmptyIff(shapes[1..]);
      assert forall k :: 1 <= k < |shapes| ==> shapes[k] == shapes[1..][k - 1];
      if HasText(shapes[0]) {
        assert |ShapeLines(shapes)| >= |ShapeLine(shapes[0])| > 0;
      }
    }
  }

  /**
   * Every slide has an entry, even one without text (then the entry is its
   * header alone), and entry k carries the number k + 1.
   */
  lemma EverySlideHasEntry(slides: seq<seq<Shape>>, k: nat)
    requires k < |slides|
    ensures |SlideEntries(slides)| == |slides|
    ensures SlideEntries(slides)[k][..|SlideHeader(k + 1)|] == SlideHeader(k + 1)
    ensures (forall j :: 0 <= j < |slides[k]| ==> !HasText(slides[k][j])) ==> SlideEntries(slides)[k] == SlideHeader(k + 1)
  {
    ShapeLinesEmptyIff(slides[k]);
  }

  /** Adding a slide appends a blank line and that slide's entry, numbered by its position. */
  lemma PptxContentAppend(slides: seq<seq<Shape>>, slide: seq<Shape>)
    ensures PptxContent(slides + [slide]) ==
      if slides == [] then SlideEntry(1, slide)
      else PptxContent(slides) + "\n\n" + SlideEntry(|slides| + 1, slide)
  {
    assert SlideEntries(slides + [slide]) == SlideEntries(slides) + [SlideEntry(|slides| + 1, slide)];
    JoinAppend(SlideEntries(slides), SlideEntry(|slides| + 1, slide), "\n\n");
  }

  /** The inner loop of `parse_pptx`: one slide's header followed by its shapes' texts. */
  method SlideText(number: nat, shapes: seq<Shape>) returns (slideText: string)
    ensures slideText == SlideEntry(number, shapes)
  {
    slideText := "Slide " + NatToString(number) + ":\n";
    for j := 0 to |shapes|
      invariant slideText == SlideHeader(number) + ShapeLines(shapes[..j])
    {
      var shape := shapes[j];
      ghost var before := slideText;
      match shape.text {
        case Some(text) =>
          if text != "" {
            slideText := slideText + text + "\n";
          }
        case None =>
      }
      assert slideText == before + ShapeLine(shape);
      assert shapes[..j + 1] == shapes[..j] + [shape];
      ShapeLinesAppend(shapes[..j], [shape]);
    }
    assert shapes[..|shapes|] == shapes;
  }

  /** `parse_pptx`: returns the slide entries joined by blank lines, and the number of slides. */
  method ParsePptx(slides: seq<seq<Shape>>) returns (content: string, slideCount: nat)
    ensures content == PptxContent(slides)
    ensures slideCount == |slides|
  {
    var slidesText: seq<string> := [];
    for i := 0 to |slides|
      invariant |slidesText| == i
      invariant forall k :: 0 <= k < i ==> slidesText[k] == SlideEntry(k + 1, slides[k])
    {
      var slideText := SlideText(i + 1, slides[i]);
      slidesText := slidesText + [slideText];
    }
    assert slidesText == SlideEntries(slides);
    content := Join(slidesText, "\n\n");
    slideCount := |slides|;
  }

  // ------------------------------------------------------------------- pdf

  /** The page's text is whitespace only (so `text.strip()` is empty and the page is skipped). */
  predicate Blank(text: string) {
    AllSpace(text)
  }

  /** The entry for page number `number`. */
  function PageEntry(number: nat, text: string): string {
    "Page " + NatToString(number) + ":\n" + text
  }

  /** The (0-based) positions of the pages that are not blank, in order. */
  function Kept(pages: seq<string>): (r: seq<nat>)
    ensures forall j :: 0 <= j < |r| ==> r[j] < |pages|
  {
    if pages == [] then []
    else
      var n := |pages| - 1;
      Kept(pages[..n]) + (if Blank(pages[n]) then [] else [n])
  }

  /** One entry per non-blank page, labelled with that page's own 1-based number. */
  function PageEntries(pages: seq<string>): seq<string> {
    var kept := Kept(pages);
    seq(|kept|, j requires 0 <= j < |kept| => PageEntry(kept[j] + 1, pages[kept[j]]))
  }

  /** The `content` that `parse_pdf` returns. */
  function PdfContent(pages: seq<string>): string {
    Join(PageEntries(pages), "\n\n")
  }

  /** The kept positions are strictly increasing: retained pages stay in document order. */
  lemma {:induction false} KeptIncreasing(pages: seq<string>)
    ensures forall a, b :: 0 <= a < b < |Kept(pages)| ==> Kept(pages)[a] < Kept(pages)[b]
  {
    if pages != [] {
      KeptIncreasing(pages[..|pages| - 1]);
    }
  }

  /** A position is kept exactly when its page is not blank. */
  lemma {:induction false} KeptExactlyNonBlank(pages: seq<string>)
    ensures forall i :: 0 <= i < |pages| ==> (i in Kept(pages) <==> !Blank(pages[i]))
  {
    if pages != [] {
      var n := |pages| - 1;
      var front := pages[..n];
      KeptExactlyNonBlank(front);
      forall i | 0 <= i < |pages|
        ensures i in Kept(pages) <==> !Blank(pages[i])
      {
        if i < n {
          assert front[i] == pages[i];
        }
      }
    }
  }

  /**
   * Adding a page to the document adds nothing when the page is blank, and
   * otherwise one entry labelled with the page's true position.
   */
  lemma PageEntriesAppend(pages: seq<string>, page: string)
    ensures PageEntries(pages + [page]) ==
      PageEntries(pages) + (if Blank(page) then [] else [PageEntry(|pages| + 1, page)])
  {
    var all := pages + [page];
    assert all[..|pages|] == pages;
    var kept := Kept(pages);
    assert Kept(all) == kept + (if Blank(page) then [] else [|pages|]);
    forall j | 0 <= j < |kept|
      ensures all[kept[j]] == pages[kept[j]]
    {
    }
  }

  /** A document whose pages are all blank has empty content. */
  lemma AllBlankPagesGiveNoContent(pages: seq<string>)
    requires forall i :: 0 <= i < |pages| ==> Blank(pages[i])
    ensures PdfContent(pages) == ""
  {
    KeptExactlyNonBlank(pages);
  }

  /** `parse_pdf`: the entries of the non-blank pages joined by blank lines, and the total page count. */
  method ParsePdf(pages: seq<string>) returns (content: string, pageCount: nat)
    ensures content == PdfContent(pages)
    ensures pageCount == |pages|
  {
    var pagesText: seq<string> := [];
    pageCount := |pages|;
    for i := 0 to pageCount
      invariant pagesText == PageEntries(pages[..i])
    {
      var text := pages[i];
      assert pages[..i + 1] == pages[..i] + [text];
      PageEntriesAppend(pages[..i], text);
      StripEmptyIffAllSpace(text);
      var kept := Strip(text) != "";
      assert kept == !Blank(text);
      if kept {
        pagesText := pagesText + ["Page " + NatToString(i + 1) + ":\n" + text];
      }
    }
    assert pages[..pageCount] == pages;
    content := Join(pagesText, "\n\n");
  }

  // -------------------------------------------------------------- dispatch

  /** What `parse_document` returns: the pptx dictionary or the pdf dictionary. */
  datatype Document = Presentation(content: string, slideCount: nat) | Paginated(content: string, pageCount: nat)

  /** What `parse_document` raises: the ValueError for an extension, or what a library raised. */
  datatype ParseError = UnsupportedFormat(ext: string) | ReadError(message: string)

  /** `str(e)` of the raised exception. */
  function ParseErrorMessage(e: ParseError): string {
    match e
    case UnsupportedFormat(ext) => "Unsupported file format: " + ext + ". Only PDF and PPTX files are supported."
    case ReadError(m) => m
  }

  /** What each library makes of the file: its slides or what python-pptx raises; its page texts or what PyMuPDF raises. */
  datatype FileViews = FileViews(slides: Result<seq<seq<Shape>>, string>, pages: Result<seq<string>, string>)

  /**
   * `parse_document`: dispatches on the lower-cased extension, ".pptx" to
   * the slide parser and ".pdf" to the page parser; any other extension is
   * refused before the file is read.
   */
  function ParseDocument(path: string, file: FileViews): (r: Result<Document, ParseError>)
    ensures r.Success? && r.value.Presentation? ==>
      LowerExt(path) == ".pptx" && file.slides.Success? &&
      r.value == Presentation(PptxContent(file.slides.value), |file.slides.value|)
    ensures r.Success? && r.value.Paginated? ==>
      LowerExt(path) == ".pdf" && file.pages.Success? &&
      r.value == Paginated(PdfContent(file.pages.value), |file.pages.value|)
    ensures (r.Failure? && r.error.UnsupportedFormat?) <==> LowerExt(path) != ".pptx" && LowerExt(path) != ".pdf"
    ensures r.Failure? && r.error.UnsupportedFormat? ==> r.error.ext == LowerExt(path)
    ensures r.Failure? && r.error.ReadError? ==>
      (LowerExt(path) == ".pptx" && file.slides == Failure(r.error.message)) ||
      (LowerExt(path) == ".pdf" && file.pages == Failure(r.error.message))
  {
    var ext := LowerExt(path);
    if ext == ".pptx" then
      match file.slides
      case Success(slides) => Success(Presentation(PptxContent(slides), |slides|))
      case Failure(m) => Failure(ReadError(m))
    else if ext == ".pdf" then
      match file.pages
      case Success(pages) => Success(Paginated(PdfContent(pages), |pages|))
      case Failure(m) => Failure(ReadError(m))
    else
      Failure(UnsupportedFormat(ext))
  }

  /** The dispatch sees the path only through its lower-cased extension. */
  lemma DispatchIgnoresCase(p: string, q: string, file: FileViews)
    requires LowerExt(p) == LowerExt(q)
    ensures ParseDocument(p, file) == ParseDocument(q, file)
  {
  }
}
