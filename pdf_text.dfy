/**
 * Reading the text of a PDF's pages: the page filter and the page-by-page,
 * element-by-element concatenation that both ingestion front ends run over
 * the layout that the PDF parser yields. The two front ends differ only in
 * what a text element contributes (its `fragment`).
 */
module PdfText {
  import opened Wrappers

  /** One layout element of a page; only text containers carry text. */
  datatype Element = TextContainer(text: string) | OtherElement

  type Page = seq<Element>

  /** `page_numbers is None or i in page_numbers`: page `i` (zero-based) is read. */
  predicate Selected(pageNumbers: Option<seq<int>>, i: int) {
    pageNumbers.None? || i in pageNumbers.value
  }

  function ElementText(e: Element, fragment: string -> string): string {
    match e
    case TextContainer(t) => fragment(t)
    case OtherElement => ""
  }

  /** What one page contributes: its text elements' fragments, in element order, with no separator. */
  function PageText(page: Page, fragment: string -> string): string
    decreases |page|
  {
    if |page| == 0 then ""
    else PageText(page[..|page| - 1], fragment) + ElementText(page[|page| - 1], fragment)
  }

  /** The full text the nested page/element loop accumulates. */
  function Assemble(pages: seq<Page>, pageNumbers: Option<seq<int>>, fragment: string -> string): string
    decreases |pages|
  {
    if |pages| == 0 then ""
    else
      var last := |pages| - 1;
      Assemble(pages[..last], pageNumbers, fragment)
        + (if Selected(pageNumbers, last) then PageText(pages[last], fragment) else "")
  }

  /** The pages the filter lets through, in document order. */
  function SelectPages(pages: seq<Page>, pageNumbers: Option<seq<int>>): (r: seq<Page>)
    ensures |r| <= |pages|
    decreases |pages|
  {
    if |pages| == 0 then []
    else
      var last := |pages| - 1;
      SelectPages(pages[..last], pageNumbers) + (if Selected(pageNumbers, last) then [pages[last]] else [])
  }

  /** Without a filter, one more page appends its text. */
  lemma AssembleUnfilteredAppend(pages: seq<Page>, page: Page, fragment: string -> string)
    ensures Assemble(pages + [page], None, fragment) == Assemble(pages, None, fragment) + PageText(page, fragment)
  {
    assert (pages + [page])[..|pages|] == pages;
  }

  /** Only the selected pages contribute, each in full and in document order. */
  lemma {:induction false} OnlySelectedPagesContribute(pages: seq<Page>, pageNumbers: Option<seq<int>>, fragment: string -> string)
    ensures Assemble(pages, pageNumbers, fragment) == Assemble(SelectPages(pages, pageNumbers), None, fragment)
    decreases |pages|
  {
    if |pages| > 0 {
      var last := |pages| - 1;
      var init := SelectPages(pages[..last], pageNumbers);
      OnlySelectedPagesContribute(pages[..last], pageNumbers, fragment);
      if Selected(pageNumbers, last) {
        assert SelectPages(pages, pageNumbers) == init + [pages[last]];
        AssembleUnfilteredAppend(init, pages[last], fragment);
      } else {
        assert SelectPages(pages, pageNumbers) == init;
      }
    }
  }

  /** Without a filter every page is read. */
  lemma {:induction false} NoFilterSelectsEveryPage(pages: seq<Page>)
    ensures SelectPages(pages, None) == pages
    decreases |pages|
  {
    if |pages| > 0 {
      NoFilterSelectsEveryPage(pages[..|pages| - 1]);
      assert pages == pages[..|pages| - 1] + [pages[|pages| - 1]];
    }
  }

  /** Whatever a page outside the filter holds, the assembled text is the same. */
  lemma {:induction false} UnselectedPageIgnored(pages: seq<Page>, pageNumbers: Option<seq<int>>, fragment: string -> string, i: nat, other: Page)
    requires i < |pages| && !Selected(pageNumbers, i)
    ensures Assemble(pages[i := other], pageNumbers, fragment) == Assemble(pages, pageNumbers, fragment)
    decreases |pages|
  {
    var last := |pages| - 1;
    if i < last {
      assert pages[i := other][..last] == pages[..last][i := other];
      UnselectedPageIgnored(pages[..last], pageNumbers, fragment, i, other);
    } else {
      assert pages[i := other][..last] == pages[..last];
    }
  }

  /** The inner loop: for each element of one page, append its fragment. */
  method AppendPageText(fullText: string, page: Page, fragment: string -> string) returns (r: string)
    ensures r == fullText + PageText(page, fragment)
  {
    r := fullText;
    var j := 0;
    while j < |page|
      invariant 0 <= j <= |page|
      invariant r == fullText + PageText(page[..j], fragment)
    {
      assert page[..j + 1][..j] == page[..j];
      match page[j] {
        case TextContainer(t) =>
          r := r + fragment(t);
        case OtherElement =>
      }
      j := j + 1;
    }
    assert page[..j] == page;
  }

  /** The nested loop: for each selected page, for each element, append its fragment. */
  method AssembleText(pages: seq<Page>, pageNumbers: Option<seq<int>>, fragment: string -> string) returns (fullText: string)
    ensures fullText == Assemble(pages, pageNumbers, fragment)
  {
    fullText := "";
    var i := 0;
    while i < |pages|
      invariant 0 <= i <= |pages|
      invariant fullText == Assemble(pages[..i], pageNumbers, fragment)
    {
      assert pages[..i + 1][..i] == pages[..i];
      if Selected(pageNumbers, i) {
        fullText := AppendPageText(fullText, pages[i], fragment);
      }
      i := i + 1;
    }
    assert pages[..i] == pages;
  }
}
