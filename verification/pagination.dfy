/** The view logic of src/components/pagination/Pagination.jsx: the page
    buttons, which one is highlighted, and when Previous and Next are
    disabled. */
module Pagination {

  /** `Array.from({length: lastPage}, (_, i) => i + 1)`; a length below zero
      counts as zero. */
  function PageNumbers(lastPage: int): (pages: seq<int>)
    ensures |pages| == if lastPage > 0 then lastPage else 0
    ensures forall i :: 0 <= i < |pages| ==> pages[i] == i + 1
  {
    if lastPage <= 0 then [] else seq(lastPage, i requires 0 <= i < lastPage => i + 1)
  }

  /** The page numbers are exactly 1 through `lastPage`, strictly ascending. */
  lemma PageNumbersAreTheRange(lastPage: int)
    ensures forall p :: p in PageNumbers(lastPage) <==> 1 <= p <= lastPage
    ensures forall i, j :: 0 <= i < j < |PageNumbers(lastPage)| ==> PageNumbers(lastPage)[i] < PageNumbers(lastPage)[j]
  {
    var pages := PageNumbers(lastPage);
    forall p | 1 <= p <= lastPage ensures p in pages {
      assert pages[p - 1] == p;
    }
  }

  datatype ButtonVariant = Filled | Text

  /** One page button: its number, its style, and the page its click asks
      for. */
  datatype PageItem = PageItem(page: int, variant: ButtonVariant, clickTarget: int)

  /** `getItemProps(index)`: filled for the current page, text otherwise; a
      click reports the button's own number. */
  function ItemProps(currentPage: int, index: int): (item: PageItem)
    ensures item.page == index && item.clickTarget == index
    ensures item.variant == Filled <==> index == currentPage
  {
    PageItem(index, if currentPage == index then Filled else Text, index)
  }

  /** The row of page buttons. */
  function PageItems(currentPage: int, lastPage: int): (items: seq<PageItem>)
    ensures |items| == |PageNumbers(lastPage)|
    ensures forall i :: 0 <= i < |items| ==>
      && items[i].page == i + 1 && items[i].clickTarget == i + 1
      && (items[i].variant == Filled <==> i + 1 == currentPage)
  {
    var pages := PageNumbers(lastPage);
    seq(|pages|, i requires 0 <= i < |pages| => ItemProps(currentPage, pages[i]))
  }

  /** How many buttons are highlighted. */
  function FilledCount(items: seq<PageItem>): nat
  {
    if items == [] then 0 else (if items[0].variant == Filled then 1 else 0) + FilledCount(items[1..])
  }

  /** Exactly one button is highlighted when the current page is in range,
      and none otherwise. */
  lemma HighlightedOnce(currentPage: int, lastPage: int)
    ensures FilledCount(PageItems(currentPage, lastPage)) == if 1 <= currentPage <= lastPage then 1 else 0
  {
    var items := PageItems(currentPage, lastPage);
    FilledCountFrom(items, 1, currentPage);
  }

  /** Counting highlights in a row whose `k`-th button shows page `start + k`. */
  lemma {:induction false} FilledCountFrom(items: seq<PageItem>, start: int, currentPage: int)
    requires forall i :: 0 <= i < |items| ==>
      items[i].page == start + i && (items[i].variant == Filled <==> start + i == currentPage)
    ensures FilledCount(items) == if start <= currentPage < start + |items| then 1 else 0
  {
    if items != [] {
      FilledCountFrom(items[1..], start + 1, currentPage);
    }
  }

  /** Previous is disabled exactly on page 1. */
  function PrevDisabled(currentPage: int): (disabled: bool)
    ensures disabled <==> currentPage == 1
  {
    currentPage == 1
  }

  /** Next is disabled exactly on the last page. */
  function NextDisabled(currentPage: int, lastPage: int): (disabled: bool)
    ensures disabled <==> currentPage == lastPage
  {
    currentPage == lastPage
  }

  /** With at least one page, Previous is disabled exactly when the first
      page button is highlighted, and Next exactly when the last one is. */
  lemma ArrowsFollowHighlight(currentPage: int, lastPage: int)
    requires lastPage >= 1
    ensures PrevDisabled(currentPage) <==> PageItems(currentPage, lastPage)[0].variant == Filled
    ensures NextDisabled(currentPage, lastPage) <==> PageItems(currentPage, lastPage)[lastPage - 1].variant == Filled
  {
  }

  /** On a single page both arrows are disabled; on the first of several
      pages only Previous is, and on the last of several only Next is. */
  lemma ArrowsAtTheEnds(lastPage: int)
    ensures PrevDisabled(1) && NextDisabled(1, 1)
    ensures lastPage > 1 ==> PrevDisabled(1) && !NextDisabled(1, lastPage)
    ensures lastPage > 1 ==> !PrevDisabled(lastPage) && NextDisabled(lastPage, lastPage)
  {
  }
}
