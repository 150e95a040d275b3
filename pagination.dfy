/** The pagination control (`src/app/components/pagination.tsx`): the list
    of page numbers built by a loop, and the Previous / page / Next buttons
    with their disabled flags, requested pages and highlight. */
module Pagination {

  /** The page numbers 1..totalPages in increasing order; none when
      totalPages is below 1. */
  function Pages(totalPages: int): (r: seq<int>)
    ensures |r| == if totalPages < 1 then 0 else totalPages
    ensures forall i :: 0 <= i < |r| ==> r[i] == i + 1
  {
    if totalPages < 1 then [] else seq(totalPages, i => i + 1)
  }

  /** The loop of the component: push 1, 2, ... while the counter is at
      most totalPages. */
  method BuildPages(totalPages: int) returns (pages: seq<int>)
    ensures pages == Pages(totalPages)
    ensures |pages| == if totalPages < 1 then 0 else totalPages
    ensures forall i :: 0 <= i < |pages| ==> pages[i] == i + 1
  {
    pages := [];
    var i := 1;
    while i <= totalPages
      invariant 1 <= i <= if totalPages < 1 then 1 else totalPages + 1
      invariant |pages| == i - 1
      invariant forall k :: 0 <= k < |pages| ==> pages[k] == k + 1
    {
      pages := pages + [i];
      i := i + 1;
    }
  }

  /** A page number is listed exactly when it lies in 1..totalPages, and the
      list is strictly increasing. */
  lemma PagesMembership(totalPages: int, p: int)
    ensures p in Pages(totalPages) <==> 1 <= p <= totalPages
    ensures forall i, j :: 0 <= i < j < |Pages(totalPages)| ==> Pages(totalPages)[i] < Pages(totalPages)[j]
  {
    var ps := Pages(totalPages);
    if 1 <= p <= totalPages {
      assert ps[p - 1] == p;
    }
  }

  /** A Previous or Next button: the page it requests and whether it is
      disabled. */
  datatype NavButton = NavButton(target: int, disabled: bool)

  /** One numbered button: its page, which is also what it requests, and
      whether it is highlighted. */
  datatype PageButton = PageButton(page: int, highlighted: bool)

  /** Previous requests the page before and is disabled only on page 1. */
  function Previous(currentPage: int): (b: NavButton)
    ensures b.target == currentPage - 1
    ensures b.disabled <==> currentPage == 1
  {
    NavButton(currentPage - 1, currentPage == 1)
  }

  /** Next requests the page after and is disabled only on the last page. */
  function Next(currentPage: int, totalPages: int): (b: NavButton)
    ensures b.target == currentPage + 1
    ensures b.disabled <==> currentPage == totalPages
  {
    NavButton(currentPage + 1, currentPage == totalPages)
  }

  /** The numbered buttons, one per listed page and in the same order; a
      button is highlighted exactly when its page is the current one. */
  function Buttons(pages: seq<int>, currentPage: int): (bs: seq<PageButton>)
    ensures |bs| == |pages|
    ensures forall i :: 0 <= i < |pages| ==> bs[i].page == pages[i] && (bs[i].highlighted <==> pages[i] == currentPage)
  {
    seq(|pages|, i requires 0 <= i < |pages| => PageButton(pages[i], pages[i] == currentPage))
  }

  /** How many buttons are highlighted. */
  function HighlightedCount(bs: seq<PageButton>): nat
  {
    if bs == [] then 0
    else HighlightedCount(bs[..|bs| - 1]) + (if bs[|bs| - 1].highlighted then 1 else 0)
  }

  /** Exactly one button is highlighted when the current page is in
      1..totalPages, and none otherwise. */
  lemma {:induction false} ExactlyOneHighlighted(totalPages: int, currentPage: int)
    ensures HighlightedCount(Buttons(Pages(totalPages), currentPage)) ==
              if 1 <= currentPage <= totalPages then 1 else 0
    decreases if totalPages < 0 then 0 else totalPages
  {
    if totalPages >= 1 {
      ExactlyOneHighlighted(totalPages - 1, currentPage);
      var bs := Buttons(Pages(totalPages), currentPage);
      assert bs[..|bs| - 1] == Buttons(Pages(totalPages - 1), currentPage);
    }
  }

  /** When the current page is in range, an enabled Previous or Next button
      requests a listed page. */
  lemma EnabledNavigationStaysInRange(currentPage: int, totalPages: int)
    requires 1 <= currentPage <= totalPages
    ensures !Previous(currentPage).disabled ==> Previous(currentPage).target in Pages(totalPages)
    ensures !Next(currentPage, totalPages).disabled ==> Next(currentPage, totalPages).target in Pages(totalPages)
  {
    PagesMembership(totalPages, currentPage - 1);
    PagesMembership(totalPages, currentPage + 1);
  }

  /** Nothing is clamped: with no pages at all, Next on page 1 is enabled
      and requests page 2, and Previous on page 0 is enabled and requests
      page -1, neither of which is listed. */
  lemma NoClamping()
    ensures Pages(0) == []
    ensures !Next(1, 0).disabled && Next(1, 0).target == 2 && 2 !in Pages(0)
    ensures !Previous(0).disabled && Previous(0).target == -1 && -1 !in Pages(0)
  {
  }
}
