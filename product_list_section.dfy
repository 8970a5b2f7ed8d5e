/** A titled product list with optional paging
    (fontend/src/components/Product/ProductListSection/index.tsx): the page
    count, the products of the current page, and the previous/next/page
    buttons that move the current page. itemsPerPage defaults to 6; the
    model takes any positive value. */
module ProductListSection {

  /** Math.ceil(length / itemsPerPage). */
  function TotalPages(length: nat, itemsPerPage: nat): (pages: nat)
    requires itemsPerPage > 0
    ensures pages * itemsPerPage >= length
    ensures pages > 0 ==> (pages - 1) * itemsPerPage < length
    ensures pages == 0 <==> length == 0
  {
    (length + itemsPerPage - 1) / itemsPerPage
  }

  /** The position Array.prototype.slice uses for an argument: negative
      counts from the end, and both ends are clamped to the list. */
  function SliceIndex(i: int, length: nat): (k: nat)
    ensures k <= length
    ensures 0 <= i <= length ==> k == i
  {
    if i < 0 then (if length + i < 0 then 0 else length + i) else if i > length then length else i
  }

  /** products.slice(start, end). */
  function Slice<T>(products: seq<T>, start: int, end: int): (r: seq<T>)
    ensures |r| <= |products|
  {
    var a := SliceIndex(start, |products|);
    var b := SliceIndex(end, |products|);
    if a < b then products[a..b] else []
  }

  /** currentProducts: the whole list without paging, otherwise the slice
      that starts at (currentPage - 1) * itemsPerPage. */
  function CurrentProducts<T>(products: seq<T>, currentPage: int, itemsPerPage: nat, showPagination: bool)
    : (r: seq<T>)
    requires itemsPerPage > 0
    ensures !showPagination ==> r == products
    ensures showPagination ==> |r| <= itemsPerPage
  {
    if !showPagination then products
    else
      var startIndex := (currentPage - 1) * itemsPerPage;
      Slice(products, startIndex, startIndex + itemsPerPage)
  }

  /** A page the buttons can reach starts inside the list, and a page
      before the last one ends inside it. */
  lemma PageStartInList(length: nat, page: int, itemsPerPage: nat)
    requires itemsPerPage > 0
    requires 1 <= page <= TotalPages(length, itemsPerPage)
    ensures 0 <= (page - 1) * itemsPerPage < length
    ensures page < TotalPages(length, itemsPerPage) ==> (page - 1) * itemsPerPage + itemsPerPage < length
  {
    var last := TotalPages(length, itemsPerPage) - 1;
    MulMono(0, page - 1, itemsPerPage);
    MulMono(page - 1, last, itemsPerPage);
    if page < TotalPages(length, itemsPerPage) {
      MulMono(page, last, itemsPerPage);
      assert (page - 1) * itemsPerPage + itemsPerPage == page * itemsPerPage;
    }
  }

  /** On a page the buttons can reach, the slice holds exactly the products
      from (page-1)·itemsPerPage on, itemsPerPage of them or the rest of the
      list, and every page but the last is full. */
  lemma PageContents<T>(products: seq<T>, page: int, itemsPerPage: nat)
    requires itemsPerPage > 0
    requires 1 <= page <= TotalPages(|products|, itemsPerPage)
    ensures var start := (page - 1) * itemsPerPage;
      var end := if start + itemsPerPage <= |products| then start + itemsPerPage else |products|;
      && 0 <= start < |products|
      && CurrentProducts(products, page, itemsPerPage, true) == products[start..end]
      && (page < TotalPages(|products|, itemsPerPage) ==> |CurrentProducts(products, page, itemsPerPage, true)| == itemsPerPage)
  {
    PageStartInList(|products|, page, itemsPerPage);
  }

  /** a <= b scales by a non-negative factor. */
  lemma MulMono(a: int, b: int, c: nat)
    requires a <= b
    ensures a * c <= b * c
  {
    assert b * c - a * c == (b - a) * c;
  }

  /** handlePrevious: back one page unless on the first. */
  function Previous(currentPage: int): (page: int)
    ensures currentPage > 1 ==> page == currentPage - 1
    ensures currentPage <= 1 ==> page == currentPage
  {
    if currentPage > 1 then currentPage - 1 else currentPage
  }

  /** handleNext: on one page unless on the last. */
  function Next(currentPage: int, totalPages: nat): (page: int)
    ensures currentPage < totalPages ==> page == currentPage + 1
    ensures currentPage >= totalPages ==> page == currentPage
  {
    if currentPage < totalPages then currentPage + 1 else currentPage
  }

  /** The page the buttons can show: starting at 1, at most the last page
      (page 1 when there is nothing to show). */
  predicate Reachable(page: int, totalPages: nat)
  {
    1 <= page <= (if totalPages > 1 then totalPages else 1)
  }

  /** The buttons: previous, next, and the numbered page buttons 1..totalPages. */
  datatype Button = PreviousButton | NextButton | PageButton(page: int)

  /** The page after pressing a button; the numbered buttons are only drawn
      for 1..totalPages, so no other page number can be pressed. */
  function Press(currentPage: int, totalPages: nat, b: Button): int
    requires b.PageButton? ==> 1 <= b.page <= totalPages
  {
    match b
    case PreviousButton => Previous(currentPage)
    case NextButton => Next(currentPage, totalPages)
    case PageButton(p) => p
  }

  /** Starting at page 1 (the initial state), every press keeps the current
      page reachable. */
  lemma PressKeepsReachable(currentPage: int, totalPages: nat, b: Button)
    requires Reachable(currentPage, totalPages)
    requires b.PageButton? ==> 1 <= b.page <= totalPages
    ensures Reachable(Press(currentPage, totalPages, b), totalPages)
  {
  }

  /** The products the grid draws, as written: the whole list, whatever the page. */
  function RenderedAsWritten<T>(products: seq<T>, currentPage: int, itemsPerPage: nat, showPagination: bool)
    : seq<T>
    requires itemsPerPage > 0
  {
    products
  }

  /** As written, the grid ignores paging: with seven products, six per
      page and paging on, page 1 draws all seven, and page 2 draws the same
      seven instead of the last one. */
  lemma RenderedIgnoresPaging(products: seq<int>)
    requires products == [1, 2, 3, 4, 5, 6, 7]
    ensures |RenderedAsWritten(products, 1, 6, true)| == 7 > 6
    ensures RenderedAsWritten(products, 2, 6, true) != CurrentProducts(products, 2, 6, true)
  {
    assert CurrentProducts(products, 2, 6, true) == [7];
  }

  /** The products the grid should draw: those of the current page. */
  function Rendered<T>(products: seq<T>, currentPage: int, itemsPerPage: nat, showPagination: bool)
    : (r: seq<T>)
    requires itemsPerPage > 0
    ensures showPagination ==> |r| <= itemsPerPage
    ensures !showPagination ==> r == products
  {
    CurrentProducts(products, currentPage, itemsPerPage, showPagination)
  }

  /** Drawn page by page, the reachable pages show every product once, in
      order: the pages before p cover exactly the first (p-1)·itemsPerPage products. */
  lemma {:induction false} PagesCoverList<T>(products: seq<T>, itemsPerPage: nat, p: nat)
    requires itemsPerPage > 0
    requires 1 <= p <= TotalPages(|products|, itemsPerPage) + 1
    ensures PagesBefore(products, itemsPerPage, p) == products[..Covered(|products|, (p - 1) * itemsPerPage)]
  {
    if p > 1 {
      PagesCoverList(products, itemsPerPage, p - 1);
      NextPageExtends(products, itemsPerPage, p - 1);
    }
  }

  /** The first k products, or all of them when there are fewer. */
  function Covered(length: nat, k: int): nat
  {
    if k < 0 then 0 else if k <= length then k else length
  }

  /** Page q follows the products before it. */
  lemma NextPageExtends<T>(products: seq<T>, itemsPerPage: nat, q: nat)
    requires itemsPerPage > 0
    requires 1 <= q <= TotalPages(|products|, itemsPerPage)
    ensures products[..Covered(|products|, (q - 1) * itemsPerPage)] + Rendered(products, q, itemsPerPage, true) ==
            products[..Covered(|products|, q * itemsPerPage)]
  {
    var m := itemsPerPage;
    PageContents(products, q, m);
    var start := (q - 1) * m;
    var end := if start + m <= |products| then start + m else |products|;
    assert q * m == start + m;
    PrefixThenSlice(products, start, end);
  }

  /** A prefix followed by the slice after it is the longer prefix. */
  lemma PrefixThenSlice<T>(s: seq<T>, a: int, b: int)
    requires 0 <= a <= b <= |s|
    ensures s[..a] + s[a..b] == s[..b]
  {
  }

  /** The products drawn on pages 1 .. p-1, one page after another. */
  function PagesBefore<T>(products: seq<T>, itemsPerPage: nat, p: nat): seq<T>
    requires itemsPerPage > 0
  {
    if p <= 1 then [] else PagesBefore(products, itemsPerPage, p - 1) + Rendered(products, p - 1, itemsPerPage, true)
  }

  /** All pages together are the whole list. */
  lemma AllPagesAreTheList<T>(products: seq<T>, itemsPerPage: nat)
    requires itemsPerPage > 0
    ensures PagesBefore(products, itemsPerPage, TotalPages(|products|, itemsPerPage) + 1) == products
  {
    PagesCoverList(products, itemsPerPage, TotalPages(|products|, itemsPerPage) + 1);
  }
}
