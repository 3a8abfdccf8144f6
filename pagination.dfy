/**
 * The client-side pagination both listing pages use: `Math.ceil(n / perPage)`
 * pages, a 1-based cursor, `slice(startIndex, startIndex + perPage)`, the
 * "Showing a to b of n" label, the page buttons and Previous/Next.
 */
module Pagination {
  import opened Wrappers

  function Min(a: int, b: int): int { if a <= b then a else b }
  function Max(a: int, b: int): int { if a >= b then a else b }

  /** An index argument of `Array.prototype.slice`: negative counts from the end, then clamped to `[0, n]`. */
  function SliceBound(i: int, n: nat): (r: nat)
    ensures r <= n
    ensures 0 <= i <= n ==> r == i
    ensures i > n ==> r == n
  {
    if i < 0 then Max(0, n + i) else Min(i, n)
  }

  /** `s.slice(start, end)`. */
  function JsSlice<T>(s: seq<T>, start: int, end: int): (r: seq<T>)
    ensures |r| <= |s|
    ensures 0 <= start <= end <= |s| ==> r == s[start..end]
    ensures start >= |s| ==> r == []
  {
    var lo := SliceBound(start, |s|);
    var hi := SliceBound(end, |s|);
    if lo < hi then s[lo..hi] else []
  }

  /** `Math.ceil(n / perPage)`: the fewest pages of `perPage` records that hold `n` records. */
  function TotalPages(n: nat, perPage: nat): (r: nat)
    requires perPage > 0
    ensures n <= r * perPage
    ensures r == 0 || (r - 1) * perPage < n
  {
    var q := (n + perPage - 1) / perPage;
    assert q * perPage + (n + perPage - 1) % perPage == n + perPage - 1;
    assert (q - 1) * perPage == q * perPage - perPage;
    q
  }

  /** Multiplying by a non-negative factor keeps the order. */
  lemma MulMonotonic(a: int, b: int, k: nat)
    requires a <= b
    ensures a * k <= b * k
  {
    assert b * k - a * k == (b - a) * k;
  }

  /** More than one page exactly when there are more records than fit on one. */
  lemma SeveralPagesIff(n: nat, perPage: nat)
    requires perPage > 0
    ensures TotalPages(n, perPage) > 1 <==> n > perPage
  {
    var tp := TotalPages(n, perPage);
    if tp > 1 {
      MulMonotonic(1, tp - 1, perPage);
    } else {
      MulMonotonic(tp, 1, perPage);
    }
  }

  /** `(currentPage - 1) * perPage`: where page `page` starts. */
  function StartIndex(page: int, perPage: nat): (r: int)
    ensures page >= 1 ==> r >= 0
    ensures r + perPage == page * perPage
  {
    (page - 1) * perPage
  }

  /** The records shown on page `page`. */
  function Page<T>(s: seq<T>, page: int, perPage: nat): (r: seq<T>)
    ensures |r| <= perPage && |r| <= |s|
    ensures forall x :: x in r ==> x in s
  {
    var start := StartIndex(page, perPage);
    JsSlice(s, start, start + perPage)
  }

  /** A page inside `[1, totalPages]` is the non-empty run `[(page-1)*perPage, min(page*perPage, n))` of at most `perPage` records. */
  lemma PageInRange<T>(s: seq<T>, page: int, perPage: nat)
    requires perPage > 0
    requires 1 <= page <= TotalPages(|s|, perPage)
    ensures 0 <= (page - 1) * perPage < Min(page * perPage, |s|) <= |s|
    ensures Page(s, page, perPage) == s[(page - 1) * perPage .. Min(page * perPage, |s|)]
    ensures 0 < |Page(s, page, perPage)| <= perPage
  {
    var tp := TotalPages(|s|, perPage);
    MulMonotonic(page - 1, tp - 1, perPage);
    MulMonotonic(0, page - 1, perPage);
    var start := (page - 1) * perPage;
    assert page * perPage == start + perPage;
    assert Page(s, page, perPage) == JsSlice(s, start, start + perPage);
  }

  /** A cursor past the last page (left there when the list shrank) shows no records; nothing clamps it. */
  lemma PageBeyondLast<T>(s: seq<T>, page: int, perPage: nat)
    requires perPage > 0
    requires page > TotalPages(|s|, perPage)
    ensures Page(s, page, perPage) == []
  {
    var tp := TotalPages(|s|, perPage);
    MulMonotonic(tp, page - 1, perPage);
  }

  /** Pages `1..k` laid end to end. */
  function Pages<T>(s: seq<T>, perPage: nat, k: nat): seq<T> {
    if k == 0 then [] else Pages(s, perPage, k - 1) + Page(s, k, perPage)
  }

  /** A prefix followed by the slice after it is the longer prefix. */
  lemma PrefixThenSlice<T>(s: seq<T>, i: int, j: int)
    requires 0 <= i <= j <= |s|
    ensures Min(i, |s|) == i
    ensures s[..i] + s[i..j] == s[..j]
  {
  }

  /** Adding page `k` to pages `1..k-1` extends the covered prefix to `min(k * perPage, n)`. */
  lemma PagesStep<T>(s: seq<T>, perPage: nat, k: nat)
    requires perPage > 0
    requires 1 <= k <= TotalPages(|s|, perPage)
    requires Pages(s, perPage, k - 1) == s[..Min((k - 1) * perPage, |s|)]
    ensures Pages(s, perPage, k) == s[..Min(k * perPage, |s|)]
  {
    assert Pages(s, perPage, k) == Pages(s, perPage, k - 1) + Page(s, k, perPage);
    PageInRange(s, k, perPage);
    PrefixThenSlice(s, (k - 1) * perPage, Min(k * perPage, |s|));
  }

  /** The first `k` pages are the first `min(k * perPage, n)` records. */
  lemma {:induction false} PagesPrefix<T>(s: seq<T>, perPage: nat, k: nat)
    requires perPage > 0
    requires k <= TotalPages(|s|, perPage)
    ensures Pages(s, perPage, k) == s[..Min(k * perPage, |s|)]
  {
    if k > 0 {
      PagesPrefix(s, perPage, k - 1);
      PagesStep(s, perPage, k);
    }
  }

  /** Pages `1..totalPages` put back together are the whole list: nothing repeated, nothing lost. */
  lemma PagesReassemble<T>(s: seq<T>, perPage: nat)
    requires perPage > 0
    ensures Pages(s, perPage, TotalPages(|s|, perPage)) == s
  {
    var tp := TotalPages(|s|, perPage);
    PagesPrefix(s, perPage, tp);
    assert Min(tp * perPage, |s|) == |s|;
  }

  /** "Showing `first` to `last` of `total` contributions". */
  datatype RangeLabel = RangeLabel(first: int, last: int, total: nat)

  function Label(n: nat, page: int, perPage: nat): (r: RangeLabel)
    ensures r.total == n && r.last <= n
    ensures page >= 1 ==> r.first >= 1
  {
    var start := StartIndex(page, perPage);
    RangeLabel(start + 1, Min(start + perPage, n), n)
  }

  /** For a page in range the label is `1 <= first <= last <= n` and counts exactly the records shown. */
  lemma LabelMatchesPage<T>(s: seq<T>, page: int, perPage: nat)
    requires perPage > 0
    requires 1 <= page <= TotalPages(|s|, perPage)
    ensures var l := Label(|s|, page, perPage);
            1 <= l.first <= l.last <= l.total == |s| && l.last - l.first + 1 == |Page(s, page, perPage)|
  {
    PageInRange(s, page, perPage);
    assert StartIndex(page, perPage) + perPage == page * perPage;
  }

  /** `Array.from({ length: totalPages }, (_, i) => i + 1)`. */
  function PageButtons(totalPages: nat): (r: seq<int>)
    ensures |r| == totalPages
    ensures forall i :: 0 <= i < |r| ==> r[i] == i + 1
  {
    seq(totalPages, i => i + 1)
  }

  /** The buttons are exactly the pages `1..totalPages`, in increasing order. */
  lemma PageButtonsAreThePages(totalPages: nat)
    ensures forall p :: p in PageButtons(totalPages) <==> 1 <= p <= totalPages
    ensures forall i, j :: 0 <= i < j < totalPages ==> PageButtons(totalPages)[i] < PageButtons(totalPages)[j]
  {
    var b := PageButtons(totalPages);
    forall p | 1 <= p <= totalPages ensures p in b {
      assert b[p - 1] == p;
    }
  }

  /** `Math.max(1, currentPage - 1)`. */
  function Previous(page: int): (r: int)
    ensures r >= 1
    ensures page >= 1 ==> r <= page
    ensures r == page <==> page == 1
    ensures page >= 2 ==> r == page - 1
  {
    Max(1, page - 1)
  }

  /** `Math.min(totalPages, currentPage + 1)`. */
  function Next(page: int, totalPages: nat): (r: int)
    ensures r <= totalPages
    ensures page <= totalPages ==> page <= r
    ensures r == page <==> page == totalPages
    ensures 1 <= page < totalPages ==> r == page + 1
  {
    Min(totalPages, page + 1)
  }

  /** From a cursor in `[1, totalPages]` Previous and Next stay in that range, and each moves exactly when its button is enabled. */
  lemma NavigationStaysInRange(page: int, totalPages: nat)
    requires 1 <= page <= totalPages
    ensures 1 <= Previous(page) <= totalPages && 1 <= Next(page, totalPages) <= totalPages
    ensures Previous(page) != page <==> !PreviousDisabled(page)
    ensures Next(page, totalPages) != page <==> !NextDisabled(page, totalPages)
  {
  }

  /** `disabled={currentPage === 1}`. */
  predicate PreviousDisabled(page: int) { page == 1 }

  /** `disabled={currentPage === totalPages}`. */
  predicate NextDisabled(page: int, totalPages: nat) { page == totalPages }

  /** The pager block: the range label, the page buttons and the state of Previous/Next. */
  datatype Pager = Pager(
    range: RangeLabel,
    buttons: seq<int>,
    current: int,
    previousDisabled: bool,
    nextDisabled: bool)

  /** `{totalPages > 1 && (...pager...)}`. */
  function PagerFor(n: nat, page: int, perPage: nat): (r: Option<Pager>)
    requires perPage > 0
    ensures r.Some? <==> n > perPage
    ensures r.Some? ==> r.value.buttons == PageButtons(TotalPages(n, perPage)) && r.value.current == page
  {
    var totalPages := TotalPages(n, perPage);
    SeveralPagesIff(n, perPage);
    if totalPages > 1 then
      Some(Pager(Label(n, page, perPage), PageButtons(totalPages), page,
                 PreviousDisabled(page), NextDisabled(page, totalPages)))
    else None
  }

  /** An empty list has no pages at all, and no pager. */
  lemma EmptyListHasNoPages(perPage: nat)
    requires perPage > 0
    ensures TotalPages(0, perPage) == 0 && PagerFor(0, 1, perPage).None?
  {
  }

  /** The history block under a total: the empty-state notice, or the current page's rows with the pager when there is one. */
  datatype Listing<T> = NoRecords | Table(rows: seq<T>, pager: Option<Pager>)

  function ListingFor<T>(s: seq<T>, page: int, perPage: nat): Listing<T>
    requires perPage > 0
  {
    if |s| == 0 then NoRecords else Table(Page(s, page, perPage), PagerFor(|s|, page, perPage))
  }

  /**
   * The empty-state notice appears exactly for an empty list; a cursor in
   * range shows between 1 and `perPage` rows; the pager appears exactly when
   * the list is longer than one page.
   */
  lemma ListingShape<T>(s: seq<T>, page: int, perPage: nat)
    requires perPage > 0
    ensures ListingFor(s, page, perPage).NoRecords? <==> |s| == 0
    ensures ListingFor(s, page, perPage).Table? ==> (ListingFor(s, page, perPage).pager.Some? <==> |s| > perPage)
    ensures ListingFor(s, page, perPage).Table? && 1 <= page <= TotalPages(|s|, perPage) ==>
              0 < |ListingFor(s, page, perPage).rows| <= perPage
  {
    if |s| > 0 && 1 <= page <= TotalPages(|s|, perPage) {
      PageInRange(s, page, perPage);
    }
  }

  /**
   * After the list shrinks to a single page while the cursor stays on a later
   * one, the table shows no rows and no pager: nothing in the table leads back
   * to page 1.
   */
  lemma StrandedCursor<T>(s: seq<T>, page: int, perPage: nat)
    requires perPage > 0
    requires 0 < |s| <= perPage && page > 1
    ensures ListingFor(s, page, perPage) == Table([], None)
  {
    SeveralPagesIff(|s|, perPage);
    assert TotalPages(|s|, perPage) == 1;
    PageBeyondLast(s, page, perPage);
  }

  /**
   * A cursor left past the last page while the pager is still shown reads
   * inverted: the first record of the label lies beyond its last one.
   */
  lemma StrandedLabel(n: nat, page: int, perPage: nat)
    requires perPage > 0
    requires page > TotalPages(n, perPage)
    ensures Label(n, page, perPage).first > Label(n, page, perPage).last
  {
    MulMonotonic(TotalPages(n, perPage), page - 1, perPage);
  }

  /** Seven records, five per page, cursor on page 3: "Showing 11 to 7 of 7". */
  lemma StrandedLabelExample()
    ensures PagerFor(7, 3, 5).Some? && PagerFor(7, 3, 5).value.range == RangeLabel(11, 7, 7)
  {
    assert TotalPages(7, 5) == 2;
  }

  /**
   * From a cursor past the last page of a shown pager, Next, every page
   * button, and Previous from exactly one page past the end bring it back to
   * an existing page.
   */
  lemma WayBackFromPastEnd(page: int, totalPages: nat)
    requires 1 < totalPages < page
    ensures !NextDisabled(page, totalPages) && Next(page, totalPages) == totalPages
    ensures !PreviousDisabled(page)
    ensures 1 <= Previous(page) <= totalPages <==> page == totalPages + 1
    ensures forall p :: p in PageButtons(totalPages) ==> 1 <= p <= totalPages
  {
    PageButtonsAreThePages(totalPages);
  }
}
