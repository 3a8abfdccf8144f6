/**
 * The "Your Savings Dashboard" page: the total, the contribution history ten
 * rows at a time, and the page cursor the pager buttons move.
 */
module MySavings {
  import opened Wrappers
  import opened Ledger
  import opened Pagination
  import opened Savings

  const ContributionsPerPage: nat := 10

  /** What the page shows. */
  datatype Screen =
    | Spinner
    | LoadFailed(message: Option<string>)
    | Overview(totalSavings: int, countLabel: Option<nat>, history: Listing<Contribution>)

  function Render(state: SavingsState, currentPage: int): Screen {
    if state.isLoading then Spinner
    else if state.isError then LoadFailed(state.errorMessage)
    else
      var cs := state.contributions;
      Overview(state.totalSavings,
               if |cs| > 0 then Some(|cs|) else None,
               ListingFor(cs, currentPage, ContributionsPerPage))
  }

  /** A loaded empty history shows a zero total, no count, the empty-state notice and no pager. */
  lemma EmptyHistory(q: Query, currentPage: int)
    requires !q.isLoading && !q.isError
    requires q.data.None? || q.data == Some([])
    ensures Render(UseSavings(q), currentPage) == Overview(0, None, NoRecords)
    ensures TotalPages(|UseSavings(q).contributions|, ContributionsPerPage) == 0
  {
    UseSavingsSpec(q);
  }

  /**
   * A loaded non-empty history shows the fetched total, the record count, and
   * page `currentPage` of the records as rows, with a pager exactly when there
   * are more than ten records.
   */
  lemma LoadedHistory(q: Query, currentPage: int)
    requires !q.isLoading && !q.isError
    requires q.data.Some? && |q.data.value| > 0
    ensures var screen := Render(UseSavings(q), currentPage);
            && screen.Overview?
            && screen.totalSavings == Total(q.data.value)
            && screen.countLabel == Some(|q.data.value|)
            && screen.history.Table?
            && screen.history.rows == Page(q.data.value, currentPage, ContributionsPerPage)
            && (screen.history.pager.Some? <==> |q.data.value| > ContributionsPerPage)
  {
    UseSavingsSpec(q);
    ListingShape(q.data.value, currentPage, ContributionsPerPage);
  }

  /** The page's own state: the 1-based cursor of the history table. */
  class SavingsPage {
    var currentPage: int

    /** The cursor never drops below 1: it starts there and every move keeps it there. */
    ghost predicate Valid()
      reads this
    {
      currentPage >= 1
    }

    /** The pager is on screen for a history of `count` records. */
    static predicate PagerShown(count: nat) {
      TotalPages(count, ContributionsPerPage) > 1
    }

    /** The cursor is on a page that exists for `count` records. */
    ghost predicate OnExistingPage(count: nat)
      reads this
    {
      1 <= currentPage <= TotalPages(count, ContributionsPerPage)
    }

    constructor()
      ensures Valid() && currentPage == 1
    {
      currentPage := 1;
    }

    /** Previous: does nothing while disabled (on page 1), otherwise moves to `max(1, currentPage - 1)`. */
    method ClickPrevious(count: nat)
      requires Valid() && PagerShown(count)
      modifies this
      ensures Valid()
      ensures currentPage == if PreviousDisabled(old(currentPage)) then old(currentPage) else Previous(old(currentPage))
      ensures old(OnExistingPage(count)) ==> OnExistingPage(count)
      ensures old(currentPage) == TotalPages(count, ContributionsPerPage) + 1 ==> OnExistingPage(count)
    {
      if !PreviousDisabled(currentPage) {
        currentPage := Previous(currentPage);
      }
    }

    /**
     * Next: does nothing while disabled (on the last page), otherwise moves to
     * `min(totalPages, currentPage + 1)`. Either way the cursor ends on an
     * existing page, even one left past the end.
     */
    method ClickNext(count: nat)
      requires Valid() && PagerShown(count)
      modifies this
      ensures Valid()
      ensures var totalPages := TotalPages(count, ContributionsPerPage);
              currentPage == if NextDisabled(old(currentPage), totalPages) then old(currentPage) else Next(old(currentPage), totalPages)
      ensures OnExistingPage(count)
    {
      var totalPages := TotalPages(count, ContributionsPerPage);
      if !NextDisabled(currentPage, totalPages) {
        currentPage := Next(currentPage, totalPages);
      }
    }

    /** A numbered page button: jumps to that page, which exists. */
    method ClickPage(count: nat, page: int)
      requires Valid() && PagerShown(count)
      requires page in PageButtons(TotalPages(count, ContributionsPerPage))
      modifies this
      ensures Valid() && OnExistingPage(count)
      ensures currentPage == page
    {
      PageButtonsAreThePages(TotalPages(count, ContributionsPerPage));
      currentPage := page;
    }
  }
}
