/**
 * The admin dashboard: the grand total, one card per colleague with that
 * colleague's contributions five rows at a time, the selection toggle that
 * expands a card, the single page cursor every card shares, and the prefill
 * of the edit form.
 */
module AdminDashboard {
  import opened Wrappers
  import opened Ledger
  import opened Pagination
  import opened ContributionForm

  const ContributionsPerPage: nat := 5

  /** `date.split('T')[0]`: the text before the first 'T', or all of it. */
  function DatePart(date: string): (r: string)
    ensures r <= date
    ensures 'T' !in r
    ensures |r| < |date| ==> date[|r|] == 'T'
  {
    if |date| == 0 || date[0] == 'T' then "" else [date[0]] + DatePart(date[1..])
  }

  /** A day followed by a time part ('T' and the rest, or nothing) is cut back to the day. */
  lemma {:induction false} DatePartOfTimestamp(day: string, time: string)
    requires 'T' !in day
    requires time == [] || time[0] == 'T'
    ensures DatePart(day + time) == day
  {
    if |day| > 0 {
      assert day[0] in day;
      assert (day + time)[1..] == day[1..] + time;
      DatePartOfTimestamp(day[1..], time);
      assert day == [day[0]] + day[1..];
    }
  }

  /** The edit form's user: the owner field itself if it is a string, otherwise its `_id`. */
  function EditOwnerId(o: Owner): (r: string)
    ensures OwnerKey(o).Some? ==> r == OwnerKey(o).value
  {
    match o
    case OwnerId(id) => id
    case OwnerDoc(u) => u.id
  }

  /** The values `handleEdit` puts into the edit form. */
  function EditPrefill(c: Contribution): FormData {
    FormData(Some(EditOwnerId(c.owner)), c.amount, DatePart(c.date))
  }

  /** Editing a record from a user's card prefills that user. */
  lemma EditPrefillsCardOwner(cs: seq<Contribution>, userId: string, c: Contribution)
    requires c in ForUser(cs, userId)
    ensures EditPrefill(c).userId == Some(userId)
  {
  }

  /**
   * A record saved from accepted form values, whose date came back as that day
   * with or without a time part, reopens with exactly those values, so the
   * prefilled form is accepted again.
   */
  lemma EditPrefillRoundTrip(f: FormData, id: string, owner: Owner, time: string)
    requires Accepts(f) && 'T' !in f.date
    requires f.userId == Some(EditOwnerId(owner))
    requires time == [] || time[0] == 'T'
    ensures EditPrefill(Contribution(id, owner, f.amount, f.date + time)) == f
    ensures Accepts(EditPrefill(Contribution(id, owner, f.amount, f.date + time)))
  {
    DatePartOfTimestamp(f.date, time);
  }

  /** A user's card: the colleague, the number of records, and its body when expanded. */
  datatype Card = Card(user: User, count: nat, body: Option<CardBody>)

  /** The expanded part: the total of the card's own records and its history table. */
  datatype CardBody = CardBody(total: int, history: Listing<Contribution>)

  function CardFor(user: User, contributions: seq<Contribution>, selectedUserId: Option<string>, currentPage: int): Card {
    var mine := ForUser(contributions, user.id);
    Card(user, |mine|,
         if selectedUserId == Some(user.id)
         then Some(CardBody(Total(mine), ListingFor(mine, currentPage, ContributionsPerPage)))
         else None)
  }

  function Cards(users: seq<User>, contributions: seq<Contribution>, selectedUserId: Option<string>, currentPage: int): (r: seq<Card>)
    ensures |r| == |users|
    ensures forall i :: 0 <= i < |users| ==> r[i] == CardFor(users[i], contributions, selectedUserId, currentPage)
  {
    seq(|users|, i requires 0 <= i < |users| => CardFor(users[i], contributions, selectedUserId, currentPage))
  }

  function UserIds(users: seq<User>): (r: seq<string>)
    ensures |r| == |users| && forall i :: 0 <= i < |users| ==> r[i] == users[i].id
  {
    seq(|users|, i requires 0 <= i < |users| => users[i].id)
  }

  /**
   * Only the selected colleague's card is expanded, and it shows the total of
   * exactly that colleague's records and the shared cursor's page of them.
   */
  lemma OnlySelectedCardExpands(users: seq<User>, contributions: seq<Contribution>, selectedUserId: Option<string>, currentPage: int)
    requires Distinct(UserIds(users))
    ensures forall i :: 0 <= i < |users| ==>
              (Cards(users, contributions, selectedUserId, currentPage)[i].body.Some? <==> selectedUserId == Some(users[i].id))
    ensures forall i, j :: 0 <= i < j < |users| ==>
              !(Cards(users, contributions, selectedUserId, currentPage)[i].body.Some? &&
                Cards(users, contributions, selectedUserId, currentPage)[j].body.Some?)
    ensures forall i :: 0 <= i < |users| && selectedUserId == Some(users[i].id) ==>
              var body := Cards(users, contributions, selectedUserId, currentPage)[i].body.value;
              body.total == Total(ForUser(contributions, users[i].id)) &&
              (body.history.Table? ==> body.history.rows == Page(ForUser(contributions, users[i].id), currentPage, ContributionsPerPage))
  {
    forall i, j | 0 <= i < j < |users|
      ensures !(Cards(users, contributions, selectedUserId, currentPage)[i].body.Some? &&
                Cards(users, contributions, selectedUserId, currentPage)[j].body.Some?)
    {
      assert UserIds(users)[i] != UserIds(users)[j];
    }
  }

  /** The card totals of the listed colleagues add up to the grand total when every record belongs to one of them. */
  lemma CardTotalsAddUp(users: seq<User>, contributions: seq<Contribution>)
    requires Distinct(UserIds(users))
    requires forall i :: 0 <= i < |contributions| ==> Listed(contributions[i], UserIds(users))
    ensures UsersTotal(contributions, UserIds(users)) == Total(contributions)
  {
    UsersTotalIsTotal(contributions, UserIds(users));
  }

  /**
   * When every record was saved through the form, so that its amount passed
   * the schema's minimum, the grand total is at least 100 per record and is
   * positive exactly when there is a record.
   */
  lemma AcceptedAmountsTotal(contributions: seq<Contribution>)
    requires forall i :: 0 <= i < |contributions| ==> contributions[i].amount >= MinimumAmount
    ensures Total(contributions) >= MinimumAmount * |contributions|
    ensures Total(contributions) > 0 <==> |contributions| > 0
  {
    TotalLowerBound(contributions, MinimumAmount);
  }

  /** The dashboard's own state. */
  class Dashboard {
    var selectedUserId: Option<string>
    var currentPage: int
    var editing: Option<Contribution>
    var editForm: Option<FormData>

    ghost predicate Valid()
      reads this
    {
      currentPage >= 1
    }

    /** The records on the expanded card. */
    function SelectedCard(contributions: seq<Contribution>): seq<Contribution>
      reads this
      requires selectedUserId.Some?
    {
      ForUser(contributions, selectedUserId.value)
    }

    /** The expanded card's pager is on screen. */
    predicate PagerShown(contributions: seq<Contribution>)
      reads this
    {
      selectedUserId.Some? && TotalPages(|SelectedCard(contributions)|, ContributionsPerPage) > 1
    }

    /** The shared cursor is on a page of the expanded card (page 1 when the card is empty). */
    ghost predicate CursorFits(contributions: seq<Contribution>)
      reads this
    {
      selectedUserId.Some? ==> currentPage <= Max(1, TotalPages(|SelectedCard(contributions)|, ContributionsPerPage))
    }

    constructor()
      ensures Valid()
      ensures selectedUserId == None && currentPage == 1 && editing == None && editForm == None
    {
      selectedUserId := None;
      currentPage := 1;
      editing := None;
      editForm := None;
    }

    /**
     * Clicking a card header: the selected card collapses and the cursor stays
     * where it is; any other card is selected and the cursor returns to page 1.
     */
    method SelectUser(userId: string)
      requires Valid()
      modifies this`selectedUserId, this`currentPage
      ensures Valid()
      ensures old(selectedUserId) == Some(userId) ==> selectedUserId == None && currentPage == old(currentPage)
      ensures old(selectedUserId) != Some(userId) ==> selectedUserId == Some(userId) && currentPage == 1
      ensures forall cs :: CursorFits(cs)
    {
      if selectedUserId == Some(userId) {
        selectedUserId := None;
      } else {
        selectedUserId := Some(userId);
        currentPage := 1;
      }
    }

    /** Previous on the expanded card: nothing while disabled, else `max(1, currentPage - 1)`. */
    method ClickPrevious(contributions: seq<Contribution>)
      requires Valid() && PagerShown(contributions)
      modifies this`currentPage
      ensures Valid()
      ensures currentPage == if PreviousDisabled(old(currentPage)) then old(currentPage) else Previous(old(currentPage))
      ensures old(CursorFits(contributions)) ==> CursorFits(contributions)
      ensures old(currentPage) == TotalPages(|SelectedCard(contributions)|, ContributionsPerPage) + 1 ==> CursorFits(contributions)
    {
      if !PreviousDisabled(currentPage) {
        currentPage := Previous(currentPage);
      }
    }

    /** Next on the expanded card: nothing while disabled, else `min(totalPages, currentPage + 1)`; the cursor then fits the card. */
    method ClickNext(contributions: seq<Contribution>)
      requires Valid() && PagerShown(contributions)
      modifies this`currentPage
      ensures Valid()
      ensures var totalPages := TotalPages(|SelectedCard(contributions)|, ContributionsPerPage);
              currentPage == if NextDisabled(old(currentPage), totalPages) then old(currentPage) else Next(old(currentPage), totalPages)
      ensures CursorFits(contributions)
    {
      var totalPages := TotalPages(|SelectedCard(contributions)|, ContributionsPerPage);
      if !NextDisabled(currentPage, totalPages) {
        currentPage := Next(currentPage, totalPages);
      }
    }

    /** A numbered page button on the expanded card. */
    method ClickPage(contributions: seq<Contribution>, page: int)
      requires Valid() && PagerShown(contributions)
      requires page in PageButtons(TotalPages(|SelectedCard(contributions)|, ContributionsPerPage))
      modifies this`currentPage
      ensures Valid() && CursorFits(contributions)
      ensures currentPage == page
    {
      PageButtonsAreThePages(TotalPages(|SelectedCard(contributions)|, ContributionsPerPage));
      currentPage := page;
    }

    /** `handleEdit`: remembers the record and fills the edit form from it. */
    method HandleEdit(c: Contribution)
      modifies this`editing, this`editForm
      ensures editing == Some(c)
      ensures editForm == Some(EditPrefill(c))
    {
      editing := Some(c);
      editForm := Some(EditPrefill(c));
    }

    /** Closing or cancelling the edit dialog, or a successful update: forgets the record and resets the form. */
    method CloseEdit()
      modifies this`editing, this`editForm
      ensures editing == None && editForm == None
    {
      editing := None;
      editForm := None;
    }
  }

  /**
   * A cursor that fits the expanded card (as selecting and every pager move
   * keep it while the records do not change) shows at least one of the card's
   * records whenever it has any.
   */
  lemma FittingCursorShowsRecords(page: int, card: seq<Contribution>)
    requires 1 <= page <= Max(1, TotalPages(|card|, ContributionsPerPage))
    ensures |card| > 0 ==> 0 < |Page(card, page, ContributionsPerPage)|
  {
    if |card| > 0 {
      PageInRange(card, page, ContributionsPerPage);
    }
  }

  /**
   * Two clicks on the expanded card's header, collapsing it and opening it
   * again, bring the shared cursor back to page 1, whatever it was.
   */
  method ReselectResetsCursor(d: Dashboard, userId: string)
    requires d.Valid() && d.selectedUserId == Some(userId)
    modifies d
    ensures d.Valid() && d.selectedUserId == Some(userId) && d.currentPage == 1
    ensures forall cs :: d.CursorFits(cs)
  {
    d.SelectUser(userId);
    d.SelectUser(userId);
  }
}
