# PocketGrow front-end logic, modelled in Dafny

PocketGrow is a browser application where colleagues log savings
contributions and an administrator manages them for everyone. Almost all of
it is markup; this project models the parts that decide something:

- **Ledger** (`ledger.dfy`): contribution records, the total of their
  amounts (the `reduce` with seed 0 used by the savings hook and the admin
  dashboard), the admin dashboard's per-colleague filter on `c.userId._id`,
  and the per-colleague totals that add up to the grand total.
- **Pagination** (`pagination.dfy`): `Array.prototype.slice` with its
  clamping of bounds, `Math.ceil(n / perPage)` pages, the 1-based page
  slice, the "Showing a to b of n" label, the page buttons, Previous/Next
  with their disabled states, and the rule that the pager appears only with
  more than one page. Both listing pages use this one module.
- **Savings hook** (`savings.dfy`): the signed-in user's fetched
  contributions (an absent result defaults to the empty list) and their total.
- **My savings page** (`my_savings.dfy`): what the page shows (spinner,
  error, total and history) and the `SavingsPage` class holding the page
  cursor (starts at 1, ten rows per page) that the pager buttons move.
- **Contribution form** (`contribution_form.dfy`): the schema's three
  field rules and their fixed messages.
- **Admin dashboard** (`admin_dashboard.dfy`): the user cards (only the
  selected one expands), the `Dashboard` class with the selection toggle and
  the single page cursor every card shares (five rows per page), and the
  edit-form prefill (owner id from a string or a populated user, date cut at
  the first `'T'`).
- **Authentication context** (`auth_session.dfy`): the `AuthProvider`
  class over a string-keyed storage map with `login`, `logout`, the mount
  effect that restores the session, and `isAuthenticated`.
- **Login and register reactions** (`auth_flow.dfy`): the route per role,
  the order of effects after a successful login, the error toast and its
  fallback, and the `FormErrors` class whose loop puts each field's server
  messages, joined with `", "`, on the form.

Behaviour kept as the code has it:

- The page cursor is never clamped. When the records under an expanded
  card shrink, the cursor can point past the last page, and the table shows
  no rows. With a single page left there is no pager, so nothing in the table
  leads back (`Pagination.StrandedCursor`); on the admin page, collapsing and
  reopening the card resets the cursor to 1
  (`AdminDashboard.ReselectResetsCursor`). With several pages left the pager
  stays, its label reads inverted, for example "Showing 11 to 7 of 7"
  (`Pagination.StrandedLabel`), and Next, any page button, or Previous from
  exactly one page past the end brings the cursor back
  (`Pagination.WayBackFromPastEnd`).
- An empty list has 0 pages, not 1.
- The admin filter compares `c.userId._id`. A record whose owner is a bare
  id string has no `_id` and so is on no card (`Ledger.OwnerKey`). The edit
  prefill accepts both forms (`AdminDashboard.EditOwnerId`).
- The colleague field of the contribution form has no default value, so an
  untouched form submits no user id at all. The schema then reports its own
  type error for that field, not 'User is required', which appears only for
  an empty id.
- A login whose token is the empty string stores it, but
  `isAuthenticated` is false and the next mount restores nothing.

## Model

| member | source | states |
|---|---|---|
| Ledger.OwnerKey | src/routes/admin.tsx:212-214 | a record's owner has a filter key exactly when it is a populated user document, and the key is that user's id; a bare id string has none |
| Ledger.BelongsTo | src/routes/admin.tsx:213 | a record is on a user's card when its owner's key is that user's id |
| Ledger.ForUser | src/routes/admin.tsx:212-214 | the filtered list holds exactly the records whose owner key is the user's id, and is no longer than the ledger |
| Ledger.ForUserAppend | src/routes/admin.tsx:212-214 | filtering a concatenation is the concatenation of the filtered parts, so the filter keeps the original order |
| Ledger.ForUserCount | src/routes/admin.tsx:212-214 | a record of the user occurs in the filtered list as often as in the ledger; any other record never |
| Ledger.Total | src/hooks/useSavings.ts:20-23 | the sum of the amounts with seed 0: the `reduce` of the savings hook, of the grand total (src/routes/admin.tsx:101) and of each card; its properties are the lemmas below |
| Ledger.TotalAppend | src/hooks/useSavings.ts:20-23 | the total of a concatenation is the sum of the totals |
| Ledger.TotalPermutation | src/hooks/useSavings.ts:20-23 | two lists holding the same records in any order have the same total |
| Ledger.UsersTotalIsTotal | src/routes/admin.tsx:395-398 | with distinct user ids and every record owned by a listed user, the per-user totals add up to the total of the whole ledger |
| Pagination.SliceBound | src/routes/my-savings.tsx:20-23 | a slice bound in range is kept, one past the end becomes the length |
| Pagination.JsSlice | src/routes/my-savings.tsx:20-23 | the slice is never longer than the list, equals the sub-sequence for in-range bounds, and is empty from a start at or past the end |
| Pagination.TotalPages | src/routes/my-savings.tsx:18 | the page count is the ceiling: all records fit in that many pages, and one page fewer does not hold them |
| Pagination.StartIndex | src/routes/my-savings.tsx:19 | page p starts (p-1)*perPage records in: never negative for p >= 1, and one page before where page p+1 starts |
| Pagination.Page | src/routes/my-savings.tsx:19-23 | the rows shown for a cursor: the slice from the page's start, never more than perPage rows and only records of the list, whatever the cursor |
| Pagination.SeveralPagesIff | src/routes/admin.tsx:388 | there is more than one page exactly when there are more records than one page holds |
| Pagination.PageInRange | src/routes/my-savings.tsx:18-23 | page p in [1, totalPages] is the records from (p-1)*perPage to min(p*perPage, n), between 1 and perPage of them |
| Pagination.PageBeyondLast | src/routes/admin.tsx:389-393 | a cursor past the last page gives an empty slice, as nothing clamps it |
| Pagination.PagesReassemble | src/routes/my-savings.tsx:18-23 | pages 1..totalPages laid end to end are exactly the list, with nothing repeated or lost |
| Pagination.Label | src/routes/my-savings.tsx:153-158 | the label's total is the record count and its last number never exceeds it; its first number is at least 1 for a cursor of 1 or more |
| Pagination.LabelMatchesPage | src/routes/my-savings.tsx:153-158 | for a page in range, 1 <= first <= last <= n, and the label counts exactly the rows shown |
| Pagination.PageButtons | src/routes/my-savings.tsx:171-174 | there are totalPages buttons, the i-th showing page i+1 |
| Pagination.PageButtonsAreThePages | src/routes/my-savings.tsx:171-174 | the buttons are exactly the pages 1..totalPages, in increasing order |
| Pagination.Previous | src/routes/my-savings.tsx:162-165 | Previous moves back one page from page 2 or later, never goes below 1 or past the current page, and stays put exactly on page 1 |
| Pagination.Next | src/routes/my-savings.tsx:188-194 | Next moves forward one page from any page before the last, never goes past totalPages or behind a cursor in range, and stays put exactly on the last page |
| Pagination.PreviousDisabled | src/routes/my-savings.tsx:165 | Previous is disabled exactly on page 1 |
| Pagination.NextDisabled | src/routes/my-savings.tsx:194 | Next is disabled exactly on the last page |
| Pagination.NavigationStaysInRange | src/routes/admin.tsx:556-598 | from a cursor in [1, totalPages] both moves stay in range, and each button is enabled exactly when pressing it would move the cursor |
| Pagination.PagerFor | src/routes/admin.tsx:545-600 | the pager is present exactly when there are more records than one page holds; its buttons are the page buttons and it marks the cursor |
| Pagination.EmptyListHasNoPages | src/routes/my-savings.tsx:18 | an empty list has 0 pages and no pager |
| Pagination.ListingFor | src/routes/my-savings.tsx:92-203 | the history block: the empty-state notice for no records, otherwise the cursor's page as rows with the pager when there is one |
| Pagination.ListingShape | src/routes/my-savings.tsx:92-201 | the empty-state notice appears exactly for an empty list; a cursor in range shows 1 to perPage rows; the pager appears exactly when the list exceeds one page |
| Pagination.StrandedCursor | src/routes/admin.tsx:468-545 | a non-empty list of at most one page under a cursor past page 1 shows a table with no rows and no pager |
| Pagination.StrandedLabel | src/routes/admin.tsx:547-553 | a cursor past the last page gives a label whose first number exceeds its last |
| Pagination.StrandedLabelExample | src/routes/admin.tsx:547-553 | seven records, five per page and the cursor on page 3 show a pager labelled "Showing 11 to 7 of 7" |
| Pagination.WayBackFromPastEnd | src/routes/admin.tsx:556-598 | from a cursor past the last page of a shown pager, Next is enabled and goes to the last page, every page button is an existing page, and Previous lands on an existing page exactly from one page past the end |
| Savings.UseSavingsSpec | src/hooks/useSavings.ts:8-32 | absent data gives an empty list and a total of 0; fetched data is returned unchanged and in order, and its total splits additively at every index |
| Savings.TotalSavingsOrderFree | src/hooks/useSavings.ts:20-23 | two fetches of the same records in different orders report the same total |
| Savings.UseSavings | src/hooks/useSavings.ts:8-32 | the hook's result: the fetched records or the empty list, their total, and the query's flags and message passed through |
| MySavings.EmptyHistory | src/routes/my-savings.tsx:92-111 | a loaded empty history shows a total of 0, no count, the empty-state notice, and has 0 pages |
| MySavings.LoadedHistory | src/routes/my-savings.tsx:39-201 | a loaded non-empty history shows the total of the fetched records, their count, the cursor's page as rows, and a pager exactly when there are more than ten records |
| MySavings.Render | src/routes/my-savings.tsx:39-214 | what the page shows: a spinner while loading, the error with its message on failure, otherwise the total, the record count when there are records, and the history block |
| MySavings.SavingsPage.constructor | src/routes/my-savings.tsx:12 | the cursor starts on page 1 |
| MySavings.SavingsPage.ClickPrevious | src/routes/my-savings.tsx:161-169 | the cursor moves to max(1, p-1) unless disabled on page 1, stays at least 1, stays on an existing page, and reaches one from one page past the end |
| MySavings.SavingsPage.ClickNext | src/routes/my-savings.tsx:188-198 | the cursor moves to min(totalPages, p+1) unless disabled on the last page, and always ends on an existing page |
| MySavings.SavingsPage.ClickPage | src/routes/my-savings.tsx:171-186 | a page button sets the cursor to its page, which exists |
| ContributionForm.AcceptsExactly | src/types/admin.types.ts:3-7 | the form is accepted exactly when a user id is given and non-empty, the amount is at least 100 and the date is non-empty |
| ContributionForm.EachFieldJudgedAlone | src/types/admin.types.ts:3-7 | each field's error depends on that field's value only; an absent user id gets the type error and exactly an empty one gets 'User is required'; the other messages are fixed |
| ContributionForm.AmountThreshold | src/types/admin.types.ts:5 | with a user id and a date given, an amount of 100 or more is accepted with no upper bound; below 100 only the amount field fails, with 'Minimum contribution is 100 FCFA' |
| ContributionForm.AnyDateTextPasses | src/types/admin.types.ts:6 | any non-empty date text passes; its format is not checked |
| ContributionForm.Validate | src/types/admin.types.ts:3-7 | the schema's verdict per field: a type error for an absent user id, 'User is required' for an empty one, 'Minimum contribution is 100 FCFA' below 100, 'Date is required' for an empty date |
| ContributionForm.Accepts | src/types/admin.types.ts:3-7 | the schema accepts the form when no field has an error |
| AdminDashboard.DatePart | src/routes/admin.tsx:74 | the result is a prefix of the date with no 'T' in it, followed in the date by a 'T' unless it is the whole date |
| AdminDashboard.DatePartOfTimestamp | src/routes/admin.tsx:74 | a day with no 'T', followed by nothing or by a 'T' time part, is cut back to that day |
| AdminDashboard.EditOwnerId | src/routes/admin.tsx:68-71 | for a populated owner the prefilled user is the same id the card filter uses |
| AdminDashboard.EditPrefill | src/routes/admin.tsx:65-75 | the edit form's values: the owner's id, the amount, and the date cut at its first 'T' |
| AdminDashboard.EditPrefillsCardOwner | src/routes/admin.tsx:65-75 | editing a record listed on a user's card prefills that user's id |
| AdminDashboard.EditPrefillRoundTrip | src/routes/admin.tsx:65-75 | a record saved from accepted form values reopens with exactly those values, and the prefilled form is accepted |
| AdminDashboard.CardFor | src/routes/admin.tsx:355-461 | a user's card: the user, the number of that user's records, and, only when selected, their total and the shared cursor's page of them |
| AdminDashboard.Cards | src/routes/admin.tsx:206-222 | one card per listed user, in order, each built from that user's filtered records |
| AdminDashboard.OnlySelectedCardExpands | src/routes/admin.tsx:388-461 | a card is expanded exactly when its user is selected, never two at once, and it shows that user's total and the shared cursor's page of that user's records |
| AdminDashboard.CardTotalsAddUp | src/routes/admin.tsx:101 | the expanded-card totals of all users add up to the grand total when every record belongs to a listed user |
| AdminDashboard.AcceptedAmountsTotal | src/routes/admin.tsx:101 | when every amount passed the schema's minimum of 100 (src/types/admin.types.ts:5), the grand total is at least 100 per record and positive exactly when there is a record |
| AdminDashboard.FittingCursorShowsRecords | src/routes/admin.tsx:388-393 | a cursor that fits the card shows at least one record whenever the card has any |
| AdminDashboard.Dashboard.constructor | src/routes/admin.tsx:26-29 | nothing selected, cursor on page 1, no edit in progress |
| AdminDashboard.Dashboard.SelectUser | src/routes/admin.tsx:103-110 | selecting the selected user clears the selection and keeps the cursor; selecting another user selects it and resets the cursor to 1, which fits any card |
| AdminDashboard.Dashboard.ClickPrevious | src/routes/admin.tsx:556-565 | the shared cursor moves to max(1, p-1) unless disabled on page 1, keeps fitting the expanded card, and fits it again from one page past the end |
| AdminDashboard.Dashboard.ClickNext | src/routes/admin.tsx:587-598 | the shared cursor moves to min(totalPages, p+1) unless disabled on the last page, and then fits the expanded card |
| AdminDashboard.Dashboard.ClickPage | src/routes/admin.tsx:567-585 | a page button sets the shared cursor to its page, which fits the expanded card |
| AdminDashboard.Dashboard.HandleEdit | src/routes/admin.tsx:65-75 | the record becomes the one being edited and the form holds its prefill |
| AdminDashboard.Dashboard.CloseEdit | src/routes/admin.tsx:230-233 | the edit is abandoned and the form emptied; a successful update does the same (src/routes/admin.tsx:82-85) |
| AdminDashboard.ReselectResetsCursor | src/routes/admin.tsx:103-110 | collapsing the expanded card and opening it again leaves it selected with the cursor on page 1, which fits any card |
| AuthSession.SaveSession | src/contexts/AuthContext.tsx:30-32 | storage holds the token under 'authToken' and the user under 'authUser', every other key unchanged |
| AuthSession.ClearSession | src/contexts/AuthContext.tsx:37-39 | both keys are removed and every other key is unchanged |
| AuthSession.Restored | src/contexts/AuthContext.tsx:20-28 | a session is restored exactly when both stored values are present and non-empty, and then it is those values |
| AuthSession.RestoreAfterLogin | src/contexts/AuthContext.tsx:24-32 | after a login with a non-empty token the next mount restores the same token and user |
| AuthSession.RestoreAfterLogout | src/contexts/AuthContext.tsx:24-39 | after a logout the next mount restores nothing |
| AuthSession.LogoutIdempotent | src/contexts/AuthContext.tsx:37-42 | a second logout leaves storage as the first one did |
| AuthSession.AuthProvider.constructor | src/contexts/AuthContext.tsx:16-17 | token and user start null, so the provider is not authenticated |
| AuthSession.AuthProvider.IsAuthenticated | src/contexts/AuthContext.tsx:49 | signed in exactly when a non-empty token is held |
| AuthSession.AuthProvider.Restore | src/contexts/AuthContext.tsx:20-28 | both fields are set from storage when both stored values are non-empty, otherwise both are left as they were |
| AuthSession.AuthProvider.Login | src/contexts/AuthContext.tsx:30-35 | storage gains both keys, token and user are set, and the provider is authenticated exactly when the token is non-empty |
| AuthSession.AuthProvider.Logout | src/contexts/AuthContext.tsx:37-42 | both keys are removed, token and user become null, and the provider is not authenticated |
| AuthSession.LoginThenReload | src/contexts/AuthContext.tsx:20-49 | a fresh provider mounted after a login is authenticated exactly when the token is non-empty, and then holds the same token and user |
| AuthSession.LogoutThenReload | src/contexts/AuthContext.tsx:20-42 | a fresh provider mounted after a logout restores nothing, and a repeated logout changes nothing |
| AuthFlow.Destination | src/hooks/useAuth.ts:59-63 | 'colleague' goes to '/my-savings', 'admin' to '/admin', any other role nowhere |
| AuthFlow.OnLoginSuccess | src/hooks/useAuth.ts:56-65 | the effects of a successful login: store the session, go to the role's route if it has one, show the success toast |
| AuthFlow.LoginSuccessOrder | src/hooks/useAuth.ts:56-65 | the session is stored first, a navigation happens only after it, exactly when the role has a route, to that route, and the success toast comes last |
| AuthFlow.RegisterSuccessGoesToLogin | src/hooks/useAuth.ts:19-22 | a successful registration stores no session, and its only navigation is the last effect, to '/login' |
| AuthFlow.OnRegisterSuccess | src/hooks/useAuth.ts:19-22 | the effects of a successful registration: the success toast, then going to the login page |
| AuthFlow.OnRegisterError | src/hooks/useAuth.ts:23-32 | a failed registration marks the form with the server's field map when there is one, and does nothing otherwise |
| AuthFlow.OnLoginError | src/hooks/useAuth.ts:66-77 | a failed login marks the form with the server's field map when there is one, otherwise shows one error toast |
| AuthFlow.LoginFailureText | src/hooks/useAuth.ts:75 | the toast text is never empty and is the error's message whenever that is non-empty |
| AuthFlow.ErrorReactions | src/hooks/useAuth.ts:23-77 | with a field-error map both handlers only mark the form; without one, login shows exactly one non-empty error toast and register does nothing |
| AuthFlow.Join | src/hooks/useAuth.ts:28 | joining no messages gives '', otherwise the length is the messages' lengths plus one separator between each two, starting with the first message |
| AuthFlow.JoinSnoc | src/hooks/useAuth.ts:28 | joining one more message appends the separator and that message |
| AuthFlow.FieldMessages | src/hooks/useAuth.ts:24-31 | each field of the server's map, and no other, gets its messages joined with ', ' |
| AuthFlow.FormErrors.SetError | src/hooks/useAuth.ts:26-29 | the field's message is replaced, all others kept |
| AuthFlow.FormErrors.ApplyServerErrors | src/hooks/useAuth.ts:24-31 | every field in the server's map gets its joined messages and every other field keeps its message, whatever order the fields are visited in |

Helpers without a row of their own are covered by the rows of the members that use them: `AuthSession.Get` is `localStorage.getItem` and `AuthSession.Truthy` the truthiness test of `storedToken && storedUser` and `!!token` (rows `AuthSession.Restored` and `AuthSession.AuthProvider.IsAuthenticated`); `AdminDashboard.Dashboard.SelectedCard` is the expanded card's filter (rows `AdminDashboard.Dashboard.ClickPrevious`, `ClickNext`, `ClickPage`); `AdminDashboard.Dashboard.PagerShown` and `MySavings.SavingsPage.PagerShown` are the `totalPages > 1 &&` gate of the pager, the precondition of every pager click.

## Left out

- JSX markup, styling, animation, and the purely presentational components (header, select, input, button, home, login and register pages).
- The HTTP client, its interceptors and toasts, the service wrappers and the react-query hooks of the admin page; the remote API is outside the model.
- Creating, updating and deleting contributions: the admin page hands these to the remote API, and the mutation hooks (src/hooks/useAdmin.ts) show the toasts. On success the page resets the add form (src/routes/admin.tsx:61), closes the delete dialog (src/routes/admin.tsx:95), and closes the edit dialog exactly as `AdminDashboard.Dashboard.CloseEdit` does (src/routes/admin.tsx:82-85). The model keeps no local copy of the records: they are a parameter of every dashboard operation, so a refetch is a new parameter value, and the cursor is kept as the code keeps it. The add form's values belong to the form library and are not state of the model.
- The delete confirmation dialog (`deletingContribution`): it only holds the record to send to the remote API.
- Loading flags of the admin page (users and contributions): spinners only. The savings page's loading and error branches are modelled.
- JSON serialisation: the signed-in user is held as its JSON text, and `JSON.stringify`/`JSON.parse` are taken as the identity on it; a stored user that does not parse is not modelled.
- Locale formatting of amounts and dates, and `Date` parsing: opaque strings.
- Floating point: amounts are integers, so precision loss of very large sums and fractional or NaN amounts are not modelled.
- The axios response interceptor rejects with the HTTP client's own error object rather than the `ApiError` body that the login and register error handlers declare. The model follows the declared `ApiError` shape; whether `errors` is ever present at run time depends on that client, which is not part of this model.
- `Object.entries` visits fields in insertion order. `AuthFlow.FormErrors.ApplyServerErrors` visits them in any order; the fields are distinct, so the resulting form state is the same.
- AdminDashboard.Dashboard.ClickPrevious, ClickNext and ClickPage take the whole record list and act on the selected user's records. They do not check that the selected id belongs to a listed user, because the card list of the page is a parameter, not state.
- ContributionForm.Validate: an absent user id yields the schema's type error as `NotAString`, without its text, because that wording comes from the zod library and its version, which are not part of this model.
