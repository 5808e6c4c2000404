# Smell Admin Panel — a Dafny model of its core

This project models the core of the Smell admin panel, a single-page CRUD back office of a perfume
shop. It covers:

- the generic table controller (`useTable`): search, paging, the page clamp, delete by predicate
  and merge by predicate;
- the shared data table's view model: the body row kind, cells, and the pagination buttons with
  their enablement;
- the logic of the pages: the order, review, product, category, banner, legal-text and admin-user
  lists, the order detail page, the product form, the dashboard and the login page;
- the navigation rules of the sidebar and the header;
- the authentication context;
- the field mappers and payload builders of the data services.

Each source file is one module. Pure derivations are functions with lemmas about them. Component
state that handlers update is a class whose methods carry `modifies` frames and say what the new
state is. The table controller is the class `UseTable.Table`, over a `seq` of items; the pages
hold their list in one.

Every call to the remote data store, the identity service, the clock and `window.confirm` is a
parameter: an outcome (`Outcome`, a value or a fault) or a `{data, error}` reply (`Reply`).

- Pages log the calls they issue in a `sent` field. That is how "the local list changes only
  after the remote call succeeded" and "no call is made" are stated.
- Service calls return the command they send next to their result. The command is an insert, an
  update or a delete of one table, with the object whose keys are the columns written.

Insert and update objects are records with one optional JSON value per column. `None` is a key
the object does not carry. A key whose value is `undefined` in the source is dropped when the
object is serialised, so it is `None` too. For that reason the banner, showcase and legal-text
writes carry only the fields that are defined, although their object literals name every column
(src/services/bannerService.ts:61-68, src/services/legalTextService.ts:30-35).

Some behaviours of the code as written are proved as stated properties rather than hidden:

- The slug's final `trim` removes nothing, because every whitespace run has already become '-'.
  So a leading or trailing space gives a leading or trailing dash: " rose" becomes "-rose"
  (`Slug.LeadingSpaceKept`, `Slug.LeadingSpaceExample`).
- The sidebar's prefix test is not bounded by path segments: '/orders' is highlighted on
  '/orders-archive'.
- The category service never writes the SEO fields, which the category form sends.
- Clearing a number input of the product form stores 0, not an undefined value
  (`ProductForm.WithNumber`).
- A new category's order is counted from the paged view, not from the whole list.

## Model

| member | source | states |
|---|---|---|
| UseTable.FilteredWithoutSearch | src/hooks/useTable.ts:36-37 | with an empty query or no search key the filtered list is the whole data, unchanged |
| UseTable.FilteredKeepsMatches | src/hooks/useTable.ts:39-45 | with a query, the filtered list holds each item exactly as often as the data does when its key text includes the query ignoring case, and not at all otherwise |
| UseTable.NonStringNeverMatches | src/hooks/useTable.ts:41-43 | an item whose key is not a string never survives a non-empty search |
| UseTable.PageCount | src/hooks/useTable.ts:48 | the page count is the least number of pages of the given size that hold all items (ceiling of items / perPage) |
| UseTable.PageSlice | src/hooks/useTable.ts:50-53 | the current page holds at most perPage items, each the filtered item at offset (page-1)*perPage + j; a page that starts inside the list is exactly the filtered items from (page-1)*perPage up to page*perPage or the end of the list, whichever comes first; a page past the end is empty |
| UseTable.PageSliceWithinCount | src/hooks/useTable.ts:48-53 | every page from 1 to the page count is non-empty, and every page but the last is full |
| UseTable.PageBounds | src/hooks/useTable.ts:48-53 | a page within the page count starts before the end of the data, and a page before the last ends within it |
| UseTable.MulMonotone | src/hooks/useTable.ts:48-53 | multiplying by a natural number keeps order (arithmetic helper of `PageBounds`, not a property of the source) |
| UseTable.ClampPage | src/hooks/useTable.ts:55-57 | goToPage's clamp: the result is at least 1, at most the page count when there are pages, 1 when there are none, the page itself when in range, the last page when past it and 1 when below 1 |
| UseTable.Table.constructor | src/hooks/useTable.ts:10-15 | a fresh table holds the initial data, is loading exactly when a fetch function is given, is on page 1 with an empty query and no error |
| UseTable.Table.StartLoad | src/hooks/useTable.ts:17-21 | starting a load sets loading, clears the error and changes nothing else |
| UseTable.Table.FinishLoad | src/hooks/useTable.ts:21-29 | a finished load stops loading; success replaces the data, failure keeps it and records the error's message when it is an `Error` instance, otherwise the fallback text |
| Wrappers.MessageOr | src/hooks/useTable.ts:26 | an error that is not an `Error` instance gives the fallback; an `Error` instance gives its message |
| UseTable.Table.LoadData | src/hooks/useTable.ts:17-30 | without a fetch function nothing changes; with one, loading ends, success replaces the data and clears the error, failure keeps the data with the error message (an `Error` instance's message, otherwise the fallback); page and query are kept |
| UseTable.Table.SetSearchQuery | src/hooks/useTable.ts:14-77 | the query is replaced and nothing else changes (the page is not reset) |
| UseTable.Table.SetData | src/hooks/useTable.ts:11-70 | the data is replaced and page, query, loading and error are kept |
| UseTable.Table.GoToPage | src/hooks/useTable.ts:55-57 | the new page is the requested page clamped to 1..totalPages of the state before the call; nothing else changes |
| UseTable.Table.DeleteItem | src/hooks/useTable.ts:59-61 | the data becomes the items not matching the predicate, in order; nothing else changes |
| UseTable.Table.UpdateItem | src/hooks/useTable.ts:63-65 | every item matching the predicate is replaced by its merge, the others are kept in place; nothing else changes |
| UseTable.DeleteRemovesExactlyMatches | src/hooks/useTable.ts:59-61 | after deleteItem an item occurs zero times if it matches and as often as before otherwise |
| UseTable.DeleteKeeps | src/hooks/useTable.ts:59-61 | deleting by a predicate is filtering by its negation, whatever lambda expresses it |
| UseTable.DeleteNothingMatches | src/hooks/useTable.ts:59-61 | deleting with a predicate no item matches leaves the data unchanged |
| UseTable.UpdateIdempotent | src/hooks/useTable.ts:63-65 | applying the same idempotent merge twice gives the same data as once |
| UseTable.ClearedSearchRestoresPaging | src/hooks/useTable.ts:36-53 | with the query cleared, every page is the page of the unfiltered data |
| UseTable.ScenarioClampToLastPage | src/hooks/useTable.ts:48-57 | 25 items at 10 per page give 3 pages, and asking for page 5 lands on page 3 |
| DataTable.ColSpan | src/components/common/DataTable.tsx:67 | the spanning width is the number of columns, plus one when there is an actions column |
| DataTable.Cell | src/components/common/DataTable.tsx:82 | a cell shows the column's render of the item when there is one, and the item's field otherwise |
| DataTable.Headers | src/components/common/DataTable.tsx:58-61 | one header per column in column order, followed by the actions header when actions are given |
| DataTable.Body | src/components/common/DataTable.tsx:64-95 | while loading a single spinner row; with no data a single row with the empty message (default 'Kayıt bulunamadı.'); otherwise one item row per data item in order |
| DataTable.ItemRowCells | src/components/common/DataTable.tsx:78-93 | item row i has one cell per column, cell j being Cell(column j, item i), and an actions cell exactly when actions are given |
| DataTable.PageButtons | src/components/common/DataTable.tsx:108-116 | one button per page numbered 1..total, the one for the current page active |
| DataTable.Bar | src/components/common/DataTable.tsx:99-125 | the bar exists only for a pagination with more than one page; Previous leads to page-1 and is disabled on page 1, Next leads to page+1 and is disabled on the last page |
| DataTable.PageButtonsOneActive | src/components/common/DataTable.tsx:108-116 | button numbers strictly ascend, at most one button is active, and one is active exactly when the current page is in 1..total |
| DataTable.ClickNav | src/components/common/DataTable.tsx:101-123 | clicking an enabled Previous/Next button emits a page change to its target; a disabled one emits nothing |
| DataTable.ClickPageButton | src/components/common/DataTable.tsx:108-116 | clicking the k-th numbered button emits a page change to page k + 1, and clicking the active one emits the current page |
| DataTable.TypeSearch | src/components/common/DataTable.tsx:39-52 | typing emits the typed query unchanged exactly when the table is searchable |
| DataTable.Render | src/components/common/DataTable.tsx:36-128 | the view has a search box exactly when searchable, ColSpan headers, a single spinner row while loading and a bar only for more than one page |
| DataTable.ScenarioFirstOfTwoPages | src/components/common/DataTable.tsx:99-125 | on page 1 of 2 Previous emits nothing, Next emits page 2, and the buttons are 1 (active) and 2 |
| OrderList.MatchesDate | src/pages/Orders/OrderList.tsx:94-100 | the page's two-step date test, where the end bound is checked only after the start bound held, is exactly "at or after the start bound and at or before the end bound"; an order date that does not parse passes only when both inputs are empty |
| OrderList.FilteredOrdersExact | src/pages/Orders/OrderList.tsx:87-103 | an order is shown, as often as it occurs, exactly when its number or customer name contains the query ignoring case, its status matches the filter and its date is in range |
| OrderList.NoFiltersShowAll | src/pages/Orders/OrderList.tsx:87-103 | with no query, status 'all' and no dates every order is shown in its order |
| OrderList.StatusBadge | src/pages/Orders/OrderList.tsx:42-53 | each of the seven status codes gets its fixed label and style; a property name every object literal inherits (such as `constructor`) finds the inherited member and shows an empty label with the style text `undefined`; any other text is shown as itself with the secondary style |
| OrderList.StatusBadgeDistinct | src/pages/Orders/OrderList.tsx:42-53 | a known status's label differs from its code, and different statuses get different labels |
| OrderList.PaymentBadge | src/pages/Orders/OrderList.tsx:55-63 | each of the four payment codes gets its fixed label and style; a property name every object literal inherits (such as `constructor`) finds the inherited member and shows an empty label with the style text `undefined`; any other text is shown as itself with the secondary style |
| OrderList.PaymentBadgeDistinct | src/pages/Orders/OrderList.tsx:55-63 | a known payment status's label differs from its code, and different payment statuses get different labels |
| OrderList.HeaderCounters | src/pages/Orders/OrderList.tsx:113-125 | the header shows the number of all orders, of pending ones and of shipped ones, and the latter two never exceed the first |
| OrderList.OrderListPage.constructor | src/pages/Orders/OrderList.tsx:66-71 | the page starts with no orders, loading, an empty query, status 'all' and no dates |
| OrderList.OrderListPage.Load | src/pages/Orders/OrderList.tsx:73-85 | a successful load replaces the orders, a failed one keeps them; loading ends either way and the filters are kept |
| OrderList.OrderListPage.SetFilters | src/pages/Orders/OrderList.tsx:68-71 | the filter inputs are replaced and the orders and loading flag are kept |
| OrderList.OrderListPage.Visible | src/pages/Orders/OrderList.tsx:87-103 | the shown orders are orders of the list that pass the search, the status and the date tests, never more than the list holds; which ones and how often is `OrderList.FilteredOrdersExact` |
| ReviewList.FilteredReviewsExact | src/pages/Reviews/ReviewList.tsx:44-53 | a review is shown, as often as it occurs, exactly when product name, customer name or comment contains the query ignoring case and its status matches the filter; with no query and 'all' all reviews are shown |
| ReviewList.ActionsFor | src/pages/Reviews/ReviewList.tsx:178-211 | approve and reject are offered exactly for pending reviews, mark-as-spam for every review not already spam, delete always |
| ReviewList.StatusBadgeInjective | src/pages/Reviews/ReviewList.tsx:91-99 | different review statuses get different badge labels |
| ReviewList.WithStatusAt | src/pages/Reviews/ReviewList.tsx:58-60 | the list update keeps the length, sets the status of the review with the id and leaves every other review as it was |
| ReviewList.WithoutIdExact | src/pages/Reviews/ReviewList.tsx:70 | after the removal a review with the id occurs zero times and every other review as often as before |
| ReviewList.HeaderCounts | src/pages/Reviews/ReviewList.tsx:101-102 | the pending badge is the number of pending reviews and the spam badge the number of spam reviews in the whole list; together they never exceed the number of reviews |
| ReviewList.HeaderCountsCoverVisible | src/pages/Reviews/ReviewList.tsx:44-102 | the badges do not follow the search or the status filter: the shown list never holds more pending or spam reviews than the badges count, and with no query and 'all' it holds exactly those |
| ReviewList.ReviewPage.constructor | src/pages/Reviews/ReviewList.tsx:25-28 | the page starts with no reviews, loading, an empty query, status 'all' and no calls made |
| ReviewList.ReviewPage.Load | src/pages/Reviews/ReviewList.tsx:30-42 | a successful fetch replaces the reviews, a failed one keeps them; loading ends either way; filters kept, no call recorded |
| ReviewList.ReviewPage.Visible | src/pages/Reviews/ReviewList.tsx:44-53 | the shown reviews are reviews of the list that pass the search and the status filter, never more than the list holds; which ones and how often is `ReviewList.FilteredReviewsExact` |
| ReviewList.ReviewPage.UpdateStatus | src/pages/Reviews/ReviewList.tsx:55-64 | the status call is made; only when it succeeds is the review with the id given the new status in the list |
| ReviewList.ReviewPage.DeleteReview | src/pages/Reviews/ReviewList.tsx:66-74 | nothing is sent unless confirmed; a confirmed delete is sent and only when it succeeds is the review removed from the list |
| ReviewList.ReviewPage.SetSearchQuery | src/pages/Reviews/ReviewList.tsx:26 | the query is replaced and nothing else changes; the header badges stay as they were |
| ReviewList.ReviewPage.SetStatusFilter | src/pages/Reviews/ReviewList.tsx:27 | the status filter is replaced and nothing else changes; the header badges stay as they were |
| Dashboard.StatusBadgeAgreesWithOrderList | src/pages/Dashboard.tsx:29-40 | the dashboard's status map, keyed by raw text, gives the same badge as the order list's for every text, an inherited property name shows an empty label with the style text `undefined`, and any other text that is no status code is shown as itself with the secondary style |
| Dashboard.RecentOrdersPrefix | src/pages/Dashboard.tsx:58 | the recent orders are the first min(5, n) orders, in order |
| Dashboard.LowStockSelection | src/pages/Dashboard.tsx:59 | at most five products are listed, each with stock at most 10 and taken from the product list; when fewer than five are low on stock all of them are listed, in order |
| Dashboard.LowStockFirstFive | src/pages/Dashboard.tsx:59 | once five low-stock products have appeared, the products after them do not change the list |
| Dashboard.DashboardPage.constructor | src/pages/Dashboard.tsx:43-46 | the page starts with no stats, no orders or products, and loading |
| Dashboard.DashboardPage.Load | src/pages/Dashboard.tsx:48-70 | when all three reads succeed the stats, the first five orders and the first five low-stock products are stored; when any fails nothing is stored; loading ends, and the loading view stays up exactly when the first load failed |
| DashboardService.GetStats | src/services/dashboardService.ts:5-35 | the order count and the pending, shipped, delivered and cancelled counts come from the status list (missing data is no orders); the revenue sums default to 0; week and month revenue are 0 |
| DashboardService.StatusCountsBounded | src/services/dashboardService.ts:25-29 | the four status counts together never exceed the order count |
| DashboardService.OnlyOtherStatuses | src/services/dashboardService.ts:22-31 | example: orders whose status none of the counts names still count towards the total, and missing revenue reads as 0 |
| ProductList.StockStatus | src/pages/Products/ProductList.tsx:85-90 | stock 0 is 'Stok Yok', other stock up to 5 (negatives included) 'Kritik', 6..10 'Düşük', above 10 'Normal', with their styles |
| ProductList.StockStyleBands | src/pages/Products/ProductList.tsx:85-90 | the danger style is shown exactly for stock at most 5, the success style exactly above 10 |
| ProductList.ReplacedAt | src/pages/Products/ProductList.tsx:50 | the list update keeps the length, puts the returned product at the id's positions and leaves every other product as it was |
| ProductList.ProductListPage.constructor | src/pages/Products/ProductList.tsx:38-44 | the page owns a fresh table searched by name, empty and loading, with the delete modal closed, nothing selected and no calls made |
| ProductList.ProductListPage.ToggleProductStatus | src/pages/Products/ProductList.tsx:46-54 | an update carrying only the negated active flag is sent; only on success is the returned product put in place of the one with that id; the modal, the selection and the table's loading, error, page and query are kept |
| ProductList.ProductListPage.ToggleFeatured | src/pages/Products/ProductList.tsx:56-64 | an update carrying only the negated featured flag is sent; only on success is the returned product put in place of the one with that id; the modal, the selection and the table's loading, error, page and query are kept |
| ProductList.ProductListPage.HandleDeleteClick | src/pages/Products/ProductList.tsx:66-69 | the product is selected and the delete modal opens; nothing is sent and every other field is kept |
| ProductList.ProductListPage.CancelDelete | src/pages/Products/ProductList.tsx:213-226 | the overlay, × and Cancel close the delete modal without a call; the selection stays and every other field is kept |
| ProductList.ProductListPage.ConfirmDelete | src/pages/Products/ProductList.tsx:71-83 | with nothing selected nothing happens; otherwise the delete is sent, and only on success is the product removed and the modal closed and cleared; a failure keeps everything; the table's loading, error, page and query are kept on every path |
| CategoryList.EditForm | src/pages/Categories/CategoryList.tsx:56-67 | the edit form copies name, slug and active flag, and a missing description, meta title or meta description becomes '' |
| CategoryList.FormChanges | src/pages/Categories/CategoryList.tsx:73-81 | the saved fields are the whole form, with the order given only when adding |
| CategoryList.WithSlug | src/pages/Categories/CategoryList.tsx:122-130 | the slug becomes the slug of the name, which is well formed, and the other form fields are kept |
| CategoryList.WithActiveAt | src/pages/Categories/CategoryList.tsx:97 | the list update keeps the length, sets the active flag of the category with the id and leaves the others |
| CategoryList.ReplacedAt | src/pages/Categories/CategoryList.tsx:76 | the list update keeps the length, puts the returned category at the id's positions and leaves the others |
| CategoryList.WithoutIdExact | src/pages/Categories/CategoryList.tsx:112 | after the removal a category with the id occurs zero times and every other as often as before |
| CategoryList.CategoryPage.constructor | src/pages/Categories/CategoryList.tsx:17-41 | the page owns a fresh empty loading table, with both modals closed, nothing edited or selected, not saving, the blank form and no calls made |
| CategoryList.CategoryPage.OpenAddModal | src/pages/Categories/CategoryList.tsx:43-54 | nothing is being edited, the form is blank (active) and the modal is open; the list, the delete modal, the selection, saving and the calls are kept |
| CategoryList.CategoryPage.OpenEditModal | src/pages/Categories/CategoryList.tsx:56-67 | the category is being edited, the form is its edit form and the modal is open; the list, the delete modal, the selection, saving and the calls are kept |
| CategoryList.CategoryPage.GenerateSlug | src/pages/Categories/CategoryList.tsx:122-130 | the form's slug is replaced by the slug of its name and nothing else changes |
| CategoryList.CategoryPage.EditText | src/pages/Categories/CategoryList.tsx:231-279 | typing into the name, description, slug, meta title or meta description input sets that field of the form to the typed text and keeps the other fields |
| CategoryList.CategoryPage.ToggleFormActive | src/pages/Categories/CategoryList.tsx:291 | the active switch flips the form's flag and keeps the other fields |
| CategoryList.CategoryPage.CloseModal | src/pages/Categories/CategoryList.tsx:215-299 | the overlay, × and Cancel close the edit modal without saving; the form and every other field are kept |
| CategoryList.CategoryPage.HandleSave | src/pages/Categories/CategoryList.tsx:69-91 | editing sends the form for that id and on success puts the returned category in place; adding sends the form with order = visible rows + 1 and on success appends the created category; the modal closes only on success; saving ends on every path; the form, the edited id, the selection, the delete modal and the table's loading, error, page and query are kept |
| CategoryList.CategoryPage.ToggleStatus | src/pages/Categories/CategoryList.tsx:93-101 | an update carrying only the negated active flag is sent; only on success is the flag flipped locally for that id; both modals, the form, the edited id, the selection, saving and the table's loading, error, page and query are kept |
| CategoryList.CategoryPage.HandleDeleteClick | src/pages/Categories/CategoryList.tsx:103-106 | the category is selected and the delete modal opens; nothing is sent and every other field is kept |
| CategoryList.CategoryPage.CancelDelete | src/pages/Categories/CategoryList.tsx:316-333 | the overlay, × and Cancel close the delete modal without a call; the selection stays and every other field is kept |
| CategoryList.CategoryPage.ConfirmDelete | src/pages/Categories/CategoryList.tsx:108-120 | with nothing selected nothing happens; otherwise the delete is sent, and only on success is the category removed and the modal closed and cleared; a failure keeps everything; the edit modal, the form, the edited id, saving and the table's loading, error, page and query are kept on every path |
| ProductForm.DraftDefaults | src/pages/Products/ProductForm.tsx:24-51 | a new product starts at price 0, stock 0, 20% VAT in TRY, active, not featured, unisex, with no discounted price and three empty note lists |
| ProductForm.Toggled | src/pages/Products/ProductForm.tsx:93-98 | toggling sets the chosen flag to the negation of its value (undefined reads as false) and keeps every other field |
| ProductForm.ToggleTwice | src/pages/Products/ProductForm.tsx:93-98 | toggling a defined flag twice gives back the form |
| ProductForm.WithText | src/pages/Products/ProductForm.tsx:85-91 | a text, date, currency or category input stores the typed value in its own field and leaves every other field as it was |
| ProductForm.WithNumber | src/pages/Products/ProductForm.tsx:85-91 | a number input stores what parseFloat reads, or 0 when it reads nothing, so the field is always defined afterwards; every other field is kept |
| ProductForm.ParseNotes | src/pages/Products/ProductForm.tsx:405 | a note input yields one trimmed piece per comma-separated part: one more than the number of commas |
| ProductForm.SpacesHaveNoComma | src/pages/Products/ProductForm.tsx:400-405 | white space contains no comma (step of the show-then-parse round trip) |
| ProductForm.JoinCons | src/pages/Products/ProductForm.tsx:400 | joining with ", " splits into the first note, a comma and the joined rest (step of the round trip) |
| ProductForm.ParseShownSingle | src/pages/Products/ProductForm.tsx:400-405 | a single clean note after white space reads back as that note |
| ProductForm.ParseShownAfterSpaces | src/pages/Products/ProductForm.tsx:400-405 | clean notes joined with ", ", with white space before them, read back as the same notes |
| ProductForm.ShowThenParse | src/pages/Products/ProductForm.tsx:400-405 | a non-empty list of trimmed, comma-free notes shown in an input and read back is the same list |
| ProductForm.ShowThenParseEmpty | src/pages/Products/ProductForm.tsx:400-405 | the round trip's exception: an empty tier is shown as an empty input and reads back as one empty note |
| ProductForm.WithTier | src/pages/Products/ProductForm.tsx:401-407 | a note input sets its own tier to the parsed notes and keeps the other two tiers and every other field |
| ProductForm.WithSlugSpec | src/pages/Products/ProductForm.tsx:100-108 | the slug button sets the slug to the slug of the name ('' when there is none), which is well formed, and changes nothing else |
| ProductForm.ProductFormPage.constructor | src/pages/Products/ProductForm.tsx:16-51 | the page starts with the draft, no categories, loading exactly in edit mode (a route id), not submitting, no calls and no navigation |
| ProductForm.ProductFormPage.LoadCategories | src/pages/Products/ProductForm.tsx:55-62 | a successful read replaces the categories, a failed one keeps them; the form, loading, submitting, the calls and the navigation are kept |
| ProductForm.ProductFormPage.LoadProduct | src/pages/Products/ProductForm.tsx:65-79 | a found product replaces the form, a missing one keeps it, a failure navigates back to the list; loading ends on every path; the categories, submitting and the calls are kept |
| ProductForm.ProductFormPage.HandleToggle | src/pages/Products/ProductForm.tsx:93-98 | the form becomes its toggled form; every other field is kept |
| ProductForm.ProductFormPage.HandleTextChange | src/pages/Products/ProductForm.tsx:85-91 | the form becomes WithText of the old form |
| ProductForm.ProductFormPage.HandleNumberChange | src/pages/Products/ProductForm.tsx:85-91 | the form becomes WithNumber of the old form |
| ProductForm.ProductFormPage.EditNotes | src/pages/Products/ProductForm.tsx:401-407 | the form's tier becomes the parsed text; every other field is kept |
| ProductForm.ProductFormPage.GenerateSlug | src/pages/Products/ProductForm.tsx:100-108 | the form becomes WithSlug of the old form |
| ProductForm.ProductFormPage.HandleSubmit | src/pages/Products/ProductForm.tsx:110-127 | in edit mode the whole form is sent as an update for the route id, otherwise as a create; success navigates to the list; submitting ends on every path; the form, the categories and loading are kept |
| Slug.KeepAllowed | src/pages/Categories/CategoryList.tsx:125 | the first pass keeps only a-z, 0-9, white space and '-' |
| Slug.DropRun | src/pages/Categories/CategoryList.tsx:126-127 | dropping a run leaves a suffix that does not start with the run's character class |
| Slug.CollapseRunsChars | src/pages/Categories/CategoryList.tsx:126-127 | replacing runs by one character keeps every character inside a class that holds the input's characters and the replacement |
| Slug.CollapseRunsHead | src/pages/Categories/CategoryList.tsx:126-127 | a collapsed non-empty string starts with the replacement when the input starts with a run, else with the input's first character |
| Slug.ConsNoDouble | src/pages/Categories/CategoryList.tsx:127 | putting a character before a string with no '--' gives none unless both are dashes |
| Slug.CollapseDashesNoDouble | src/pages/Categories/CategoryList.tsx:127 | after collapsing runs of '-' no two dashes are adjacent |
| Slug.CollapseRunsNone | src/pages/Categories/CategoryList.tsx:126-127 | collapsing a class that does not occur changes nothing |
| Slug.CollapseDashesFixpoint | src/pages/Categories/CategoryList.tsx:127 | collapsing dashes in a string without '--' changes nothing |
| Slug.SlugBeforeTrim | src/pages/Categories/CategoryList.tsx:122-128 | the passes before trim already give a well-formed string, so the final trim removes nothing |
| Slug.SlugWellFormed | src/pages/Categories/CategoryList.tsx:122-128 | every generated slug uses only a-z, 0-9 and '-' and never has two dashes in a row |
| Slug.WellFormedNoSpaces | src/pages/Categories/CategoryList.tsx:122-128 | a well-formed slug holds no white space |
| Slug.SlugOfWellFormed | src/pages/Categories/CategoryList.tsx:122-128 | the slug of a well-formed slug is itself |
| Slug.SlugIdempotent | src/pages/Categories/CategoryList.tsx:122-128 | generating a slug twice gives the same slug as once |
| Slug.KeepAllowedFixpoint | src/pages/Categories/CategoryList.tsx:125 | a string of allowed characters passes the character filter unchanged |
| Slug.LeadingSpaceToDash | src/pages/Categories/CategoryList.tsx:124-126 | one leading space before a slug becomes a leading dash |
| Slug.LeadingDashKept | src/pages/Categories/CategoryList.tsx:127-128 | a single leading dash survives collapsing and trim |
| Slug.LeadingSpaceKept | src/pages/Categories/CategoryList.tsx:122-128 | a name with a leading space gives the slug of the rest with a '-' in front |
| Slug.RoseWellFormed | src/pages/Categories/CategoryList.tsx:122-128 | example: "rose" is a well-formed slug |
| Slug.LeadingSpaceExample | src/pages/Categories/CategoryList.tsx:122-128 | example: " rose" gives "-rose" |
| BannerList.EditForm | src/pages/Banners/BannerList.tsx:42-51 | the edit form copies title and active flag, and a missing subtitle or link becomes '' |
| BannerList.WithMergedAt | src/pages/Banners/BannerList.tsx:54-59 | saving an edit keeps the length, overwrites title, subtitle, link and active flag of the banner with the id while keeping its id, image, order and creation time, and leaves every other banner |
| BannerList.MergeEditForm | src/pages/Banners/BannerList.tsx:42-59 | saving an unchanged edit form turns a missing subtitle or link into '' and otherwise gives the banner back |
| BannerList.WithToggledAt | src/pages/Banners/BannerList.tsx:73-77 | the toggle keeps the length, flips the active flag of the banner with the id and leaves the others |
| BannerList.ToggleTwice | src/pages/Banners/BannerList.tsx:73-77 | toggling the same banner twice gives back the list |
| BannerList.WithoutIdExact | src/pages/Banners/BannerList.tsx:79-81 | after deletion a banner with the id occurs zero times and every other as often as before |
| BannerList.WithoutAbsentId | src/pages/Banners/BannerList.tsx:79-81 | deleting an id no banner has leaves the list unchanged |
| BannerList.WithShowcaseToggledAt | src/pages/Banners/BannerList.tsx:83-87 | the showcase toggle keeps the length, flips the active flag of the showcase with the id and leaves the others |
| BannerList.ShownProductsExact | src/pages/Banners/BannerList.tsx:207-214 | a showcase's product tags are the names of the ids that resolve to a product, in the order of the ids; unknown ids are skipped |
| BannerList.ShownProductsBounds | src/pages/Banners/BannerList.tsx:207-214 | there are at most as many tags as ids, one per id when all resolve and none when none does |
| BannerList.BannerPage.constructor | src/pages/Banners/BannerList.tsx:18-29 | the page starts with the given banners and showcases, on the banners tab, modal closed, nothing edited and the blank form |
| BannerList.BannerPage.OpenAddModal | src/pages/Banners/BannerList.tsx:31-40 | nothing is being edited, the form is blank (active) and the modal is open |
| BannerList.BannerPage.CloseModal | src/pages/Banners/BannerList.tsx:224-287 | the overlay, × and Cancel close the modal without saving; the lists and the form are kept |
| BannerList.BannerPage.EditText | src/pages/Banners/BannerList.tsx:239-269 | typing into the title, subtitle or link input sets that field of the form to the typed text and keeps the other fields |
| BannerList.BannerPage.ToggleFormActive | src/pages/Banners/BannerList.tsx:280 | the active switch flips the form's flag and keeps the other fields |
| BannerList.BannerPage.OpenEditModal | src/pages/Banners/BannerList.tsx:42-51 | the banner is being edited, the form is its edit form and the modal is open |
| BannerList.BannerPage.HandleSave | src/pages/Banners/BannerList.tsx:53-71 | an edit merges the form into the banner with that id; an add appends a banner built from the form with the placeholder image, order = count + 1, the given id and time; the modal closes |
| BannerList.BannerPage.ToggleBannerStatus | src/pages/Banners/BannerList.tsx:73-77 | the banners become the toggled list and nothing else changes |
| BannerList.BannerPage.DeleteBanner | src/pages/Banners/BannerList.tsx:79-81 | the banners lose every banner with the id and nothing else changes |
| BannerList.BannerPage.ToggleShowcaseStatus | src/pages/Banners/BannerList.tsx:83-87 | the showcases become the toggled list and nothing else changes |
| BannerList.BannerPage.SetActiveTab | src/pages/Banners/BannerList.tsx:20 | the tab is replaced and nothing else changes |
| BannerList.AddAppendsOne | src/pages/Banners/BannerList.tsx:60-68 | adding keeps the existing banners as a prefix and appends exactly one with the next order, the placeholder image and the form's title and flag |
| LegalTextList.TypeLabelsDistinct | src/pages/LegalTexts/LegalTextList.tsx:13-21 | every kind of legal text has a non-empty label and different kinds have different labels |
| LegalTextList.WithToggledAt | src/pages/LegalTexts/LegalTextList.tsx:30-34 | the toggle keeps the length, flips the active flag of the text with the id and leaves the others |
| LegalTextList.ToggleTwice | src/pages/LegalTexts/LegalTextList.tsx:30-34 | toggling the same text twice gives back the list |
| LegalTextList.WithEditAt | src/pages/LegalTexts/LegalTextList.tsx:55-59 | saving keeps the length, sets title, content and update time of the text with the id, keeps its other fields and leaves the other texts |
| LegalTextList.LegalTextPage.constructor | src/pages/LegalTexts/LegalTextList.tsx:24-28 | the page starts with the given texts, no editor open, empty buffers, not saving |
| LegalTextList.LegalTextPage.ToggleStatus | src/pages/LegalTexts/LegalTextList.tsx:30-34 | the texts become the toggled list and nothing else changes |
| LegalTextList.LegalTextPage.OpenEditor | src/pages/LegalTexts/LegalTextList.tsx:36-40 | the text is open and the buffers hold its title and content |
| LegalTextList.LegalTextPage.CloseEditor | src/pages/LegalTexts/LegalTextList.tsx:42-46 | no text is open and both buffers are empty |
| LegalTextList.LegalTextPage.EditTitle | src/pages/LegalTexts/LegalTextList.tsx:27 | the title buffer is replaced and nothing else changes |
| LegalTextList.LegalTextPage.EditContent | src/pages/LegalTexts/LegalTextList.tsx:26 | the content buffer is replaced and nothing else changes |
| LegalTextList.LegalTextPage.StartSave | src/pages/LegalTexts/LegalTextList.tsx:48-53 | with no text open nothing changes; otherwise saving starts and the save in flight holds the open id and the buffers as they are when Save is pressed |
| LegalTextList.LegalTextPage.FinishSave | src/pages/LegalTexts/LegalTextList.tsx:55-62 | after the wait the held buffers are written into the texts with the held id, stamped with the given time; saving ends and the editor closes, so edits typed during the wait are dropped |
| LegalTextList.LegalTextPage.SaveDisabled | src/pages/LegalTexts/LegalTextList.tsx:89 | the Save button is disabled exactly while a save is in flight |
| LegalTextList.LegalTextPage.SaveLabel | src/pages/LegalTexts/LegalTextList.tsx:91 | the Save button reads 'Kaydediliyor...' while a save is in flight and 'Kaydet' otherwise |
| LegalTextList.LegalTextPage.SaveContent | src/pages/LegalTexts/LegalTextList.tsx:48-63 | the two steps run back to back: with no text open nothing changes; otherwise the buffers are written into the texts with the open id, stamped with the given time, saving ends and the editor closes |
| AdminUsers.RoleLabelInjective | src/pages/AdminUsers/AdminUsers.tsx:28-32 | different roles get different labels |
| AdminUsers.Opposite | src/pages/AdminUsers/AdminUsers.tsx:137 | the toggled account status always differs from the current one |
| AdminUsers.OppositeTwice | src/pages/AdminUsers/AdminUsers.tsx:137 | toggling the status twice gives it back |
| AdminUsers.EditForm | src/pages/AdminUsers/AdminUsers.tsx:98-107 | the edit form copies name, email and role, and the password box starts empty |
| AdminUsers.SaveRequest | src/pages/AdminUsers/AdminUsers.tsx:113-125 | an edit sends name, role and email for the user's id; an add sends a create with name, email and role; the password is never sent |
| AdminUsers.WithStatusAt | src/pages/AdminUsers/AdminUsers.tsx:139-141 | the list update keeps the length, sets the status of the user with the id and leaves the others |
| AdminUsers.WithoutIdExact | src/pages/AdminUsers/AdminUsers.tsx:151 | after deletion a user with the id occurs zero times and every other as often as before |
| AdminUsers.AdminUsersPage.constructor | src/pages/AdminUsers/AdminUsers.tsx:35-50 | the page starts with no users or logs, loading users but not logs, modal closed, nothing edited, on the users tab, not saving, no error, the blank form with role admin and no calls |
| AdminUsers.AdminUsersPage.LoadUsers | src/pages/AdminUsers/AdminUsers.tsx:52-63 | success replaces the users; failure keeps them and sets 'Kullanıcılar yüklenemedi.'; loading ends |
| AdminUsers.AdminUsersPage.LoadLogs | src/pages/AdminUsers/AdminUsers.tsx:65-75 | success replaces the logs, failure keeps them without an error; log loading ends |
| AdminUsers.AdminUsersPage.SetActiveTab | src/pages/AdminUsers/AdminUsers.tsx:81-85 | the tab is replaced; the logs are loaded exactly when the switch arrives on the log tab from the other one |
| AdminUsers.AdminUsersPage.OpenAddModal | src/pages/AdminUsers/AdminUsers.tsx:87-96 | nothing is being edited, the form is blank with role admin and the modal is open |
| AdminUsers.AdminUsersPage.CloseModal | src/pages/AdminUsers/AdminUsers.tsx:305-356 | the overlay, × and Cancel close the modal without saving (Cancel is disabled while saving, the other two are not); the form, the list and the error are kept |
| AdminUsers.AdminUsersPage.EditText | src/pages/AdminUsers/AdminUsers.tsx:326-337 | typing into the username or email input sets that field of the form to the typed text and keeps the other fields |
| AdminUsers.AdminUsersPage.SelectRole | src/pages/AdminUsers/AdminUsers.tsx:347 | the role select sets the form's role and keeps the other fields |
| AdminUsers.AdminUsersPage.OpenEditModal | src/pages/AdminUsers/AdminUsers.tsx:98-107 | the user is being edited, the form is its edit form and the modal is open |
| AdminUsers.AdminUsersPage.HandleSave | src/pages/AdminUsers/AdminUsers.tsx:109-133 | the update or create is sent; on success the users are reloaded and the modal closes; on failure the error is the fault's message or 'Kaydedilemedi.' and the modal stays open; saving ends |
| AdminUsers.AdminUsersPage.ToggleStatus | src/pages/AdminUsers/AdminUsers.tsx:135-145 | the opposite status is sent; only on success is it set for that user in the list |
| AdminUsers.AdminUsersPage.DeleteUser | src/pages/AdminUsers/AdminUsers.tsx:147-155 | nothing is sent unless confirmed; a confirmed delete is sent and only on success does the user leave the list |
| AdminService.MapProfile | src/services/adminService.ts:19-27 | a profile maps to a user with its id copied, name defaulting to 'İsimsiz', email and last login to '', role to editor, status to active and creation time to the given now |
| AdminService.GetAll | src/services/adminService.ts:5-28 | never fails: an error or missing data gives no users, otherwise one mapped user per row, in order |
| AdminService.MapLog | src/services/adminService.ts:95-102 | a log row maps with its ip defaulting to 'Bilinmiyor' and id, user id, user name, status and time copied |
| AdminService.GetLoginLogs | src/services/adminService.ts:81-103 | never fails: an error or missing data gives no logs, otherwise one mapped log per row, in order |
| AdminService.UpdateStatus | src/services/adminService.ts:30-40 | the update writes only the status code for the id, and the reply, error or row, is passed through |
| AdminService.Update | src/services/adminService.ts:51-65 | the update writes name, email and role for the id, an undefined one being left out, never the status or id; the reply is passed through |
| AdminService.Create | src/services/adminService.ts:67-79 | the insert holds name, email, role and status 'active' and no id; a remote error is rethrown |
| AdminService.Delete | src/services/adminService.ts:42-49 | the delete targets the id and a remote error is rethrown |
| AdminService.RecordLoginLog | src/services/adminService.ts:105-117 | the insert holds user id (undefined left out), name, ip, status code and the given time; the call never fails, whatever the store replies |
| OrderDetail.OptionIndex | src/pages/Orders/OrderDetail.tsx:35-43 | every order status has a button in the status list, at the returned position |
| OrderDetail.StatusOptionsOnce | src/pages/Orders/OrderDetail.tsx:35-43 | the status list has seven buttons and each status appears at exactly one position |
| OrderDetail.OrderDetailPage.constructor | src/pages/Orders/OrderDetail.tsx:54-64 | the page starts with no order, loading, status pending, empty shipping fields, modal closed, not saving and no calls |
| OrderDetail.OrderDetailPage.CurrentView | src/pages/Orders/OrderDetail.tsx:87-101 | the loading view exactly while loading, the not-found view exactly when loading is over without an order, otherwise the order's detail |
| OrderDetail.OrderDetailPage.LoadOrder | src/pages/Orders/OrderDetail.tsx:66-85 | without a route id nothing happens and loading never ends; otherwise loading ends, a found order fills the status and the shipping fields (missing ones as ''), and a missing order or a failure keeps the rest |
| OrderDetail.OrderDetailPage.HandleStatusChange | src/pages/Orders/OrderDetail.tsx:103-118 | 'shipped' without a tracking number only opens the shipping modal; any other choice sends the status write and shows the new status only on success; saving ends |
| OrderDetail.OrderDetailPage.SetShippingFields | src/pages/Orders/OrderDetail.tsx:60-62 | the modal's fields are replaced; the save button is enabled exactly when nothing is saving and both company and number are filled; while saving neither it nor the status buttons are enabled |
| OrderDetail.OrderDetailPage.CloseShippingModal | src/pages/Orders/OrderDetail.tsx:319-361 | the overlay, × and Cancel close the shipping form without a call (Cancel is disabled while saving, the other two are not); the status and the typed fields are kept |
| OrderDetail.OrderDetailPage.SaveShippingInfo | src/pages/Orders/OrderDetail.tsx:120-136 | the shipping write is sent first, the 'shipped' status write only after it succeeded, and the page shows 'shipped' and closes the modal only when both succeeded; saving ends on every path |
| OrderService.MapOrder | src/services/orderService.ts:4-27 | an order row maps with customer id, email, phone and payment method defaulting to '', items and history to [], subtotal, VAT and shipping cost to 0, and the total copied; id, order number, customer name, both statuses, order and payment dates and the three shipping fields are copied; a missing address stands for the empty object |
| OrderService.MapItem | src/services/orderService.ts:53-60 | an item row maps with id, product, quantity and prices copied and no image or variant |
| OrderService.GetAll | src/services/orderService.ts:30-38 | an error is rethrown; otherwise one mapped order per row in order, missing data being no orders |
| OrderService.GetById | src/services/orderService.ts:40-62 | an error is rethrown; no row gives no order; a row gives its mapped order whose items are its mapped order items |
| OrderService.UpdateStatus | src/services/orderService.ts:64-71 | the update writes only the status code for the id, and a remote error is rethrown |
| OrderService.UpdateShipping | src/services/orderService.ts:73-84 | the update writes company, tracking number and tracking url (an undefined url left out) for the id, and a remote error is rethrown |
| ProductService.MapProduct | src/services/productService.ts:4-37 | each of the 29 fields is the column of the same name in camelCase, copied unchanged, except that the category name is the joined name or '' when there is no join or it is empty, and missing images read as none |
| ProductService.CreateRow | src/services/productService.ts:61-90 | the insert carries a key for each of the 23 plain fields exactly when that field is defined, and always both dates, as null exactly when the date is undefined or empty |
| ProductService.CreateRowWrites | src/services/productService.ts:61-90 | every defined field is written as its JSON value (enumerations as their codes, notes and images as JSON), and a non-empty date as its text |
| ProductService.FamilyCodeInjective | src/services/productService.ts:83 | two fragrance families with the same stored code are the same family, so the stored column identifies the family |
| ProductService.ConcentrationCodeInjective | src/services/productService.ts:84 | two concentrations with the same stored code are the same concentration |
| ProductService.GenderCodeInjective | src/services/productService.ts:85 | two genders with the same stored code are the same gender |
| ProductService.ReadBackNullable | src/services/productService.ts:64-95 | a nullable text column holding what was written (null for undefined) reads back as the written value |
| ProductService.CreateReadBack | src/services/productService.ts:61-95 | creating a product and mapping the stored row back gives the same product in every field, except the id, timestamps and category name, which come from the store, and an empty date, which comes back undefined |
| ProductService.ReadBackText | src/services/productService.ts:64-87 | every text column of a created row reads back as the field it was written from |
| ProductService.ReadBackNumbers | src/services/productService.ts:68-86 | price, discounted price, VAT rate, stock and volume of a created row read back as written |
| ProductService.ReadBackContent | src/services/productService.ts:76-82 | images, scent notes and both flags of a created row read back as written |
| ProductService.ReadBackCodes | src/services/productService.ts:83-89 | family, concentration and gender read back as written, and each date as written unless it was empty, which reads as undefined |
| ProductService.WriteBasics | src/services/productService.ts:101-105 | each of name, description, short description, price and discounted price is written exactly when defined, and every other key of the object is left as it was |
| ProductService.WriteStockAndFlags | src/services/productService.ts:106-110 | each of stock, active, featured, category and images is written exactly when defined, and every other key is left as it was |
| ProductService.WritePerfume | src/services/productService.ts:112-115 | each of scent notes, family, concentration and gender is written exactly when defined, and every other key is left as it was |
| ProductService.WriteBatch | src/services/productService.ts:116-119 | volume and batch code are written exactly when defined, and a defined date is written as null when empty; every other key is left as it was |
| ProductService.UpdateChanges | src/services/productService.ts:99-119 | the update object has a key exactly for each defined field among the eighteen it knows, an empty date as null; currency, VAT rate, SKU, barcode, SEO fields and slug are never written |
| ProductService.GetAll | src/services/productService.ts:40-48 | an error is rethrown; otherwise one mapped product per returned row, in order, missing data being no products |
| ProductService.GetById | src/services/productService.ts:50-59 | an error is rethrown; no row gives undefined and a row gives its mapped product |
| ProductService.Create | src/services/productService.ts:61-96 | the insert sent is the create row of the given fields, an error is rethrown, and success gives the mapped returned row |
| ProductService.Update | src/services/productService.ts:98-130 | the update for the id carries exactly the defined fields among the eighteen (never currency, VAT, SKU, barcode, SEO or slug), an error is rethrown, and success gives the mapped returned row |
| ProductService.Delete | src/services/productService.ts:132-139 | the delete for the id is sent and fails exactly when the store reports an error |
| CategoryService.MapCategory | src/services/categoryService.ts:4-12 | id, name, description, order, status and slug are copied; the product count is always 0 and the SEO fields, image and parent are never read |
| CategoryService.CreateRow | src/services/categoryService.ts:56-62 | the insert carries exactly the defined name, description, order, status and slug, and never the SEO fields |
| CategoryService.CreateReadBack | src/services/categoryService.ts:53-67 | a created category reads back with the name, description, order, status and slug it was given, without SEO fields and with a product count of 0 |
| CategoryService.UpdateChanges | src/services/categoryService.ts:26-31 | the update object has a key exactly for each defined field among name, description, order, status and slug, and never the SEO fields |
| CategoryService.GetAll | src/services/categoryService.ts:15-23 | an error is rethrown; otherwise one mapped category per row in order, each with a product count of 0 |
| CategoryService.Update | src/services/categoryService.ts:25-42 | the update for the id carries exactly the defined fields among the five, never the SEO fields; an error is rethrown and success gives the mapped row |
| CategoryService.Create | src/services/categoryService.ts:53-68 | the insert sent is the create row, an error is rethrown and success gives the mapped row |
| CategoryService.Delete | src/services/categoryService.ts:44-51 | the delete for the id is sent and fails exactly when the store reports an error |
| CustomerService.OrZero | src/services/customerService.ts:12-13 | a missing number reads as 0 and a present one as itself |
| CustomerService.MapCustomer | src/services/customerService.ts:4-16 | the columns are copied to their fields; phone defaults to '', addresses to none, order count and total spent to 0, and there are no notes |
| CustomerService.UpdateChanges | src/services/customerService.ts:30-35 | the update object has a key exactly for each defined field among first name, last name, email, phone and status (as its code) |
| CustomerService.GetAll | src/services/customerService.ts:19-27 | an error is rethrown as it is; otherwise one mapped customer per row, in order |
| CustomerService.Update | src/services/customerService.ts:29-46 | the update for the id carries exactly the defined fields among the five; an error is rethrown and success gives the mapped row |
| CustomerService.Delete | src/services/customerService.ts:48-55 | the delete for the id is sent and fails exactly when the store reports an error |
| ReviewService.ProductName | src/services/reviewService.ts:7 | a non-empty joined name is shown as it is; the deleted-product text is shown exactly when the join is missing, has no name, or its name is empty (or is itself that text) |
| ReviewService.CustomerName | src/services/reviewService.ts:9 | with a non-empty joined first name the name is "first last" (a null last name printed as "null"); otherwise the unknown-customer text |
| ReviewService.MapReview | src/services/reviewService.ts:4-14 | id, product and customer ids, rating, comment, status and creation time are copied, and the two display names follow the join fallbacks |
| ReviewService.GetAll | src/services/reviewService.ts:17-34 | the read never fails: an error or missing data gives no reviews, otherwise one mapped review per row in order |
| ReviewService.UpdateStatus | src/services/reviewService.ts:36-43 | the update for the id writes only the status code, and fails exactly when the store reports an error |
| ReviewService.Delete | src/services/reviewService.ts:45-52 | the delete for the id is sent and fails exactly when the store reports an error |
| ReviewService.OrphanedReview | src/services/reviewService.ts:7-9 | example: a review whose product and customer are both gone shows both fallback names |
| LegalTextService.MapLegalText | src/services/legalTextService.ts:4-11 | id, type, title, content, status and update time are copied |
| LegalTextService.UpdateChanges | src/services/legalTextService.ts:30-35 | the update object has a key for each defined field among title, content and status, and always the time of the write |
| LegalTextService.UpdateReadBack | src/services/legalTextService.ts:27-41 | an updated text reads back with every field it was given and stamped with the time of the write |
| LegalTextService.GetAll | src/services/legalTextService.ts:14-25 | the read never fails: an error or missing data gives no texts, otherwise one mapped text per row in order |
| LegalTextService.Update | src/services/legalTextService.ts:27-42 | the update for the id carries the change object, an error is rethrown and success gives the mapped row |
| BannerService.MapBanner | src/services/bannerService.ts:4-13 | id, title, subtitle, image, link, order, status and creation time are copied to their fields |
| BannerService.MapShowcase | src/services/bannerService.ts:15-23 | id, type, title, content, status and order are copied, and missing product ids read as none |
| BannerService.BannerReadBack | src/services/bannerService.ts:40-75 | a banner written with some fields reads back with each of those fields as given |
| BannerService.ShowcaseReadBack | src/services/bannerService.ts:99-114 | a showcase written with some fields reads back with each of those fields as given |
| BannerService.GetBanners | src/services/bannerService.ts:27-38 | the read never fails: an error or missing data gives no banners, otherwise one mapped banner per row in order |
| BannerService.CreateBanner | src/services/bannerService.ts:40-56 | the insert carries the defined fields, an error is rethrown and success gives the mapped row |
| BannerService.UpdateBanner | src/services/bannerService.ts:58-75 | the update for the id carries the defined fields, an error is rethrown and success gives the mapped row |
| BannerService.DeleteBanner | src/services/bannerService.ts:77-83 | the delete for the id is sent and fails exactly when the store reports an error |
| BannerService.GetShowcases | src/services/bannerService.ts:86-97 | the read never fails: an error or missing data gives no showcases, otherwise one mapped showcase per row in order |
| BannerService.UpdateShowcase | src/services/bannerService.ts:99-115 | the update for the id carries the defined fields but never the type, an error is rethrown and success gives the mapped row |
| Header.MatchesAgreesWithSidebar | src/components/layout/Header.tsx:32-35 | the header's menu match and the sidebar's highlight agree on every item and path |
| Header.ActiveIndex | src/components/layout/Header.tsx:32-35 | the position found is that of the first matching item, with no match before it, or the menu length when nothing matches |
| Header.ActiveMenuItem | src/components/layout/Header.tsx:32-35 | there is no active item exactly when no item matches; otherwise the active item is a menu item that matches |
| Header.PageTitle | src/components/layout/Header.tsx:37 | the title is the default title or the label of a matching item, and the default when nothing matches |
| Header.PageTitleFirstMatch | src/components/layout/Header.tsx:32-37 | the title is the label of the first matching item when that label is non-empty, whatever follows it |
| Header.ShippedTitles | src/config/menu.ts:23-53 | with the shipped menu the root shows 'Dashboard', a product page 'Ürünler', and '/settings' the default title |
| Header.RootTitle | src/config/menu.ts:24 | with the shipped menu the root shows 'Dashboard' |
| Header.ProductsTitle | src/config/menu.ts:24-25 | with the shipped menu a page under '/products' shows 'Ürünler', the dashboard item not matching it |
| Header.SettingsMatchesNothing | src/config/menu.ts:23-53 | no shipped menu item matches '/settings' |
| Header.UnreadAlertsSplit | src/components/layout/Header.tsx:54 | the unread count and the number of other alerts add up to all alerts, and the count is 0 exactly when every alert is informational |
| Header.AlertIcon | src/components/layout/Header.tsx:56-62 | red exactly for 'error', yellow exactly for 'warning', blue for every other type |
| Header.ListedAlerts | src/components/layout/Header.tsx:111 | the dropdown lists the first five alerts, or all of them when there are fewer |
| Header.HeaderBar.constructor | src/components/layout/Header.tsx:26-28 | both dropdowns start closed and the search box empty |
| Header.HeaderBar.Search | src/components/layout/Header.tsx:80 | typing sets the query |
| Header.HeaderBar.ClearSearch | src/components/layout/Header.tsx:83-87 | the clear button empties the query, after which it is no longer shown |
| Header.HeaderBar.ToggleNotifications | src/components/layout/Header.tsx:96 | the bell flips the notification dropdown |
| Header.HeaderBar.ToggleProfile | src/components/layout/Header.tsx:134 | the profile button flips the profile menu |
| Header.HeaderBar.PressOutside | src/components/layout/Header.tsx:40-52 | a press outside a dropdown closes it and a press inside leaves it as it was, independently for the two |
| Sidebar.FilteredMenuExact | src/components/layout/Sidebar.tsx:21-36 | the filtered menu holds each item exactly as often as the menu does when the role and feature checks pass, and not at all otherwise; without a user the role check passes; a flagged item is hidden exactly when its flag is off in the settings, or is missing from them and is not an inherited property name such as `constructor` (whose inherited member is truthy) |
| Sidebar.FilteredMenuOrder | src/components/layout/Sidebar.tsx:21-36 | filtering keeps menu order: the filter of a split menu is the split of the filtered menu |
| Sidebar.InheritedFlagShown | src/components/layout/Sidebar.tsx:28-31 | example: with the shipped settings an unrestricted item whose flag is 'constructor' is shown, because the lookup finds the inherited member |
| Sidebar.ShippedMenuByRole | src/config/menu.ts:23-53 | with the shipped menu and features, a signed-in user sees every item except admin users, which only a super admin sees |
| Sidebar.RootActiveOnlyOnRoot | src/components/layout/Sidebar.tsx:53-54 | the root item is highlighted exactly on the root |
| Sidebar.ActiveOnPrefix | src/components/layout/Sidebar.tsx:53-54 | any other item is highlighted on every path it is a prefix of |
| Sidebar.PrefixNotSegmentBounded | src/components/layout/Sidebar.tsx:53-54 | the prefix test does not stop at a segment: '/orders' is highlighted on '/orders-archive' |
| AuthContext.UsernameOf | src/context/AuthContext.tsx:27 | the user name is never empty and has no '@'; it is 'Admin' without an email, and otherwise a prefix of the email unless it is the fallback |
| AuthContext.UsernameIsLocalPart | src/context/AuthContext.tsx:27 | an address with a non-empty local part gives that local part |
| AuthContext.UsernameOfEmptyLocalPart | src/context/AuthContext.tsx:27 | an address starting with '@', and the empty address, give 'Admin' |
| AuthContext.UserOf | src/context/AuthContext.tsx:24-32 | the session user maps to a user with its id and creation time, email or '', the derived user name, the metadata role or super admin, active status and the time of mapping as last login |
| AuthContext.UseAuth | src/context/AuthContext.tsx:104-110 | outside a provider the hook fails with its message; inside it gives the context |
| AuthContext.FailedAttempt | src/context/AuthContext.tsx:69-74 | a failed sign-in is logged as failed with an empty user id and the address exactly as typed |
| AuthContext.SuccessAttempt | src/context/AuthContext.tsx:80-85 | a successful sign-in is logged as success with the user's id and its derived user name |
| AuthContext.AuthProvider.constructor | src/context/AuthContext.tsx:16-17 | the provider starts loading with no user and no calls made |
| AuthContext.AuthProvider.CheckSession | src/context/AuthContext.tsx:21-35 | a session sets the user to its mapping and no session leaves the user as it was; loading ends either way and children render |
| AuthContext.AuthProvider.AuthChange | src/context/AuthContext.tsx:40-55 | a session sets the user to its mapping and no session clears it; loading ends either way |
| AuthContext.AuthProvider.Login | src/context/AuthContext.tsx:60-90 | the sign-in is sent; on an error a failed attempt is logged and the error rethrown, on success with a user a success entry is logged, and nothing else is sent |
| AuthContext.AuthProvider.Logout | src/context/AuthContext.tsx:92-95 | the sign-out is sent and the user cleared |
| Login.ViewFor | src/pages/Login.tsx:16-18 | the form is shown exactly when nobody is signed in; a signed-in user is redirected to '/' |
| Login.LoginPage.constructor | src/pages/Login.tsx:10-14 | both fields empty, the password hidden, no error, not loading and no login attempted |
| Login.LoginPage.SetEmail | src/pages/Login.tsx:72 | typing sets the email |
| Login.LoginPage.SetPassword | src/pages/Login.tsx:88 | typing sets the password |
| Login.LoginPage.TogglePassword | src/pages/Login.tsx:95 | the eye button flips whether the password is shown |
| Login.LoginPage.HandleSubmit | src/pages/Login.tsx:20-37 | with an empty field the required-fields error is set and login is not called; otherwise login is called with both fields and a failure shows its message or the fallback, and loading is off after the call; an empty field keeps loading as it was; an error is always shown after a failure |
| Types.ParseOrderStatus | src/types/index.ts:94-101 | a code parses to the order status with that code, and to nothing exactly when no status has it |
| Types.ParsePaymentStatus | src/types/index.ts:103 | a code parses to the payment status with that code, and to nothing exactly when no status has it |

## Left out

- Remote calls: every `supabase` table, RPC and auth call is an outcome parameter. Server-side ordering (`order(...)`), joins, `limit(50)` and storage are not modelled. A joined name is a parameter of the row.
- Column defaults: the read-back lemmas (`ProductService.CreateReadBack`, `CategoryService.CreateReadBack`, `BannerService.BannerReadBack`, `BannerService.ShowcaseReadBack`, `LegalTextService.UpdateReadBack`) assume the store keeps what was written and stores null for a column left out. This is stated as the `Stores` and `Holds` predicates, not proved.
- Unchecked casts: enumerated columns and form values (statuses, roles, fragrance family, concentration, gender, the metadata role of a session) are cast in TypeScript without a check. The model types them as their datatypes, so an out-of-range string read from the store is not represented.
- React machinery: rendering, JSX, effects, memoisation, CSS classes and icons are not modelled. Routing (src/App.tsx), the layout and its window-resize listener (src/components/layout/Layout.tsx), and the sidebar collapse toggle are also left out. Navigation is a recorded target path.
- Concurrency: overlapping loads, which have no request token, and `Promise.all` are treated as completions in sequence.
- Numbers: prices, stock and revenue are integers. `parseFloat`, floating-point arithmetic and `Intl.NumberFormat` are not modelled; a parsed number is a parameter (`ProductForm.WithNumber`).
- Dates and time: `new Date().toISOString()`, `Date.now()` ids and `toLocaleDateString` are parameters. The date strings are not parsed: the order date and the two bounds of the order date filter are given as the `Date` values the page computes (`OrderList.Time`, an instant or an Invalid Date).
- OrderList.MatchesDate: the bounds are parameters, so the model does not derive them from the date text and the time zone. In the browser the start bound is midnight UTC of its day (`new Date(dateFrom)`) and the end bound is 23:59:59 local time (`new Date(dateTo + 'T23:59:59')`). East of UTC the window therefore ends before 23:59:59 UTC of the end day; in a UTC+3 browser, for example, it ends at 20:59:59 UTC. The model promises only the comparison against the two given instants.
- Case mapping is ASCII lowercasing. Unicode case rules, for example the Turkish dotted I, are not modelled.
- `window.confirm` is a boolean parameter; `alert` and `console` logging are omitted.
- The static dummy lists (banners, showcases, legal texts, alerts, products for showcases) are parameters, not the shipped values. The menu and settings constants are transcribed in `Menu`.
- src/pages/Customers/CustomerList.tsx, src/services/api.ts and src/lib/supabase.ts are not part of this model.
- UseTable.PageCount: requires a page size of at least 1. The source divides by it, and every caller uses the default of 10.
- UseTable.PageSlice: requires a page of at least 1. The controller's page starts at 1 and is only set through the clamp, which keeps it at least 1.
- OrderDetail.OrderDetailPage.HandleStatusChange: requires a loaded order. The status buttons are rendered only once an order is shown (src/pages/Orders/OrderDetail.tsx:89).
- OrderDetail.OrderDetailPage.SaveShippingInfo: requires a loaded order, for the same reason.
- ProductForm.ProductFormPage.LoadProduct: a loaded product's null columns become undefined fields of the form. These are the discounted price, barcode, SEO title and description, notes, family, concentration, gender, volume, batch code and both dates. The source keeps them as null (src/pages/Products/ProductForm.tsx:70), and `update` then sends the ones it writes (all of them except the barcode and the SEO fields) as null keys, because its tests are `!== undefined` (src/services/productService.ts:105, 112-119). The model's update object leaves those keys out. The stored row is the same either way: a key that is left out keeps the column's null, and a null key writes null. The partial product has no null case, so the model does not promise the exact key set of an update sent after editing a loaded product.
- ProductForm.ProductFormPage.LoadProduct: requires the edit route. The product load runs only when the route has an id (src/pages/Products/ProductForm.tsx:66).
- ProductForm: changing the VAT-rate, fragrance-family, concentration and gender selects is not modelled (src/pages/Products/ProductForm.tsx:251-261, 331-379). The form has typed fields for them, set only by the draft and by a loaded product. Only the currency and category selects have a change operation, through `HandleTextChange`.
- Login: the redirect is the value `ViewFor` returns; the navigation itself is not modelled.
