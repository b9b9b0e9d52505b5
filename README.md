# Smart-card storefront and portfolio client — a Dafny model

This project models the logic of a React client for a smart-card
business. Customers browse a card catalogue, order a card, and publish a
personal portfolio. Administrators manage cards, orders and customers.
The model covers:

- **Session and requests**:
  - the two-key token store (`Auth`);
  - the authenticated `fetch` wrapper, with its 401 → refresh → one-retry
    policy and its 403 check (`AuthFetch`);
  - the session check that refreshes an expired token once (`EnsureAuth`).
- **Catalogue**:
  - the page-list builder of the pagination bar (`Pagination`);
  - the catalogue URLs and result mapping (`CardApi`);
  - the truncated description of a product card (`CardProps`).
- **Administration**:
  - the card manager (`ManageCard`);
  - the shared order filters, customer count, revenue and display sort
    (`OrderPipeline`), used by the dashboard (`AdminHome`) and the order
    manager (`ManageOrders`);
  - the customer list with per-customer totals, sorted in place
    (`ManageCustomers`).
- **Portfolio**:
  - the four list managers for skills, education, projects and
    experiences (`Skill`, `Education`, `Project`, `Experiences`);
  - the gallery helpers they share (`Media`) and their generic list
    operations (`Entries`);
  - the rule choosing the active section of the portfolio page
    (`Portfolio`).
- **Forms**:
  - the order form (`OrderForm`);
  - the registration and activation page (`Register`).

A React component becomes a `class` whose fields are its state variables.
Each handler becomes a method whose `ensures` gives the whole new state,
usually as `State() == old(State()).(…)`. What the handlers compute is
specified by functions, and those functions' properties are proved as
lemmas.

Things outside the client are modelled as inputs:

- the backend's replies;
- the login flag and the user's confirmations;
- URL encoding, `Number(...)`, date parsing and the clock.

Requests the client sends are recorded in sequence fields such as
`requests`, `posts` and `writes`. A navigation is recorded in
`navigations`. A list reload is counted in `refetches`, and its result
is installed by the component's `Load` method.

Strings are `seq<char>`, and integers stand for JavaScript numbers. A
JavaScript `NaN` or `undefined` value becomes `Option.None`.

## Model

| member | source | states |
|---|---|---|
| Auth.WithTokens | src/Utils/auth.ts:4-7 | after storing a pair both keys read back the new tokens; every other key is unchanged |
| Auth.WithoutTokens | src/Utils/auth.ts:9-12 | after clearing, both token keys are absent; every other key is unchanged |
| Auth.ClearIdempotent | src/Utils/auth.ts:9-12 | clearing twice equals clearing once |
| Auth.SetOverwrites | src/Utils/auth.ts:4-7 | a later pair completely replaces an earlier one |
| Auth.TokenStore.GetAccessToken | src/Utils/auth.ts:1 | present exactly when the access key is stored, and then its stored value |
| Auth.TokenStore.GetRefreshToken | src/Utils/auth.ts:2 | present exactly when the refresh key is stored, and then its stored value |
| Auth.TokenStore.SetTokens | src/Utils/auth.ts:4-7 | the storage becomes `WithTokens` of the old storage; both getters return the new pair |
| Auth.TokenStore.ClearTokens | src/Utils/auth.ts:9-12 | the storage becomes `WithoutTokens` of the old storage; both getters return nothing |
| AuthFetch.Headers | src/Utils/authFetch.ts:9-18 | Authorization is "Bearer " plus the token unless the caller overrides it; Content-Type is JSON for a non-FormData body; a FormData body keeps only a caller-supplied Content-Type |
| AuthFetch.Fetch | src/Utils/authFetch.ts:3-63 | the method's outcome, request trace and final store equal the `Policy` function's run on the same inputs |
| AuthFetch.Policy | src/Utils/authFetch.ts:3-63 | the reference run of one call: the first request carries the stored token; a 401 posts the refresh token once, stores a renewed pair and retries once; a missing refresh token, a rejected refresh or a second 401 clears the tokens; a 403 fails as forbidden; any other status is returned (the lemmas below state each path) |
| AuthFetch.FirstRequestCarriesStoredToken | src/Utils/authFetch.ts:4-26 | the first request is always sent, with the stored access token (or the empty string) as bearer token |
| AuthFetch.PassThrough | src/Utils/authFetch.ts:26-63 | a first status other than 401 and 403 is returned unchanged; there is no refresh and the store is unchanged |
| AuthFetch.MissingRefreshTokenShortCircuits | src/Utils/authFetch.ts:28-33 | a 401 without a refresh token clears both tokens and fails; the refresh endpoint is not called |
| AuthFetch.RejectedRefreshLogsOut | src/Utils/authFetch.ts:35-46 | a 401 posts the stored refresh token once; a non-OK refresh clears the tokens, redirects to /login and fails |
| AuthFetch.RetryUsesRenewedToken | src/Utils/authFetch.ts:42-50 | after a refresh answered with any OK (2xx) status and a token pair, the new pair is stored and the request is re-sent exactly once, same URL and body, with the new access token; its status is returned, or 403 fails as forbidden |
| AuthFetch.SecondUnauthorizedGivesUp | src/Utils/authFetch.ts:52-56 | a second 401 clears the tokens, redirects and fails, with no third request |
| AuthFetch.RetryBound | src/Utils/authFetch.ts:26-57 | for any backend, at most two requests and one refresh; a second request only follows a refresh |
| AuthFetch.ForbiddenNeverRefreshes | src/Utils/authFetch.ts:59-61 | a first 403 fails as forbidden, with no refresh and no store change |
| AuthFetch.AuthFailuresClearTokens | src/Utils/authFetch.ts:28-56 | each authentication failure leaves no token stored; a forbidden failure leaves the tokens as they were or renewed, never cleared |
| AuthFetch.FormDataKeepsCallerContentType | src/Utils/authFetch.ts:7-18 | a FormData body gets no forced JSON Content-Type; any other body is sent as JSON |
| EnsureAuth.EnsureAuth | src/Utils/ensureAuth.ts:4-35 | the verdict, the refresh posts and the final store equal the `Policy` function's result |
| EnsureAuth.Policy | src/Utils/ensureAuth.ts:4-35 | the reference decision: false without both tokens; a rejection when the token does not decode; true for an unexpired token; otherwise one refresh post whose OK reply stores the new pair and answers true, and any other reply clears the tokens and answers false |
| EnsureAuth.MissingTokenIsInvalid | src/Utils/ensureAuth.ts:5-8 | without both tokens the answer is false, nothing is posted and the store is unchanged |
| EnsureAuth.UnexpiredNeedsNoRefresh | src/Utils/ensureAuth.ts:11-16 | an unexpired token gives true without calling the refresh endpoint |
| EnsureAuth.ExpiredRefreshesOnce | src/Utils/ensureAuth.ts:19-34 | an expired token is refreshed exactly once; success stores the new pair and answers true; failure clears the tokens and answers false |
| EnsureAuth.StoreChangesOnlyThroughRefresh | src/Utils/ensureAuth.ts:8-34 | at most one refresh; the store changes only through a refresh; a rejection changes nothing |
| Pagination.Numbers | src/Utils/PhanTrang.tsx:14 | the consecutive pages lo..hi, one entry per page |
| Pagination.PageList | src/Utils/PhanTrang.tsx:13-27 | the reference list: every page for at most five; otherwise page 1, "..." when current > 3, the window current-1..current+1 kept inside 2..total-1, "..." when current < total-2, and the last page (its properties are the lemmas below) |
| Pagination.PushRange | src/Utils/PhanTrang.tsx:14-23 | the push loop appends exactly the pages lo..hi, in order, to the list it is given, and nothing when lo > hi |
| Pagination.BuildPageList | src/Utils/PhanTrang.tsx:10-31 | the list the push loop builds equals `PageList(current, total)` |
| Pagination.SmallTotalListsEveryPage | src/Utils/PhanTrang.tsx:13-14 | up to five pages, every page 1..total is listed in order, with no ellipsis |
| Pagination.LargeTotalShape | src/Utils/PhanTrang.tsx:15-28 | above five pages the list starts at page 1, ends at the last page and has at most seven entries |
| Pagination.LeadingEllipsisIff | src/Utils/PhanTrang.tsx:18 | the second entry is "..." exactly when the current page is above 3 |
| Pagination.TrailingEllipsisIff | src/Utils/PhanTrang.tsx:25 | the entry before the last is "..." exactly when the current page is below total - 2 |
| Pagination.Layout | src/Utils/PhanTrang.tsx:16-27 | the exact position of page 1, each ellipsis, the window pages and the last page |
| Pagination.NumbersInRange | src/Utils/PhanTrang.tsx:20-23 | every numbered entry lies in [1, total], and the current page is listed |
| Pagination.NumbersIncrease | src/Utils/PhanTrang.tsx:16-27 | the numbered entries strictly increase |
| Pagination.GapsAreMarked | src/Utils/PhanTrang.tsx:18-25 | adjacent numbers are consecutive pages; an ellipsis stands exactly where pages are skipped |
| Pagination.NeighboursAreConsecutive | src/Utils/PhanTrang.tsx:16-27 | two adjacent numbered entries are consecutive pages |
| Pagination.EllipsisMarksSkip | src/Utils/PhanTrang.tsx:18-25 | each "..." lies between two numbered entries that skip at least one page |
| Pagination.PrevTarget | src/Utils/PhanTrang.tsx:42 | the previous button reports current - 1 exactly when current > 1 |
| Pagination.NextTarget | src/Utils/PhanTrang.tsx:70 | the next button reports current + 1 exactly when current < total |
| Pagination.ItemTarget | src/Utils/PhanTrang.tsx:56-60 | a numbered entry reports its own number; "..." reports nothing |
| Pagination.TargetsInRange | src/Utils/PhanTrang.tsx:42-70 | every reported page exists; previous and next never report the current page |
| CardApi.Get1CardUrl | src/API/CardAPI.ts:17-20 | the listing URL for page 0 with size 1 |
| CardApi.GetAllCardUrl | src/API/CardAPI.ts:10-15 | the one-based page p asks the backend for zero-based page p - 1 of four cards; distinct pages give distinct URLs (`GetAllCardUrlInjective`) |
| CardApi.FindCardUrl | src/API/CardAPI.ts:24-37 | the keyword is trimmed before it is tested and encoded; a blank keyword gives the listing URL, any other the name endpoint, both for zero-based page p - 1 (`FindCardIsListingIffBlank`) |
| CardApi.FindCardIsListingIffBlank | src/API/CardAPI.ts:24-37 | the search URL equals the plain listing URL exactly when the keyword is blank; otherwise it is the name endpoint with the encoded trimmed keyword |
| CardApi.QueryInjective | src/API/CardAPI.ts:13 | distinct offsets or sizes give distinct query strings |
| CardApi.GetAllCardUrlInjective | src/API/CardAPI.ts:12-15 | two catalogue pages share a URL only if they are the same page |
| CardApi.GetResult | src/API/CardAPI.ts:60-87 | one copied card per element of `content`, in order; a missing content gives no cards; an error or null body gives the empty result with 0 pages |
| CardApi.GetById | src/API/CardAPI.ts:39-56 | a card exactly when the reply has a `result`, holding its five fields; otherwise null |
| CardApi.GetByIdUrl | src/API/CardAPI.ts:40 | the URL lies under the cards' /id/ path |
| CardApi.GetByIdUrlId | src/API/CardAPI.ts:40 | the card id parses back from what follows the /id/ path |
| CardApi.GetByIdUrlInjective | src/API/CardAPI.ts:40 | different card ids give different URLs |
| CardProps.DisplayDescription | src/Products/Components/CardProps.tsx:37-41 | the placeholder when the description is missing or empty; the full text up to 80 characters; otherwise its first 77 characters plus "..." |
| CardProps.ShownTextIsBoundedPrefix | src/Products/Components/CardProps.tsx:37-41 | the shown text is at most 80 long; it is the whole text exactly when that is at most 80 long, otherwise a marked prefix |
| CardProps.DisplayIdempotent | src/Products/Components/CardProps.tsx:37-41 | displaying the displayed text again changes nothing |
| ManageCard.FetchPathChoice | src/Pages/Components/Admin/ManageCard.tsx:62-64 | a name that trims to "" gives the plain listing path; any other name gives the name endpoint with the untrimmed name; both request the given page of 4 |
| ManageCard.FetchPath | src/Pages/Components/Admin/ManageCard.tsx:62-64 | the reference list path: the name endpoint with the encoded untrimmed name unless the name is blank, else the plain listing, page `page` of four (`FetchPathChoice`, `DistinctPagesDistinctPaths`) |
| ManageCard.TotalPagesOrOne | src/Pages/Components/Admin/ManageCard.tsx:74 | a missing or zero page count becomes 1; any other count is kept |
| ManageCard.FetchOutcome | src/Pages/Components/Admin/ManageCard.tsx:58-80 | a load logs exactly its path and clears the error; success shows the reply's cards (none when `content` is missing) and at least one page for a non-negative count; failure sets the error and keeps the cards and count shown; page, query, modal, form and writes are untouched |
| ManageCard.AfterFetch | src/Pages/Components/Admin/ManageCard.tsx:58-80 | the reference state after a load: the error cleared and the path logged; a failure sets the error; a success installs the cards (none for a missing `content`) and the page count or 1 (`FetchOutcome`) |
| ManageCard.ParsePrice | src/Pages/Components/Admin/ManageCard.tsx:279 | the parseInt value of the input, or 0 when it has no digits |
| ManageCard.ParsePriceRoundTrip | src/Pages/Components/Admin/ManageCard.tsx:279 | parsing a printed price gives that price back |
| ManageCard.ParsePriceNonNumeric | src/Pages/Components/Admin/ManageCard.tsx:279 | input without a digit after the optional sign gives price 0 |
| ManageCard.SaveRequest | src/Pages/Components/Admin/ManageCard.tsx:118-127 | PUT to the card's path when editing, POST to /cards otherwise; the image field only when a file was chosen |
| ManageCard.CardManager.constructor | src/Pages/Components/Admin/ManageCard.tsx:36-56 | the initial state: no cards, page 0, no page count, empty query, closed modal, no edited card, empty form, no error, nothing sent |
| ManageCard.CardManager.FetchCards | src/Pages/Components/Admin/ManageCard.tsx:58-80 | the whole new state is `AfterFetch` of the old state, the path `FetchPath` gives and the reply |
| ManageCard.CardManager.CreateClick | src/Pages/Components/Admin/ManageCard.tsx:86-90 | no card is edited, the form is empty and the modal opens; every other field is unchanged |
| ManageCard.CardManager.EditClick | src/Pages/Components/Admin/ManageCard.tsx:92-96 | the card is edited, the form holds its name, description and price with no file, and the modal opens; every other field is unchanged |
| ManageCard.CardManager.PriceInput | src/Pages/Components/Admin/ManageCard.tsx:279 | only the form's price changes, to `ParsePrice(value)`; every other field is unchanged |
| ManageCard.CardManager.DeleteClick | src/Pages/Components/Admin/ManageCard.tsx:98-111 | one DELETE is logged; after OK the whole state is `AfterFetch` of the current page and query with the reload's reply; otherwise nothing else changes |
| ManageCard.CardManager.SaveCard | src/Pages/Components/Admin/ManageCard.tsx:113-147 | sends `SaveRequest`; after OK the modal closes and the whole state is `AfterFetch` of page 0 (create) or the current page (edit); `currentPage`, the form and the edited card are kept; otherwise nothing else changes |
| ManageCard.CardManager.SearchChange | src/Pages/Components/Admin/ManageCard.tsx:149-152 | the query becomes the value and the page 0; exactly when one of them changed, the whole state is then `AfterFetch` of page 0 of the new query; every other field is unchanged |
| ManageCard.CardManager.PageClick | src/Pages/Components/Admin/ManageCard.tsx:245-253 | the page becomes the clicked one; exactly when it differs from the old page, the whole state is then `AfterFetch` of that page of the current query; every other field is unchanged |
| ManageCard.CreateFromLaterPage | src/Pages/Components/Admin/ManageCard.tsx:137 | after creating a card from page 2, the last list request is page 0 while the pager still marks page 2, and page 2 would have had a different path |
| ManageCard.DistinctPagesDistinctPaths | src/Pages/Components/Admin/ManageCard.tsx:62-64 | two different pages of the same search are requested under different paths |
| Common.Trim | src/API/CardAPI.ts:25 | the result is a slice of the input with no whitespace at either end, and everything dropped before and after it is whitespace |
| Common.TrimStart | src/API/CardAPI.ts:25 | the result is a suffix of the input, what it drops is all whitespace, and it does not start with whitespace |
| Common.TrimEnd | src/API/CardAPI.ts:25 | the result is a prefix of the input, what it drops is all whitespace, and it does not end with whitespace |
| Common.TrimEmptyIffBlank | src/API/CardAPI.ts:32 | trimming gives "" exactly when the string is all whitespace |
| Common.IncludesIff | src/Pages/Components/Admin/AdminHome.tsx:119-120 | `includes` holds exactly when the term occurs at some position |
| Common.Includes | src/Pages/Components/Admin/AdminHome.tsx:119-120 | the left-to-right scan of `includes`: true as soon as the term starts at the current position (`IncludesIff`) |
| Common.StartsWith | src/Pages/Components/Skill.tsx:88 | `startsWith`: the string begins with exactly the given prefix |
| Common.ToLower | src/Pages/Components/Admin/AdminHome.tsx:120 | same length; each character is lowercased |
| Common.IntToString | src/API/CardAPI.ts:13 | never empty; the printed form parses back (see `ParseIntOfIntToString`) |
| Common.ParseInt | src/Pages/Components/Admin/ManageCard.tsx:279 | NaN exactly when no digit follows the leading whitespace and optional sign |
| Common.ParseIntOfIntToString | src/Pages/Components/Skill.tsx:696 | parsing a printed integer gives the integer |
| Common.IntToStringInjective | src/API/CardAPI.ts:40 | different integers print differently |
| Common.PadTwo | src/Pages/Components/Admin/AdminHome.tsx:113 | strings of length 2 or more are unchanged; shorter ones are zero-padded on the left to length 2 |
| Common.Filter | src/Pages/Components/Admin/AdminHome.tsx:110 | the kept elements are exactly the elements that satisfy the predicate; never longer than the input |
| Common.FilterAppend | src/Pages/Components/Admin/AdminHome.tsx:110 | filtering a concatenation is the concatenation of the filtered parts, in order |
| Common.FilterSingleton | src/Pages/Components/Admin/AdminHome.tsx:110 | one element is kept exactly when it satisfies the predicate; with `FilterAppend` this fixes order and multiplicity |
| Common.FilterFuse | src/Pages/Components/Admin/AdminHome.tsx:109-114 | two filters in a row equal one filter by their conjunction |
| OrderPipeline.FilteredIsConjunction | src/Pages/Components/Admin/AdminHome.tsx:105-122 | the step-by-step filters equal one filter by the conjunction of the active conditions |
| OrderPipeline.FullName | src/Pages/Components/Admin/AdminHome.tsx:120 | first and last name joined by a space, an absent part or customer printed as "undefined" as string concatenation does |
| OrderPipeline.MatchesYear | src/Pages/Components/Admin/AdminHome.tsx:109-111 | the order date's year, printed in decimal, equals the selection |
| OrderPipeline.MatchesMonth | src/Pages/Components/Admin/AdminHome.tsx:112-114 | the order date's month, padded to two digits, equals the selection |
| OrderPipeline.MatchesSearch | src/Pages/Components/Admin/AdminHome.tsx:117-122 | the id's digits contain the term, or the lowercased full name contains the lowercased term (`SearchFindsIdDigits`) |
| OrderPipeline.Filtered | src/Pages/Components/Admin/AdminHome.tsx:106-122 | the memo's narrowing: by year, then month, then search, each only when its selection is not empty (`FilteredIsConjunction`, `FilteredMembership`) |
| OrderPipeline.NoFiltersKeepsAll | src/Pages/Components/Admin/AdminHome.tsx:106-122 | with no selection every order is listed |
| OrderPipeline.FilteredMembership | src/Pages/Components/Admin/AdminHome.tsx:106-122 | an order is listed exactly when it is fetched and matches every active condition |
| OrderPipeline.SearchFindsIdDigits | src/Pages/Components/Admin/AdminHome.tsx:119 | any run of digits of an order id finds that order |
| OrderPipeline.CustomerIds | src/Pages/Components/Admin/AdminHome.tsx:125-130 | never more customer ids than orders |
| OrderPipeline.HasCustomer | src/Pages/Components/Admin/AdminHome.tsx:127 | the order has a customer whose id is truthy (not 0) |
| OrderPipeline.CustomerIdsMembers | src/Pages/Components/Admin/AdminHome.tsx:125-130 | an id is in the set exactly when some order has a truthy customer with that id |
| OrderPipeline.CustomerIdsSnoc | src/Pages/Components/Admin/AdminHome.tsx:126-130 | one more order adds its truthy customer id and nothing else |
| OrderPipeline.CountCustomers | src/Pages/Components/Admin/AdminHome.tsx:125-132 | the loop's count equals the number of distinct truthy customer ids, at most the number of orders |
| OrderPipeline.CustomerCountIgnoresRepeats | src/Pages/Components/Admin/AdminHome.tsx:125-132 | adding another order by an already-listed order's customer does not change the ids |
| OrderPipeline.RevenueAppend | src/Pages/Components/Admin/AdminHome.tsx:134-139 | the revenue of a concatenation is the sum of the two revenues |
| OrderPipeline.Revenue | src/Pages/Components/Admin/AdminHome.tsx:134-139 | the `reduce` from the left adding the amount of each COMPLETED order; additive, only completed orders count, and order does not matter (the lemmas beside it) |
| OrderPipeline.RevenueOnlyCompleted | src/Pages/Components/Admin/AdminHome.tsx:134-139 | the revenue equals the revenue of the completed orders alone; it is 0 when none is completed |
| OrderPipeline.RevenuePermutation | src/Pages/Components/Admin/AdminHome.tsx:134-139 | reordering the orders does not change the revenue |
| OrderPipeline.Insert | src/Pages/Components/Admin/AdminHome.tsx:150-160 | the insertion adds exactly the one order |
| OrderPipeline.NotBeforeTransitive | src/Pages/Components/Admin/AdminHome.tsx:156-159 | the comparator's "not before" relation is transitive |
| OrderPipeline.Before | src/Pages/Components/Admin/AdminHome.tsx:149-161 | the comparator's strict order: a pending order before a non-pending one, otherwise the later date first |
| OrderPipeline.InsertSorted | src/Pages/Components/Admin/AdminHome.tsx:150-160 | inserting into a sorted list keeps it sorted |
| OrderPipeline.SortForDisplay | src/Pages/Components/Admin/AdminHome.tsx:149-161 | a sorted permutation of the filtered orders |
| OrderPipeline.DisplayOrder | src/Pages/Components/Admin/AdminHome.tsx:156-159 | pending orders come before all others; within a group, newer dates come first |
| OrderPipeline.DisplayKeepsFigures | src/Pages/Components/Admin/AdminHome.tsx:149-161 | the sorted copy has the same length, orders and revenue |
| OrderPipeline.Loaded | src/Pages/Components/Admin/AdminHome.tsx:69-79 | a thrown error installs nothing; an array content is installed as is; any other content installs [] |
| OrderPipeline.Summarize | src/Pages/Components/Admin/AdminHome.tsx:105-161 | the figures are the customer count and revenue of `Filtered`, and the table is its sorted copy |
| AdminHome.Dashboard.constructor | src/Pages/Components/Admin/AdminHome.tsx:45-52 | no orders, empty selections and search |
| AdminHome.Dashboard.Load | src/Pages/Components/Admin/AdminHome.tsx:64-86 | a successful load installs `Loaded(reply)` and clears the error; a throw keeps the orders and sets the error; selections and search are unchanged |
| AdminHome.Dashboard.TypeSearch | src/Pages/Components/Admin/AdminHome.tsx:250 | only the search box changes; the committed term and every other field are unchanged |
| AdminHome.Dashboard.HandleSearch | src/Pages/Components/Admin/AdminHome.tsx:93-95 | the box's text becomes the committed term; every other field is unchanged |
| AdminHome.Dashboard.HandleKeyDown | src/Pages/Components/Admin/AdminHome.tsx:98-102 | Enter commits the term as `HandleSearch` does; any other key changes nothing |
| AdminHome.Dashboard.SelectMonth | src/Pages/Components/Admin/AdminHome.tsx:227 | only the month selection changes |
| AdminHome.Dashboard.SelectYear | src/Pages/Components/Admin/AdminHome.tsx:237 | only the year selection changes |
| AdminHome.Dashboard.View | src/Pages/Components/Admin/AdminHome.tsx:141-177 | the figures and the table come from the filtered orders; total orders counts every fetched order and is at least the number listed |
| AdminHome.TypingDoesNotFilter | src/Pages/Components/Admin/AdminHome.tsx:250 | typing without committing leaves the listed orders as they were |
| ManageOrders.StatusFor | src/Pages/Components/Admin/ManageOrders.tsx:102-108 | PAID gives COMPLETED; PENDING and CANCELLED map to themselves; any other value gives undefined |
| ManageOrders.StatusForInjective | src/Pages/Components/Admin/ManageOrders.tsx:102-106 | a defined order status determines its payment status |
| ManageOrders.UpdateRequest | src/Pages/Components/Admin/ManageOrders.tsx:111-120 | a PUT to the order's update-status path carrying both statuses |
| ManageOrders.OrderManager.constructor | src/Pages/Components/Admin/ManageOrders.tsx:49-55 | no orders, empty selections and search |
| ManageOrders.AfterLoad | src/Pages/Components/Admin/ManageOrders.tsx:66-85 | the reference reload: one more reload counted; the reply's orders (none for a missing or non-array content), or, when the request throws, the old orders and the error set |
| ManageOrders.OrderManager.Load | src/Pages/Components/Admin/ManageOrders.tsx:66-85 | as on the dashboard, counting one more reload; the update log is unchanged |
| ManageOrders.OrderManager.TypeSearch | src/Pages/Components/Admin/ManageOrders.tsx:222 | only the search box changes; the committed term and every other field are unchanged |
| ManageOrders.OrderManager.HandleSearch | src/Pages/Components/Admin/ManageOrders.tsx:91-93 | the box's text becomes the committed term; every other field is unchanged |
| ManageOrders.OrderManager.HandleKeyDown | src/Pages/Components/Admin/ManageOrders.tsx:95-99 | Enter commits the term as `HandleSearch` does; any other key changes nothing |
| ManageOrders.OrderManager.SelectMonth | src/Pages/Components/Admin/ManageOrders.tsx:212 | only the month selection changes |
| ManageOrders.OrderManager.SelectYear | src/Pages/Components/Admin/ManageOrders.tsx:216 | only the year selection changes |
| ManageOrders.OrderManager.UpdatePaymentStatus | src/Pages/Components/Admin/ManageOrders.tsx:101-129 | one PUT of `UpdateRequest` is logged; after OK the orders reload as `Load` states; otherwise nothing else changes |
| ManageOrders.OrderManager.View | src/Pages/Components/Admin/ManageOrders.tsx:131-174 | the figures and table come from the filtered orders |
| ManageCustomers.UsersPath | src/Pages/Components/Admin/ManageCustomers.tsx:53-59 | the users endpoint asked for the given zero-based page of ten users |
| ManageCustomers.UsersPathInjective | src/Pages/Components/Admin/ManageCustomers.tsx:59 | distinct pages are requested under distinct paths |
| ManageCustomers.Items | src/Pages/Components/Admin/ManageCustomers.tsx:55-85 | the reply's content; no items when the request fails or the content is missing |
| ManageCustomers.SumForAbsent | src/Pages/Components/Admin/ManageCustomers.tsx:103 | a customer with no order sums to 0 |
| ManageCustomers.SumFor | src/Pages/Components/Admin/ManageCustomers.tsx:93-98 | the reference total: the sum of the amounts of exactly the orders whose customer id is the given one (`SumForAbsent`, `TotalsByUser`) |
| ManageCustomers.TotalsByUser | src/Pages/Components/Admin/ManageCustomers.tsx:93-98 | a map exactly when every order names its customer (otherwise the `forEach` throws); then one entry per customer with an order, holding the sum of that customer's amounts |
| ManageCustomers.TotalForIsSum | src/Pages/Components/Admin/ManageCustomers.tsx:101-104 | the total shown for a user is the sum of that user's orders, and 0 for a user with none |
| ManageCustomers.TotalFor | src/Pages/Components/Admin/ManageCustomers.tsx:103 | `totalMap[id] \|\| 0` is the map's value for a listed id and 0 for an unlisted one |
| Common.FilterSwapNeighbours | src/Pages/Components/Admin/ManageCustomers.tsx:107 | exchanging two neighbours that are not both kept leaves the filtered sequence unchanged |
| ManageCustomers.SwapKeepsTies | src/Pages/Components/Admin/ManageCustomers.tsx:107 | exchanging two neighbours with different totals keeps the order within every group of equal totals, which is why the insertion sort is stable |
| ManageCustomers.SortByTotalDescending | src/Pages/Components/Admin/ManageCustomers.tsx:107 | the array is rearranged in place into descending order of totals, as a permutation, and users with equal totals keep their relative order (a stable sort) |
| ManageCustomers.CustomerManager.constructor | src/Pages/Components/Admin/ManageCustomers.tsx:48-52 | no users, page 0, no error, loading, nothing requested |
| ManageCustomers.CustomerManager.LoadData | src/Pages/Components/Admin/ManageCustomers.tsx:87-114 | the users request for the current page and the orders request are logged, in that order; when every order names its customer, the users are a descending permutation of the page's users, each paired with their order total, users with equal totals in their fetched order, and loading ends; an order without a customer leaves the old users and loading stuck on; the error flag follows the users request |
| ManageCustomers.Attach | src/Pages/Components/Admin/ManageCustomers.tsx:101-104 | one entry per user, in order, with the sum of that user's orders |
| ManageCustomers.LoadedUsersAreThePage | src/Pages/Components/Admin/ManageCustomers.tsx:101-109 | after the sort every shown user is a fetched user with their own sum, and the count is unchanged |
| Media.FetchedKind | src/Pages/Components/Skill.tsx:88 | image exactly when the file type starts with "image" |
| Media.UploadKind | src/Pages/Components/Skill.tsx:233 | image for "image/…", video for "video/…", otherwise none |
| Media.UploadKindSurvivesFetch | src/Pages/Components/Skill.tsx:88 | a file accepted on upload is classified the same way when fetched back |
| Media.Formatted | src/Pages/Components/Skill.tsx:85-89 | keeps the media id, maps `link` to the URL and `fileType` to the kind |
| Media.FormattedAll | src/Pages/Components/Skill.tsx:85-89 | formats each file, in order |
| Media.Visible | src/Pages/Components/Skill.tsx:400-402 | "all" shows the whole gallery; a kind filter shows exactly the files of that kind |
| Media.FilterFor | src/Pages/Components/Skill.tsx:400 | `filters[id] \|\| "all"`: the chosen filter, or "all" for an entry never filtered |
| Media.KindFiltersPartition | src/Pages/Components/Skill.tsx:400-402 | the image view and the video view together hold every file exactly once |
| Media.RemoveMedia | src/Pages/Components/Skill.tsx:312 | keeps exactly the files with a different media id |
| Media.RemoveUndoesAppend | src/Pages/Components/Skill.tsx:307-316 | removing a freshly appended file with a new id restores the gallery |
| Media.RemoveMediaIdempotent | src/Pages/Components/Skill.tsx:312 | removing twice equals removing once |
| Entries.ItemPath | src/Pages/Components/Skill.tsx:165 | the item path lies under the collection path |
| Entries.ItemPathId | src/Pages/Components/Skill.tsx:165 | the id parses back from what follows the collection path and the slash |
| Entries.ItemPathInjective | src/Pages/Components/Skill.tsx:165 | under one endpoint, different ids give different paths |
| Entries.GalleryOf | src/Pages/Components/Skill.tsx:78-90 | the formatted files; [] for a non-OK reply; a failure that escapes unless the error is caught per entry |
| Entries.WithGalleries | src/Pages/Components/Skill.tsx:77-91 | one entry per listed item, in order, each with its gallery |
| Entries.Loaded | src/Pages/Components/Skill.tsx:62-103 | the listed entries with their galleries; [] when the list is missing, is not an array, or a media fetch throws |
| Entries.PerEntryCatchKeepsEveryEntry | src/Pages/Components/Experiences.tsx:66-84 | with per-entry catching every listed entry is kept, whatever the media replies |
| Entries.MapWhere | src/Pages/Components/Skill.tsx:177-183 | applies the update to exactly the entries with the id |
| Entries.SetData | src/Pages/Components/Skill.tsx:177-183 | entries with the id take the payload; ids and galleries are unchanged |
| Entries.SetDataIdempotent | src/Pages/Components/Skill.tsx:177-183 | saving the same payload twice equals saving it once |
| Entries.Replace | src/Pages/Components/Experiences.tsx:170-172 | entries with the id are replaced; the others are unchanged |
| Entries.Find | src/Pages/Components/Skill.tsx:156 | an entry exactly when some entry has the id; it is the first such entry in the list |
| Entries.ReplaceFoundIsSetData | src/Pages/Components/Experiences.tsx:152-172 | with unique ids, replacing the found entry by its updated copy equals setting its data |
| Entries.Delete | src/Pages/Components/Skill.tsx:214 | keeps exactly the entries with another id |
| Entries.DeleteKeepsOrder | src/Pages/Components/Skill.tsx:214 | deletion distributes over concatenation, so the relative order is kept |
| Entries.DeleteUndoesAppend | src/Pages/Components/Skill.tsx:214 | deleting a freshly appended entry with a new id restores the list |
| Entries.AddMedia | src/Pages/Components/Skill.tsx:268-274 | appends the file to the galleries of the entries with the id only |
| Entries.RemoveMediaFrom | src/Pages/Components/Skill.tsx:307-316 | removes the media id from the galleries of the entries with the id only |
| Entries.RemoveUndoesAddMedia | src/Pages/Components/Skill.tsx:268-316 | deleting a just-uploaded file with a new id restores the list |
| Skill.ProgressColor | src/Pages/Components/Skill.tsx:53-57 | green from 85, amber from 70 to 84, red below 70 or for NaN |
| Skill.ClampLevel | src/Pages/Components/Skill.tsx:596 | the level clamped to [0, 100]; NaN stays NaN |
| Skill.ClampLevelIdempotent | src/Pages/Components/Skill.tsx:596 | clamping twice equals clamping once |
| Skill.UpdatePayloadIsFieldwise | src/Pages/Components/Skill.tsx:159-162 | an unknown field changes nothing; a later edit of a field wins; saving the unchanged printed level or name gives the skill back |
| Skill.UpdatePayload | src/Pages/Components/Skill.tsx:159-162 | the edited field takes the typed text, the level through `parseInt`; the other field keeps the skill's value (`UpdatePayloadIsFieldwise`) |
| Skill.SkillManager.constructor | src/Pages/Components/Skill.tsx:26-49 | the initial state: an empty list, no edit, and a new skill with an empty name and level 0 |
| Skill.SkillManager.Load | src/Pages/Components/Skill.tsx:62-103 | no user id: nothing changes; otherwise the list becomes `Loaded(reply)` without per-entry catching |
| Skill.SkillManager.TypeName | src/Pages/Components/Skill.tsx:589 | only the new skill's name changes |
| Skill.SkillManager.TypeLevel | src/Pages/Components/Skill.tsx:596 | only the new skill's level changes, to the clamped value |
| Skill.SkillManager.AddSkill | src/Pages/Components/Skill.tsx:110-143 | refused when logged out or the name is blank; otherwise posted, and OK appends the skill with an empty gallery, resets and hides the form, and refetches |
| Skill.SkillManager.StartEdit | src/Pages/Components/Skill.tsx:663 | only the edit changes |
| Skill.SkillManager.CancelEdit | src/Pages/Components/Skill.tsx:366 | only the edit ends; nothing is sent and no entry changes |
| Skill.SkillManager.EditPayload | src/Pages/Components/Skill.tsx:152-162 | a payload exactly when an edit is open on an existing skill |
| Skill.SkillManager.SaveEdit | src/Pages/Components/Skill.tsx:164-190 | the PUT is sent; OK sets the payload on that skill only, closes the edit and refetches |
| Skill.SkillManager.UpdateField | src/Pages/Components/Skill.tsx:146-191 | logged out: the edit is dropped; with no edit or no skill nothing is sent; otherwise as `SaveEdit` |
| Skill.SkillManager.DeleteSkill | src/Pages/Components/Skill.tsx:195-220 | after login and confirmation one DELETE; OK removes that skill |
| Skill.SkillManager.OpenAddMedia | src/Pages/Components/Skill.tsx:474 | the dialog opens for that skill |
| Skill.SkillManager.CloseMediaModal | src/Pages/Components/Skill.tsx:510-525 | the dialog closes and forgets its target entry; nothing else changes |
| Skill.SkillManager.OpenAddForm | src/Pages/Components/Skill.tsx:566-569 | a logged-in user opens the add form; without a login there is no button and nothing changes |
| Skill.SkillManager.CloseAddForm | src/Pages/Components/Skill.tsx:582-601 | only the add form hides; what was typed stays |
| Skill.SkillManager.MediaFileChange | src/Pages/Components/Skill.tsx:223-285 | the guards, the type check with input clearing, and the upload; OK appends the file to that skill's gallery only, closes the dialog and refetches |
| Skill.SkillManager.SendUpload | src/Pages/Components/Skill.tsx:242-284 | the upload form carries entity type SKILL, the target id and the file's type and name; OK appends exactly the new file to the target skill's gallery only, closes the dialog, clears the input and refetches; a failure changes nothing but the request log |
| Skill.SkillManager.DeleteMedia | src/Pages/Components/Skill.tsx:288-322 | after login and confirmation one DELETE; OK removes that media id from that skill only |
| Skill.SkillManager.SelectFilter | src/Pages/Components/Skill.tsx:324-326 | only that skill's filter changes |
| Skill.SkillManager.Gallery | src/Pages/Components/Skill.tsx:400-402 | the files shown under the skill's filter (default "all") |
| Education.FieldOf | src/Pages/Components/Education.tsx:161-167 | a value exactly for the five field names |
| Education.WithFieldIsFieldwise | src/Pages/Components/Education.tsx:161-167 | the edited field reads the new text; others are unchanged; an unknown name changes nothing |
| Education.WithField | src/Pages/Components/Education.tsx:161-167 | the named one of the five fields takes the new text and the four others keep theirs (`WithFieldIsFieldwise`, `WithFieldLaws`) |
| Education.WithFieldLaws | src/Pages/Components/Education.tsx:161-167 | writing back a field's own text changes nothing; the later of two writes wins |
| Education.EducationManager.constructor | src/Pages/Components/Education.tsx:29-55 | the initial state: an empty list, no edit, an empty new record |
| Education.EducationManager.Load | src/Pages/Components/Education.tsx:60-102 | no user id: nothing changes; otherwise `Loaded(reply)` without per-entry catching |
| Education.EducationManager.TypeField | src/Pages/Components/Education.tsx:597-601 | only the named field of the new record changes |
| Education.EducationManager.AddEdu | src/Pages/Components/Education.tsx:109-144 | refused when logged out or the school name is blank; otherwise posted, and OK appends, resets, hides the form and refetches |
| Education.EducationManager.StartEdit | src/Pages/Components/Education.tsx:388 | only the edit changes |
| Education.EducationManager.CancelEdit | src/Pages/Components/Education.tsx:377 | only the edit ends; nothing is sent and no entry changes |
| Education.EducationManager.EditPayload | src/Pages/Components/Education.tsx:154-167 | a payload exactly when an edit is open on an existing entry |
| Education.EducationManager.SaveEdit | src/Pages/Components/Education.tsx:169-193 | the PUT is sent; OK sets the payload on that entry only, closes the edit and refetches |
| Education.EducationManager.UpdateField | src/Pages/Components/Education.tsx:148-194 | logged out: the edit is dropped; with no edit or no entry nothing is sent; otherwise as `SaveEdit` |
| Education.EducationManager.DeleteEdu | src/Pages/Components/Education.tsx:197-222 | after login and confirmation one DELETE; OK removes that entry |
| Education.EducationManager.OpenAddMedia | src/Pages/Components/Education.tsx:484 | the dialog opens for that entry |
| Education.EducationManager.CloseMediaModal | src/Pages/Components/Education.tsx:521-536 | the dialog closes and forgets its target entry; nothing else changes |
| Education.EducationManager.OpenAddForm | src/Pages/Components/Education.tsx:578-580 | a logged-in user opens the add form; without a login there is no button and nothing changes |
| Education.EducationManager.CloseAddForm | src/Pages/Components/Education.tsx:594-603 | only the add form hides; what was typed stays |
| Education.EducationManager.MediaFileChange | src/Pages/Components/Education.tsx:225-288 | as for skills, with entity type EDUCATION |
| Education.EducationManager.SendUpload | src/Pages/Components/Education.tsx:244-287 | as for skills, with entity type EDUCATION |
| Education.EducationManager.DeleteMedia | src/Pages/Components/Education.tsx:291-325 | after login and confirmation one DELETE; OK removes that media id from that entry only |
| Education.EducationManager.SelectFilter | src/Pages/Components/Education.tsx:327-329 | only that entry's filter changes |
| Education.EducationManager.Gallery | src/Pages/Components/Education.tsx:411-413 | the files shown under the entry's filter |
| Project.FieldOf | src/Pages/Components/Project.tsx:159-164 | a value exactly for the four field names |
| Project.WithFieldIsFieldwise | src/Pages/Components/Project.tsx:159-164 | the edited field reads the new text; others are unchanged; an unknown name changes nothing |
| Project.WithField | src/Pages/Components/Project.tsx:159-164 | the named one of the four fields takes the new text and the three others keep theirs (`WithFieldIsFieldwise`, `WithFieldLaws`) |
| Project.WithFieldLaws | src/Pages/Components/Project.tsx:159-164 | writing back a field's own text changes nothing; the later of two writes wins |
| Project.ProjectManager.constructor | src/Pages/Components/Project.tsx:27-53 | the initial state: an empty list, no edit, an empty new record |
| Project.ProjectManager.Load | src/Pages/Components/Project.tsx:58-101 | no user id: nothing changes; otherwise `Loaded(reply)` without per-entry catching |
| Project.ProjectManager.TypeField | src/Pages/Components/Project.tsx:607-610 | only the named field of the new record changes |
| Project.ProjectManager.AddProject | src/Pages/Components/Project.tsx:108-143 | refused when logged out or the title is blank; otherwise posted, and OK appends, resets, hides the form and refetches |
| Project.ProjectManager.StartEdit | src/Pages/Components/Project.tsx:399 | only the edit changes |
| Project.ProjectManager.CancelEdit | src/Pages/Components/Project.tsx:379 | only the edit ends; nothing is sent and no entry changes |
| Project.ProjectManager.EditPayload | src/Pages/Components/Project.tsx:152-164 | a payload exactly when an edit is open on an existing entry |
| Project.ProjectManager.SaveEdit | src/Pages/Components/Project.tsx:166-190 | the PUT is sent; OK sets the payload on that entry only, closes the edit and refetches |
| Project.ProjectManager.UpdateField | src/Pages/Components/Project.tsx:146-191 | logged out: the edit is dropped; with no edit or no entry nothing is sent; otherwise as `SaveEdit` |
| Project.ProjectManager.DeleteProject | src/Pages/Components/Project.tsx:194-219 | after login and confirmation one DELETE; OK removes that entry |
| Project.ProjectManager.OpenAddMedia | src/Pages/Components/Project.tsx:493 | the dialog opens for that entry |
| Project.ProjectManager.CloseMediaModal | src/Pages/Components/Project.tsx:530-545 | the dialog closes and forgets its target entry; nothing else changes |
| Project.ProjectManager.OpenAddForm | src/Pages/Components/Project.tsx:588-590 | a logged-in user opens the add form; without a login there is no button and nothing changes |
| Project.ProjectManager.CloseAddForm | src/Pages/Components/Project.tsx:604-612 | only the add form hides; what was typed stays |
| Project.ProjectManager.MediaFileChange | src/Pages/Components/Project.tsx:222-285 | as for skills, with entity type PROJECT |
| Project.ProjectManager.SendUpload | src/Pages/Components/Project.tsx:241-284 | as for skills, with entity type PROJECT |
| Project.ProjectManager.DeleteMedia | src/Pages/Components/Project.tsx:288-322 | after login and confirmation one DELETE; OK removes that media id from that entry only |
| Project.ProjectManager.SelectFilter | src/Pages/Components/Project.tsx:324-326 | only that entry's filter changes |
| Project.ProjectManager.Gallery | src/Pages/Components/Project.tsx:420-422 | the files shown under the entry's filter |
| Experiences.FieldOf | src/Pages/Components/Experiences.tsx:152 | a value exactly for the five field names |
| Experiences.WithFieldLaws | src/Pages/Components/Experiences.tsx:152 | the edited field reads the new text and the others are unchanged; writing back a field's own text changes nothing; the later write wins |
| Experiences.WithField | src/Pages/Components/Experiences.tsx:152 | the spread with a computed key on the five fields: the named field takes the new text, the others keep theirs (`WithFieldLaws`) |
| Experiences.UsableId | src/Pages/Components/Experiences.tsx:126 | an id exactly when the result has a positive `expId` |
| Experiences.ExperienceManager.constructor | src/Pages/Components/Experiences.tsx:29-45 | the initial state: an empty list, no edit, an empty new record |
| Experiences.ExperienceManager.Load | src/Pages/Components/Experiences.tsx:50-97 | no user id: nothing changes; otherwise `Loaded(reply)` with per-entry catching |
| Experiences.ExperienceManager.TypeField | src/Pages/Components/Experiences.tsx:466-472 | only the named field of the new record changes |
| Experiences.ExperienceManager.AddExp | src/Pages/Components/Experiences.tsx:105-142 | refused when logged out or the name is blank; OK with a usable id appends, otherwise it refetches; either OK path resets and hides the form |
| Experiences.ExperienceManager.StartEdit | src/Pages/Components/Experiences.tsx:324 | only the edit changes |
| Experiences.ExperienceManager.CancelEdit | src/Pages/Components/Experiences.tsx:315 | only the edit ends; nothing is sent and no entry changes |
| Experiences.ExperienceManager.Edited | src/Pages/Components/Experiences.tsx:148-152 | an edited copy exactly when an edit is open on an existing entry; it keeps that entry's id |
| Experiences.ExperienceManager.SaveEdit | src/Pages/Components/Experiences.tsx:154-178 | the PUT with the five fields is sent; OK replaces that entry by the edited copy and closes the edit, with no refetch |
| Experiences.ExperienceManager.UpdateField | src/Pages/Components/Experiences.tsx:145-179 | logged out, no edit or no entry: nothing changes (the edit stays open); otherwise as `SaveEdit` |
| Experiences.ExperienceManager.DeleteExp | src/Pages/Components/Experiences.tsx:182-197 | after login and confirmation one DELETE; OK removes that entry |
| Experiences.ExperienceManager.OpenAddMedia | src/Pages/Components/Experiences.tsx:400 | the dialog opens for that entry |
| Experiences.ExperienceManager.CloseMediaModal | src/Pages/Components/Experiences.tsx:432 | only the dialog closes; the target entry is kept |
| Experiences.ExperienceManager.OpenAddForm | src/Pages/Components/Experiences.tsx:487-488 | a logged-in user opens the add form; without a login there is no button and nothing changes |
| Experiences.ExperienceManager.CloseAddForm | src/Pages/Components/Experiences.tsx:463-475 | only the add form hides; what was typed stays |
| Experiences.ExperienceManager.MediaFileChange | src/Pages/Components/Experiences.tsx:200-253 | guards return without clearing; an unsupported type keeps the input; OK with a result appends the file to that entry only and closes the dialog; every upload attempt clears the input |
| Experiences.ExperienceManager.DeleteMedia | src/Pages/Components/Experiences.tsx:256-277 | after login and confirmation one DELETE; OK removes that media id from that entry only |
| Experiences.ExperienceManager.SelectFilter | src/Pages/Components/Experiences.tsx:280 | only that entry's filter changes |
| Experiences.ExperienceManager.Gallery | src/Pages/Components/Experiences.tsx:338-339 | the files shown under the entry's filter |
| Experiences.EditIsFieldUpdate | src/Pages/Components/Experiences.tsx:152-172 | with unique ids, replacing by the edited copy changes only the data of the edited entry |
| OrderForm.Initial | src/Pages/Components/Orders.tsx:17-29 | a new card at the card's price (0 without one), pending, no address, cash paid now |
| OrderForm.InitialNeedsOnlyAnAddress | src/Pages/Components/Orders.tsx:43-54 | a fresh form is not ready; it becomes ready exactly when the address is not blank |
| OrderForm.Ready | src/Pages/Components/Orders.tsx:43-54 | `isSubmitted`: the trimmed address is not empty and a payment method and an order type are set |
| OrderForm.WithPaymentMethod | src/Pages/Components/Orders.tsx:92-100 | only the payment method changes |
| OrderForm.ChangedTouchesOneField | src/Pages/Components/Orders.tsx:57-89 | each input changes only its own field, the amount through `Number` |
| OrderForm.Changed | src/Pages/Components/Orders.tsx:57-89 | the input's own field takes the value: the method inside the payment request, the date through the parser, the amount through `Number`, other names verbatim (`ChangedTouchesOneField`) |
| OrderForm.PaymentChoiceKeepsReadiness | src/Pages/Components/Orders.tsx:92-100 | the form is ready under bank transfer exactly when it is ready under cash |
| OrderForm.WantsQr | src/Pages/Components/Orders.tsx:131-149 | the QR image is requested once there is a truthy order id and the method is BANK_TRANSFER |
| OrderForm.OrderPage.constructor | src/Pages/Components/Orders.tsx:17-35 | the initial request, with no order id |
| OrderForm.OrderPage.Change | src/Pages/Components/Orders.tsx:57-89 | only the request changes, as `Changed` |
| OrderForm.OrderPage.ChoosePayment | src/Pages/Components/Orders.tsx:92-100 | only the payment method changes |
| OrderForm.OrderPage.HandleSubmit | src/Pages/Components/Orders.tsx:102-149 | when logged out it navigates to /login but still posts; an OK result sets the order id; the QR image is requested when the id changes, is truthy and the method is BANK_TRANSFER |
| OrderForm.OrderPage.Submit | src/Pages/Components/Orders.tsx:296 | nothing changes unless the form is ready; a ready form is submitted with every field as `HandleSubmit` states |
| OrderForm.LoggedOutSubmitStillPosts | src/Pages/Components/Orders.tsx:106-115 | a ready form submitted while logged out is posted and navigates to /login |
| Register.RegistrationOutcome | src/Pages/Register.tsx:60-97 | exactly the checked form is posted, to the users URL; success leaves a form the password check rejects and opens the dialog; any other reply keeps every input and the user id |
| Register.PasswordValid | src/Pages/Register.tsx:27-34 | `validatePassword`: at least six characters |
| Register.ConfirmValid | src/Pages/Register.tsx:36-43 | `validatePasswordConfirm`: the confirmation is the same text as the password |
| Register.AfterRegister | src/Pages/Register.tsx:60-97 | the reference page after a post: the form is posted to the users URL; OK with a `result` records the id, announces success, opens the dialog and empties the inputs; a non-OK reply shows its text; anything else shows the connection message (`RegistrationOutcome`) |
| Register.RegisterPage.constructor | src/Pages/Register.tsx:8-24 | all inputs and messages are empty; the dialog is closed |
| Register.RegisterPage.TypeForm | src/Pages/Register.tsx:150-277 | only the seven inputs and the activation code change |
| Register.RegisterPage.HandleSubmit | src/Pages/Register.tsx:46-98 | clears every message; each check's message shows exactly when it fails; posts the form to the users URL exactly when both pass; OK records the id, opens the dialog and empties all seven inputs; failures show their message |
| Register.RegisterPage.Send | src/Pages/Register.tsx:60-97 | the page becomes `AfterRegister` of its state and the reply |
| Register.RegisterPage.HandleActivate | src/Pages/Register.tsx:100-129 | without a truthy user id, only the error shows and nothing is sent; otherwise the code is sent to that user's verify URL, and OK closes the dialog and goes to /login |
| Portfolio.Pick | src/Pages/Fortfolio.tsx:37-52 | a chosen section is one of the seven ids and is in view |
| Portfolio.PickIsLowestVisible | src/Pages/Fortfolio.tsx:37-52 | the choice is the visible section lowest on the page; nothing is chosen exactly when no section is visible |
| Portfolio.PortfolioPage.constructor | src/Pages/Fortfolio.tsx:21 | the active section starts as "hero" |
| Portfolio.PortfolioPage.OnInViewChange | src/Pages/Fortfolio.tsx:37-61 | the active section becomes the chosen one, or stays when nothing is visible; it is always one of the seven ids |

## Left out

- Rendering is not modelled: JSX, CSS classes, modals as visuals, toasts and `alert`/`confirm` dialogs. A confirmation is a boolean parameter.
- Real HTTP, `localStorage` persistence, `window.location` and `navigate` are not modelled. Replies are inputs, the store is a map, and a navigation is a recorded path.
- The `Promise.all` media fan-out is modelled as a sequential map, so the order in which media requests complete is not captured. Concurrent `authFetch` calls racing to refresh are not captured either.
- Floating-point money and levels are integers, so `toLocaleString` formatting is not modelled.
- A JavaScript `NaN` or `undefined` value is `Option.None`, and `JSON.stringify` of `NaN` (sent as `null`) is not modelled.
- `new Date(...)`, `getFullYear`, `getMonth` and `Date.now` are inputs: an order's year, month and timestamp, and the clock `now`.
- Common.ToLower: lowercases ASCII letters only, not the full Unicode case mapping of `toLowerCase`.
- Common.ParseInt: decimal only; the radix-16 `0x` prefix that `parseInt` accepts is not modelled.
- Strings are sequences of Unicode scalar values, so a length such as the six-character password minimum counts characters rather than UTF-16 code units.
- The result of a refetch is not applied by the handler that triggers it. The handler increments `refetches`, and the component's `Load` method installs the reply.
- Experiences.ExperienceManager.Edited: an unknown field name adds a key to the local copy in the source; the model keeps only the five fields, so that extra key is not represented (the request body is the same).
- OrderForm.Changed: an input name outside the request's fields adds a key the backend ignores; the model leaves the request unchanged.
- OrderPipeline.SortForDisplay: stability of `Array.prototype.sort` on orders with the same status and date is not stated; the contract gives a permutation sorted by `DisplayOrder`.
- The admin order lists are the first 100 orders (1000 for customer totals), as the source requests them; the model works on whatever list the reply holds.
- The QR image blob, the object URL built from it, and `URL.createObjectURL` are not modelled; only the QR request is recorded.
- The portfolio's intersection observers are inputs (which sections are at least half visible).
- The header, footer, routing, the product list page, the home page, the contact page and the user's own orders page are not modelled.
