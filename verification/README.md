# albaing admin back office — a verified model

albaing is a job board. Its admin back office has two halves, and this project models the decision logic of both in Dafny.

The server half is a Spring layer:
- `AdminController` and `AdminCompanyController` admit only an administrator's session.
- They validate request bodies, call the service layer and map the outcome to an HTTP status.
- `CompanyServiceImpl` writes company approval statuses. It deletes a company by first deleting its job posts one at a time.

The client half is a set of React screens:
- a generic data table (sort, search, column filters, paging, row selection, CSV export);
- list screens for reviews, job posts, applications, companies, users and notices;
- detail screens for a company, a job post and a user;
- the pending-company approval screen;
- the person-registration form;
- the HTTP error-message helper with its bounded retry;
- how the screens import the error-handling hook;
- the admin route guard.

## Modelling conventions

**Services.** The service layer is abstract.
- A controller endpoint is a function of the session, its inputs and `respond`.
- `respond` is the service's answer to each call: a value, or an exception with its message.
- An endpoint returns the response together with the service calls it made, in order.
- `AdminCompanyApi.UpdateCompanyStatusOn` and `AdminCompanyApi.DeleteCompanyOn` also run the company endpoints against the concrete `CompanyService.CompanyStore`.

**Company store.**
- `CompanyStore` is a class holding companies, job posts, applications, reviews and scraps.
- `DeleteCompany` is a loop over the company's job post ids.
- A `Fault` parameter names the mapper call that throws, if any.

**Screens.** Each screen is a class whose fields are the component's `useState` values. Each handler is a method:
- Network success or failure is a boolean parameter.
- A response body is an `Option` parameter.
- The method returns the requests it sends, in order, as `Client.Request` values.
- The method also returns any confirmation text and any navigation target.
- A request chained with `.then` is issued only after the first one succeeds. `Client.Chain` captures this.

**Values.**
- Rows and forms are `map<string, string>`. A missing key is JavaScript `undefined`.
- JavaScript truthiness (`x || undefined`, `page || 1`) is written out explicitly.

## Model

| member | source | states |
|---|---|---|
| Http.IsAdminExactly | albaing-api/src/main/java/com/jobjob/albaing/controller/AdminController.java:45-48 | the admin check passes exactly for a signed-in user whose `userIsAdmin` is non-null and true |
| Http.Guard | albaing-api/src/main/java/com/jobjob/albaing/controller/AdminController.java:53-56 | a non-admin caller gets 403 with the fixed message and no service call; an admin gets the endpoint's own reply |
| Strings.ParseLong | albaing-api/src/main/java/com/jobjob/albaing/controller/AdminController.java:330 | a value exactly when the text is an optional sign followed by at least one digit and its decimal value is in the signed 64-bit range; the value is that decimal value |
| Strings.ParseLongRoundTrip | albaing-api/src/main/java/com/jobjob/albaing/controller/AdminController.java:407 | an id rendered in decimal parses back to the same id |
| Strings.ParseLongRejectsNonDigits | albaing-api/src/main/java/com/jobjob/albaing/controller/AdminController.java:110 | a path segment with a non-digit at any position other than a leading sign is a NumberFormatException |
| AdminApi.Fetch | albaing-api/src/main/java/com/jobjob/albaing/controller/AdminController.java:79-81 | a list endpoint makes exactly one call and returns 200 with the result; an exception escapes uncaught |
| AdminApi.Lookup | albaing-api/src/main/java/com/jobjob/albaing/controller/AdminController.java:91-95 | a detail lookup gives 404 exactly when the service returns null, and otherwise 200 with the entity |
| AdminApi.Attempt | albaing-api/src/main/java/com/jobjob/albaing/controller/AdminController.java:243-252 | inside a try block, success gives 200 with the fixed body and an exception gives 500 with the prefix plus the exception's message |
| AdminApi.Command | albaing-api/src/main/java/com/jobjob/albaing/controller/AdminController.java:454-456 | a void service call gives an empty 200; an exception escapes |
| AdminApi.DefaultParam | albaing-api/src/main/java/com/jobjob/albaing/controller/AdminController.java:144 | a missing or empty `sortOrderBy` takes the declared default; any other value is kept |
| AdminApi.WithDefaultSort | albaing-api/src/main/java/com/jobjob/albaing/controller/AdminController.java:139-157 | only the sort parameter is defaulted; the filters, `isDESC` and `limit` pass through unchanged |
| AdminApi.GetAllUsers | albaing-api/src/main/java/com/jobjob/albaing/controller/AdminController.java:65-82 | an admin's search makes exactly one `adminSearchUsers` call with the query as given |
| AdminApi.GetStats | albaing-api/src/main/java/com/jobjob/albaing/controller/AdminController.java:50-59 | an admin's request makes one `getDashboardStats` call and is answered 200 with its result; anyone else gets 403 and no call |
| AdminApi.GetUserDetail | albaing-api/src/main/java/com/jobjob/albaing/controller/AdminController.java:84-96 | one detail call; a null user gives 404, a found user 200 with the user as JSON |
| AdminApi.UpdateUser | albaing-api/src/main/java/com/jobjob/albaing/controller/AdminController.java:98-117 | a non-numeric id gives 500 with no service call; otherwise the body's id is overwritten with the path id before the update |
| AdminApi.DeleteUser | albaing-api/src/main/java/com/jobjob/albaing/controller/AdminController.java:119-133 | one related-data delete call; 200 exactly when it returns |
| AdminApi.SearchResumes | albaing-api/src/main/java/com/jobjob/albaing/controller/AdminController.java:139-158 | one resume search whose sort defaults to 이름 |
| AdminApi.GetResumeDetail | albaing-api/src/main/java/com/jobjob/albaing/controller/AdminController.java:160-172 | null gives 404; a found record gives 200 with it as JSON |
| AdminApi.GetAllCompanies | albaing-api/src/main/java/com/jobjob/albaing/controller/AdminController.java:178-199 | one company search with the query as given |
| AdminApi.GetPendingCompanies | albaing-api/src/main/java/com/jobjob/albaing/controller/AdminController.java:201-210 | one pending-companies call |
| AdminApi.GetCompanyDetail | albaing-api/src/main/java/com/jobjob/albaing/controller/AdminController.java:212-224 | null gives 404; a found record gives 200 with it as JSON |
| AdminApi.UpdateCompanyStatus | albaing-api/src/main/java/com/jobjob/albaing/controller/AdminController.java:226-253 | a null or empty `companyApprovalStatus` gives 400 with no service call; any other string is forwarded unchecked, and an exception gives 500 |
| AdminApi.DeleteCompany | albaing-api/src/main/java/com/jobjob/albaing/controller/AdminController.java:255-272 | one related-data delete; the success body exactly when it returns |
| AdminApi.GetJobPosts | albaing-api/src/main/java/com/jobjob/albaing/controller/AdminController.java:278-296 | one job post search whose sort defaults to 공고 제목 |
| AdminApi.GetJobPostDetail | albaing-api/src/main/java/com/jobjob/albaing/controller/AdminController.java:298-310 | null gives 404; a found record gives 200 with it as JSON |
| AdminApi.UpdateJobPostStatus | albaing-api/src/main/java/com/jobjob/albaing/controller/AdminController.java:312-339 | a missing `status` gives 400 with no call; a non-numeric id gives 500 with no call, since the parse is inside the try; otherwise one status call |
| AdminApi.DeleteJobPost | albaing-api/src/main/java/com/jobjob/albaing/controller/AdminController.java:341-358 | one delete call; the success body exactly when it returns |
| AdminApi.GetApplications | albaing-api/src/main/java/com/jobjob/albaing/controller/AdminController.java:364-382 | one application search whose sort defaults to 지원자명 |
| AdminApi.GetAllReviewsForAdmin | albaing-api/src/main/java/com/jobjob/albaing/controller/AdminController.java:388-397 | one review-list call |
| AdminApi.GetReviewDetail | albaing-api/src/main/java/com/jobjob/albaing/controller/AdminController.java:399-425 | a non-numeric id gives 500; a null review gives 404 after one call; otherwise the review and its comments after two calls |
| AdminApi.UpdateReviewByAdmin | albaing-api/src/main/java/com/jobjob/albaing/controller/AdminController.java:427-446 | the path id overwrites the body's id; service true gives 200 and false gives 404 |
| AdminApi.DeleteReviewByAdmin | albaing-api/src/main/java/com/jobjob/albaing/controller/AdminController.java:448-457 | one review delete call |
| AdminApi.DeleteCommentByAdmin | albaing-api/src/main/java/com/jobjob/albaing/controller/AdminController.java:459-471 | one comment delete call |
| AdminApi.GetAllNotices | albaing-api/src/main/java/com/jobjob/albaing/controller/AdminController.java:477-486 | one notice-list call |
| AdminApi.GetNoticeById | albaing-api/src/main/java/com/jobjob/albaing/controller/AdminController.java:488-500 | null gives 404; a found record gives 200 with it as JSON |
| AdminApi.AddNotice | albaing-api/src/main/java/com/jobjob/albaing/controller/AdminController.java:502-511 | the notice is passed to the service as given |
| AdminApi.UpdateNotice | albaing-api/src/main/java/com/jobjob/albaing/controller/AdminController.java:513-527 | the path id overwrites the body's id and the other fields are kept |
| AdminApi.DeleteNotice | albaing-api/src/main/java/com/jobjob/albaing/controller/AdminController.java:529-538 | one notice delete call |
| AdminApi.Handle | albaing-api/src/main/java/com/jobjob/albaing/controller/AdminController.java:51-538 | every endpoint answers a non-admin with 403 and no call; an admin only ever gets 200/400/404/500; a 400 never reaches a service; a 404 is always a service's answer; an escaping exception is the last call's; at most two calls |
| AdminCompanyApi.GetAllCompanies | albaing-api/src/main/java/com/jobjob/albaing/controller/AdminCompanyController.java:30-39 | 403 first, then one call whose result is returned with 200 |
| AdminCompanyApi.GetPendingCompanies | albaing-api/src/main/java/com/jobjob/albaing/controller/AdminCompanyController.java:42-51 | 403 first, then one pending call |
| AdminCompanyApi.GetCompanyDetail | albaing-api/src/main/java/com/jobjob/albaing/controller/AdminCompanyController.java:54-66 | a missing company gives 404; a found one gives 200 with it as JSON |
| AdminCompanyApi.UpdateCompanyStatus | albaing-api/src/main/java/com/jobjob/albaing/controller/AdminCompanyController.java:69-96 | a null or empty status gives 400 with no call; service true gives 200 with `success`; false gives 500 |
| AdminCompanyApi.DeleteCompany | albaing-api/src/main/java/com/jobjob/albaing/controller/AdminCompanyController.java:99-116 | service true gives 200 with `success`, false gives 500 |
| AdminCompanyApi.Handle | albaing-api/src/main/java/com/jobjob/albaing/controller/AdminCompanyController.java:30-116 | a non-admin gets 403 with no call; a 400 never reaches the service; at most one call |
| AdminCompanyApi.UpdateCompanyStatusOn | albaing-api/src/main/java/com/jobjob/albaing/controller/AdminCompanyController.java:75-95 | the store is written only for an admin with a non-empty status; 200 exactly when the write did not throw |
| AdminCompanyApi.DeleteCompanyOn | albaing-api/src/main/java/com/jobjob/albaing/controller/AdminCompanyController.java:101-115 | nothing is deleted for a non-admin; 200 exactly when the whole deletion ran, and then the company and all its posts are gone |
| CompanyService.JobPostIdsOf | albaing-api/src/main/java/com/jobjob/albaing/service/CompanyServiceImpl.java:74 | the listed ids are exactly the ids of the company's job posts |
| CompanyService.PlannedCalls | albaing-api/src/main/java/com/jobjob/albaing/service/CompanyServiceImpl.java:74-80 | the plan has one call per listed id plus two: it starts with the id lookup and ends with the company delete |
| CompanyService.PlannedDeletes | albaing-api/src/main/java/com/jobjob/albaing/service/CompanyServiceImpl.java:75-77 | between those two, the plan deletes each listed job post once, in list order |
| CompanyService.PlannedPrefix | albaing-api/src/main/java/com/jobjob/albaing/service/CompanyServiceImpl.java:74-77 | the calls made up to any delete are a prefix of the plan |
| CompanyService.CompanyStore.constructor | albaing-api/src/main/java/com/jobjob/albaing/service/CompanyServiceImpl.java:14-20 | the tables the two mappers write: the given companies and job posts, with unique job post ids |
| CompanyService.CompanyStore.UpdateApprovalStatus | albaing-api/src/main/java/com/jobjob/albaing/service/CompanyServiceImpl.java:56-66 | any status string is written unchecked; the result is true iff the write did not throw, and a throwing write changes nothing |
| CompanyService.CompanyStore.DeleteJobPostRow | albaing-api/src/main/java/com/jobjob/albaing/service/CompanyServiceImpl.java:76 | only the job post with that id is removed |
| CompanyService.CompanyStore.DeleteListedJobPosts | albaing-api/src/main/java/com/jobjob/albaing/service/CompanyServiceImpl.java:75-77 | the loop deletes the listed posts in order and stops at the first delete that throws; the deletes before it stay done, and the attempted calls are the listed deletes up to and including the failing one |
| CompanyService.CompanyStore.DeleteCompany | albaing-api/src/main/java/com/jobjob/albaing/service/CompanyServiceImpl.java:68-86 | the calls made are a prefix of the plan, cut at the failing step; the posts deleted before a fault stay deleted; the company row goes only when every step succeeds; the result is true iff no step failed; applications, reviews and scraps are untouched |
| CompanyService.DeleteCompanySucceeded | albaing-api/src/main/java/com/jobjob/albaing/service/CompanyServiceImpl.java:74-81 | after a full deletion no post of the company remains, every other company's post remains in order, the company row is gone and every other company row is unchanged |
| CompanyService.RemoveCompanyPosts | albaing-api/src/main/java/com/jobjob/albaing/service/CompanyServiceImpl.java:75-77 | deleting every listed id is the same as dropping exactly the company's posts |
| CompanyService.RemoveOneMore | albaing-api/src/main/java/com/jobjob/albaing/service/CompanyServiceImpl.java:75-77 | one more loop iteration deletes exactly the next listed id |
| CompanyService.RemoveNone | albaing-api/src/main/java/com/jobjob/albaing/service/CompanyServiceImpl.java:74 | before the loop, no post is deleted |
| CompanyService.FilterKeepsUniqueIds | albaing-api/src/main/java/com/jobjob/albaing/service/CompanyServiceImpl.java:76 | deleting rows keeps job post ids unique |
| DataTable.NextSort | albaing-web/src/pages/admin/AdminDataTable.jsx:25-31 | the clicked key becomes the sort key; the result is descending iff the same key was ascending |
| DataTable.NextSortAlternates | albaing-web/src/pages/admin/AdminDataTable.jsx:25-31 | clicking the same key repeatedly alternates the direction, so three clicks equal one |
| DataTable.SortedData | albaing-web/src/pages/admin/AdminDataTable.jsx:34-46 | no key leaves the data as it is; otherwise the result is a permutation of the input, ordered by the key in the chosen direction |
| Sorting.SortBySorted | albaing-web/src/pages/admin/AdminDataTable.jsx:37-45 | the copy-sort yields a sequence ordered by the comparator in either direction |
| Sorting.CompareTransitive | albaing-web/src/pages/admin/AdminDataTable.jsx:38-44 | the two-branch comparator is a consistent ordering on present keys |
| DataTable.SearchFiltered | albaing-web/src/pages/admin/AdminDataTable.jsx:53-60 | an empty term keeps everything; otherwise the rows some column of which contains the term case-insensitively |
| DataTable.SearchMember | albaing-web/src/pages/admin/AdminDataTable.jsx:53-60 | a row survives the search iff it is in the input and some column is non-empty and contains the term |
| DataTable.ApplyFiltersMember | albaing-web/src/pages/admin/AdminDataTable.jsx:63-69 | a row is in the filtered list iff it is in the input and passes every non-empty column filter |
| DataTable.ApplyFilters | albaing-web/src/pages/admin/AdminDataTable.jsx:63-69 | the result is a subsequence holding exactly the rows that pass every non-empty column filter |
| DataTable.ApplyFiltersStep | albaing-web/src/pages/admin/AdminDataTable.jsx:63-69 | applying one more filter narrows the previous result by that filter alone |
| DataTable.NarrowByFilters | albaing-web/src/pages/admin/AdminDataTable.jsx:63-69 | the `forEach` that reassigns the array computes the conjunction of the filters |
| DataTable.FilteredRowsSpec | albaing-web/src/pages/admin/AdminDataTable.jsx:49-72 | the filtered data is a subsequence of the sorted data, with exactly the rows that match the search and all filters |
| DataTable.TotalPages | albaing-web/src/pages/admin/AdminDataTable.jsx:139 | the page count is the ceiling of rows over page size: the pages cover every row and the last is non-empty |
| DataTable.PageSpec | albaing-web/src/pages/admin/AdminDataTable.jsx:75-79 | a page holds at most `rowsPerPage` rows starting at `(currentPage-1)*rowsPerPage`, and is non-empty iff the page is within the page count |
| DataTable.PageWindow | albaing-web/src/pages/admin/AdminDataTable.jsx:418-425 | the page buttons as written: at most min(5, totalPages) numbers, each within 1..totalPages |
| DataTable.PageWindowMissesCurrent | albaing-web/src/pages/admin/AdminDataTable.jsx:418-425 | with four pages on page 4 the window is [1,2,3], which leaves out the current page |
| DataTable.PageWindowFixed | albaing-web/src/pages/admin/AdminDataTable.jsx:418-425 | the corrected window has exactly min(5, totalPages) consecutive numbers within range, and it contains the current page |
| DataTable.PageWindowAgrees | albaing-web/src/pages/admin/AdminDataTable.jsx:418-425 | the corrected window equals the original everywhere except four pages on page 4 |
| DataTable.PrevNextStayInRange | albaing-web/src/pages/admin/AdminDataTable.jsx:347-356 | prev and next keep a page inside 1..totalPages |
| DataTable.PrevPage | albaing-web/src/pages/admin/AdminDataTable.jsx:347 | never below 1, and one lower when above 1 |
| DataTable.NextPage | albaing-web/src/pages/admin/AdminDataTable.jsx:356 | never above the page count, and one higher when below it |
| DataTable.ToggleSelection | albaing-web/src/pages/admin/AdminDataTable.jsx:82-90 | the id's membership flips and every other id's is unchanged; an absent id is appended at the end |
| DataTable.ToggleTwice | albaing-web/src/pages/admin/AdminDataTable.jsx:82-90 | toggling adds no duplicates, and toggling twice restores the selected set |
| DataTable.CsvField | albaing-web/src/pages/admin/AdminDataTable.jsx:106-108 | a value containing a comma is wrapped in double quotes; others are written as they are; a missing value is empty |
| DataTable.SetFilter | albaing-web/src/pages/admin/AdminDataTable.jsx:123-127 | the key now holds the new value, and every filter of another key is kept |
| DataTable.SetFilterAbsent | albaing-web/src/pages/admin/AdminDataTable.jsx:123-127 | a key the filters lack is appended after the existing ones |
| DataTable.SetFilterPresent | albaing-web/src/pages/admin/AdminDataTable.jsx:123-127 | a key first found at one position takes the new value at that position, nothing else changes |
| DataTable.SetFilterSpec | albaing-web/src/pages/admin/AdminDataTable.jsx:123-127 | on filters with distinct keys: the keys stay distinct; every entry of the key holds the new value; other entries keep their place and value; the length grows exactly when the key is new, by appending it |
| DataTable.Table.constructor | albaing-web/src/pages/admin/AdminDataTable.jsx:17-22 | the initial state: no search, no sort key, nothing selected, page 1 of 10 rows, no filters |
| DataTable.Table.GetFilteredData | albaing-web/src/pages/admin/AdminDataTable.jsx:49-72 | returns the filtered rows of the current state |
| DataTable.Table.GetPaginatedData | albaing-web/src/pages/admin/AdminDataTable.jsx:75-79 | returns the current page, of at most `rowsPerPage` rows |
| DataTable.Table.HandleSort | albaing-web/src/pages/admin/AdminDataTable.jsx:25-31 | the sort state advances by `NextSort` |
| DataTable.Table.HandleRowSelect | albaing-web/src/pages/admin/AdminDataTable.jsx:82-90 | the selection is toggled for that id |
| DataTable.Table.HandleSelectAll | albaing-web/src/pages/admin/AdminDataTable.jsx:93-99 | a selection as long as the page is cleared; otherwise it becomes the ids of the current page |
| DataTable.Table.HandleFilterChange | albaing-web/src/pages/admin/AdminDataTable.jsx:123-129 | the filter is set and the page returns to 1 |
| DataTable.Table.HandleSearchChange | albaing-web/src/pages/admin/AdminDataTable.jsx:175-179 | the term is set and the page returns to 1 |
| DataTable.Table.HandleRowsPerPageChange | albaing-web/src/pages/admin/AdminDataTable.jsx:380-384 | the page size is set and the page returns to 1 |
| DataTable.Table.HandleBulkDelete | albaing-web/src/pages/admin/AdminDataTable.jsx:132-137 | on confirmation every selected id is passed to `onDelete` in order and the selection is cleared; otherwise nothing changes |
| DataTable.Table.HandlePrev | albaing-web/src/pages/admin/AdminDataTable.jsx:347 | the page steps back, clamped at 1 |
| DataTable.Table.HandleNext | albaing-web/src/pages/admin/AdminDataTable.jsx:356 | the page steps forward, clamped at the page count |
| DataTable.Table.ExportToCsv | albaing-web/src/pages/admin/AdminDataTable.jsx:102-112 | the export is the column headings on one line, then one line per filtered row in filter order, each cell quoted when it contains a comma |
| ReviewManage.Camel | albaing-web/src/pages/admin/manage/reviews/AdminReviewManage.jsx:76 | the camelCase form is never longer than the field name |
| ReviewManage.CamelNoSnake | albaing-web/src/pages/admin/manage/reviews/AdminReviewManage.jsx:76 | the result has no `_` followed by a lowercase letter |
| ReviewManage.CamelIdempotent | albaing-web/src/pages/admin/manage/reviews/AdminReviewManage.jsx:76 | converting twice is the same as converting once |
| ReviewManage.CamelWithoutUnderscore | albaing-web/src/pages/admin/manage/reviews/AdminReviewManage.jsx:76 | a name without `_` is unchanged |
| ReviewManage.CamelConcat | albaing-web/src/pages/admin/manage/reviews/AdminReviewManage.jsx:76 | the conversion works piecewise across a split that does not end in `_` |
| ReviewManage.CamelReviewCreatedAt | albaing-web/src/pages/admin/manage/reviews/AdminReviewManage.jsx:76 | `review_created_at` becomes `reviewCreatedAt` |
| ReviewManage.CamelReviewId | albaing-web/src/pages/admin/manage/reviews/AdminReviewManage.jsx:76 | `review_id` becomes `reviewId` |
| ReviewManage.CamelCompanyName | albaing-web/src/pages/admin/manage/reviews/AdminReviewManage.jsx:76 | `company_name` becomes `companyName` |
| ReviewManage.CamelUserName | albaing-web/src/pages/admin/manage/reviews/AdminReviewManage.jsx:76 | `user_name` becomes `userName` |
| ReviewManage.CamelReviewTitle | albaing-web/src/pages/admin/manage/reviews/AdminReviewManage.jsx:76 | `review_title` becomes `reviewTitle` |
| ReviewManage.NestedField | albaing-web/src/pages/admin/manage/reviews/AdminReviewManage.jsx:74-80 | the camelCase value when it is defined, otherwise the field as given |
| ReviewManage.NestedFieldPlain | albaing-web/src/pages/admin/manage/reviews/AdminReviewManage.jsx:74-80 | a field without snake parts reads the plain cell |
| ReviewManage.Either | albaing-web/src/pages/admin/manage/reviews/AdminReviewManage.jsx:40-42 | `a \|\| b \|\| ''`: the camel value when non-empty, else the snake value, else empty |
| ReviewManage.ArrangedMembers | albaing-web/src/pages/admin/manage/reviews/AdminReviewManage.jsx:36-44 | a review is kept iff the term is empty or its title, user name or company name contains the lowercased term |
| ReviewManage.ArrangedPermutation | albaing-web/src/pages/admin/manage/reviews/AdminReviewManage.jsx:36-57 | the sorted list is a permutation of the searched list, and with no term it is a permutation of all reviews |
| ReviewManage.ArrangedSorted | albaing-web/src/pages/admin/manage/reviews/AdminReviewManage.jsx:47-57 | the list is ordered by the sort field in the chosen direction |
| ReviewManage.ArrangeAndPage | albaing-web/src/pages/admin/manage/reviews/AdminReviewManage.jsx:59-64 | the total counts every filtered review before paging; the page is the slice at `(p-1)n` of at most `n` rows |
| ReviewManage.SortFieldName | albaing-web/src/pages/admin/manage/reviews/AdminReviewManage.jsx:156-171 | the five column keys map to their snake names and unknown keys pass through |
| ReviewManage.SortFieldRoundTrip | albaing-web/src/pages/admin/manage/reviews/AdminReviewManage.jsx:158-168 | the field lookup turns each mapped snake name back into its column key |
| ReviewManage.ReviewIdOf | albaing-web/src/pages/admin/manage/reviews/AdminReviewManage.jsx:102 | `reviewId \|\| review_id` |
| ReviewManage.DeleteRemovesOnlyThatReview | albaing-web/src/pages/admin/manage/reviews/AdminReviewManage.jsx:101-103 | the list after a delete keeps, in order, exactly the reviews with another id |
| ReviewManage.ReviewScreen.constructor | albaing-web/src/pages/admin/manage/reviews/AdminReviewManage.jsx:12-18 | the initial search state, sorted by `review_created_at` descending |
| ReviewManage.ReviewScreen.FetchReviews | albaing-web/src/pages/admin/manage/reviews/AdminReviewManage.jsx:28-71 | the shown page and total come from the search, sort and slice pipeline; a failure keeps the old list |
| ReviewManage.ReviewScreen.HandleSort | albaing-web/src/pages/admin/manage/reviews/AdminReviewManage.jsx:156-174 | the sort field is mapped, the direction is set and the page goes back to 1; the scheduled refetch sends the list GET and shows the answer arranged and paged with the parameters as they were before the handler |
| ReviewManage.ReviewScreen.HandlePageChange | albaing-web/src/pages/admin/manage/reviews/AdminReviewManage.jsx:176-183 | only the page and the page size change, an omitted size keeping the current one; the scheduled refetch shows the answer with the parameters as they were before the handler |
| ReviewManage.ReviewScreen.HandleSearch | albaing-web/src/pages/admin/manage/reviews/AdminReviewManage.jsx:145-154 | the term, page and page size are set, an omitted page being 1 and an omitted size the current one; the scheduled refetch shows the answer with the parameters as they were before the handler |
| ReviewManage.ReviewScreen.HandleDelete | albaing-web/src/pages/admin/manage/reviews/AdminReviewManage.jsx:82-113 | nothing is sent without confirmation; the review DELETE follows only a successful comments DELETE; the list changes only when both succeed |
| Client.Chain | albaing-web/src/pages/admin/manage/users/AdminUsersManage.jsx:107-110 | the first request is always sent; the second is sent iff the first succeeded |
| Client.ChainOrder | albaing-web/src/pages/admin/manage/users/AdminUsersManage.jsx:107-110 | wherever the dependent request appears, it is second and the first one succeeded |
| ListQuery.SortLabel | albaing-web/src/pages/admin/manage/companies/AdminCompaniesManage.jsx:73-82 | `fieldMap[key] \|\| key`: a mapped key gives its label, and an unknown key passes through |
| ListQuery.WithSort | albaing-web/src/pages/admin/manage/companies/AdminCompaniesManage.jsx:71-87 | the sort label is set, `isDESC` is true iff the direction is `desc`, and the rest is kept |
| ListQuery.WithSearch | albaing-web/src/pages/admin/manage/companies/AdminCompaniesManage.jsx:60-69 | the search field takes the term; the page is the given page, or 1 when it is missing or 0; the page size is likewise defaulted |
| ListQuery.WithFilters | albaing-web/src/pages/admin/manage/companies/AdminCompaniesManage.jsx:89-97 | the filters are merged over the old ones and the page goes back to 1 |
| ListQuery.WithPage | albaing-web/src/pages/admin/manage/companies/AdminCompaniesManage.jsx:99-107 | the page is set; the page size changes only when a truthy one is given |
| ListQuery.SentFilters | albaing-web/src/pages/admin/manage/companies/AdminCompaniesManage.jsx:36-41 | `x \|\| undefined`: an empty filter is not sent, and a non-empty one is sent as it is |
| ListQuery.Params | albaing-web/src/pages/admin/manage/companies/AdminCompaniesManage.jsx:36-46 | the sort, `isDESC`, page and limit are always sent, together with the non-empty text filters |
| ListQuery.HandlersKeepWellFormed | albaing-web/src/pages/admin/manage/companies/AdminCompaniesManage.jsx:60-107 | every list handler keeps the page and page size positive |
| AdminJobPosts.NextSort | albaing-web/src/pages/admin/manage/jobPosts/AdminJobPosts.jsx:249-256 | the same field flips asc and desc; a different field is selected ascending |
| AdminJobPosts.SortTwiceRestores | albaing-web/src/pages/admin/manage/jobPosts/AdminJobPosts.jsx:249-256 | two clicks on the current field restore the sort |
| AdminJobPosts.Params | albaing-web/src/pages/admin/manage/jobPosts/AdminJobPosts.jsx:132-155 | the three filters are sent as they are; `isDESC` is true iff the direction is `desc` |
| AdminJobPosts.CurrentJobPosts | albaing-web/src/pages/admin/manage/jobPosts/AdminJobPosts.jsx:258-262 | the shown posts are page `currentPage` of 10 posts |
| AdminJobPosts.CurrentJobPostsSpec | albaing-web/src/pages/admin/manage/jobPosts/AdminJobPosts.jsx:258-262 | at most 10 posts, starting at `(p-1)*10`, and non-empty iff the page exists |
| AdminJobPosts.JobPostsBoard.constructor | albaing-web/src/pages/admin/manage/jobPosts/AdminJobPosts.jsx:113-126 | initially sorted by `jobPostCreatedAt` descending, on page 1, with empty filters |
| AdminJobPosts.JobPostsBoard.FetchJobPosts | albaing-web/src/pages/admin/manage/jobPosts/AdminJobPosts.jsx:132-155 | one list request with the current filters and sort; a failure keeps the list |
| AdminJobPosts.JobPostsBoard.HandleSort | albaing-web/src/pages/admin/manage/jobPosts/AdminJobPosts.jsx:157-159 | the sort advances by `NextSort` and always changes, so the effect on the sort state sends a list request with the new sort |
| AdminJobPosts.JobPostsBoard.HandleFilterChange | albaing-web/src/pages/admin/manage/jobPosts/AdminJobPosts.jsx:241-247 | only the named filter changes |
| AdminJobPosts.JobPostsBoard.HandleUpdateStatus | albaing-web/src/pages/admin/manage/jobPosts/AdminJobPosts.jsx:189-202 | a PATCH with the status; on success a refetch, which clears the error; the fixed error text on failure |
| AdminJobPosts.JobPostsBoard.HandleDeleteJobPost | albaing-web/src/pages/admin/manage/jobPosts/AdminJobPosts.jsx:205-221 | nothing happens when no post is selected; otherwise one DELETE of the selected post; on success a refetch that clears the error, and no selection; on failure the fixed error text |
| AdminJobPosts.JobPostsBoard.Select | albaing-web/src/pages/admin/manage/jobPosts/AdminJobPosts.jsx:224-234 | the chosen post becomes the selection |
| ApplicationsManagee.NextSort | albaing-web/src/pages/admin/manage/applications/AdminApplicationsManagee.jsx:111-117 | the same field toggles `isDESC`; a new field is set with `isDESC` false; the filters are kept |
| ApplicationsManagee.SortTwice | albaing-web/src/pages/admin/manage/applications/AdminApplicationsManagee.jsx:111-117 | two clicks on the current field restore the state |
| ApplicationsManagee.Params | albaing-web/src/pages/admin/manage/applications/AdminApplicationsManagee.jsx:40-66 | empty-string filters are sent as undefined, i.e. left out, and the sort is always sent |
| ApplicationsManagee.SourceOf | albaing-web/src/pages/admin/manage/applications/AdminApplicationsManagee.jsx:68-96 | a truthy `userId` wins; otherwise a truthy `jobPostId`; otherwise the plain listing |
| ApplicationsManagee.FilteredFetchIgnoresForm | albaing-web/src/pages/admin/manage/applications/AdminApplicationsManagee.jsx:68-96 | a filtered fetch sends no search form parameters at all |
| ApplicationsManagee.StatusText | albaing-web/src/pages/admin/manage/applications/AdminApplicationsManagee.jsx:119-134 | the confirmation words for approving, approved and denied; none for other statuses |
| ApplicationsManagee.StatusBadge | albaing-web/src/pages/admin/manage/applications/AdminApplicationsManagee.jsx:168-175 | the three known statuses get labels; an unknown status shows raw |
| ApplicationsManagee.WithStatus | albaing-web/src/pages/admin/manage/applications/AdminApplicationsManagee.jsx:139-145 | only applications with the matching id get the new status; the length and every other entry are unchanged |
| ApplicationsManagee.WithStatusKeepsRows | albaing-web/src/pages/admin/manage/applications/AdminApplicationsManagee.jsx:139-145 | ids and details are kept, and applying the same update twice equals once |
| ApplicationsManagee.ApplicationsBoard.constructor | albaing-web/src/pages/admin/manage/applications/AdminApplicationsManagee.jsx:7-16 | no applications and the initial search parameters |
| ApplicationsManagee.ApplicationsBoard.Fetch | albaing-web/src/pages/admin/manage/applications/AdminApplicationsManagee.jsx:40-96 | the request follows `SourceOf`; a failure keeps the list |
| ApplicationsManagee.ApplicationsBoard.HandleInputChange | albaing-web/src/pages/admin/manage/applications/AdminApplicationsManagee.jsx:103-109 | only the named field of the form changes |
| ApplicationsManagee.ApplicationsBoard.HandleSortChange | albaing-web/src/pages/admin/manage/applications/AdminApplicationsManagee.jsx:22-38 | the sort always changes; the effect refetches the listing only when there is no query string |
| ApplicationsManagee.ApplicationsBoard.HandleStatusChange | albaing-web/src/pages/admin/manage/applications/AdminApplicationsManagee.jsx:119-161 | nothing is sent unless confirmed; a PUT of the status; on success only the matching application changes; a failure keeps the list |
| ApplicationsManage.SortLabels | albaing-web/src/pages/admin/manage/applications/AdminApplicationsManage.jsx:97-108 | applicantName, companyName and applicationAt map to 지원자명, 법인명 and 지원일; other keys pass through |
| ApplicationsManage.FilteredRequest | albaing-web/src/pages/admin/manage/applications/AdminApplicationsManage.jsx:71-84 | a parameter is sent iff its value is truthy, and no other parameter is sent |
| ApplicationsManage.StatusWord | albaing-web/src/pages/admin/manage/applications/AdminApplicationsManage.jsx:136 | approved gives 승인, denied gives 거절, anything else 대기 |
| ApplicationsManage.ApplicationsScreen.constructor | albaing-web/src/pages/admin/manage/applications/AdminApplicationsManage.jsx:8-20 | no applications, a total of 0 and the initial search parameters |
| ApplicationsManage.ApplicationsScreen.Fetch | albaing-web/src/pages/admin/manage/applications/AdminApplicationsManage.jsx:26-84 | a filtered request when a truthy id is given, otherwise the list request; a failure keeps the list |
| ApplicationsManage.ApplicationsScreen.HandleSearch | albaing-web/src/pages/admin/manage/applications/AdminApplicationsManage.jsx:86-95 | `userName` becomes the term and the page becomes the given page or 1 |
| ApplicationsManage.ApplicationsScreen.HandleSort | albaing-web/src/pages/admin/manage/applications/AdminApplicationsManage.jsx:97-112 | the label and `isDESC` are set; the effect adds a refetch with the new sort when it changed and there is no query string |
| ApplicationsManage.ApplicationsScreen.HandleFilter | albaing-web/src/pages/admin/manage/applications/AdminApplicationsManage.jsx:114-122 | the filters are merged and the page returns to 1 |
| ApplicationsManage.ApplicationsScreen.HandlePageChange | albaing-web/src/pages/admin/manage/applications/AdminApplicationsManage.jsx:124-132 | the page and page size are set |
| ApplicationsManage.ApplicationsScreen.HandleStatusChange | albaing-web/src/pages/admin/manage/applications/AdminApplicationsManage.jsx:134-161 | nothing is sent unless confirmed; on success `approveStatus` changes only for the matching id |
| CompaniesManage.SortLabels | albaing-web/src/pages/admin/manage/companies/AdminCompaniesManage.jsx:71-87 | the four known keys map to their Korean labels; unknown keys pass through |
| CompaniesManage.PendingCount | albaing-web/src/pages/admin/manage/companies/AdminCompaniesManage.jsx:181-183 | the number of companies whose status is `approving`; zero iff none is pending |
| CompaniesManage.StatusBadge | albaing-web/src/pages/admin/manage/companies/AdminCompaniesManage.jsx:164-178 | approved, approving and hidden get labels; other statuses show raw |
| CompaniesManage.WithoutCompany | albaing-web/src/pages/admin/manage/companies/AdminCompaniesManage.jsx:112 | exactly the companies with another id remain, in their order |
| CompaniesManage.WithoutListedCompany | albaing-web/src/pages/admin/manage/companies/AdminCompaniesManage.jsx:112 | with unique ids, removing a listed company drops that one entry and nothing else |
| CompaniesManage.CompaniesScreen.constructor | albaing-web/src/pages/admin/manage/companies/AdminCompaniesManage.jsx:10-23 | no companies, a total of 0 and the initial search parameters |
| CompaniesManage.CompaniesScreen.FetchCompanies | albaing-web/src/pages/admin/manage/companies/AdminCompaniesManage.jsx:33-58 | one list request with the current parameters; a failure keeps the list |
| CompaniesManage.CompaniesScreen.HandleSearch | albaing-web/src/pages/admin/manage/companies/AdminCompaniesManage.jsx:60-69 | `companyName` becomes the term |
| CompaniesManage.CompaniesScreen.HandleSort | albaing-web/src/pages/admin/manage/companies/AdminCompaniesManage.jsx:71-87 | the sort label and `isDESC` are set |
| CompaniesManage.CompaniesScreen.HandleFilter | albaing-web/src/pages/admin/manage/companies/AdminCompaniesManage.jsx:89-97 | the filters are merged and `currentPage` resets to 1 |
| CompaniesManage.CompaniesScreen.HandlePageChange | albaing-web/src/pages/admin/manage/companies/AdminCompaniesManage.jsx:99-107 | the page and page size are set |
| CompaniesManage.CompaniesScreen.HandleDelete | albaing-web/src/pages/admin/manage/companies/AdminCompaniesManage.jsx:109-118 | one DELETE; on success exactly that company leaves the list; a failure keeps the list |
| CompaniesManage.CompaniesScreen.ConfirmApprove | albaing-web/src/pages/admin/manage/companies/AdminCompaniesManage.jsx:120-143 | nothing is sent unless confirmed; otherwise a PATCH to `approved`, then a refetch on success |
| CompaniesManage.CompaniesScreen.ConfirmDelete | albaing-web/src/pages/admin/manage/companies/AdminCompaniesManage.jsx:145-157 | nothing is sent unless confirmed; otherwise it behaves as the delete |
| CompanyDetail.OfferedStatus | albaing-web/src/pages/admin/manage/companies/AdminCompanyDetail.jsx:144-169 | approving offers approved, approved offers hidden, hidden offers approved; nothing ever offers approving |
| CompanyDetail.NeverBackToApproving | albaing-web/src/pages/admin/manage/companies/AdminCompanyDetail.jsx:144-169 | after one or more offered changes the status is approved or hidden, never approving |
| CompanyDetail.ApprovedHiddenAlternate | albaing-web/src/pages/admin/manage/companies/AdminCompanyDetail.jsx:153-169 | from approved or hidden, the offered changes alternate between the two |
| CompanyDetail.CompanyDetailScreen.constructor | albaing-web/src/pages/admin/manage/companies/AdminCompanyDetail.jsx:8-12 | the route's company id, no company, no edit form, not editing |
| CompanyDetail.CompanyDetailScreen.FetchCompanyDetail | albaing-web/src/pages/admin/manage/companies/AdminCompanyDetail.jsx:20-33 | the response fills both the company and the edit form; a failure keeps them |
| CompanyDetail.CompanyDetailScreen.HandleStatusChange | albaing-web/src/pages/admin/manage/companies/AdminCompanyDetail.jsx:35-47 | on success the local status equals the requested one and other fields are unchanged; a failure changes nothing |
| CompanyDetail.CompanyDetailScreen.HandleDelete | albaing-web/src/pages/admin/manage/companies/AdminCompanyDetail.jsx:49-66 | nothing is sent unless confirmed; navigation to the list only after a successful DELETE |
| CompanyDetail.CompanyDetailScreen.HandleUpdateCompany | albaing-web/src/pages/admin/manage/companies/AdminCompanyDetail.jsx:68-82 | a PUT of the edit form; on success the company becomes the form and editing ends |
| CompaniesApproval.DecisionStatus | albaing-web/src/pages/admin/manage/companies/AdminCompaniesApproval.jsx:35-73 | approve sends `approved` and reject sends `hidden` |
| CompaniesApproval.ApprovalScreen.constructor | albaing-web/src/pages/admin/manage/companies/AdminCompaniesApproval.jsx:7 | the pending list starts empty |
| CompaniesApproval.ApprovalScreen.DisplayedCount | albaing-web/src/pages/admin/manage/companies/AdminCompaniesApproval.jsx:109 | the count shown is the pending list's length |
| CompaniesApproval.ApprovalScreen.FetchPendingCompanies | albaing-web/src/pages/admin/manage/companies/AdminCompaniesApproval.jsx:16-33 | the pending list is the response; a failure keeps it |
| CompaniesApproval.ApprovalScreen.Decide | albaing-web/src/pages/admin/manage/companies/AdminCompaniesApproval.jsx:35-73 | on success the company leaves the pending list and the others keep their order; a failure keeps the list |
| CompaniesApproval.ApprovalScreen.Confirm | albaing-web/src/pages/admin/manage/companies/AdminCompaniesApproval.jsx:75-95 | nothing is sent unless confirmed; otherwise it behaves as the decision |
| CompaniesApproval.DecisionLowersCount | albaing-web/src/pages/admin/manage/companies/AdminCompaniesApproval.jsx:38 | with unique ids a successful decision lowers the displayed count by one |
| JobPostManage.SortLabels | albaing-web/src/pages/admin/manage/jobposts/AdminJobPostManage.jsx:64-79 | three keys map to labels and the rest pass through |
| JobPostManage.WithStatus | albaing-web/src/pages/admin/manage/jobposts/AdminJobPostManage.jsx:115-117 | only the matching post's `jobPostStatus` changes; the length and the others are kept |
| JobPostManage.ToggleBackRestores | albaing-web/src/pages/admin/manage/jobposts/AdminJobPostManage.jsx:112-123 | toggling a post and toggling it back restores the list |
| JobPostManage.WithoutPost | albaing-web/src/pages/admin/manage/jobposts/AdminJobPostManage.jsx:104 | exactly the posts with another id remain, in order |
| JobPostManage.JobPostsScreen.constructor | albaing-web/src/pages/admin/manage/jobposts/AdminJobPostManage.jsx:8-19 | no posts, a total of 0 and the initial search parameters |
| JobPostManage.JobPostsScreen.FetchJobPosts | albaing-web/src/pages/admin/manage/jobposts/AdminJobPostManage.jsx:28-51 | one list request; a failure keeps the list |
| JobPostManage.JobPostsScreen.HandleSearch | albaing-web/src/pages/admin/manage/jobposts/AdminJobPostManage.jsx:53-62 | `jobPostTitle` becomes the term and the page becomes the given page or 1 |
| JobPostManage.JobPostsScreen.HandleSort | albaing-web/src/pages/admin/manage/jobposts/AdminJobPostManage.jsx:64-79 | the label and `isDESC` are set |
| JobPostManage.JobPostsScreen.HandleFilter | albaing-web/src/pages/admin/manage/jobposts/AdminJobPostManage.jsx:81-89 | the filters are merged and the page resets to 1 |
| JobPostManage.JobPostsScreen.HandlePageChange | albaing-web/src/pages/admin/manage/jobposts/AdminJobPostManage.jsx:91-99 | the page and page size are set |
| JobPostManage.JobPostsScreen.HandleDelete | albaing-web/src/pages/admin/manage/jobposts/AdminJobPostManage.jsx:101-110 | the applications DELETE comes first and the post DELETE only after it succeeds; exactly that post leaves the list when both succeed |
| JobPostManage.JobPostsScreen.ToggleJobPostStatus | albaing-web/src/pages/admin/manage/jobposts/AdminJobPostManage.jsx:112-123 | sends the negation of the current status; on success only that post flips |
| JobPostManage.JobPostsScreen.ConfirmStatusChange | albaing-web/src/pages/admin/manage/jobposts/AdminJobPostManage.jsx:139-151 | nothing is sent unless confirmed; otherwise it toggles as above |
| JobPostManage.JobPostsScreen.ConfirmDelete | albaing-web/src/pages/admin/manage/jobposts/AdminJobPostManage.jsx:125-137 | nothing is sent unless confirmed; otherwise it is the chained delete |
| JobPostDetail.OfferedStatus | albaing-web/src/pages/admin/manage/jobposts/AdminJobPostDetail.jsx:141-155 | the button offers the opposite of the current status |
| JobPostDetail.WithStatus | albaing-web/src/pages/admin/manage/jobposts/AdminJobPostDetail.jsx:42-45 | the status is replaced and every other field is kept |
| JobPostDetail.ToggleTwiceRestores | albaing-web/src/pages/admin/manage/jobposts/AdminJobPostDetail.jsx:141-155 | taking the offered change twice restores the post |
| JobPostDetail.JobPostDetailScreen.constructor | albaing-web/src/pages/admin/manage/jobposts/AdminJobPostDetail.jsx:8-12 | the route's post id, no post, no edit form, not editing |
| JobPostDetail.JobPostDetailScreen.FetchJobPostDetail | albaing-web/src/pages/admin/manage/jobposts/AdminJobPostDetail.jsx:20-33 | the response fills the post and the form; a failure keeps them |
| JobPostDetail.JobPostDetailScreen.HandleStatusChange | albaing-web/src/pages/admin/manage/jobposts/AdminJobPostDetail.jsx:35-53 | on success the status equals the requested value with other fields unchanged; a failure keeps the post |
| JobPostDetail.JobPostDetailScreen.HandleDelete | albaing-web/src/pages/admin/manage/jobposts/AdminJobPostDetail.jsx:55-76 | nothing is sent without confirmation; the post DELETE only after the applications DELETE succeeds; navigation only after both succeed |
| JobPostDetail.JobPostDetailScreen.HandleUpdateJobPost | albaing-web/src/pages/admin/manage/jobposts/AdminJobPostDetail.jsx:78-92 | a PUT of the form as JSON (`RecordJson`) to the post's path; on success the post becomes the form and editing ends; a failure changes nothing |
| JobPostDetail.RecordJson | albaing-web/src/pages/admin/manage/jobposts/AdminJobPostDetail.jsx:81 | the JSON body carries every field of the form and the status as `true`/`false`, and nothing else |
| UsersManage.SortLabels | albaing-web/src/pages/admin/manage/users/AdminUsersManage.jsx:67-83 | userName, userEmail, userPhone and userCreatedAt map to 이름, 이메일, 전화번호 and 가입일; other keys pass through |
| UsersManage.WithoutUser | albaing-web/src/pages/admin/manage/users/AdminUsersManage.jsx:112 | exactly the users with another id remain, in order |
| UsersManage.UsersScreen.constructor | albaing-web/src/pages/admin/manage/users/AdminUsersManage.jsx:9-20 | no users, a total of 0 and the initial search parameters |
| UsersManage.UsersScreen.FetchUsers | albaing-web/src/pages/admin/manage/users/AdminUsersManage.jsx:30-53 | one list request; a failure keeps the list |
| UsersManage.UsersScreen.HandleSearch | albaing-web/src/pages/admin/manage/users/AdminUsersManage.jsx:55-65 | `userName` becomes the term |
| UsersManage.UsersScreen.HandleSort | albaing-web/src/pages/admin/manage/users/AdminUsersManage.jsx:67-83 | the label and `isDESC` are set |
| UsersManage.UsersScreen.HandleFilter | albaing-web/src/pages/admin/manage/users/AdminUsersManage.jsx:85-93 | the filters are merged and the page resets to 1 |
| UsersManage.UsersScreen.HandlePageChange | albaing-web/src/pages/admin/manage/users/AdminUsersManage.jsx:95-103 | the page and page size are set |
| UsersManage.UsersScreen.HandleDelete | albaing-web/src/pages/admin/manage/users/AdminUsersManage.jsx:105-118 | the user DELETE only after the related-data DELETE succeeds; on success only that user leaves the list, and on failure the list is unchanged |
| UserDetail.StateOf | albaing-web/src/pages/admin/manage/users/AdminUserDetail.jsx:107-123 | a field counts as filled iff it is text that is not whitespace-only; a checked checkbox value makes `.trim` throw |
| UserDetail.Validate | albaing-web/src/pages/admin/manage/users/AdminUserDetail.jsx:103-123 | a missing name is reported first, then a missing email; the form passes iff both are filled |
| UserDetail.PassedFormHasNameAndEmail | albaing-web/src/pages/admin/manage/users/AdminUserDetail.jsx:107-123 | a form that passes has a non-blank name and email |
| UserDetail.Encode | albaing-web/src/pages/admin/manage/users/AdminUserDetail.jsx:126 | the PUT body has exactly the form's keys, each with its value as text |
| UserDetail.UserDetailScreen.constructor | albaing-web/src/pages/admin/manage/users/AdminUserDetail.jsx:8-12 | the route's user id, no user, no edit form, not editing |
| UserDetail.UserDetailScreen.FetchUserDetail | albaing-web/src/pages/admin/manage/users/AdminUserDetail.jsx:27-46 | the response fills the user and the form; a failure keeps them |
| UserDetail.UserDetailScreen.HandleInputChange | albaing-web/src/pages/admin/manage/users/AdminUserDetail.jsx:87-93 | only the named field changes |
| UserDetail.UserDetailScreen.HandleCheckboxChange | albaing-web/src/pages/admin/manage/users/AdminUserDetail.jsx:95-101 | only the named field changes, to the checked value |
| UserDetail.UserDetailScreen.HandleSubmit | albaing-web/src/pages/admin/manage/users/AdminUserDetail.jsx:103-147 | a failed check sends nothing and shows its message; a passed form is PUT, and on success the user becomes the form and editing ends |
| UserDetail.UserDetailScreen.HandleDelete | albaing-web/src/pages/admin/manage/users/AdminUserDetail.jsx:48-85 | nothing without confirmation; the user DELETE only after the related-data DELETE succeeds; navigation only after both |
| NoticeManage.FilteredNotices | albaing-web/src/pages/admin/manage/notices/AdminNoticeManage.jsx:52-54 | keeps, in order, exactly the notices whose title contains the term case-insensitively |
| NoticeManage.EmptyTermKeepsAll | albaing-web/src/pages/admin/manage/notices/AdminNoticeManage.jsx:52-54 | an empty term keeps every notice |
| NoticeManage.WithoutNotice | albaing-web/src/pages/admin/manage/notices/AdminNoticeManage.jsx:42 | exactly the notices with another id remain, in order |
| NoticeManage.NoticeScreen.constructor | albaing-web/src/pages/admin/manage/notices/AdminNoticeManage.jsx:8-10 | no notices and an empty search term |
| NoticeManage.NoticeScreen.SetSearchTerm | albaing-web/src/pages/admin/manage/notices/AdminNoticeManage.jsx:80 | the search box sets the term the filter uses |
| NoticeManage.NoticeScreen.FetchNotices | albaing-web/src/pages/admin/manage/notices/AdminNoticeManage.jsx:19-31 | the list is the response; a failure keeps it |
| NoticeManage.NoticeScreen.HandleDelete | albaing-web/src/pages/admin/manage/notices/AdminNoticeManage.jsx:33-50 | nothing is sent unless confirmed; on success exactly that notice leaves the list |
| RegisterPerson.NormaliseGender | albaing-web/src/pages/public/register/RegisterPerson.jsx:46-48 | "male" iff the lowercased parameter is "male", otherwise "female" |
| RegisterPerson.NormaliseGenderIdempotent | albaing-web/src/pages/public/register/RegisterPerson.jsx:46-48 | normalising a normalised gender changes nothing |
| RegisterPerson.NormaliseBirthday | albaing-web/src/pages/public/register/RegisterPerson.jsx:50-56 | a 4-character birthday becomes `year-MM-DD` from its two halves; anything else is kept unchanged |
| RegisterPerson.NormaliseBirthdayStable | albaing-web/src/pages/public/register/RegisterPerson.jsx:50-56 | normalising twice is the same as once, and a converted date ends in the original month and day |
| RegisterPerson.ApplyParams | albaing-web/src/pages/public/register/RegisterPerson.jsx:22-58 | the parameters fill name, email and image; the email counts as verified when both `email` and `kakaoId` are present; gender and birthday are normalised only when given; other fields are kept |
| RegisterPerson.FirstFailure | albaing-web/src/pages/public/register/RegisterPerson.jsx:107-149 | the reference check: none iff every check passes, otherwise a failing check |
| RegisterPerson.FirstFailureAt | albaing-web/src/pages/public/register/RegisterPerson.jsx:107-149 | the first failing check in order is the one reported |
| RegisterPerson.ValidateInputsIsFirstFailure | albaing-web/src/pages/public/register/RegisterPerson.jsx:107-149 | the if-chain reports the first failure in the order email, verification, password, password rule, confirmation, name, phone, terms |
| RegisterPerson.ValidIffAll | albaing-web/src/pages/public/register/RegisterPerson.jsx:107-149 | the form is valid iff every condition holds, including the rule of at least 8 characters, a digit and one of `!@#$%^&*` |
| RegisterPerson.SignupBody | albaing-web/src/pages/public/register/RegisterPerson.jsx:151-188 | `emailVerified` is true whenever `kakaoId` is truthy, otherwise the form's flag; the birthday is the converted date and is present exactly when the form has one; `kakaoId` is present exactly when given; email, password and terms are the form's |
| RegisterPerson.RegisterScreen.constructor | albaing-web/src/pages/public/register/RegisterPerson.jsx:6-16 | every field starts empty or false, with no error |
| RegisterPerson.RegisterScreen.ReadParams | albaing-web/src/pages/public/register/RegisterPerson.jsx:22-58 | the form after the URL parameters are applied |
| RegisterPerson.RegisterScreen.HandleSignup | albaing-web/src/pages/public/register/RegisterPerson.jsx:151-188 | a failed validation sends nothing and shows its message; a birthday the date conversion rejects sends nothing; otherwise one POST, then navigation to /login on success, or on failure the server's message (else the generic one) after the failure prefix |
| ErrorHandler.OrElse | albaing-web/src/components/ErrorHandler.js:19-27 | `a \|\| b`: the value when truthy, otherwise the fallback |
| ErrorHandler.GetErrorMessage | albaing-web/src/components/ErrorHandler.js:5-38 | 401/403/500 give fixed text; other statuses prefer the server message; no response gives the network text for 'Network Error', else the error's message; the result is never empty |
| ErrorHandler.FixedStatusIgnoresServer | albaing-web/src/components/ErrorHandler.js:14-25 | for 401, 403 and 500 the server's and the error's messages make no difference |
| ErrorHandler.HandleError | albaing-web/src/components/ErrorHandler.js:101-116 | the custom message when given, otherwise `getErrorMessage` |
| ErrorHandler.RetryRequest | albaing-web/src/components/ErrorHandler.js:155-172 | at most maxRetries+1 calls; the result is the last call's; every earlier call was rejected; a rejection means every retry was used |
| ProtectedRoute.Decide | albaing-web/src/routes/ProtectedRoute.jsx:6-35 | the spinner while loading, then /login for a guest; an admin is always admitted; a non-admin on an admin route, or of another required type, goes to /; no required type admits |
| ProtectedRoute.AdmittedMeansAllowed | albaing-web/src/routes/ProtectedRoute.jsx:6-35 | an admitted user is logged in, and is an admin or of the required type |
| ScreenImports.ImportNamed | albaing-web/src/components/ErrorHandler.js:97 | a named import is defined exactly when the module exports that name |
| ScreenImports.RenderScreen | albaing-web/src/pages/admin/manage/users/AdminUserDetail.jsx:15 | calling the imported hook throws a TypeError exactly when the binding is undefined |
| ScreenImports.AsWrittenScreensThrow | albaing-web/src/pages/admin/manage/users/AdminUserDetail.jsx:5-15 | importing `ErrorHandler` binds `undefined`, so the screen throws on its first render |
| ScreenImports.IntendedScreensRender | albaing-web/src/pages/admin/manage/users/AdminUsersManage.jsx:5-24 | importing `useErrorHandler` binds the hook, so the screen renders |
| RowDelete.ButtonArgument | albaing-web/src/pages/admin/AdminDataTable.jsx:313-319 | the button hands over the row's id when it is truthy, otherwise the whole row |
| RowDelete.SelectionArgument | albaing-web/src/pages/admin/AdminDataTable.jsx:275-276 | the selection keeps `row.id`, which is undefined exactly when the row has no `id` |
| RowDelete.ArgText | albaing-web/src/pages/admin/manage/users/AdminUsersManage.jsx:107 | `${…}` gives the id's text, `[object Object]` for a row, `undefined` for undefined |
| RowDelete.IdlessRowSendsObjectPath | albaing-web/src/pages/admin/AdminDataTable.jsx:317 | for a row without `id` the member delete goes to `/api/admin/users/[object Object]/related-data`, the segment is not a number, and the list filter removes no member |
| RowDelete.IdlessSelectionSendsUndefinedPath | albaing-web/src/pages/admin/AdminDataTable.jsx:134-136 | for a row without `id` the bulk delete goes to `/api/admin/users/undefined/related-data`, and the segment is not a number |
| RowDelete.KeyedArgument | albaing-web/src/pages/admin/manage/users/AdminUsersManage.jsx:228 | the row's own key, as the view button passes `user.userId` |
| RowDelete.KeyedArgumentReachesMember | albaing-web/src/pages/admin/manage/users/AdminUsersManage.jsx:105-113 | handing over `row.userId` sends exactly `UsersManage.UsersScreen.HandleDelete`'s requests, the server reads the id back, and the filter removes that member |

## Left out

- Server-side search, sort and limit (mapper XML), the dashboard counts, transactions and HTTP plumbing are out of scope. Services are abstract values with a parameterised answer.
- Spring's `@Transactional` rollback is not modelled. `CompanyServiceImpl.deleteCompany` catches its own exception, so the model keeps the deletions already made. It deletes only the company's job posts and then the company row; applications, reviews and scraps of the company are not touched.
- Framework conversion of `long` and `Integer` path variables is not modelled; those endpoints take integers. `String` ids are parsed explicitly with `Strings.ParseLong`.
- Stale closures. The list-screen handlers change `searchParams` and then fetch with the old closure. The model returns that stale request as written; the review screen's handlers show the refetched list arranged with the old parameters. `AdminDataTable` never calls these handlers, so no user action reaches them.
- `AdminDataTable` accepts no `renderRowActions` prop, so the confirm, approve, toggle and status buttons the list screens render there never appear. `CompaniesManage.CompaniesScreen.ConfirmApprove`, `CompaniesManage.CompaniesScreen.ConfirmDelete`, `JobPostManage.JobPostsScreen.ToggleJobPostStatus`, `JobPostManage.JobPostsScreen.ConfirmStatusChange`, `JobPostManage.JobPostsScreen.ConfirmDelete`, `ApplicationsManage.ApplicationsScreen.HandleStatusChange` and `ReviewManage.ReviewScreen.HandleDelete` model code that no user action reaches.
- `CompaniesManage.CompaniesScreen.HandleDelete`, `UsersManage.UsersScreen.HandleDelete` and `JobPostManage.JobPostsScreen.HandleDelete` take the entity's numeric id, as their parameter names intend. Their only caller, the table's delete button, hands over the row object instead; `RowDelete` models that call and the requests it produces.
- Response shapes such as `response.companies || response` are modelled as a list response.
- `ListQuery.WithFilters`: every merged filter is treated as a text field. A spread that overwrites `sortOrderBy`, `isDESC`, `page` or `limit` is not modelled.
- `DataTable.SortedData`: cells are text, so numeric columns compare as strings (`"10" < "9"`), where JavaScript compares numbers numerically. A missing cell compares as neither less nor greater, which is what `<` and `>` with `undefined` give; the sorted order is then only stated as a permutation.
- `Strings.Lower`: only ASCII letters are case-folded. Strings are sequences of code points, not UTF-16 units.
- `RegisterPerson.NormaliseBirthday`: the current year is a parameter. The date arithmetic of `new Date()` is not modelled.
- `ErrorHandler.RetryRequest`: the `setTimeout` delays are not modelled, only the attempt count.
- `UserDetail.StateOf`: a checked checkbox value makes `.trim()` throw a TypeError. The model reports it as an aborted submit.
- Confirmation modals are parameters. Loading flags (including the one left on when the birthday conversion throws), console output and rendering are not modelled. The screen models assume each screen renders, that is, the corrected `useErrorHandler` import of `ScreenImports.IntendedScreensRender`.
- `setupAxiosInterceptors` and `setupLoadingListener` are not modelled.
- CSV download, the file name and URI encoding are not modelled.
- `handleCommentDelete` in the review screen is not modelled.
- The verification-code requests of `RegisterPerson.jsx` are not modelled.
- `AdminCompanyDetail.jsx`: editing is never switched on in the component, so `HandleUpdateCompany` models code that is unreachable from the page.
- `AdminJobPostDetail.jsx`: the component only ever calls `setIsEditing(false)`, so `JobPostDetail.JobPostDetailScreen.HandleUpdateJobPost` also models code that is unreachable from the page.
- Strings.ParseLong: only the ASCII digits `0`-`9` count as digits. Java's `Character.digit` also accepts other Unicode decimal digits, such as the full-width `１２３`, which the model rejects.
- `DataTable.MatchesSearch`: cells are text, so only the empty cell is falsy. A cell holding the number `0` or `false`, which `item[key] &&` skips, is searched like any other value.
- `RegisterPerson.RegisterScreen.HandleSignup`: `new Date(...).toISOString()` is a parameter (`isoBirthdate`), None when it throws on an invalid date. The calendar rules it applies are not modelled.
- JavaScript object key order is not modelled: maps are unordered.

## Findings

| source | as written | input that shows it | evidently intended | confidence | as-written member | corrected member |
|---|---|---|---|---|---|---|
| albaing-web/src/pages/admin/AdminDataTable.jsx:418-425 | when `currentPage >= totalPages - 2` the window starts at `totalPages - 4`, and numbers below 1 are dropped | totalPages = 4, currentPage = 4: the buttons are 1, 2, 3 and the current page is missing | a window of min(5, totalPages) pages that always contains the current page, starting at max(totalPages - 4, 1) | not executed | DataTable.PageWindowMissesCurrent | DataTable.PageWindowFixed |
| albaing-web/src/pages/admin/manage/users/AdminUserDetail.jsx:5-15 | `import { ErrorHandler }` from a module that exports only `useErrorHandler` (and helpers), then `ErrorHandler()` on the first line of the render; AdminReviewManage, AdminJobPostManage, AdminApplicationsManage, AdminCompanyDetail and AdminNoticeEdit do the same, and `service/apiAdminService.js` imports it the same way and calls it in its response-error interceptor (:2, :16) | opening any of these screens: the binding is `undefined` and the call throws a TypeError, so the screen never renders and none of its handlers run | import and call `useErrorHandler`, as the other admin screens do | not executed | ScreenImports.AsWrittenScreensThrow | ScreenImports.IntendedScreensRender |
| albaing-web/src/pages/admin/AdminDataTable.jsx:317 | the delete button calls `onDelete(row.id \|\| row)` (and the selection keeps `row.id`), but the rows of the member, company and job-post lists carry `userId`, `companyId` or `jobPostId` and no `id` | a member row `{userId: "7", …}`: the button sends `DELETE /api/admin/users/[object Object]/related-data`, the server cannot read the id, and the list filter removes nothing | hand over the row's own key (`row.userId`), so the handler receives the id | not executed | RowDelete.IdlessRowSendsObjectPath | RowDelete.KeyedArgumentReachesMember |
