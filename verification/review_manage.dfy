/** `AdminReviewManage`: the review list. It fetches every review, narrows
    them by a search term over title, author and company, sorts them by a
    field that may be written in snake_case or camelCase, and shows one page;
    deleting a review first deletes its comments. */
module ReviewManage {
  import opened Wrappers
  import opened Strings
  import opened Seqs
  import opened Sorting
  import opened Client
  import DataTable

  type Row = map<string, string>

  predicate IsLowerLetter(c: char) { 'a' <= c <= 'z' }

  /** `toUpperCase` on one character, ASCII letters only. */
  function UpperChar(c: char): char {
    if IsLowerLetter(c) then (c as int - 32) as char else c
  }

  /** `_` followed by a lower-case letter starts at index 0. */
  predicate SnakeAt(s: string) {
    |s| >= 2 && s[0] == '_' && IsLowerLetter(s[1])
  }

  /** No `_` is followed by a lower-case letter. */
  predicate NoSnake(s: string) {
    forall i :: 0 <= i < |s| - 1 ==> !(s[i] == '_' && IsLowerLetter(s[i + 1]))
  }

  /** `field.replace(/_([a-z])/g, g => g[1].toUpperCase())`: scanning left to
      right, each `_` followed by a lower-case letter becomes that letter in
      upper case. */
  function Camel(s: string): (r: string)
    ensures |r| <= |s|
  {
    if s == [] then []
    else if SnakeAt(s) then [UpperChar(s[1])] + Camel(s[2..])
    else [s[0]] + Camel(s[1..])
  }

  /** The converted name is empty only for the empty name, and it starts
      with the upper-cased letter of a leading `_x` or else with the first
      character. */
  lemma CamelFirst(s: string)
    ensures Camel(s) == [] <==> s == []
    ensures Camel(s) != [] ==> Camel(s)[0] == if SnakeAt(s) then UpperChar(s[1]) else s[0]
  {
  }

  /** No `_` followed by a lower-case letter is left after the conversion. */
  lemma {:induction false} CamelNoSnake(s: string)
    ensures NoSnake(Camel(s))
  {
    if s != [] {
      var r := Camel(s);
      if SnakeAt(s) {
        var rest := Camel(s[2..]);
        CamelNoSnake(s[2..]);
        assert r == [UpperChar(s[1])] + rest;
        assert forall i :: 1 <= i < |r| ==> r[i] == rest[i - 1];
      } else {
        var rest := Camel(s[1..]);
        CamelNoSnake(s[1..]);
        assert r == [s[0]] + rest;
        assert forall i :: 1 <= i < |r| ==> r[i] == rest[i - 1];
        if s[0] == '_' && rest != [] {
          assert |s| >= 2 && !IsLowerLetter(s[1]);
          CamelFirst(s[1..]);
          if SnakeAt(s[1..]) {
            assert rest[0] == UpperChar(s[2]);
          }
        }
      }
    }
  }

  /** A name without `_` is its own camelCase. */
  lemma {:induction false} CamelWithoutUnderscore(s: string)
    requires '_' !in s
    ensures Camel(s) == s
  {
    if s != [] {
      assert s[0] != '_';
      assert '_' !in s[1..];
      CamelWithoutUnderscore(s[1..]);
    }
  }

  /** Converting twice is converting once. */
  lemma {:induction false} CamelIdempotent(s: string)
    ensures Camel(Camel(s)) == Camel(s)
  {
    CamelNoSnake(s);
    NoSnakeFixed(Camel(s));
  }

  lemma {:induction false} NoSnakeFixed(s: string)
    requires NoSnake(s)
    ensures Camel(s) == s
  {
    if s != [] {
      assert !SnakeAt(s);
      assert NoSnake(s[1..]) by {
        forall i | 0 <= i < |s[1..]| - 1
          ensures !(s[1..][i] == '_' && IsLowerLetter(s[1..][i + 1]))
        {
          assert s[1..][i] == s[i + 1] && s[1..][i + 1] == s[i + 2];
        }
      }
      NoSnakeFixed(s[1..]);
    }
  }

  /** The conversion works piecewise when the first piece does not end in an
      underscore. */
  lemma {:induction false} CamelConcat(a: string, b: string)
    requires a == [] || a[|a| - 1] != '_'
    ensures Camel(a + b) == Camel(a) + Camel(b)
  {
    if a == [] {
      assert a + b == b;
    } else {
      if SnakeAt(a) {
        assert (a + b)[0] == a[0] && (a + b)[1] == a[1];
        assert (a + b)[2..] == a[2..] + b;
        CamelConcat(a[2..], b);
      } else {
        assert |a| == 1 ==> a[0] != '_';
        assert !SnakeAt(a + b);
        assert (a + b)[1..] == a[1..] + b;
        CamelConcat(a[1..], b);
      }
    }
  }

  /** `_` and a lower-case letter, then a word without `_`. */
  lemma CamelSnakeWord(c: char, w: string)
    requires IsLowerLetter(c) && '_' !in w
    ensures Camel(['_', c] + w) == [UpperChar(c)] + w
  {
    assert (['_', c] + w)[2..] == w;
    CamelWithoutUnderscore(w);
  }

  /** `head` followed by one `_x...` part. */
  lemma CamelTwoParts(s: string, head: string, c: char, w: string)
    requires s == head + ['_', c] + w
    requires head != [] && '_' !in head && IsLowerLetter(c) && '_' !in w
    ensures Camel(s) == head + [UpperChar(c)] + w
  {
    assert head[|head| - 1] in head;
    assert s == head + (['_', c] + w);
    CamelConcat(head, ['_', c] + w);
    CamelWithoutUnderscore(head);
    CamelSnakeWord(c, w);
  }

  /** The snake_case names of the sortable fields. */
  const ReviewIdField: string := "review" + "_id"
  const ReviewTitleField: string := "review" + "_title"
  const CompanyNameField: string := "company" + "_name"
  const UserNameField: string := "user" + "_name"
  const ReviewCreatedAtField: string := "review" + "_created" + "_at"

  lemma CamelReviewId(field: string)
    requires field == ReviewIdField
    ensures Camel(field) == "reviewId"
  {
    CamelTwoParts(field, "review", 'i', "d");
  }

  lemma CamelReviewTitle(field: string)
    requires field == ReviewTitleField
    ensures Camel(field) == "reviewTitle"
  {
    CamelTwoParts(field, "review", 't', "itle");
  }

  lemma CamelCompanyName(field: string)
    requires field == CompanyNameField
    ensures Camel(field) == "companyName"
  {
    CamelTwoParts(field, "company", 'n', "ame");
  }

  lemma CamelUserName(field: string)
    requires field == UserNameField
    ensures Camel(field) == "userName"
  {
    CamelTwoParts(field, "user", 'n', "ame");
  }

  lemma CamelReviewCreatedAt(field: string)
    requires field == ReviewCreatedAtField
    ensures Camel(field) == "reviewCreatedAt"
  {
    var head := "review" + "_created";
    var tail := "_at";
    assert field == head + tail;
    CamelTwoParts(head, "review", 'c', "reated");
    assert tail == ['_', 'a'] + "t";
    CamelSnakeWord('a', "t");
    CamelConcat(head, tail);
  }

  /** `getNestedField(obj, field)`: the camelCase property when it is
      defined, otherwise the property under the name as given. */
  function NestedField(row: Row, field: string): (r: Option<string>)
    ensures Camel(field) in row ==> r == Some(row[Camel(field)])
    ensures Camel(field) !in row ==> r == DataTable.Cell(row, field)
  {
    if Camel(field) in row then Some(row[Camel(field)]) else DataTable.Cell(row, field)
  }

  /** A field with no `_[a-z]` in it is looked up under its own name. */
  lemma NestedFieldPlain(row: Row, field: string)
    requires NoSnake(field)
    ensures NestedField(row, field) == DataTable.Cell(row, field)
  {
    NoSnakeFixed(field);
  }

  function FieldKey(field: string): Row -> Option<string> {
    row => NestedField(row, field)
  }

  /** `row[camel] || row[snake] || ''`: the first truthy (non-empty) value. */
  function Either(row: Row, camel: string, snake: string): (r: string)
    ensures camel in row && row[camel] != "" ==> r == row[camel]
    ensures !(camel in row && row[camel] != "") && snake in row ==> r == row[snake]
    ensures !(camel in row && row[camel] != "") && snake !in row ==> r == ""
  {
    if camel in row && row[camel] != "" then row[camel]
    else if snake in row then row[snake]
    else ""
  }

  /** The search test: the term, lower-cased, occurs in the lower-cased
      title, author name or company name. */
  predicate ReviewMatches(row: Row, term: string) {
    ContainsIgnoreCase(Either(row, "reviewTitle", "review_title"), term)
    || ContainsIgnoreCase(Either(row, "userName", "user_name"), term)
    || ContainsIgnoreCase(Either(row, "companyName", "company_name"), term)
  }

  function ReviewSearch(term: string): Row -> bool {
    row => ReviewMatches(row, term)
  }

  /** `searchParams`. */
  datatype SearchParams = SearchParams(searchTerm: string, currentPage: int, rowsPerPage: int,
                                       sortField: string, sortDirection: string)

  /** The reviews `fetchReviews` keeps, in display order, before paging:
      every review when the term is empty, the matching ones otherwise,
      sorted by the sort field in the chosen direction. */
  function Arranged(data: seq<Row>, params: SearchParams): seq<Row> {
    var filtered := if params.searchTerm != "" then Filter(data, ReviewSearch(params.searchTerm)) else data;
    SortBy(filtered, FieldKey(params.sortField), params.sortDirection == "asc")
  }

  function Searched(data: seq<Row>, term: string): seq<Row> {
    if term != "" then Filter(data, ReviewSearch(term)) else data
  }

  /** The arranged reviews are the matching reviews, each as often as in
      the data. */
  lemma ArrangedPermutation(data: seq<Row>, params: SearchParams)
    ensures Arranged(data, params) == SortBy(Searched(data, params.searchTerm), FieldKey(params.sortField),
                                             params.sortDirection == "asc")
    ensures multiset(Arranged(data, params)) == multiset(Searched(data, params.searchTerm))
    ensures params.searchTerm == "" ==> multiset(Arranged(data, params)) == multiset(data)
  {
  }

  /** A review is shown (on some page) exactly when it is in the data and
      matches the term, if there is one. */
  lemma ArrangedMembers(data: seq<Row>, params: SearchParams, row: Row)
    ensures row in Arranged(data, params) <==>
              row in data && (params.searchTerm == "" || ReviewMatches(row, params.searchTerm))
  {
    var filtered := Searched(data, params.searchTerm);
    ArrangedPermutation(data, params);
    assert row in Arranged(data, params) <==> row in multiset(filtered);
    if params.searchTerm != "" {
      if row in filtered {
        var j :| 0 <= j < |filtered| && filtered[j] == row;
      }
      if row in data && ReviewMatches(row, params.searchTerm) {
        var j :| 0 <= j < |data| && data[j] == row;
      }
    }
  }

  /** The arranged reviews are ordered by the sort field whenever every
      review has it. */
  lemma ArrangedSorted(data: seq<Row>, params: SearchParams)
    requires AllKeyed(data, FieldKey(params.sortField))
    ensures Sorted(Arranged(data, params), FieldKey(params.sortField), params.sortDirection == "asc")
  {
    var key := FieldKey(params.sortField);
    var filtered := Searched(data, params.searchTerm);
    ArrangedPermutation(data, params);
    assert AllKeyed(filtered, key) by {
      forall i | 0 <= i < |filtered| ensures key(filtered[i]).Some? {
        var j :| 0 <= j < |data| && data[j] == filtered[i];
      }
    }
    SortBySorted(filtered, key, params.sortDirection == "asc");
  }

  /** `fieldMap[field] || field`: the five column keys map to the snake_case
      names, any other key passes through. */
  function SortFieldName(field: string): (r: string)
    ensures field == "reviewId" ==> r == ReviewIdField
    ensures field == "reviewTitle" ==> r == ReviewTitleField
    ensures field == "companyName" ==> r == CompanyNameField
    ensures field == "userName" ==> r == UserNameField
    ensures field == "reviewCreatedAt" ==> r == ReviewCreatedAtField
    ensures field !in {"reviewId", "reviewTitle", "companyName", "userName", "reviewCreatedAt"} ==> r == field
  {
    match field
    case "reviewId" => ReviewIdField
    case "reviewTitle" => ReviewTitleField
    case "companyName" => CompanyNameField
    case "userName" => UserNameField
    case "reviewCreatedAt" => ReviewCreatedAtField
    case _ => field
  }

  /** For every column key the mapped sort field converts back to the column
      key, so `getNestedField` reads the column's own property first. */
  lemma SortFieldRoundTrip(field: string)
    requires field in {"reviewId", "reviewTitle", "companyName", "userName", "reviewCreatedAt"}
    ensures Camel(SortFieldName(field)) == field
  {
    var name := SortFieldName(field);
    if field == "reviewId" {
      CamelReviewId(name);
    } else if field == "reviewTitle" {
      CamelReviewTitle(name);
    } else if field == "companyName" {
      CamelCompanyName(name);
    } else if field == "userName" {
      CamelUserName(name);
    } else {
      CamelReviewCreatedAt(name);
    }
  }

  /** `review.reviewId || review.review_id`. */
  function ReviewIdOf(row: Row): (r: Option<string>)
    ensures "reviewId" in row && row["reviewId"] != "" ==> r == Some(row["reviewId"])
    ensures !("reviewId" in row && row["reviewId"] != "") ==> r == DataTable.Cell(row, "review_id")
  {
    if "reviewId" in row && row["reviewId"] != "" then Some(row["reviewId"]) else DataTable.Cell(row, "review_id")
  }

  function IsOtherReview(reviewId: Option<string>): Row -> bool {
    row => ReviewIdOf(row) != reviewId
  }

  /** `${reviewId}` in a request path. */
  function PathSegment(id: Option<string>): string {
    if id.Some? then id.value else "undefined"
  }

  function CommentsPath(reviewId: Option<string>): string {
    "/api/admin/reviews/" + PathSegment(reviewId) + "/comments"
  }

  function ReviewPath(reviewId: Option<string>): string {
    "/api/admin/reviews/" + PathSegment(reviewId)
  }

  /** `GET /api/admin/reviews`: every review; the screen searches, sorts and
      pages them itself. */
  const ListRequest: Request := Request(Get, "/api/admin/reviews", map[])

  class ReviewScreen {
    /** The page of reviews on show. */
    var reviews: seq<Row>
    var totalItems: int
    var searchParams: SearchParams

    constructor ()
      ensures reviews == [] && totalItems == 0
      ensures searchParams == SearchParams("", 1, 10, ReviewCreatedAtField, "desc")
    {
      reviews := [];
      totalItems := 0;
      searchParams := SearchParams("", 1, 10, ReviewCreatedAtField, "desc");
    }

    /** `fetchReviews()` given the answer of `GET /api/admin/reviews` (None
        when it fails): on success the total is the number of arranged
        reviews and the list is the current page of them; on failure both
        stay as they were. */
    method FetchReviews(response: Option<seq<Row>>)
      modifies this`reviews, this`totalItems
      ensures response.Some? ==> totalItems == |Arranged(response.value, searchParams)|
      ensures response.Some? ==>
                reviews == DataTable.Page(Arranged(response.value, searchParams),
                                          searchParams.currentPage, searchParams.rowsPerPage)
      ensures response.None? ==> reviews == old(reviews) && totalItems == old(totalItems)
    {
      if response.Some? {
        totalItems, reviews := ArrangeAndPage(response.value, searchParams);
      }
    }

    /** `handleSort(field, direction)`: the mapped field, the direction, and
        back to the first page. The `setTimeout(fetchReviews, 0)` it
        schedules runs the closure of the current render, so the list it
        shows (from `response`, the answer to that GET) is arranged and paged
        with the parameters as they were before the handler. */
    method HandleSort(field: string, direction: string, response: Option<seq<Row>>) returns (sent: Request)
      modifies this`searchParams, this`reviews, this`totalItems
      ensures searchParams == old(searchParams).(sortField := SortFieldName(field), sortDirection := direction,
                                                 currentPage := 1)
      ensures sent == ListRequest
      ensures response.Some? ==> totalItems == |Arranged(response.value, old(searchParams))|
      ensures response.Some? ==>
                reviews == DataTable.Page(Arranged(response.value, old(searchParams)),
                                          old(searchParams).currentPage, old(searchParams).rowsPerPage)
      ensures response.None? ==> reviews == old(reviews) && totalItems == old(totalItems)
    {
      var stale := searchParams;
      searchParams := searchParams.(sortField := SortFieldName(field), sortDirection := direction, currentPage := 1);
      sent := ListRequest;
      if response.Some? {
        totalItems, reviews := ArrangeAndPage(response.value, stale);
      }
    }

    /** `handleSearch(searchTerm, page = 1, rowsPerPage = searchParams.rowsPerPage)`
        (an omitted argument is None), with the same stale refetch. */
    method HandleSearch(searchTerm: string, page: Option<int>, rowsPerPage: Option<int>, response: Option<seq<Row>>)
      returns (sent: Request)
      modifies this`searchParams, this`reviews, this`totalItems
      ensures searchParams == old(searchParams).(searchTerm := searchTerm,
                                                 currentPage := if page.Some? then page.value else 1,
                                                 rowsPerPage := if rowsPerPage.Some? then rowsPerPage.value
                                                                else old(searchParams).rowsPerPage)
      ensures sent == ListRequest
      ensures response.Some? ==> totalItems == |Arranged(response.value, old(searchParams))|
      ensures response.Some? ==>
                reviews == DataTable.Page(Arranged(response.value, old(searchParams)),
                                          old(searchParams).currentPage, old(searchParams).rowsPerPage)
      ensures response.None? ==> reviews == old(reviews) && totalItems == old(totalItems)
    {
      var stale := searchParams;
      searchParams := searchParams.(searchTerm := searchTerm,
                                    currentPage := if page.Some? then page.value else 1,
                                    rowsPerPage := if rowsPerPage.Some? then rowsPerPage.value else stale.rowsPerPage);
      sent := ListRequest;
      if response.Some? {
        totalItems, reviews := ArrangeAndPage(response.value, stale);
      }
    }

    /** `handlePageChange(page, rowsPerPage = searchParams.rowsPerPage)`, with
        the same stale refetch. */
    method HandlePageChange(page: int, rowsPerPage: Option<int>, response: Option<seq<Row>>) returns (sent: Request)
      modifies this`searchParams, this`reviews, this`totalItems
      ensures searchParams == old(searchParams).(currentPage := page,
                                                 rowsPerPage := if rowsPerPage.Some? then rowsPerPage.value
                                                                else old(searchParams).rowsPerPage)
      ensures sent == ListRequest
      ensures response.Some? ==> totalItems == |Arranged(response.value, old(searchParams))|
      ensures response.Some? ==>
                reviews == DataTable.Page(Arranged(response.value, old(searchParams)),
                                          old(searchParams).currentPage, old(searchParams).rowsPerPage)
      ensures response.None? ==> reviews == old(reviews) && totalItems == old(totalItems)
    {
      var stale := searchParams;
      searchParams := searchParams.(currentPage := page,
                                    rowsPerPage := if rowsPerPage.Some? then rowsPerPage.value else stale.rowsPerPage);
      sent := ListRequest;
      if response.Some? {
        totalItems, reviews := ArrangeAndPage(response.value, stale);
      }
    }

    /** `handleDelete(reviewId)`: once confirmed, the comments are deleted
        first and the review only after that succeeded; when both succeed the
        reviews with that id leave the list and nothing else changes. */
    method HandleDelete(reviewId: Option<string>, confirmed: bool, commentsDeleted: bool, reviewDeleted: bool)
      returns (sent: seq<Request>)
      modifies this`reviews
      ensures !confirmed ==> sent == []
      ensures confirmed ==> |sent| >= 1 && sent[0] == Del(CommentsPath(reviewId))
      ensures |sent| == 2 <==> confirmed && commentsDeleted
      ensures |sent| == 2 ==> sent[1] == Del(ReviewPath(reviewId))
      ensures confirmed && commentsDeleted && reviewDeleted ==>
                reviews == Filter(old(reviews), IsOtherReview(reviewId))
      ensures !(confirmed && commentsDeleted && reviewDeleted) ==> reviews == old(reviews)
    {
      sent := [];
      if confirmed {
        sent := sent + [Del(CommentsPath(reviewId))];
        if commentsDeleted {
          sent := sent + [Del(ReviewPath(reviewId))];
          if reviewDeleted {
            reviews := Filter(reviews, IsOtherReview(reviewId));
          }
        }
      }
    }
  }

  /** The body of the `then` callback of `fetchReviews`: filter, sort in
      place, count, slice. */
  method ArrangeAndPage(data: seq<Row>, params: SearchParams) returns (total: int, page: seq<Row>)
    ensures total == |Arranged(data, params)|
    ensures page == DataTable.Page(Arranged(data, params), params.currentPage, params.rowsPerPage)
    ensures params.currentPage >= 1 && params.rowsPerPage > 0 ==> |page| <= params.rowsPerPage
  {
    var filteredData := data;
    if params.searchTerm != "" {
      filteredData := Filter(filteredData, ReviewSearch(params.searchTerm));
    }
    assert filteredData == Searched(data, params.searchTerm);
    filteredData := SortBy(filteredData, FieldKey(params.sortField), params.sortDirection == "asc");
    total := |filteredData|;
    var startIdx := (params.currentPage - 1) * params.rowsPerPage;
    var endIdx := startIdx + params.rowsPerPage;
    page := Slice(filteredData, startIdx, endIdx);
    if params.currentPage >= 1 && params.rowsPerPage > 0 {
      DataTable.PageSpec(filteredData, params.currentPage, params.rowsPerPage);
    }
  }

  /** After a delete, no review with that id is left on the page, and every
      other review still is, in the same order. */
  lemma DeleteRemovesOnlyThatReview(reviews: seq<Row>, reviewId: Option<string>)
    ensures forall i :: 0 <= i < |Filter(reviews, IsOtherReview(reviewId))| ==>
              ReviewIdOf(Filter(reviews, IsOtherReview(reviewId))[i]) != reviewId
    ensures forall i :: 0 <= i < |reviews| && ReviewIdOf(reviews[i]) != reviewId ==>
              reviews[i] in Filter(reviews, IsOtherReview(reviewId))
    ensures IsSubseq(Filter(reviews, IsOtherReview(reviewId)), reviews)
  {
  }
}
