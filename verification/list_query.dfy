/** The `searchParams` state shared by the admin list screens whose search,
    sort and paging run on the server: text filters, a sort label, a
    descending flag and the page. Each handler derives the next state from
    the previous one. */
module ListQuery {
  import opened Wrappers
  import opened Strings

  datatype Query = Query(text: map<string, string>, sortOrderBy: string, isDESC: bool,
                         currentPage: int, rowsPerPage: int)

  /** `n || fallback` for an optional number: `undefined` and `0` are falsy. */
  function OrElse(n: Option<int>, fallback: int): int {
    if n.Some? && n.value != 0 then n.value else fallback
  }

  /** `sortFieldMap[key] || key`: a column key the map knows becomes its
      label, any other key is sent as it is. */
  function SortLabel(fieldMap: map<string, string>, key: string): (r: string)
    ensures key in fieldMap && fieldMap[key] != "" ==> r == fieldMap[key]
    ensures key !in fieldMap ==> r == key
  {
    if key in fieldMap && fieldMap[key] != "" then fieldMap[key] else key
  }

  /** `handleSort(key, direction)`: the mapped sort label, `isDESC` exactly
      when the direction is 'desc'; nothing else changes. */
  function WithSort(q: Query, fieldMap: map<string, string>, key: string, direction: string): (r: Query)
    ensures r.sortOrderBy == SortLabel(fieldMap, key)
    ensures r.isDESC <==> direction == "desc"
    ensures r.text == q.text && r.currentPage == q.currentPage && r.rowsPerPage == q.rowsPerPage
  {
    q.(sortOrderBy := SortLabel(fieldMap, key), isDESC := direction == "desc")
  }

  /** `handleSearch(searchTerm, page, rowsPerPage)`: the term goes into the
      screen's search field, the page is the given one or 1, the page size
      the given one or the previous one. */
  function WithSearch(q: Query, field: string, term: string, page: Option<int>, rowsPerPage: Option<int>): (r: Query)
    ensures r.text == q.text[field := term]
    ensures page.None? || page == Some(0) ==> r.currentPage == 1
    ensures page.Some? && page.value != 0 ==> r.currentPage == page.value
    ensures rowsPerPage.None? || rowsPerPage == Some(0) ==> r.rowsPerPage == q.rowsPerPage
    ensures rowsPerPage.Some? && rowsPerPage.value != 0 ==> r.rowsPerPage == rowsPerPage.value
    ensures r.sortOrderBy == q.sortOrderBy && r.isDESC == q.isDESC
  {
    q.(text := q.text[field := term], currentPage := OrElse(page, 1), rowsPerPage := OrElse(rowsPerPage, q.rowsPerPage))
  }

  /** `handleFilter(filters)`: the filter values replace the ones of the
      same name, the others stay, and the page goes back to 1. */
  function WithFilters(q: Query, filters: map<string, string>): (r: Query)
    ensures forall k :: k in filters ==> k in r.text && r.text[k] == filters[k]
    ensures forall k :: k in q.text && k !in filters ==> k in r.text && r.text[k] == q.text[k]
    ensures forall k :: k in r.text ==> k in q.text || k in filters
    ensures r.currentPage == 1
    ensures r.sortOrderBy == q.sortOrderBy && r.isDESC == q.isDESC && r.rowsPerPage == q.rowsPerPage
  {
    q.(text := q.text + filters, currentPage := 1)
  }

  /** `handlePageChange(page, rowsPerPage)`. */
  function WithPage(q: Query, page: int, rowsPerPage: Option<int>): (r: Query)
    ensures r.currentPage == page
    ensures rowsPerPage.Some? && rowsPerPage.value != 0 ==> r.rowsPerPage == rowsPerPage.value
    ensures !(rowsPerPage.Some? && rowsPerPage.value != 0) ==> r.rowsPerPage == q.rowsPerPage
    ensures r.text == q.text && r.sortOrderBy == q.sortOrderBy && r.isDESC == q.isDESC
  {
    q.(currentPage := page, rowsPerPage := OrElse(rowsPerPage, q.rowsPerPage))
  }

  /** The text filters sent to the server: `value || undefined`, and axios
      leaves undefined parameters out. */
  function SentFilters(text: map<string, string>): (r: map<string, string>)
    ensures forall k :: k in r <==> k in text && text[k] != ""
    ensures forall k :: k in r ==> r[k] == text[k]
  {
    map k | k in text && text[k] != "" :: text[k]
  }

  /** The query string of the list request: the non-empty filters, then the
      sort label, the descending flag, the page and the page size. */
  function Params(q: Query): (r: map<string, string>)
    ensures "sortOrderBy" in r && "isDESC" in r && "page" in r && "limit" in r
    ensures r["sortOrderBy"] == q.sortOrderBy
    ensures r["isDESC"] == (if q.isDESC then "true" else "false")
    ensures r["page"] == IntToString(q.currentPage) && r["limit"] == IntToString(q.rowsPerPage)
    ensures forall k :: k in q.text && k !in {"sortOrderBy", "isDESC", "page", "limit"} ==>
              (k in r <==> q.text[k] != "")
  {
    SentFilters(q.text)["sortOrderBy" := q.sortOrderBy]["isDESC" := if q.isDESC then "true" else "false"]
      ["page" := IntToString(q.currentPage)]["limit" := IntToString(q.rowsPerPage)]
  }

  /** A positive page size and a page from 1 on. */
  predicate WellFormed(q: Query) {
    q.rowsPerPage > 0 && q.currentPage >= 1
  }

  /** Every handler keeps the state well formed when the numbers it is given
      are not negative (and the page it is sent to is from 1 on). */
  lemma HandlersKeepWellFormed(q: Query, fieldMap: map<string, string>, key: string, direction: string,
                               field: string, term: string, page: Option<int>, rowsPerPage: Option<int>,
                               filters: map<string, string>, target: int)
    requires WellFormed(q)
    requires page.None? || page.value >= 0
    requires rowsPerPage.None? || rowsPerPage.value >= 0
    requires target >= 1
    ensures WellFormed(WithSort(q, fieldMap, key, direction))
    ensures WellFormed(WithSearch(q, field, term, page, rowsPerPage))
    ensures WellFormed(WithFilters(q, filters))
    ensures WellFormed(WithPage(q, target, rowsPerPage))
  {
  }
}
