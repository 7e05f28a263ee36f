/** `AdminDataTable`: the generic admin table. It sorts a copy of its rows by
    the chosen column, keeps the rows matching the search term and the column
    filters, shows one page of them, and keeps a selection of row ids. */
module DataTable {
  import opened Wrappers
  import opened Strings
  import opened Seqs
  import opened Sorting

  /** A row: property name -> value. A property the row lacks is
      `undefined`. */
  type Row = map<string, string>

  /** `row.id`, possibly undefined. */
  type RowId = Option<string>

  datatype Column = Column(key: string, heading: string)

  /** `item[key]`. */
  function Cell(row: Row, key: string): Option<string> {
    if key in row then Some(row[key]) else None
  }

  function KeyOf(key: string): Row -> Option<string> {
    row => Cell(row, key)
  }

  function IdOf(row: Row): RowId {
    Cell(row, "id")
  }

  // ---- sorting ---------------------------------------------------------------

  /** `sortConfig`: the key (initially null) and whether the direction is
      'asc'. */
  datatype SortConfig = SortConfig(key: Option<string>, ascending: bool)

  /** `handleSort(key)`: the key that is already sorted ascending turns
      descending; any other click sorts ascending by the clicked key. */
  function NextSort(config: SortConfig, key: string): (r: SortConfig)
    ensures r.key == Some(key)
    ensures !r.ascending <==> config == SortConfig(Some(key), true)
  {
    if config.key == Some(key) && config.ascending then SortConfig(Some(key), false)
    else SortConfig(Some(key), true)
  }

  /** Clicking the same header again and again alternates the direction,
      starting from ascending unless it already was. */
  lemma NextSortAlternates(config: SortConfig, key: string)
    ensures NextSort(NextSort(config, key), key).ascending == !NextSort(config, key).ascending
    ensures NextSort(NextSort(NextSort(config, key), key), key) == NextSort(config, key)
  {
  }

  /** `if (!sortConfig.key)`: a null or empty key leaves the data as it is. */
  predicate SortActive(config: SortConfig) {
    config.key.Some? && config.key.value != ""
  }

  /** `getSortedData()`: the data itself when no key is set, otherwise a
      sorted copy. The copy is a permutation of the data; it is ordered by the
      key in the chosen direction whenever every row has the key (with an
      undefined key the comparator is inconsistent and the engine's order is
      unspecified). */
  function SortedData(data: seq<Row>, config: SortConfig): (r: seq<Row>)
    ensures !SortActive(config) ==> r == data
    ensures multiset(r) == multiset(data)
    ensures SortActive(config) && AllKeyed(data, KeyOf(config.key.value)) ==>
              Sorted(r, KeyOf(config.key.value), config.ascending)
  {
    if !SortActive(config) then data
    else
      var key := KeyOf(config.key.value);
      assert AllKeyed(data, key) ==> Sorted(SortBy(data, key, config.ascending), key, config.ascending) by {
        if AllKeyed(data, key) {
          SortBySorted(data, key, config.ascending);
        }
      }
      SortBy(data, key, config.ascending)
  }

  // ---- filtering -------------------------------------------------------------

  /** Some column's value is truthy (a non-empty string) and contains the
      term, ignoring case. */
  predicate MatchesSearch(row: Row, columns: seq<Column>, term: string) {
    exists i :: 0 <= i < |columns| && columns[i].key in row && row[columns[i].key] != ""
                && ContainsIgnoreCase(row[columns[i].key], term)
  }

  function SearchPred(columns: seq<Column>, term: string): Row -> bool {
    row => MatchesSearch(row, columns, term)
  }

  /** `if (searchTerm)`: an empty term keeps every row. */
  function SearchFiltered(rows: seq<Row>, columns: seq<Column>, term: string): (r: seq<Row>)
    ensures term == "" ==> r == rows
    ensures term != "" ==> r == Filter(rows, SearchPred(columns, term))
    ensures IsSubseq(r, rows)
  {
    if term == "" then
      SubseqRefl(rows);
      rows
    else
      FilterIsSubseq(rows, SearchPred(columns, term));
      Filter(rows, SearchPred(columns, term))
  }

  /** `String(item[key])`: `"undefined"` for a missing property. */
  function CellText(row: Row, key: string): string {
    if key in row then row[key] else "undefined"
  }

  /** One entry of `filters`: an empty value filters nothing, any other value
      must occur in the cell's text, ignoring case. */
  predicate FilterHolds(row: Row, entry: (string, string)) {
    entry.1 == "" || ContainsIgnoreCase(CellText(row, entry.0), entry.1)
  }

  function FilterPred(entry: (string, string)): Row -> bool {
    row => FilterHolds(row, entry)
  }

  predicate AllFiltersHold(row: Row, filters: seq<(string, string)>) {
    forall j :: 0 <= j < |filters| ==> FilterHolds(row, filters[j])
  }

  function AllFiltersPred(filters: seq<(string, string)>): Row -> bool {
    row => AllFiltersHold(row, filters)
  }

  /** The column filters: the rows, in order, that pass every filter. */
  function ApplyFilters(rows: seq<Row>, filters: seq<(string, string)>): (r: seq<Row>)
    ensures forall i :: 0 <= i < |r| ==> r[i] in rows && AllFiltersHold(r[i], filters)
    ensures forall i :: 0 <= i < |rows| && AllFiltersHold(rows[i], filters) ==> rows[i] in r
    ensures IsSubseq(r, rows)
  {
    FilterIsSubseq(rows, AllFiltersPred(filters));
    Filter(rows, AllFiltersPred(filters))
  }

  /** Applying the filters one key at a time, as `forEach` does, is applying
      them all at once: one more key narrows the rows by that key's filter
      alone, and a key with an empty value narrows nothing. */
  lemma ApplyFiltersStep(rows: seq<Row>, filters: seq<(string, string)>, i: nat)
    requires i < |filters|
    ensures ApplyFilters(rows, filters[..i + 1]) ==
              if filters[i].1 == "" then ApplyFilters(rows, filters[..i])
              else Filter(ApplyFilters(rows, filters[..i]), FilterPred(filters[i]))
  {
    var prefix := filters[..i];
    var longer := filters[..i + 1];
    var p := AllFiltersPred(prefix);
    var l := AllFiltersPred(longer);
    var q := FilterPred(filters[i]);
    forall k | 0 <= k < |rows| ensures l(rows[k]) == (p(rows[k]) && q(rows[k])) {
      AllFiltersSnoc(rows[k], filters, i);
    }
    assert ApplyFilters(rows, longer) == Filter(rows, l);
    assert ApplyFilters(rows, prefix) == Filter(rows, p);
    if filters[i].1 == "" {
      FilterExt(rows, l, p);
    } else {
      FilterCompose(rows, p, q, l);
    }
  }

  lemma AllFiltersSnoc(row: Row, filters: seq<(string, string)>, i: nat)
    requires i < |filters|
    ensures AllFiltersHold(row, filters[..i + 1]) == (AllFiltersHold(row, filters[..i]) && FilterHolds(row, filters[i]))
  {
    var prefix := filters[..i];
    var longer := filters[..i + 1];
    if AllFiltersHold(row, prefix) && FilterHolds(row, filters[i]) {
      forall j | 0 <= j < |longer| ensures FilterHolds(row, longer[j]) {
        if j < i { assert longer[j] == prefix[j]; }
      }
    }
    if AllFiltersHold(row, longer) {
      forall j | 0 <= j < |prefix| ensures FilterHolds(row, prefix[j]) {
        assert prefix[j] == longer[j];
      }
      assert FilterHolds(row, longer[i]);
    }
  }

  /** `getFilteredData()` as a value: the sorted rows, narrowed by the search
      term, then by the column filters. */
  function FilteredRows(data: seq<Row>, columns: seq<Column>, config: SortConfig, term: string,
                        filters: seq<(string, string)>): seq<Row>
  {
    ApplyFilters(SearchFiltered(SortedData(data, config), columns, term), filters)
  }

  lemma ApplyFiltersMember(rows: seq<Row>, filters: seq<(string, string)>, row: Row)
    ensures row in ApplyFilters(rows, filters) <==> row in rows && AllFiltersHold(row, filters)
  {
    var r := ApplyFilters(rows, filters);
    if row in r {
      var i :| 0 <= i < |r| && r[i] == row;
    }
    if row in rows && AllFiltersHold(row, filters) {
      var i :| 0 <= i < |rows| && rows[i] == row;
    }
  }

  lemma SearchMember(rows: seq<Row>, columns: seq<Column>, term: string, row: Row)
    ensures row in SearchFiltered(rows, columns, term) <==>
              row in rows && (term == "" || MatchesSearch(row, columns, term))
  {
    if term != "" {
      var r := SearchFiltered(rows, columns, term);
      if row in r {
        var i :| 0 <= i < |r| && r[i] == row;
      }
      if row in rows && MatchesSearch(row, columns, term) {
        var i :| 0 <= i < |rows| && rows[i] == row;
      }
    }
  }

  /** The filtered rows are a subsequence of the sorted rows; a row is in
      them exactly when it is in the data, matches the search term (if any)
      and passes every column filter. */
  lemma FilteredRowsSpec(data: seq<Row>, columns: seq<Column>, config: SortConfig, term: string,
                         filters: seq<(string, string)>, row: Row)
    ensures IsSubseq(FilteredRows(data, columns, config, term, filters), SortedData(data, config))
    ensures row in FilteredRows(data, columns, config, term, filters) <==>
              row in data && (term == "" || MatchesSearch(row, columns, term)) && AllFiltersHold(row, filters)
  {
    var sorted := SortedData(data, config);
    var searched := SearchFiltered(sorted, columns, term);
    var result := ApplyFilters(searched, filters);
    SubseqTrans(result, searched, sorted);
    ApplyFiltersMember(searched, filters, row);
    SearchMember(sorted, columns, term, row);
    assert row in data <==> row in sorted by {
      assert row in data <==> row in multiset(data);
      assert row in sorted <==> row in multiset(sorted);
    }
  }

  /** `Object.keys(filters).forEach(...)`: each key with a non-empty value
      narrows the rows by its own filter, one key after the other. */
  method NarrowByFilters(rows: seq<Row>, filters: seq<(string, string)>) returns (r: seq<Row>)
    ensures r == ApplyFilters(rows, filters)
  {
    r := rows;
    assert r == ApplyFilters(rows, filters[..0]) by {
      FilterKeepsAll(rows, AllFiltersPred(filters[..0]));
    }
    var i := 0;
    while i < |filters|
      invariant 0 <= i <= |filters|
      invariant r == ApplyFilters(rows, filters[..i])
    {
      if filters[i].1 != "" {
        r := Filter(r, FilterPred(filters[i]));
      }
      assert r == ApplyFilters(rows, filters[..i + 1]) by {
        ApplyFiltersStep(rows, filters, i);
      }
      i := i + 1;
    }
    assert r == ApplyFilters(rows, filters) by {
      assert filters[..i] == filters;
    }
  }

  // ---- pages -------------------------------------------------------------------

  /** `Math.ceil(length / rowsPerPage)`. */
  function TotalPages(length: nat, rowsPerPage: nat): (t: nat)
    requires rowsPerPage > 0
    ensures t * rowsPerPage >= length
    ensures t > 0 ==> (t - 1) * rowsPerPage < length
    ensures t == 0 <==> length == 0
  {
    (length + rowsPerPage - 1) / rowsPerPage
  }

  /** `slice((currentPage - 1) * rowsPerPage, (currentPage - 1) * rowsPerPage + rowsPerPage)`. */
  function Page<T>(rows: seq<T>, currentPage: int, rowsPerPage: int): seq<T> {
    var start := (currentPage - 1) * rowsPerPage;
    Slice(rows, start, start + rowsPerPage)
  }

  /** A page holds at most `rowsPerPage` rows, those from index
      `(currentPage - 1) * rowsPerPage` on; pages 1 to `TotalPages` are never
      empty and the pages after it are. */
  lemma PageSpec<T>(rows: seq<T>, currentPage: int, rowsPerPage: int)
    requires currentPage >= 1 && rowsPerPage > 0
    ensures var start := (currentPage - 1) * rowsPerPage;
            && |Page(rows, currentPage, rowsPerPage)| <= rowsPerPage
            && (start < |rows| ==> Page(rows, currentPage, rowsPerPage) == rows[start..Min(start + rowsPerPage, |rows|)])
    ensures |Page(rows, currentPage, rowsPerPage)| > 0 <==> currentPage <= TotalPages(|rows|, rowsPerPage)
  {
    MulMono(0, currentPage - 1, rowsPerPage);
    var start: nat := (currentPage - 1) * rowsPerPage;
    assert Page(rows, currentPage, rowsPerPage) == Slice(rows, start, start + rowsPerPage);
    SliceWindow(rows, start, rowsPerPage);
    StartBeforeEnd(|rows|, currentPage, rowsPerPage);
  }

  /** Page `p` starts before the end of the rows exactly when `p` is at most
      the number of pages. */
  lemma StartBeforeEnd(length: nat, p: int, n: int)
    requires p >= 1 && n > 0
    ensures (p - 1) * n < length <==> p <= TotalPages(length, n)
  {
    var t := TotalPages(length, n);
    if p <= t {
      MulMono(p - 1, t - 1, n);
    } else {
      MulMono(t, p - 1, n);
    }
  }

  lemma MulMono(a: int, b: int, n: nat)
    requires a <= b
    ensures a * n <= b * n
  {
  }

  /** The page number of the `i`-th of the five page buttons. */
  function PageButton(currentPage: int, totalPages: int, i: int): int {
    if currentPage <= 3 then i + 1
    else if currentPage >= totalPages - 2 then totalPages - 4 + i
    else currentPage - 2 + i
  }

  function InRange(totalPages: int): int -> bool {
    p => 0 < p <= totalPages
  }

  /** The page-number buttons as written: `Math.min(5, totalPages)` slots,
      each slot's number dropped when it falls outside `1..totalPages`. */
  function PageWindow(currentPage: int, totalPages: nat): (r: seq<int>)
    ensures |r| <= Min(5, totalPages)
    ensures forall k :: 0 <= k < |r| ==> 1 <= r[k] <= totalPages
  {
    var slots := seq(Min(5, totalPages), i => PageButton(currentPage, totalPages, i));
    Filter(slots, InRange(totalPages))
  }

  /** With four pages and the fourth one current, the current page has no
      button: the slots are 0, 1, 2, 3 and 0 is dropped. */
  lemma PageWindowMissesCurrent()
    ensures PageWindow(4, 4) == [1, 2, 3]
    ensures 4 !in PageWindow(4, 4)
  {
    var slots := seq(Min(5, 4), i => PageButton(4, 4, i));
    var p := InRange(4);
    assert |slots| == 4;
    assert slots[0] == 0 && slots[1] == 1 && slots[2] == 2 && slots[3] == 3;
    assert slots == [0, 1, 2, 3];
    assert Filter([3], p) == [3] + Filter([], p);
    assert Filter([2, 3], p) == [2] + Filter([3], p) by { assert [2, 3][1..] == [3]; }
    assert Filter([1, 2, 3], p) == [1] + Filter([2, 3], p) by { assert [1, 2, 3][1..] == [2, 3]; }
    assert Filter([0, 1, 2, 3], p) == Filter([1, 2, 3], p) by { assert [0, 1, 2, 3][1..] == [1, 2, 3]; }
  }

  /** The window with its first number clamped to 1, so that it never starts
      below the first page. */
  function PageWindowFixed(currentPage: int, totalPages: nat): (r: seq<int>)
    ensures |r| == Min(5, totalPages)
    ensures forall k :: 0 <= k < |r| ==> r[k] == r[0] + k
    ensures 1 <= currentPage <= totalPages ==>
              (forall k :: 0 <= k < |r| ==> 1 <= r[k] <= totalPages) && currentPage in r
  {
    var first := if currentPage <= 3 then 1
                 else if currentPage >= totalPages - 2 then (if totalPages - 4 < 1 then 1 else totalPages - 4)
                 else currentPage - 2;
    var r := seq(Min(5, totalPages), i => first + i);
    assert 1 <= currentPage <= totalPages ==> r[currentPage - first] == currentPage;
    r
  }

  /** Apart from that one case the window as written is the fixed one. */
  lemma PageWindowAgrees(currentPage: int, totalPages: nat)
    requires 1 <= currentPage <= totalPages
    requires !(totalPages == 4 && currentPage == 4)
    ensures PageWindow(currentPage, totalPages) == PageWindowFixed(currentPage, totalPages)
  {
    var slots := seq(Min(5, totalPages), i => PageButton(currentPage, totalPages, i));
    assert slots == PageWindowFixed(currentPage, totalPages);
    FilterKeepsAll(slots, InRange(totalPages));
  }

  /** Prev: `Math.max(p - 1, 1)`. */
  function PrevPage(p: int): (r: int)
    ensures r >= 1
    ensures p > 1 ==> r == p - 1
  {
    if p - 1 > 1 then p - 1 else 1
  }

  /** Next: `Math.min(p + 1, totalPages)`. */
  function NextPage(p: int, totalPages: int): (r: int)
    ensures r <= totalPages
    ensures p < totalPages ==> r == p + 1
  {
    if p + 1 < totalPages then p + 1 else totalPages
  }

  /** Prev and next keep a page in `1..totalPages` there. */
  lemma PrevNextStayInRange(p: int, totalPages: int)
    requires 1 <= p <= totalPages
    ensures 1 <= PrevPage(p) <= totalPages
    ensures 1 <= NextPage(p, totalPages) <= totalPages
  {
  }

  // ---- selection -------------------------------------------------------------

  /** `handleRowSelect(id)`: removes the id when selected, appends it
      otherwise. */
  function ToggleSelection(selected: seq<RowId>, id: RowId): (r: seq<RowId>)
    ensures id in r <==> id !in selected
    ensures forall x :: x != id ==> (x in r <==> x in selected)
    ensures id !in selected ==> r == selected + [id]
    ensures id in selected ==> IsSubseq(r, selected)
  {
    if id in selected then
      var other := (y: RowId) => y != id;
      FilterIsSubseq(selected, other);
      Filter(selected, other)
    else selected + [id]
  }

  /** Toggling keeps the selection free of duplicates, and toggling the same
      id twice restores the set of selected ids. */
  lemma ToggleTwice(selected: seq<RowId>, id: RowId)
    requires NoDup(selected)
    ensures NoDup(ToggleSelection(selected, id))
    ensures forall x :: x in ToggleSelection(ToggleSelection(selected, id), id) <==> x in selected
  {
    if id in selected {
      FilterNoDup(selected, y => y != id);
    }
  }

  // ---- CSV -----------------------------------------------------------------------

  /** One exported cell: a string containing a comma is wrapped in double
      quotes; an undefined value becomes empty in `join`. */
  function CsvField(row: Row, key: string): (r: string)
    ensures key !in row ==> r == ""
    ensures key in row && !Contains(row[key], ",") ==> r == row[key]
    ensures key in row && Contains(row[key], ",") ==> r == "\"" + row[key] + "\""
  {
    if key !in row then ""
    else if Contains(row[key], ",") then "\"" + row[key] + "\""
    else row[key]
  }

  function Join(parts: seq<string>, sep: string): string {
    if parts == [] then ""
    else if |parts| == 1 then parts[0]
    else parts[0] + sep + Join(parts[1..], sep)
  }

  function CsvLine(row: Row, columns: seq<Column>): string {
    Join(Map(columns, (c: Column) => CsvField(row, c.key)), ",")
  }

  /** The `data:` URI payload of `exportToCSV()`: the header labels, then one
      line per filtered row. */
  function CsvContent(rows: seq<Row>, columns: seq<Column>): string {
    "data:text/csv;charset=utf-8," + Join(Map(columns, (c: Column) => c.heading), ",") + "\n"
      + Join(Map(rows, (row: Row) => CsvLine(row, columns)), "\n")
  }

  // ---- component state ---------------------------------------------------------

  class Table {
    var data: seq<Row>
    var columns: seq<Column>
    var searchTerm: string
    var sortConfig: SortConfig
    var selectedRows: seq<RowId>
    var currentPage: int
    var rowsPerPage: int
    /** `filters` as an object: its keys in insertion order, with values. */
    var filters: seq<(string, string)>

    ghost predicate Valid()
      reads this
    {
      rowsPerPage in {10, 20, 50, 100} && UniqueKeys(filters)
    }

    constructor (data: seq<Row>, columns: seq<Column>)
      ensures Valid()
      ensures this.data == data && this.columns == columns
      ensures searchTerm == "" && sortConfig == SortConfig(None, true) && selectedRows == []
      ensures currentPage == 1 && rowsPerPage == 10 && filters == []
    {
      this.data := data;
      this.columns := columns;
      searchTerm := "";
      sortConfig := SortConfig(None, true);
      selectedRows := [];
      currentPage := 1;
      rowsPerPage := 10;
      filters := [];
    }

    function Filtered(): seq<Row>
      reads this
    {
      FilteredRows(data, columns, sortConfig, searchTerm, filters)
    }

    function Paginated(): seq<Row>
      reads this
    {
      Page(Filtered(), currentPage, rowsPerPage)
    }

    function Pages(): nat
      reads this
      requires Valid()
    {
      TotalPages(|Filtered()|, rowsPerPage)
    }

    /** `getFilteredData()`: the sorted copy, narrowed by the search term,
        then by the column filters. */
    method GetFilteredData() returns (r: seq<Row>)
      ensures r == Filtered()
    {
      r := SortedData(data, sortConfig);
      if searchTerm != "" {
        r := Filter(r, SearchPred(columns, searchTerm));
      }
      r := NarrowByFilters(r, filters);
    }

    /** `getPaginatedData()`. */
    method GetPaginatedData() returns (r: seq<Row>)
      ensures r == Paginated()
      ensures currentPage >= 1 && rowsPerPage > 0 ==> |r| <= rowsPerPage
    {
      var filtered := GetFilteredData();
      var start := (currentPage - 1) * rowsPerPage;
      r := Slice(filtered, start, start + rowsPerPage);
      if currentPage >= 1 && rowsPerPage > 0 {
        PageSpec(filtered, currentPage, rowsPerPage);
      }
    }

    method HandleSort(key: string)
      modifies this`sortConfig
      ensures sortConfig == NextSort(old(sortConfig), key)
    {
      var ascending := true;
      if sortConfig.key == Some(key) && sortConfig.ascending {
        ascending := false;
      }
      sortConfig := SortConfig(Some(key), ascending);
    }

    method HandleRowSelect(id: RowId)
      modifies this`selectedRows
      ensures selectedRows == ToggleSelection(old(selectedRows), id)
    {
      if id in selectedRows {
        selectedRows := Filter(selectedRows, y => y != id);
      } else {
        selectedRows := selectedRows + [id];
      }
    }

    /** `handleSelectAll()`: clears the selection when it is as long as the
        page, otherwise selects the ids of the page's rows. */
    method HandleSelectAll()
      modifies this`selectedRows
      ensures |old(selectedRows)| == |Paginated()| ==> selectedRows == []
      ensures |old(selectedRows)| != |Paginated()| ==> selectedRows == Map(Paginated(), IdOf)
    {
      var page := GetPaginatedData();
      if |selectedRows| == |page| {
        selectedRows := [];
      } else {
        selectedRows := Map(page, IdOf);
      }
    }

    /** `handleFilterChange(key, value)`: sets the key's value, keeping the
        key's place or appending it, and goes back to the first page. */
    method HandleFilterChange(key: string, value: string)
      requires Valid()
      modifies this`filters, this`currentPage
      ensures Valid()
      ensures filters == SetFilter(old(filters), key, value)
      ensures currentPage == 1
    {
      SetFilterSpec(filters, key, value);
      filters := SetFilter(filters, key, value);
      currentPage := 1;
    }

    /** The search box: sets the term and goes back to the first page. */
    method HandleSearchChange(term: string)
      modifies this`searchTerm, this`currentPage
      ensures searchTerm == term && currentPage == 1
    {
      searchTerm := term;
      currentPage := 1;
    }

    /** The page-size select: one of 10, 20, 50, 100; back to the first page. */
    method HandleRowsPerPageChange(size: int)
      requires Valid() && size in {10, 20, 50, 100}
      modifies this`rowsPerPage, this`currentPage
      ensures Valid() && rowsPerPage == size && currentPage == 1
    {
      rowsPerPage := size;
      currentPage := 1;
    }

    /** `handleBulkDelete(confirmed)`: after confirmation `onDelete` (when
        given) is called with each selected id in order and the selection is
        cleared; without confirmation nothing happens. */
    method HandleBulkDelete(confirmed: bool, hasOnDelete: bool) returns (deleted: seq<RowId>)
      modifies this`selectedRows
      ensures confirmed ==> selectedRows == [] && deleted == (if hasOnDelete then old(selectedRows) else [])
      ensures !confirmed ==> selectedRows == old(selectedRows) && deleted == []
    {
      deleted := [];
      if confirmed {
        var i := 0;
        while i < |selectedRows|
          invariant 0 <= i <= |selectedRows|
          invariant deleted == if hasOnDelete then selectedRows[..i] else []
        {
          if hasOnDelete {
            deleted := deleted + [selectedRows[i]];
          }
          i := i + 1;
        }
        assert selectedRows[..i] == selectedRows;
        selectedRows := [];
      }
    }

    method HandlePrev()
      modifies this`currentPage
      ensures currentPage == PrevPage(old(currentPage))
    {
      currentPage := if currentPage - 1 > 1 then currentPage - 1 else 1;
    }

    method HandleNext()
      requires Valid()
      modifies this`currentPage
      ensures currentPage == NextPage(old(currentPage), Pages())
    {
      var total := TotalPages(|Filtered()|, rowsPerPage);
      currentPage := if currentPage + 1 < total then currentPage + 1 else total;
    }

    method ExportToCsv() returns (content: string)
      ensures content == CsvContent(Filtered(), columns)
    {
      var rows := GetFilteredData();
      content := CsvContent(rows, columns);
    }
  }

  /** `{...prev, [key]: value}` on an object whose keys are kept in
      insertion order. */
  function SetFilter(filters: seq<(string, string)>, key: string, value: string): (r: seq<(string, string)>)
    ensures exists j :: 0 <= j < |r| && r[j] == (key, value)
    ensures forall j :: 0 <= j < |filters| && filters[j].0 != key ==> filters[j] in r
  {
    if filters == [] then
      assert [(key, value)][0] == (key, value);
      [(key, value)]
    else if filters[0].0 == key then
      var r := [(key, value)] + filters[1..];
      assert r[0] == (key, value);
      assert forall i :: 1 <= i < |filters| ==> filters[i] == r[i];
      r
    else
      var rest := SetFilter(filters[1..], key, value);
      var j :| 0 <= j < |rest| && rest[j] == (key, value);
      assert ([filters[0]] + rest)[j + 1] == (key, value);
      forall i | 0 <= i < |filters| && filters[i].0 != key
        ensures filters[i] in [filters[0]] + rest
      {
        if i > 0 {
          assert filters[i] == filters[1..][i - 1];
        }
      }
      [filters[0]] + rest
  }

  /** An object's keys are distinct. */
  predicate UniqueKeys(filters: seq<(string, string)>) {
    forall i, j :: 0 <= i < j < |filters| ==> filters[i].0 != filters[j].0
  }

  /** A key the object does not have is appended. */
  lemma {:induction false} SetFilterAbsent(filters: seq<(string, string)>, key: string, value: string)
    requires forall j :: 0 <= j < |filters| ==> filters[j].0 != key
    ensures SetFilter(filters, key, value) == filters + [(key, value)]
  {
    if filters != [] {
      SetFilterAbsent(filters[1..], key, value);
      assert filters == [filters[0]] + filters[1..];
    }
  }

  /** A key first found at index `k` takes the new value there. */
  lemma {:induction false} SetFilterPresent(filters: seq<(string, string)>, key: string, value: string, k: nat)
    requires k < |filters| && filters[k].0 == key
    requires forall j :: 0 <= j < k ==> filters[j].0 != key
    ensures SetFilter(filters, key, value) == filters[k := (key, value)]
  {
    if k > 0 {
      SetFilterPresent(filters[1..], key, value, k - 1);
      assert filters[k := (key, value)] == [filters[0]] + filters[1..][k - 1 := (key, value)];
    }
  }

  /** `{...prev, [key]: value}` on an object: an existing key keeps its place
      and takes the new value, a new key is appended, every other entry stays
      where it was, and the keys stay distinct. */
  lemma SetFilterSpec(filters: seq<(string, string)>, key: string, value: string)
    requires UniqueKeys(filters)
    ensures var r := SetFilter(filters, key, value);
      && UniqueKeys(r)
      && |r| >= |filters|
      && (forall j :: 0 <= j < |filters| ==> r[j] == (if filters[j].0 == key then (key, value) else filters[j]))
      && (|r| == |filters| <==> exists j :: 0 <= j < |filters| && filters[j].0 == key)
      && (|r| > |filters| ==> r == filters + [(key, value)])
      && (forall j :: 0 <= j < |r| && r[j].0 == key ==> r[j].1 == value)
  {
    var r := SetFilter(filters, key, value);
    if k :| 0 <= k < |filters| && filters[k].0 == key {
      SetFilterPresent(filters, key, value, k);
      assert r == filters[k := (key, value)];
      ReplaceKeepsKeys(filters, k, (key, value));
      assert |r| == |filters|;
    } else {
      SetFilterAbsent(filters, key, value);
      assert r == filters + [(key, value)];
      AppendNewKey(filters, (key, value));
      assert |r| == |filters| + 1;
      assert forall j :: 0 <= j < |filters| ==> r[j] == filters[j];
    }
  }

  /** Replacing the entry of a key keeps the keys distinct and leaves every
      other entry, which has another key, as it was. */
  lemma ReplaceKeepsKeys(filters: seq<(string, string)>, k: nat, e: (string, string))
    requires UniqueKeys(filters) && k < |filters| && filters[k].0 == e.0
    ensures var r := filters[k := e];
      && UniqueKeys(r)
      && (forall j :: 0 <= j < |filters| ==> r[j] == (if filters[j].0 == e.0 then e else filters[j]))
      && (forall j :: 0 <= j < |r| && r[j].0 == e.0 ==> r[j] == e)
  {
    var r := filters[k := e];
    forall i, j | 0 <= i < j < |r| ensures r[i].0 != r[j].0 {
      assert r[i].0 == filters[i].0 && r[j].0 == filters[j].0;
    }
    forall j | 0 <= j < |filters| && j != k ensures filters[j].0 != e.0 {
      if j < k { assert filters[j].0 != filters[k].0; } else { assert filters[k].0 != filters[j].0; }
    }
  }

  /** Appending an entry of a new key keeps the keys distinct. */
  lemma AppendNewKey(filters: seq<(string, string)>, e: (string, string))
    requires UniqueKeys(filters)
    requires forall j :: 0 <= j < |filters| ==> filters[j].0 != e.0
    ensures UniqueKeys(filters + [e])
    ensures forall j :: 0 <= j < |filters| + 1 && (filters + [e])[j].0 == e.0 ==> (filters + [e])[j] == e
  {
    var r := filters + [e];
    forall i, j | 0 <= i < j < |r| ensures r[i].0 != r[j].0 {
      assert r[i] == filters[i];
      if j < |filters| { assert r[j] == filters[j]; }
    }
    assert forall j :: 0 <= j < |filters| ==> r[j] == filters[j];
  }
}
