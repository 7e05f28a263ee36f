/** `manage/jobPosts/AdminJobPosts`: the job-post list with client-side
    paging, a sort that toggles per column, a status dialog and a delete
    dialog for the selected post. */
module AdminJobPosts {
  import opened Wrappers
  import opened Strings
  import opened Seqs
  import opened Client
  import DataTable

  datatype JobPost = JobPost(jobPostId: int, jobPostTitle: string, companyName: string, jobPostStatus: bool)

  const ItemsPerPage: int := 10

  /** `sortField` and `sortDirection`. */
  datatype SortState = SortState(field: string, direction: string)

  const InitialSort: SortState := SortState("jobPostCreatedAt", "desc")

  /** `handleSort(field)`: the current field flips between 'asc' and 'desc';
      another field is selected ascending. */
  function NextSort(s: SortState, field: string): (r: SortState)
    ensures r.field == field
    ensures r.direction in {"asc", "desc"}
    ensures s.field == field && s.direction == "asc" ==> r.direction == "desc"
    ensures s.field == field && s.direction != "asc" ==> r.direction == "asc"
    ensures s.field != field ==> r.direction == "asc"
  {
    if s.field == field then s.(direction := if s.direction == "asc" then "desc" else "asc")
    else SortState(field, "asc")
  }

  /** Two clicks on the sorted column give back the sort it had. */
  lemma SortTwiceRestores(s: SortState, field: string)
    requires s.field == field && s.direction in {"asc", "desc"}
    ensures NextSort(NextSort(s, field), field) == s
  {
  }

  /** The query of `GET /api/admin/job-posts`: the three filters as they are,
      the sort field and `isDESC`, true exactly for 'desc'. */
  function Params(filters: map<string, string>, sort: SortState): (r: map<string, string>)
    ensures "sortOrderBy" in r && r["sortOrderBy"] == sort.field
    ensures "isDESC" in r && (r["isDESC"] == "true" <==> sort.direction == "desc")
    ensures forall k :: k in {"companyName", "jobPostTitle", "jobPostStatus"} && k in filters ==> k in r && r[k] == filters[k]
  {
    var text := map k | k in {"companyName", "jobPostTitle", "jobPostStatus"} && k in filters :: filters[k];
    text["sortOrderBy" := sort.field]["isDESC" := BoolText(sort.direction == "desc")]
  }

  function ListRequest(filters: map<string, string>, sort: SortState): Request {
    Request(Get, "/api/admin/job-posts", Params(filters, sort))
  }

  function JobPostPath(jobPostId: int): string {
    "/api/admin/job-posts/" + IntToString(jobPostId)
  }

  /** `getCurrentJobPosts()`: `slice(currentPage * 10 - 10, currentPage * 10)`,
      which is the table page `currentPage` of 10 posts. */
  function CurrentJobPosts(jobPosts: seq<JobPost>, currentPage: int): (r: seq<JobPost>)
    ensures r == DataTable.Page(jobPosts, currentPage, ItemsPerPage)
  {
    var indexOfLastItem := currentPage * ItemsPerPage;
    var indexOfFirstItem := indexOfLastItem - ItemsPerPage;
    Slice(jobPosts, indexOfFirstItem, indexOfLastItem)
  }

  /** The shown posts: at most 10, those from index `(currentPage - 1) * 10`
      on, and none past the last page. */
  lemma CurrentJobPostsSpec(jobPosts: seq<JobPost>, currentPage: int)
    requires currentPage >= 1
    ensures |CurrentJobPosts(jobPosts, currentPage)| <= ItemsPerPage
    ensures (currentPage - 1) * ItemsPerPage < |jobPosts| ==>
              CurrentJobPosts(jobPosts, currentPage)
              == jobPosts[(currentPage - 1) * ItemsPerPage..Min(currentPage * ItemsPerPage, |jobPosts|)]
    ensures |CurrentJobPosts(jobPosts, currentPage)| > 0 <==> currentPage <= DataTable.TotalPages(|jobPosts|, ItemsPerPage)
  {
    DataTable.PageSpec(jobPosts, currentPage, ItemsPerPage);
  }

  class JobPostsBoard {
    var jobPosts: seq<JobPost>
    var totalItems: int
    var currentPage: int
    var filters: map<string, string>
    var sort: SortState
    var selectedJobPost: Option<JobPost>
    var error: Option<string>

    constructor ()
      ensures jobPosts == [] && totalItems == 0 && currentPage == 1
      ensures filters == map["companyName" := "", "jobPostTitle" := "", "jobPostStatus" := ""]
      ensures sort == InitialSort && selectedJobPost == None && error == None
    {
      jobPosts := [];
      totalItems := 0;
      currentPage := 1;
      filters := map["companyName" := "", "jobPostTitle" := "", "jobPostStatus" := ""];
      sort := InitialSort;
      selectedJobPost := None;
      error := None;
    }

    /** `fetchJobPosts()` given the server's answer (None when it fails). */
    method FetchJobPosts(response: Option<seq<JobPost>>) returns (sent: Request)
      modifies this`jobPosts, this`totalItems, this`error
      ensures sent == ListRequest(filters, sort)
      ensures response.Some? ==> jobPosts == response.value && totalItems == |response.value| && error == None
      ensures response.None? ==> jobPosts == old(jobPosts) && totalItems == old(totalItems)
                                 && error == Some("공고 목록을 불러오는데 실패했습니다.")
    {
      sent := ListRequest(filters, sort);
      error := None;
      if response.Some? {
        jobPosts := response.value;
        totalItems := |response.value|;
      } else {
        error := Some("공고 목록을 불러오는데 실패했습니다.");
      }
    }

    /** `handleSort(field)`: the new sort state, and the list request the
        effect on `[sortField, sortDirection]` sends because it changed. */
    method HandleSort(field: string) returns (sent: Request)
      modifies this`sort
      ensures sort == NextSort(old(sort), field) && sort != old(sort)
      ensures sent == ListRequest(filters, sort)
    {
      if sort.field == field {
        sort := sort.(direction := if sort.direction == "asc" then "desc" else "asc");
      } else {
        sort := SortState(field, "asc");
      }
      sent := ListRequest(filters, sort);
    }

    method HandleFilterChange(name: string, value: string)
      modifies this`filters
      ensures filters == old(filters)[name := value]
    {
      filters := filters[name := value];
    }

    /** `handleUpdateStatus(jobPostId, status)`: the PATCH, then on success a
        fresh list request, which clears the error as it starts. */
    method HandleUpdateStatus(jobPostId: int, status: bool, ok: bool) returns (sent: seq<Request>)
      modifies this`error
      ensures |sent| >= 1 && sent[0] == Request(Patch, JobPostPath(jobPostId) + "/status", map["status" := BoolText(status)])
      ensures ok ==> sent == [sent[0], ListRequest(filters, sort)] && error == None
      ensures !ok ==> sent == [sent[0]] && error == Some("공고 상태 변경에 실패했습니다.")
    {
      sent := [Request(Patch, JobPostPath(jobPostId) + "/status", map["status" := BoolText(status)])];
      if ok {
        sent := sent + [ListRequest(filters, sort)];
        error := None;
      } else {
        error := Some("공고 상태 변경에 실패했습니다.");
      }
    }

    /** `handleDeleteJobPost()`: nothing at all without a selected post;
        otherwise the DELETE, and on success a fresh list request (which
        clears the error), and no selection. */
    method HandleDeleteJobPost(ok: bool) returns (sent: seq<Request>)
      modifies this`selectedJobPost, this`error
      ensures old(selectedJobPost).None? ==> sent == [] && selectedJobPost == None && error == old(error)
      ensures old(selectedJobPost).Some? ==>
                |sent| >= 1 && sent[0] == Del(JobPostPath(old(selectedJobPost).value.jobPostId))
      ensures old(selectedJobPost).Some? && ok ==>
                sent == [sent[0], ListRequest(filters, sort)] && selectedJobPost == None && error == None
      ensures old(selectedJobPost).Some? && !ok ==>
                sent == [sent[0]] && selectedJobPost == old(selectedJobPost)
                && error == Some("공고 삭제에 실패했습니다.")
    {
      sent := [];
      if selectedJobPost.None? {
        return;
      }
      sent := [Del(JobPostPath(selectedJobPost.value.jobPostId))];
      if ok {
        sent := sent + [ListRequest(filters, sort)];
        error := None;
        selectedJobPost := None;
      } else {
        error := Some("공고 삭제에 실패했습니다.");
      }
    }

    /** `handleOpenDeleteModal(jobPost)` (and the status dialog's opener). */
    method Select(jobPost: JobPost)
      modifies this`selectedJobPost
      ensures selectedJobPost == Some(jobPost)
    {
      selectedJobPost := Some(jobPost);
    }
  }
}
