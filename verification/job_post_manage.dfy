/** `manage/jobposts/AdminJobPostManage`: the job-post list behind the
    shared data table, with a confirmed open/close toggle and a confirmed
    delete. */
module JobPostManage {
  import opened Wrappers
  import opened Strings
  import opened Seqs
  import opened Client
  import opened ListQuery

  datatype JobPost = JobPost(jobPostId: int, jobPostTitle: string, jobPostStatus: bool)

  const SortFieldMap: map<string, string> :=
    map["jobPostTitle" := "공고 제목", "companyName" := "법인명", "jobPostDueDate" := "공고 마감일"]

  const Initial: Query :=
    Query(map["companyName" := "", "jobPostTitle" := "", "jobPostStatus" := ""], "공고 제목", false, 1, 10)

  /** The three column keys get their labels; any other key is sent as is. */
  lemma SortLabels(key: string)
    ensures SortLabel(SortFieldMap, "jobPostTitle") == "공고 제목"
    ensures SortLabel(SortFieldMap, "companyName") == "법인명"
    ensures SortLabel(SortFieldMap, "jobPostDueDate") == "공고 마감일"
    ensures key !in {"jobPostTitle", "companyName", "jobPostDueDate"} ==> SortLabel(SortFieldMap, key) == key
  {
  }

  /** `adminApiService.getJobPosts(params)`. */
  function ListRequest(q: Query): Request {
    Request(Get, "/api/admin/job-posts", Params(q))
  }

  function JobPostPath(jobPostId: int): string {
    "/api/admin/job-posts/" + IntToString(jobPostId)
  }

  /** `adminApiService.deleteJobPost(jobPostId)`: the post's applications
      first, the post only once that succeeded. */
  function DeleteRequests(jobPostId: int, applicationsDeleted: bool): seq<Request> {
    Chain(Del(JobPostPath(jobPostId) + "/applications"), Del(JobPostPath(jobPostId)), applicationsDeleted)
  }

  /** `adminApiService.updateJobPostStatus(jobPostId, status)`. */
  function StatusRequest(jobPostId: int, status: bool): Request {
    Request(Patch, JobPostPath(jobPostId) + "/status", map["status" := BoolText(status)])
  }

  /** `prev.map(post => post.jobPostId === id ? { ...post, jobPostStatus } : post)`. */
  function WithStatus(posts: seq<JobPost>, jobPostId: int, status: bool): (r: seq<JobPost>)
    ensures |r| == |posts|
    ensures forall i :: 0 <= i < |posts| && posts[i].jobPostId == jobPostId ==> r[i] == posts[i].(jobPostStatus := status)
    ensures forall i :: 0 <= i < |posts| && posts[i].jobPostId != jobPostId ==> r[i] == posts[i]
  {
    UpdateWhere(posts, (p: JobPost) => p.jobPostId == jobPostId, (p: JobPost) => p.(jobPostStatus := status))
  }

  /** When the list agrees with the status the toggle was opened with,
      toggling and toggling back restores the list. */
  lemma ToggleBackRestores(posts: seq<JobPost>, jobPostId: int, current: bool)
    requires forall i :: 0 <= i < |posts| && posts[i].jobPostId == jobPostId ==> posts[i].jobPostStatus == current
    ensures WithStatus(WithStatus(posts, jobPostId, !current), jobPostId, current) == posts
  {
    var r := WithStatus(WithStatus(posts, jobPostId, !current), jobPostId, current);
    assert forall i :: 0 <= i < |posts| ==> r[i] == posts[i];
  }

  /** `posts.filter(post => post.jobPostId !== jobPostId)`. */
  function WithoutPost(posts: seq<JobPost>, jobPostId: int): (r: seq<JobPost>)
    ensures forall p :: p in r <==> p in posts && p.jobPostId != jobPostId
    ensures IsSubseq(r, posts)
  {
    var other := (p: JobPost) => p.jobPostId != jobPostId;
    FilterIsSubseq(posts, other);
    Filter(posts, other)
  }

  function StatusWord(status: bool): string {
    if status then "공개" else "비공개"
  }

  /** The handlers' own list request is built from `searchParams` as it was
      before the update they schedule. */
  class JobPostsScreen {
    var jobPosts: seq<JobPost>
    var totalItems: int
    var searchParams: Query

    constructor ()
      ensures jobPosts == [] && totalItems == 0 && searchParams == Initial
    {
      jobPosts := [];
      totalItems := 0;
      searchParams := Initial;
    }

    /** `fetchJobPosts()`; a failure keeps the list. */
    method FetchJobPosts(response: Option<seq<JobPost>>) returns (sent: Request)
      modifies this`jobPosts, this`totalItems
      ensures sent == ListRequest(searchParams)
      ensures response.Some? ==> jobPosts == response.value && totalItems == |response.value|
      ensures response.None? ==> jobPosts == old(jobPosts) && totalItems == old(totalItems)
    {
      sent := ListRequest(searchParams);
      if response.Some? {
        jobPosts := response.value;
        totalItems := |response.value|;
      }
    }

    method HandleSearch(searchTerm: string, page: Option<int>, rowsPerPage: Option<int>) returns (sent: Request)
      modifies this`searchParams
      ensures searchParams == WithSearch(old(searchParams), "jobPostTitle", searchTerm, page, rowsPerPage)
      ensures sent == ListRequest(old(searchParams))
    {
      sent := ListRequest(searchParams);
      searchParams := WithSearch(searchParams, "jobPostTitle", searchTerm, page, rowsPerPage);
    }

    method HandleSort(key: string, direction: string) returns (sent: Request)
      modifies this`searchParams
      ensures searchParams == WithSort(old(searchParams), SortFieldMap, key, direction)
      ensures sent == ListRequest(old(searchParams))
    {
      sent := ListRequest(searchParams);
      searchParams := WithSort(searchParams, SortFieldMap, key, direction);
    }

    method HandleFilter(filters: map<string, string>) returns (sent: Request)
      modifies this`searchParams
      ensures searchParams == WithFilters(old(searchParams), filters)
      ensures sent == ListRequest(old(searchParams))
    {
      sent := ListRequest(searchParams);
      searchParams := WithFilters(searchParams, filters);
    }

    method HandlePageChange(page: int, rowsPerPage: Option<int>) returns (sent: Request)
      modifies this`searchParams
      ensures searchParams == WithPage(old(searchParams), page, rowsPerPage)
      ensures sent == ListRequest(old(searchParams))
    {
      sent := ListRequest(searchParams);
      searchParams := WithPage(searchParams, page, rowsPerPage);
    }

    /** `handleDelete(jobPostId)`: the applications DELETE, then the post
        DELETE; only when both succeed does the post leave the list. */
    method HandleDelete(jobPostId: int, applicationsDeleted: bool, postDeleted: bool) returns (sent: seq<Request>)
      modifies this`jobPosts
      ensures sent == DeleteRequests(jobPostId, applicationsDeleted)
      ensures applicationsDeleted && postDeleted ==> jobPosts == WithoutPost(old(jobPosts), jobPostId)
      ensures !(applicationsDeleted && postDeleted) ==> jobPosts == old(jobPosts)
    {
      sent := DeleteRequests(jobPostId, applicationsDeleted);
      if applicationsDeleted && postDeleted {
        jobPosts := Filter(jobPosts, (p: JobPost) => p.jobPostId != jobPostId);
      }
    }

    /** `toggleJobPostStatus(jobPostId, currentStatus)`: the negated status
        is sent, and on success it is set on the matching posts only. */
    method ToggleJobPostStatus(jobPostId: int, currentStatus: bool, ok: bool) returns (sent: Request)
      modifies this`jobPosts
      ensures sent == StatusRequest(jobPostId, !currentStatus)
      ensures ok ==> jobPosts == WithStatus(old(jobPosts), jobPostId, !currentStatus)
      ensures !ok ==> jobPosts == old(jobPosts)
    {
      sent := StatusRequest(jobPostId, !currentStatus);
      if ok {
        jobPosts := WithStatus(jobPosts, jobPostId, !currentStatus);
      }
    }

    /** `confirmStatusChange(jobPost)`: the dialog names the new state, and
        once confirmed the toggle runs with the row's status. */
    method ConfirmStatusChange(jobPost: JobPost, confirmed: bool, ok: bool) returns (message: string, sent: seq<Request>)
      modifies this`jobPosts
      ensures message == "\"" + jobPost.jobPostTitle + "\" 공고를 " + StatusWord(!jobPost.jobPostStatus) + "로 변경하시겠습니까?"
      ensures !confirmed ==> sent == [] && jobPosts == old(jobPosts)
      ensures confirmed ==> sent == [StatusRequest(jobPost.jobPostId, !jobPost.jobPostStatus)]
      ensures confirmed && ok ==> jobPosts == WithStatus(old(jobPosts), jobPost.jobPostId, !jobPost.jobPostStatus)
      ensures confirmed && !ok ==> jobPosts == old(jobPosts)
    {
      message := "\"" + jobPost.jobPostTitle + "\" 공고를 " + StatusWord(!jobPost.jobPostStatus) + "로 변경하시겠습니까?";
      sent := [];
      if confirmed {
        var request := ToggleJobPostStatus(jobPost.jobPostId, jobPost.jobPostStatus, ok);
        sent := [request];
      }
    }

    /** `confirmDelete(jobPost)`: nothing without confirmation. */
    method ConfirmDelete(jobPost: JobPost, confirmed: bool, applicationsDeleted: bool, postDeleted: bool)
      returns (sent: seq<Request>)
      modifies this`jobPosts
      ensures !confirmed ==> sent == [] && jobPosts == old(jobPosts)
      ensures confirmed ==> sent == DeleteRequests(jobPost.jobPostId, applicationsDeleted)
      ensures confirmed && applicationsDeleted && postDeleted ==> jobPosts == WithoutPost(old(jobPosts), jobPost.jobPostId)
      ensures !(confirmed && applicationsDeleted && postDeleted) ==> jobPosts == old(jobPosts)
    {
      sent := [];
      if confirmed {
        sent := HandleDelete(jobPost.jobPostId, applicationsDeleted, postDeleted);
      }
    }
  }
}
