/** `manage/applications/AdminApplicationsManage`: the application list
    behind the shared data table, searched, sorted and paged on the server
    through the admin API service. */
module ApplicationsManage {
  import opened Wrappers
  import opened Strings
  import opened Client
  import opened ListQuery
  import ApplicationsManagee

  type Application = ApplicationsManagee.Application

  const SortFieldMap: map<string, string> :=
    map["applicantName" := "지원자명", "companyName" := "법인명", "applicationAt" := "지원일"]

  const Initial: Query :=
    Query(map["userName" := "", "companyName" := "", "jobPostTitle" := "", "approveStatus" := ""],
          "지원일", true, 1, 10)

  /** The three column keys get their labels; any other key is sent as the
      label itself. */
  lemma SortLabels(key: string)
    ensures SortLabel(SortFieldMap, "applicantName") == "지원자명"
    ensures SortLabel(SortFieldMap, "companyName") == "법인명"
    ensures SortLabel(SortFieldMap, "applicationAt") == "지원일"
    ensures key !in {"applicantName", "companyName", "applicationAt"} ==> SortLabel(SortFieldMap, key) == key
  {
  }

  /** `adminApiService.getApplications(params)`. */
  function ListRequest(q: Query): Request {
    Request(Get, "/api/admin/applications", Params(q))
  }

  /** `adminApiService.getFilteredApplications(userId, jobPostId)`: each id
      is a parameter only when it is truthy. */
  function FilteredRequest(userId: Option<string>, jobPostId: Option<string>): (r: Request)
    ensures r.path == "/api/admin/job-applications"
    ensures "userId" in r.data <==> ApplicationsManagee.Truthy(userId)
    ensures "jobPostId" in r.data <==> ApplicationsManagee.Truthy(jobPostId)
    ensures "userId" in r.data ==> r.data["userId"] == userId.value
    ensures "jobPostId" in r.data ==> r.data["jobPostId"] == jobPostId.value
    ensures forall k :: k in r.data ==> k in {"userId", "jobPostId"}
  {
    var withUser: map<string, string> := if ApplicationsManagee.Truthy(userId) then map["userId" := userId.value] else map[];
    var params := if ApplicationsManagee.Truthy(jobPostId) then withUser["jobPostId" := jobPostId.value] else withUser;
    Request(Get, "/api/admin/job-applications", params)
  }

  /** The word of the confirm dialog: anything but 'approved' and 'denied'
      reads as pending. */
  function StatusWord(status: string): (r: string)
    ensures status == "approved" ==> r == "승인"
    ensures status == "denied" ==> r == "거절"
    ensures status !in {"approved", "denied"} ==> r == "대기"
  {
    if status == "approved" then "승인" else if status == "denied" then "거절" else "대기"
  }

  function ConfirmMessage(status: string): string {
    "지원 상태를 \"" + StatusWord(status) + "\"로 변경하시겠습니까?"
  }

  function StatusPath(applicationId: int): string {
    "/api/admin/applications/" + IntToString(applicationId) + "/status"
  }

  /** The handlers' own list request is built from `searchParams` as it was
      before the update they schedule (the state the handler closed over). */
  class ApplicationsScreen {
    var applications: seq<Application>
    var totalItems: int
    var searchParams: Query

    constructor ()
      ensures applications == [] && totalItems == 0 && searchParams == Initial
    {
      applications := [];
      totalItems := 0;
      searchParams := Initial;
    }

    /** The effect on `location.search`: a truthy user or job-post id asks
        for the filtered list, otherwise the searched one. A failure keeps
        the list. */
    method Fetch(userId: Option<string>, jobPostId: Option<string>, response: Option<seq<Application>>)
      returns (sent: Request)
      modifies this`applications, this`totalItems
      ensures ApplicationsManagee.Truthy(userId) || ApplicationsManagee.Truthy(jobPostId) ==>
                sent == FilteredRequest(userId, jobPostId)
      ensures !ApplicationsManagee.Truthy(userId) && !ApplicationsManagee.Truthy(jobPostId) ==>
                sent == ListRequest(searchParams)
      ensures response.Some? ==> applications == response.value && totalItems == |response.value|
      ensures response.None? ==> applications == old(applications) && totalItems == old(totalItems)
    {
      if ApplicationsManagee.Truthy(userId) || ApplicationsManagee.Truthy(jobPostId) {
        sent := FilteredRequest(userId, jobPostId);
      } else {
        sent := ListRequest(searchParams);
      }
      if response.Some? {
        applications := response.value;
        totalItems := |response.value|;
      }
    }

    method HandleSearch(searchTerm: string, page: Option<int>, rowsPerPage: Option<int>) returns (sent: Request)
      modifies this`searchParams
      ensures searchParams == WithSearch(old(searchParams), "userName", searchTerm, page, rowsPerPage)
      ensures sent == ListRequest(old(searchParams))
    {
      sent := ListRequest(searchParams);
      searchParams := WithSearch(searchParams, "userName", searchTerm, page, rowsPerPage);
    }

    /** `handleSort(key, direction)`, and the effect on the sort fields that
        fetches again with the new sort when the page has no query string. */
    method HandleSort(key: string, direction: string, locationSearch: string) returns (sent: seq<Request>)
      modifies this`searchParams
      ensures searchParams == WithSort(old(searchParams), SortFieldMap, key, direction)
      ensures |sent| >= 1 && sent[0] == ListRequest(old(searchParams))
      ensures |sent| == 2 <==>
                (locationSearch == "" &&
                 (searchParams.sortOrderBy != old(searchParams).sortOrderBy || searchParams.isDESC != old(searchParams).isDESC))
      ensures |sent| == 2 ==> sent[1] == ListRequest(searchParams)
      ensures |sent| <= 2
    {
      var before := searchParams;
      sent := [ListRequest(searchParams)];
      searchParams := WithSort(searchParams, SortFieldMap, key, direction);
      if locationSearch == "" && (searchParams.sortOrderBy != before.sortOrderBy || searchParams.isDESC != before.isDESC) {
        sent := sent + [ListRequest(searchParams)];
      }
    }

    method HandleFilter(filters: map<string, string>) returns (sent: Request)
      modifies this`searchParams
      ensures searchParams == WithFilters(old(searchParams), filters)
      ensures sent == ListRequest(old(searchParams))
    {
      sent := ListRequest(searchParams);
      searchParams := WithFilters(searchParams, filters);
    }

    method HandlePageChange(page: int, rowsPerPage: Option<int>) returns (sent: Request)
      modifies this`searchParams
      ensures searchParams == WithPage(old(searchParams), page, rowsPerPage)
      ensures sent == ListRequest(old(searchParams))
    {
      sent := ListRequest(searchParams);
      searchParams := WithPage(searchParams, page, rowsPerPage);
    }

    /** `handleStatusChange(applicationId, status)`: the confirm text, and
        once confirmed the PUT; on success the status changes on the
        matching rows only, on failure nothing changes. */
    method HandleStatusChange(applicationId: int, status: string, confirmed: bool, ok: bool)
      returns (message: string, sent: seq<Request>)
      modifies this`applications
      ensures message == ConfirmMessage(status)
      ensures !confirmed ==> sent == [] && applications == old(applications)
      ensures confirmed ==> sent == [Request(Put, StatusPath(applicationId), map["approveStatus" := status])]
      ensures confirmed && ok ==> applications == ApplicationsManagee.WithStatus(old(applications), applicationId, status)
      ensures confirmed && !ok ==> applications == old(applications)
    {
      message := ConfirmMessage(status);
      sent := [];
      if confirmed {
        sent := [Request(Put, StatusPath(applicationId), map["approveStatus" := status])];
        if ok {
          applications := ApplicationsManagee.WithStatus(applications, applicationId, status);
        }
      }
    }
  }
}
