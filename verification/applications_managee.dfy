/** `manage/applications/AdminApplicationsManagee`: the application list,
    fetched either for one user, for one job post or with the search form,
    with a status change that is confirmed in a dialog. */
module ApplicationsManagee {
  import opened Wrappers
  import opened Strings
  import opened Seqs
  import opened Client
  import ListQuery

  /** An application row: its id, its status and the columns only shown. */
  datatype Application = Application(jobApplicationId: int, approveStatus: string, details: map<string, string>)

  /** `searchParams`: the four text fields, the sort label and the flag. */
  datatype SearchParams = SearchParams(text: map<string, string>, sortOrderBy: string, isDESC: bool)

  const Initial: SearchParams :=
    SearchParams(map["userName" := "", "companyName" := "", "jobPostTitle" := "", "approveStatus" := ""], "지원일", true)

  /** `handleSortChange(field)`: the field becomes the sort; the flag flips
      when it already was, and is false for a new field. */
  function NextSort(p: SearchParams, field: string): (r: SearchParams)
    ensures r.sortOrderBy == field && r.text == p.text
    ensures p.sortOrderBy == field ==> r.isDESC == !p.isDESC
    ensures p.sortOrderBy != field ==> !r.isDESC
  {
    p.(sortOrderBy := field, isDESC := if p.sortOrderBy == field then !p.isDESC else false)
  }

  /** Sorting by a new column twice gives descending order; by the current
      column twice gives back the state. */
  lemma SortTwice(p: SearchParams, field: string)
    ensures p.sortOrderBy == field ==> NextSort(NextSort(p, field), field) == p
    ensures p.sortOrderBy != field ==> NextSort(NextSort(p, field), field).isDESC
  {
  }

  /** The query of `GET /api/admin/job-applications`: the text fields that
      are not empty, the sort label and the flag. */
  function Params(p: SearchParams): (r: map<string, string>)
    ensures "sortOrderBy" in r && r["sortOrderBy"] == p.sortOrderBy
    ensures "isDESC" in r && r["isDESC"] == BoolText(p.isDESC)
    ensures forall k :: k in p.text && k !in {"sortOrderBy", "isDESC"} ==> (k in r <==> p.text[k] != "")
    ensures forall k :: k in r && k !in {"sortOrderBy", "isDESC"} ==> k in p.text && r[k] == p.text[k]
  {
    ListQuery.SentFilters(p.text)["sortOrderBy" := p.sortOrderBy]["isDESC" := BoolText(p.isDESC)]
  }

  /** Where the list comes from. */
  datatype Source = ByUser(userId: string) | ByJobPost(jobPostId: string) | Listing

  /** A query-string value is truthy when present and not empty. */
  predicate Truthy(v: Option<string>) {
    v.Some? && v.value != ""
  }

  /** `fetchApplicationsWithFilter(userId, jobPostId)` as reached from the
      effect on `location.search`: a user id wins over a job-post id, and
      without either the search form's list is fetched. */
  function SourceOf(userId: Option<string>, jobPostId: Option<string>): (r: Source)
    ensures Truthy(userId) <==> r.ByUser?
    ensures r.ByUser? ==> r.userId == userId.value
    ensures r.ByJobPost? <==> !Truthy(userId) && Truthy(jobPostId)
    ensures r.ByJobPost? ==> r.jobPostId == jobPostId.value
    ensures r.Listing? <==> !Truthy(userId) && !Truthy(jobPostId)
  {
    if Truthy(userId) then ByUser(userId.value)
    else if Truthy(jobPostId) then ByJobPost(jobPostId.value)
    else Listing
  }

  function FetchRequest(source: Source, p: SearchParams): Request {
    match source
    case ByUser(userId) => Request(Get, "/api/admin/job-applications/user/" + userId, map[])
    case ByJobPost(jobPostId) => Request(Get, "/api/admin/job-applications/job-post/" + jobPostId, map[])
    case Listing => Request(Get, "/api/admin/job-applications", Params(p))
  }

  /** A request for one user's or one post's applications carries no search
      fields: the form does not narrow those lists. */
  lemma FilteredFetchIgnoresForm(userId: Option<string>, jobPostId: Option<string>, p: SearchParams, q: SearchParams)
    requires Truthy(userId) || Truthy(jobPostId)
    ensures FetchRequest(SourceOf(userId, jobPostId), p) == FetchRequest(SourceOf(userId, jobPostId), q)
    ensures FetchRequest(SourceOf(userId, jobPostId), p).data == map[]
  {
  }

  /** The word of the confirm dialog (`statusText`); a status outside the
      three has none and the dialog reads 'undefined'. */
  function StatusText(status: string): (r: Option<string>)
    ensures r.Some? <==> status in {"approving", "approved", "denied"}
    ensures status == "approving" ==> r == Some("승인 대기")
    ensures status == "approved" ==> r == Some("승인")
    ensures status == "denied" ==> r == Some("거절")
  {
    if status == "approving" then Some("승인 대기")
    else if status == "approved" then Some("승인")
    else if status == "denied" then Some("거절")
    else None
  }

  function ConfirmMessage(status: string): string {
    var text := StatusText(status);
    "지원 상태를 '" + (if text.Some? then text.value else "undefined") + "'로 변경하시겠습니까?"
  }

  /** `getStatusBadge(status)`: the three known statuses get their label, any
      other status is shown as it is. */
  function StatusBadge(status: string): (r: string)
    ensures status == "approving" ==> r == "승인 대기"
    ensures status == "approved" ==> r == "승인됨"
    ensures status == "denied" ==> r == "거절됨"
    ensures status !in {"approving", "approved", "denied"} ==> r == status
  {
    if status == "approving" then "승인 대기"
    else if status == "approved" then "승인됨"
    else if status == "denied" then "거절됨"
    else status
  }

  /** The approve and deny buttons are shown only for a pending application. */
  predicate DecisionOffered(app: Application) {
    app.approveStatus == "approving"
  }

  function StatusPath(applicationId: int): string {
    "/api/admin/job-applications/" + IntToString(applicationId) + "/status"
  }

  /** `prev.map(app => app.jobApplicationId === id ? { ...app, approveStatus } : app)`. */
  function WithStatus(apps: seq<Application>, applicationId: int, status: string): (r: seq<Application>)
    ensures |r| == |apps|
    ensures forall i :: 0 <= i < |apps| && apps[i].jobApplicationId == applicationId ==>
              r[i] == apps[i].(approveStatus := status)
    ensures forall i :: 0 <= i < |apps| && apps[i].jobApplicationId != applicationId ==> r[i] == apps[i]
  {
    UpdateWhere(apps, (a: Application) => a.jobApplicationId == applicationId,
                (a: Application) => a.(approveStatus := status))
  }

  /** Updating keeps every row's id and other columns, and applying the same
      update again changes nothing. */
  lemma WithStatusKeepsRows(apps: seq<Application>, applicationId: int, status: string)
    ensures var r := WithStatus(apps, applicationId, status);
            forall i :: 0 <= i < |r| ==> r[i].jobApplicationId == apps[i].jobApplicationId && r[i].details == apps[i].details
    ensures WithStatus(WithStatus(apps, applicationId, status), applicationId, status) == WithStatus(apps, applicationId, status)
  {
    var r := WithStatus(apps, applicationId, status);
    var rr := WithStatus(r, applicationId, status);
    assert forall i :: 0 <= i < |r| ==> rr[i] == r[i];
  }

  class ApplicationsBoard {
    var applications: seq<Application>
    var searchParams: SearchParams

    constructor ()
      ensures applications == [] && searchParams == Initial
    {
      applications := [];
      searchParams := Initial;
    }

    /** The list request for the page's query string, and the list on success;
        a failure keeps the list. */
    method Fetch(userId: Option<string>, jobPostId: Option<string>, response: Option<seq<Application>>)
      returns (sent: Request)
      modifies this`applications
      ensures sent == FetchRequest(SourceOf(userId, jobPostId), searchParams)
      ensures response.Some? ==> applications == response.value
      ensures response.None? ==> applications == old(applications)
    {
      var source := SourceOf(userId, jobPostId);
      sent := FetchRequest(source, searchParams);
      if response.Some? {
        applications := response.value;
      }
    }

    method HandleInputChange(name: string, value: string)
      modifies this`searchParams
      ensures searchParams == old(searchParams).(text := old(searchParams).text[name := value])
    {
      searchParams := searchParams.(text := searchParams.text[name := value]);
    }

    /** `handleSortChange(field)`, and the effect on the sort fields: every
        click changes the label or the flag, so the searched list is fetched
        again with the new sort unless the page has a query string. */
    method HandleSortChange(field: string, locationSearch: string) returns (sent: seq<Request>)
      modifies this`searchParams
      ensures searchParams == NextSort(old(searchParams), field)
      ensures searchParams != old(searchParams)
      ensures locationSearch == "" ==> sent == [FetchRequest(Listing, searchParams)]
      ensures locationSearch != "" ==> sent == []
    {
      var before := searchParams;
      searchParams := searchParams.(sortOrderBy := field,
                                    isDESC := if searchParams.sortOrderBy == field then !searchParams.isDESC else false);
      sent := [];
      if searchParams.sortOrderBy != before.sortOrderBy || searchParams.isDESC != before.isDESC {
        if locationSearch == "" {
          sent := [FetchRequest(Listing, searchParams)];
        }
      }
    }

    /** `handleStatusChange` then, once confirmed, `updateApplicationStatus`:
        the PUT, and on success the new status on the matching rows only. */
    method HandleStatusChange(applicationId: int, status: string, confirmed: bool, ok: bool)
      returns (message: string, sent: seq<Request>)
      modifies this`applications
      ensures message == ConfirmMessage(status)
      ensures !confirmed ==> sent == [] && applications == old(applications)
      ensures confirmed ==> sent == [Request(Put, StatusPath(applicationId), map["approveStatus" := status])]
      ensures confirmed && ok ==> applications == WithStatus(old(applications), applicationId, status)
      ensures confirmed && !ok ==> applications == old(applications)
    {
      message := ConfirmMessage(status);
      sent := [];
      if confirmed {
        sent := [Request(Put, StatusPath(applicationId), map["approveStatus" := status])];
        if ok {
          applications := WithStatus(applications, applicationId, status);
        }
      }
    }
  }
}
