/** `manage/companies/AdminCompanyDetail`: one company, with the approval
    status changes the page offers, delete and update. */
module CompanyDetail {
  import opened Wrappers
  import opened Client

  /** The company as the page holds it: field name to value. */
  type CompanyRecord = map<string, string>

  /** `${record.key}`: a missing field reads 'undefined'. */
  function FieldText(record: CompanyRecord, key: string): string {
    if key in record then record[key] else "undefined"
  }

  /** The status button shown for the current status: approving companies
      can be approved, approved ones hidden, hidden ones approved again;
      any other status offers none. No button leads back to 'approving'. */
  function OfferedStatus(status: string): (r: Option<string>)
    ensures status == "approving" ==> r == Some("approved")
    ensures status == "approved" ==> r == Some("hidden")
    ensures status == "hidden" ==> r == Some("approved")
    ensures status !in {"approving", "approved", "hidden"} ==> r == None
    ensures r != Some("approving")
  {
    if status == "approving" then Some("approved")
    else if status == "approved" then Some("hidden")
    else if status == "hidden" then Some("approved")
    else None
  }

  /** The status after pressing the offered button `n` times. */
  function Follow(status: string, n: nat): string
    decreases n
  {
    if n == 0 then status
    else match OfferedStatus(status)
      case None => status
      case Some(next) => Follow(next, n - 1)
  }

  /** Once a known status has been changed at least once, the company is
      approved or hidden for good: the page never makes it pending again. */
  lemma {:induction false} NeverBackToApproving(status: string, n: nat)
    requires status in {"approving", "approved", "hidden"}
    requires n >= 1
    ensures Follow(status, n) in {"approved", "hidden"}
    decreases n
  {
    var next := OfferedStatus(status).value;
    if n > 1 {
      NeverBackToApproving(next, n - 1);
    }
  }

  /** From 'approved' the buttons alternate between hiding and showing. */
  lemma {:induction false} ApprovedHiddenAlternate(n: nat)
    ensures Follow("approved", n) == (if n % 2 == 0 then "approved" else "hidden")
    ensures Follow("hidden", n) == (if n % 2 == 0 then "hidden" else "approved")
  {
    if n > 0 {
      ApprovedHiddenAlternate(n - 1);
    }
  }

  function CompanyPath(companyId: string): string {
    "/api/admin/companies/" + companyId
  }

  class CompanyDetailScreen {
    const companyId: string
    var company: Option<CompanyRecord>
    var editForm: Option<CompanyRecord>
    var isEditing: bool

    constructor (companyId: string)
      ensures this.companyId == companyId
      ensures company == None && editForm == None && !isEditing
    {
      this.companyId := companyId;
      company := None;
      editForm := None;
      isEditing := false;
    }

    /** `fetchCompanyDetail()`; a failure keeps the page as it was. */
    method FetchCompanyDetail(response: Option<CompanyRecord>) returns (sent: Request)
      modifies this`company, this`editForm
      ensures sent == Request(Get, CompanyPath(companyId), map[])
      ensures response.Some? ==> company == response && editForm == response
      ensures response.None? ==> company == old(company) && editForm == old(editForm)
    {
      sent := Request(Get, CompanyPath(companyId), map[]);
      if response.Some? {
        company := response;
        editForm := response;
      }
    }

    /** `handleStatusChange(status)`, reachable once the company is shown: on
        success the shown status is the requested one and every other field
        stays; a failure changes nothing. */
    method HandleStatusChange(status: string, ok: bool) returns (sent: Request)
      requires company.Some?
      modifies this`company
      ensures sent == Request(Patch, CompanyPath(companyId) + "/status", map["companyApprovalStatus" := status])
      ensures ok ==> company.Some? && company.value == old(company).value["companyApprovalStatus" := status]
      ensures ok ==> forall k :: k in company.value && k != "companyApprovalStatus" ==>
                       k in old(company).value && company.value[k] == old(company).value[k]
      ensures !ok ==> company == old(company)
    {
      sent := Request(Patch, CompanyPath(companyId) + "/status", map["companyApprovalStatus" := status]);
      if ok {
        company := Some(company.value["companyApprovalStatus" := status]);
      }
    }

    /** `handleDelete()`: the `window.confirm` first; once confirmed the
        DELETE, and on success the page goes back to the company list. */
    method HandleDelete(confirmed: bool, ok: bool) returns (message: string, sent: seq<Request>, navigateTo: Option<string>)
      requires company.Some?
      ensures message == FieldText(company.value, "companyName") + " 기업을 삭제하시겠습니까? 이 작업은 되돌릴 수 없습니다."
      ensures !confirmed ==> sent == [] && navigateTo == None
      ensures confirmed ==> sent == [Del(CompanyPath(companyId))]
      ensures navigateTo.Some? <==> confirmed && ok
      ensures navigateTo.Some? ==> navigateTo.value == "/admin/companies"
    {
      message := FieldText(company.value, "companyName") + " 기업을 삭제하시겠습니까? 이 작업은 되돌릴 수 없습니다.";
      sent := [];
      navigateTo := None;
      if confirmed {
        sent := [Del(CompanyPath(companyId))];
        if ok {
          navigateTo := Some("/admin/companies");
        }
      }
    }

    /** `handleUpdateCompany()`: the PUT of the edit form; on success the
        form becomes the company and editing ends. */
    method HandleUpdateCompany(ok: bool) returns (sent: Request)
      requires editForm.Some?
      modifies this`company, this`isEditing
      ensures sent == Request(Put, CompanyPath(companyId), editForm.value)
      ensures ok ==> company == editForm && !isEditing
      ensures !ok ==> company == old(company) && isEditing == old(isEditing)
    {
      sent := Request(Put, CompanyPath(companyId), editForm.value);
      if ok {
        company := editForm;
        isEditing := false;
      }
    }
  }
}
