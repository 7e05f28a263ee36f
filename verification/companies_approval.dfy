/** `manage/companies/AdminCompaniesApproval`: the companies waiting for
    approval, each approved or rejected from a confirm dialog. */
module CompaniesApproval {
  import opened Wrappers
  import opened Seqs
  import opened Client
  import CompaniesManage

  type Company = CompaniesManage.Company

  /** The status each decision sends: approval publishes the company,
      rejection hides it. */
  function DecisionStatus(approve: bool): (r: string)
    ensures approve ==> r == "approved"
    ensures !approve ==> r == "hidden"
  {
    if approve then "approved" else "hidden"
  }

  function ConfirmMessage(company: Company, approve: bool): string {
    if approve then company.companyName + " 기업을 승인하시겠습니까?"
    else company.companyName + " 기업의 승인을 거부하시겠습니까?"
  }

  class ApprovalScreen {
    var pendingCompanies: seq<Company>

    constructor ()
      ensures pendingCompanies == []
    {
      pendingCompanies := [];
    }

    /** The number in the header badge. */
    function DisplayedCount(): (n: nat)
      reads this
      ensures n == |pendingCompanies|
    {
      |pendingCompanies|
    }

    /** `fetchPendingCompanies()`; a failure keeps the list. */
    method FetchPendingCompanies(response: Option<seq<Company>>) returns (sent: Request)
      modifies this`pendingCompanies
      ensures sent == Request(Get, "/api/admin/companies/pending", map[])
      ensures response.Some? ==> pendingCompanies == response.value
      ensures response.None? ==> pendingCompanies == old(pendingCompanies)
    {
      sent := Request(Get, "/api/admin/companies/pending", map[]);
      if response.Some? {
        pendingCompanies := response.value;
      }
    }

    /** `handleApprove(companyId)` (`approve`) or `handleReject(companyId)`:
        the status PATCH; on success the company leaves the pending list and
        the others keep their order; a failure keeps the list. */
    method Decide(companyId: int, approve: bool, ok: bool) returns (sent: Request)
      modifies this`pendingCompanies
      ensures sent == CompaniesManage.StatusRequest(companyId, DecisionStatus(approve))
      ensures ok ==> pendingCompanies == CompaniesManage.WithoutCompany(old(pendingCompanies), companyId)
      ensures !ok ==> pendingCompanies == old(pendingCompanies)
    {
      sent := CompaniesManage.StatusRequest(companyId, if approve then "approved" else "hidden");
      if ok {
        pendingCompanies := Filter(pendingCompanies, (c: Company) => c.companyId != companyId);
      }
    }

    /** `confirmApprove(company)` / `confirmReject(company)`: nothing is sent
        before the dialog is confirmed. */
    method Confirm(company: Company, approve: bool, confirmed: bool, ok: bool) returns (message: string, sent: seq<Request>)
      modifies this`pendingCompanies
      ensures message == ConfirmMessage(company, approve)
      ensures !confirmed ==> sent == [] && pendingCompanies == old(pendingCompanies)
      ensures confirmed ==> sent == [CompaniesManage.StatusRequest(company.companyId, DecisionStatus(approve))]
      ensures confirmed && ok ==> pendingCompanies == CompaniesManage.WithoutCompany(old(pendingCompanies), company.companyId)
      ensures confirmed && !ok ==> pendingCompanies == old(pendingCompanies)
    {
      message := ConfirmMessage(company, approve);
      sent := [];
      if confirmed {
        var request := Decide(company.companyId, approve, ok);
        sent := [request];
      }
    }
  }

  /** With unique ids, a successful decision on a listed company lowers the
      displayed count by exactly one. */
  lemma DecisionLowersCount(pending: seq<Company>, i: int)
    requires 0 <= i < |pending|
    requires forall j, k :: 0 <= j < k < |pending| ==> pending[j].companyId != pending[k].companyId
    ensures |CompaniesManage.WithoutCompany(pending, pending[i].companyId)| == |pending| - 1
  {
    CompaniesManage.WithoutListedCompany(pending, i);
  }
}
