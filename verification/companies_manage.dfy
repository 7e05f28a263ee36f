/** `manage/companies/AdminCompaniesManage`: the company list behind the
    shared data table, with approve and delete actions. */
module CompaniesManage {
  import opened Wrappers
  import opened Strings
  import opened Seqs
  import opened Client
  import opened ListQuery

  datatype Company = Company(companyId: int, companyName: string, companyApprovalStatus: string)

  const SortFieldMap: map<string, string> :=
    map["companyName" := "법인명", "companyOwnerName" := "대표자명",
        "companyRegistrationNumber" := "사업자등록번호", "companyCreatedAt" := "가입일"]

  const Initial: Query :=
    Query(map["companyName" := "", "companyOwnerName" := "", "companyPhone" := "",
              "companyRegistrationNumber" := "", "companyApprovalStatus" := ""],
          "법인명", false, 1, 10)

  /** The four column keys get their labels; any other key is sent as is. */
  lemma SortLabels(key: string)
    ensures SortLabel(SortFieldMap, "companyName") == "법인명"
    ensures SortLabel(SortFieldMap, "companyOwnerName") == "대표자명"
    ensures SortLabel(SortFieldMap, "companyRegistrationNumber") == "사업자등록번호"
    ensures SortLabel(SortFieldMap, "companyCreatedAt") == "가입일"
    ensures key !in {"companyName", "companyOwnerName", "companyRegistrationNumber", "companyCreatedAt"} ==>
              SortLabel(SortFieldMap, key) == key
  {
  }

  /** `adminApiService.getCompanies(params)`. */
  function ListRequest(q: Query): Request {
    Request(Get, "/api/admin/companies", Params(q))
  }

  function CompanyPath(companyId: int): string {
    "/api/admin/companies/" + IntToString(companyId)
  }

  /** `adminApiService.updateCompanyStatus(companyId, status)`. */
  function StatusRequest(companyId: int, status: string): Request {
    Request(Patch, CompanyPath(companyId) + "/status", map["companyApprovalStatus" := status])
  }

  predicate IsPending(c: Company) {
    c.companyApprovalStatus == "approving"
  }

  /** `pendingCompaniesCount`: the companies awaiting approval; zero exactly
      when none is pending. */
  function PendingCount(companies: seq<Company>): (n: nat)
    ensures n == |Filter(companies, IsPending)|
    ensures n == 0 <==> forall i :: 0 <= i < |companies| ==> !IsPending(companies[i])
  {
    CountIsFilterLength(companies, IsPending);
    var r := Filter(companies, IsPending);
    assert |r| > 0 ==> r[0] in companies && IsPending(r[0]);
    Count(companies, IsPending)
  }

  /** `getStatusBadge(status)`. */
  function StatusBadge(status: string): (r: string)
    ensures status == "approved" ==> r == "승인됨"
    ensures status == "approving" ==> r == "승인대기"
    ensures status == "hidden" ==> r == "비공개"
    ensures status !in {"approved", "approving", "hidden"} ==> r == status
  {
    if status == "approved" then "승인됨"
    else if status == "approving" then "승인대기"
    else if status == "hidden" then "비공개"
    else status
  }

  /** The approve button is shown only for a pending company. */
  predicate ApproveOffered(c: Company) {
    IsPending(c)
  }

  /** `companies.filter(company => company.companyId !== companyId)`: every
      company with that id leaves, the others stay in their order. */
  function WithoutCompany(companies: seq<Company>, companyId: int): (r: seq<Company>)
    ensures forall c :: c in r <==> c in companies && c.companyId != companyId
    ensures IsSubseq(r, companies)
  {
    var other := (c: Company) => c.companyId != companyId;
    FilterIsSubseq(companies, other);
    Filter(companies, other)
  }

  /** With unique ids, removing a listed company's id removes exactly that
      one entry. */
  lemma WithoutListedCompany(companies: seq<Company>, i: int)
    requires 0 <= i < |companies|
    requires forall j, k :: 0 <= j < k < |companies| ==> companies[j].companyId != companies[k].companyId
    ensures WithoutCompany(companies, companies[i].companyId) == companies[..i] + companies[i + 1..]
  {
    FilterDropsOne(companies, (c: Company) => c.companyId != companies[i].companyId, i);
  }

  /** The handlers' own list request is built from `searchParams` as it was
      before the update they schedule. */
  class CompaniesScreen {
    var companies: seq<Company>
    var totalItems: int
    var searchParams: Query

    constructor ()
      ensures companies == [] && totalItems == 0 && searchParams == Initial
    {
      companies := [];
      totalItems := 0;
      searchParams := Initial;
    }

    /** `fetchCompanies()`; a failure keeps the list. */
    method FetchCompanies(response: Option<seq<Company>>) returns (sent: Request)
      modifies this`companies, this`totalItems
      ensures sent == ListRequest(searchParams)
      ensures response.Some? ==> companies == response.value && totalItems == |response.value|
      ensures response.None? ==> companies == old(companies) && totalItems == old(totalItems)
    {
      sent := ListRequest(searchParams);
      if response.Some? {
        companies := response.value;
        totalItems := |response.value|;
      }
    }

    method HandleSearch(searchTerm: string, page: Option<int>, rowsPerPage: Option<int>) returns (sent: Request)
      modifies this`searchParams
      ensures searchParams == WithSearch(old(searchParams), "companyName", searchTerm, page, rowsPerPage)
      ensures sent == ListRequest(old(searchParams))
    {
      sent := ListRequest(searchParams);
      searchParams := WithSearch(searchParams, "companyName", searchTerm, page, rowsPerPage);
    }

    method HandleSort(key: string, direction: string) returns (sent: Request)
      modifies this`searchParams
      ensures searchParams == WithSort(old(searchParams), SortFieldMap, key, direction)
      ensures sent == ListRequest(old(searchParams))
    {
      sent := ListRequest(searchParams);
      searchParams := WithSort(searchParams, SortFieldMap, key, direction);
    }

    method HandleFilter(filters: map<string, string>) returns (sent: Request)
      modifies this`searchParams
      ensures searchParams == WithFilters(old(searchParams), filters)
      ensures sent == ListRequest(old(searchParams))
    {
      sent := ListRequest(searchParams);
      searchParams := WithFilters(searchParams, filters);
    }

    method HandlePageChange(page: int, rowsPerPage: Option<int>) returns (sent: Request)
      modifies this`searchParams
      ensures searchParams == WithPage(old(searchParams), page, rowsPerPage)
      ensures sent == ListRequest(old(searchParams))
    {
      sent := ListRequest(searchParams);
      searchParams := WithPage(searchParams, page, rowsPerPage);
    }

    /** `handleDelete(companyId)`: the DELETE, and on success the list
        without that id; a failure keeps the list. */
    method HandleDelete(companyId: int, ok: bool) returns (sent: Request)
      modifies this`companies
      ensures sent == Del(CompanyPath(companyId))
      ensures ok ==> companies == WithoutCompany(old(companies), companyId)
      ensures !ok ==> companies == old(companies)
    {
      sent := Del(CompanyPath(companyId));
      if ok {
        companies := Filter(companies, (c: Company) => c.companyId != companyId);
      }
    }

    /** `confirmApprove(company)` then `handleApprove`: once confirmed, the
        status PATCH with 'approved', and on success the list is fetched
        again. */
    method ConfirmApprove(company: Company, confirmed: bool, ok: bool) returns (message: string, sent: seq<Request>)
      ensures message == company.companyName + " 기업을 승인하시겠습니까?"
      ensures !confirmed ==> sent == []
      ensures confirmed && ok ==> sent == [StatusRequest(company.companyId, "approved"), ListRequest(searchParams)]
      ensures confirmed && !ok ==> sent == [StatusRequest(company.companyId, "approved")]
    {
      message := company.companyName + " 기업을 승인하시겠습니까?";
      sent := [];
      if confirmed {
        sent := [StatusRequest(company.companyId, "approved")];
        if ok {
          sent := sent + [ListRequest(searchParams)];
        }
      }
    }

    /** `confirmDelete(company)`: nothing without confirmation. */
    method ConfirmDelete(company: Company, confirmed: bool, ok: bool) returns (sent: seq<Request>)
      modifies this`companies
      ensures !confirmed ==> sent == [] && companies == old(companies)
      ensures confirmed ==> sent == [Del(CompanyPath(company.companyId))]
      ensures confirmed && ok ==> companies == WithoutCompany(old(companies), company.companyId)
      ensures confirmed && !ok ==> companies == old(companies)
    {
      sent := [];
      if confirmed {
        var request := HandleDelete(company.companyId, ok);
        sent := [request];
      }
    }
  }
}
