/** `AdminCompanyController` (`/api/admin/companies`): the admin check (403),
    the status validation (400), and the mapping of `CompanyServiceImpl`'s
    boolean results to 200 or 500. */
module AdminCompanyApi {
  import opened Wrappers
  import Svc = Services
  import opened Http
  import CS = CompanyService

  datatype Request =
    | CompaniesGet
    | PendingCompaniesGet
    | CompanyGet(companyId: int)
    | CompanyStatusPatch(companyId: int, statusRequest: map<string, string>)
    | CompanyDelete(companyId: int)

  function GetAllCompanies(session: Option<User>, respond: Svc.ServiceCall -> Svc.Outcome): (r: Reply)
    ensures IsAdmin(session) ==> r.calls == [Svc.GetAllCompanies]
    ensures IsAdmin(session) && respond(Svc.GetAllCompanies).Returns? ==>
              r.response == Response(200, Json(respond(Svc.GetAllCompanies).value))
  {
    var call := Svc.GetAllCompanies;
    Guard(session,
      match respond(call)
      case Returns(v) => Reply(Response(200, Json(v)), [call])
      case Throws(m) => Reply(Escaped(m), [call]))
  }

  function GetPendingCompanies(session: Option<User>, respond: Svc.ServiceCall -> Svc.Outcome): (r: Reply)
    ensures IsAdmin(session) ==> r.calls == [Svc.GetPendingCompanies]
    ensures IsAdmin(session) && respond(Svc.GetPendingCompanies).Returns? ==>
              r.response == Response(200, Json(respond(Svc.GetPendingCompanies).value))
  {
    var call := Svc.GetPendingCompanies;
    Guard(session,
      match respond(call)
      case Returns(v) => Reply(Response(200, Json(v)), [call])
      case Throws(m) => Reply(Escaped(m), [call]))
  }

  /** `getCompanyDetail`: a missing company is answered with 404. */
  function GetCompanyDetail(session: Option<User>, companyId: int, respond: Svc.ServiceCall -> Svc.Outcome): (r: Reply)
    ensures IsAdmin(session) ==> r.calls == [Svc.CompanyDetail(companyId)]
    ensures IsAdmin(session) ==>
              (r.response == Response(404, Empty) <==> respond(Svc.CompanyDetail(companyId)) == Svc.Returns(Svc.Null))
    ensures IsAdmin(session) && respond(Svc.CompanyDetail(companyId)).Returns? && respond(Svc.CompanyDetail(companyId)).value != Svc.Null ==>
              r.response == Response(200, Json(respond(Svc.CompanyDetail(companyId)).value))
  {
    var call := Svc.CompanyDetail(companyId);
    Guard(session,
      match respond(call)
      case Returns(v) => if v == Svc.Null then Reply(Response(404, Empty), [call]) else Reply(Response(200, Json(v)), [call])
      case Throws(m) => Reply(Escaped(m), [call]))
  }

  const NoApprovalStatus: string := "승인 상태가 제공되지 않았습니다."
  const StatusUpdated: string := "회사 상태가 성공적으로 업데이트되었습니다."
  const StatusUpdateFailed: string := "회사 상태 업데이트 중 오류가 발생했습니다."
  const CompanyDeleted: string := "회사가 성공적으로 삭제되었습니다."
  const DeleteFailed: string := "회사 삭제 중 오류가 발생했습니다."

  predicate MissingStatus(statusRequest: map<string, string>) {
    "companyApprovalStatus" !in statusRequest || statusRequest["companyApprovalStatus"] == ""
  }

  /** The service's boolean answer: `true` is a success, `false` (or anything
      that is not `true`) a failure. */
  predicate Succeeded(o: Svc.Outcome) {
    o == Svc.Returns(Svc.Flag(true))
  }

  /** `updateCompanyStatus`: a null or empty status gives 400 with no service
      call; otherwise the status goes to `updateApprovalStatus` unchecked and
      its `true` gives 200 with `success`, its `false` gives 500. */
  function UpdateCompanyStatus(session: Option<User>, companyId: int, statusRequest: map<string, string>,
                               respond: Svc.ServiceCall -> Svc.Outcome): (r: Reply)
    ensures IsAdmin(session) && MissingStatus(statusRequest) ==>
              r == Reply(Response(400, Message(NoApprovalStatus)), [])
    ensures IsAdmin(session) && !MissingStatus(statusRequest) ==>
              && r.calls == [Svc.UpdateApprovalStatus(companyId, statusRequest["companyApprovalStatus"])]
              && (Succeeded(respond(r.calls[0])) <==> r.response == Response(200, Success(StatusUpdated)))
              && (respond(r.calls[0]) == Svc.Returns(Svc.Flag(false)) ==>
                    r.response == Response(500, Message(StatusUpdateFailed)))
  {
    Guard(session,
      if MissingStatus(statusRequest) then Reply(Response(400, Message(NoApprovalStatus)), [])
      else
        var call := Svc.UpdateApprovalStatus(companyId, statusRequest["companyApprovalStatus"]);
        match respond(call)
        case Throws(m) => Reply(Escaped(m), [call])
        case Returns(v) =>
          if v == Svc.Flag(true) then Reply(Response(200, Success(StatusUpdated)), [call])
          else Reply(Response(500, Message(StatusUpdateFailed)), [call]))
  }

  /** `deleteCompany`: the service's `true` gives 200 with `success`, its
      `false` gives 500. */
  function DeleteCompany(session: Option<User>, companyId: int, respond: Svc.ServiceCall -> Svc.Outcome): (r: Reply)
    ensures IsAdmin(session) ==> r.calls == [Svc.DeleteCompany(companyId)]
    ensures IsAdmin(session) ==> (Succeeded(respond(r.calls[0])) <==> r.response == Response(200, Success(CompanyDeleted)))
    ensures IsAdmin(session) && respond(r.calls[0]) == Svc.Returns(Svc.Flag(false)) ==>
              r.response == Response(500, Message(DeleteFailed))
  {
    var call := Svc.DeleteCompany(companyId);
    Guard(session,
      match respond(call)
      case Throws(m) => Reply(Escaped(m), [call])
      case Returns(v) =>
        if v == Svc.Flag(true) then Reply(Response(200, Success(CompanyDeleted)), [call])
        else Reply(Response(500, Message(DeleteFailed)), [call]))
  }

  function Handle(session: Option<User>, req: Request, respond: Svc.ServiceCall -> Svc.Outcome): (r: Reply)
    ensures !IsAdmin(session) ==> r == Reply(Forbidden(), [])
    ensures StatusOf(r.response) == 400 ==> r.calls == []
    ensures |r.calls| <= 1
  {
    match req
    case CompaniesGet => GetAllCompanies(session, respond)
    case PendingCompaniesGet => GetPendingCompanies(session, respond)
    case CompanyGet(id) => GetCompanyDetail(session, id, respond)
    case CompanyStatusPatch(id, body) => UpdateCompanyStatus(session, id, body, respond)
    case CompanyDelete(id) => DeleteCompany(session, id, respond)
  }

  /** The service answering a boolean method with `ok`. */
  function Answers(ok: bool): Svc.ServiceCall -> Svc.Outcome {
    _ => Svc.Returns(Svc.Flag(ok))
  }

  /** The status endpoint over the company store: the store is written only
      for an admin with a non-empty status, and 200 means the write went
      through. */
  method UpdateCompanyStatusOn(store: CS.CompanyStore, session: Option<User>, companyId: int,
                               statusRequest: map<string, string>, writeThrows: bool)
    returns (r: Reply)
    modifies store`companies
    ensures !IsAdmin(session) || MissingStatus(statusRequest) ==> store.companies == old(store.companies)
    ensures IsAdmin(session) && !MissingStatus(statusRequest) ==>
              && r == UpdateCompanyStatus(session, companyId, statusRequest, Answers(!writeThrows))
              && (r.response.Response? && r.response.status == 200 <==> !writeThrows)
              && store.companies ==
                   if !writeThrows && companyId in old(store.companies)
                   then old(store.companies)[companyId := statusRequest["companyApprovalStatus"]]
                   else old(store.companies)
    ensures !IsAdmin(session) ==> r == Reply(Forbidden(), [])
  {
    if !IsAdmin(session) {
      return Reply(Forbidden(), []);
    }
    if MissingStatus(statusRequest) {
      return Reply(Response(400, Message(NoApprovalStatus)), []);
    }
    var ok, _ := store.UpdateApprovalStatus(companyId, statusRequest["companyApprovalStatus"], writeThrows);
    r := UpdateCompanyStatus(session, companyId, statusRequest, Answers(ok));
  }

  /** The delete endpoint over the company store: nothing is deleted for a
      non-admin, and 200 means the service's whole deletion ran. */
  method DeleteCompanyOn(store: CS.CompanyStore, session: Option<User>, companyId: int, fault: CS.Fault)
    returns (r: Reply)
    requires store.Valid()
    modifies store`jobPosts, store`companies
    ensures store.Valid()
    ensures !IsAdmin(session) ==>
              r == Reply(Forbidden(), []) && store.jobPosts == old(store.jobPosts) && store.companies == old(store.companies)
    ensures IsAdmin(session) ==>
              var ids := CS.JobPostIdsOf(old(store.jobPosts), companyId);
              && (r.response == Response(200, Success(CompanyDeleted)) <==> !CS.Hits(fault, |ids| + 2))
              && (!CS.Hits(fault, |ids| + 2) ==>
                    store.jobPosts == CS.RemoveIds(old(store.jobPosts), ids) && companyId !in store.companies)
  {
    if !IsAdmin(session) {
      return Reply(Forbidden(), []);
    }
    ghost var ids := CS.JobPostIdsOf(store.jobPosts, companyId);
    assert ids[..|ids|] == ids;
    var ok, _ := store.DeleteCompany(companyId, fault);
    assert ok == !CS.Hits(fault, |ids| + 2);
    r := DeleteCompany(session, companyId, Answers(ok));
  }
}
