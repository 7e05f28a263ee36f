/** `AdminController` (`/api/admin`): every endpoint checks the session
    first (403), then validates its input (400), then calls a service and
    maps the result or the exception to 200, 404 or 500. Exceptions raised
    outside a `try` block leave the method (`Escaped`). */
module AdminApi {
  import opened Wrappers
  import opened Strings
  import Svc = Services
  import opened Http

  /** The endpoints with their path variables, query parameters and bodies. */
  datatype Request =
    | StatsGet
    | UsersGet(query: Svc.SearchQuery)
    | UserGet(userId: string)
    | UserPut(userId: string, user: Svc.Record)
    | UserDelete(userId: string)
    | ResumesGet(query: Svc.SearchQuery)
    | ResumeGet(resumeId: string)
    | CompaniesGet(query: Svc.SearchQuery)
    | PendingCompaniesGet
    | CompanyGet(companyId: string)
    | CompanyStatusPatch(companyId: string, statusRequest: map<string, string>)
    | CompanyDelete(companyId: string)
    | JobPostsGet(query: Svc.SearchQuery)
    | JobPostGet(jobPostId: string)
    | JobPostStatusPatch(jobPostId: string, flagRequest: map<string, bool>)
    | JobPostDelete(jobPostId: string)
    | ApplicationsGet(query: Svc.SearchQuery)
    | ReviewsGet
    | ReviewGet(reviewId: string)
    | ReviewPut(reviewNumber: int, review: Svc.Record)
    | ReviewDelete(reviewNumber: int)
    | CommentDelete(commentNumber: int)
    | NoticesGet
    | NoticeGet(noticeNumber: int)
    | NoticePost(notice: Svc.Record)
    | NoticePut(noticeNumber: int, notice: Svc.Record)
    | NoticeDelete(noticeNumber: int)

  /** The message of the `NumberFormatException` that `Long.parseLong` throws. */
  function ForInputString(s: string): string {
    "For input string: \"" + s + "\""
  }

  /** A service call whose result is answered with 200; an exception is not
      caught. */
  function Fetch(call: Svc.ServiceCall, respond: Svc.ServiceCall -> Svc.Outcome): (r: Reply)
    ensures r.calls == [call]
    ensures r.response.Escaped? <==> respond(call).Throws?
    ensures respond(call).Returns? ==> r.response == Response(200, Json(respond(call).value))
  {
    match respond(call)
    case Returns(v) => Reply(Response(200, Json(v)), [call])
    case Throws(m) => Reply(Escaped(m), [call])
  }

  /** A detail lookup: a `null` result is answered with 404 and no body. */
  function Lookup(call: Svc.ServiceCall, respond: Svc.ServiceCall -> Svc.Outcome): (r: Reply)
    ensures r.calls == [call]
    ensures r.response.Escaped? <==> respond(call).Throws?
    ensures r.response == Response(404, Empty) <==> respond(call) == Svc.Returns(Svc.Null)
    ensures respond(call).Returns? && respond(call).value != Svc.Null ==>
              r.response == Response(200, Json(respond(call).value))
  {
    match respond(call)
    case Returns(v) => if v == Svc.Null then Reply(Response(404, Empty), [call]) else Reply(Response(200, Json(v)), [call])
    case Throws(m) => Reply(Escaped(m), [call])
  }

  /** A call inside `try`: success is answered with 200 and `ok`, an
      exception with 500 and the prefix followed by the exception's message. */
  function Attempt(call: Svc.ServiceCall, ok: Body, errorPrefix: string, respond: Svc.ServiceCall -> Svc.Outcome): (r: Reply)
    ensures r.calls == [call]
    ensures r.response.Response?
    ensures respond(call).Returns? ==> r.response == Response(200, ok)
    ensures respond(call).Throws? ==> r.response == Response(500, Message(errorPrefix + respond(call).message))
  {
    match respond(call)
    case Returns(_) => Reply(Response(200, ok), [call])
    case Throws(m) => Reply(Response(500, Message(errorPrefix + m)), [call])
  }

  /** A call outside `try` whose result is ignored: 200 with no body. */
  function Command(call: Svc.ServiceCall, respond: Svc.ServiceCall -> Svc.Outcome): (r: Reply)
    ensures r.calls == [call]
    ensures r.response.Escaped? <==> respond(call).Throws?
    ensures respond(call).Returns? ==> r.response == Response(200, Empty)
  {
    match respond(call)
    case Returns(_) => Reply(Response(200, Empty), [call])
    case Throws(m) => Reply(Escaped(m), [call])
  }

  /** `@RequestParam(defaultValue = d)`: the default replaces a missing or
      empty parameter. */
  function DefaultParam(p: Option<string>, d: string): (r: string)
    ensures p.Some? && p.value != "" ==> r == p.value
    ensures p.None? || p.value == "" ==> r == d
  {
    if p.None? || p.value == "" then d else p.value
  }

  function WithDefaultSort(q: Svc.SearchQuery, d: string): (r: Svc.SearchQuery)
    ensures r.filters == q.filters && r.isDesc == q.isDesc && r.limit == q.limit
    ensures r.sortOrderBy == Some(DefaultParam(q.sortOrderBy, d))
  {
    q.(sortOrderBy := Some(DefaultParam(q.sortOrderBy, d)))
  }

  // ---- dashboard and users -------------------------------------------------

  /** `getDashboardStats`: the statistics are answered with 200. */
  function GetStats(session: Option<User>, respond: Svc.ServiceCall -> Svc.Outcome): (r: Reply)
    ensures IsAdmin(session) ==> r.calls == [Svc.GetDashboardStats]
    ensures !IsAdmin(session) ==> r == Reply(Forbidden(), [])
    ensures IsAdmin(session) && respond(Svc.GetDashboardStats).Returns? ==>
              r.response == Response(200, Json(respond(Svc.GetDashboardStats).value))
  {
    Guard(session, Fetch(Svc.GetDashboardStats, respond))
  }

  /** `getAllUsers`: the six optional parameters go to the service as given. */
  function GetAllUsers(session: Option<User>, query: Svc.SearchQuery, respond: Svc.ServiceCall -> Svc.Outcome): (r: Reply)
    ensures IsAdmin(session) ==> r.calls == [Svc.AdminSearchUsers(query)]
  {
    Guard(session, Fetch(Svc.AdminSearchUsers(query), respond))
  }

  /** `getUserDetail`: 404 exactly when the service finds no user. */
  function GetUserDetail(session: Option<User>, userId: string, respond: Svc.ServiceCall -> Svc.Outcome): (r: Reply)
    ensures IsAdmin(session) ==> r.calls == [Svc.AdminUserDetail(userId)]
    ensures IsAdmin(session) ==>
              (r.response == Response(404, Empty) <==> respond(Svc.AdminUserDetail(userId)) == Svc.Returns(Svc.Null))
    ensures IsAdmin(session) && respond(Svc.AdminUserDetail(userId)).Returns? && respond(Svc.AdminUserDetail(userId)).value != Svc.Null ==>
              r.response == Response(200, Json(respond(Svc.AdminUserDetail(userId)).value))
  {
    Guard(session, Lookup(Svc.AdminUserDetail(userId), respond))
  }

  const UpdateUserError: string := "사용자 정보 수정 중 오류가 발생했습니다: "

  /** `updateUser`: the path id, parsed inside the `try`, replaces the body's
      id; a non-numeric id is answered with 500, not 400, and no service is
      called. */
  function UpdateUser(session: Option<User>, userId: string, user: Svc.Record, respond: Svc.ServiceCall -> Svc.Outcome): (r: Reply)
    ensures IsAdmin(session) && ParseLong(userId).NumberFormatError? ==>
              r.calls == [] && r.response == Response(500, Message(UpdateUserError + ForInputString(userId)))
    ensures IsAdmin(session) && ParseLong(userId).Parsed? ==>
              && r.calls == [Svc.AdminUserUpdate(user.(id := Some(ParseLong(userId).value)))]
              && (StatusOf(r.response) == 200 <==> respond(r.calls[0]).Returns?)
  {
    Guard(session,
      match ParseLong(userId)
      case NumberFormatError => Reply(Response(500, Message(UpdateUserError + ForInputString(userId))), [])
      case Parsed(id) => Attempt(Svc.AdminUserUpdate(user.(id := Some(id))), Empty, UpdateUserError, respond))
  }

  const UserDeleted: string := "사용자 및 관련 데이터가 삭제되었습니다."
  const DeleteUserError: string := "사용자 삭제 중 오류가 발생했습니다: "

  function DeleteUser(session: Option<User>, userId: string, respond: Svc.ServiceCall -> Svc.Outcome): (r: Reply)
    ensures IsAdmin(session) ==> r.calls == [Svc.DeleteUserWithRelatedData(userId)]
    ensures IsAdmin(session) ==> (StatusOf(r.response) == 200 <==> respond(r.calls[0]).Returns?)
  {
    Guard(session, Attempt(Svc.DeleteUserWithRelatedData(userId), Message(UserDeleted), DeleteUserError, respond))
  }

  // ---- resumes ---------------------------------------------------------------

  /** `searchResumes`: `sortOrderBy` defaults to 이름 (name). */
  function SearchResumes(session: Option<User>, query: Svc.SearchQuery, respond: Svc.ServiceCall -> Svc.Outcome): (r: Reply)
    ensures IsAdmin(session) ==> |r.calls| == 1 && r.calls[0].AdminSearchResumes?
    ensures IsAdmin(session) ==> r.calls[0].query.sortOrderBy == Some(DefaultParam(query.sortOrderBy, "이름"))
  {
    Guard(session, Fetch(Svc.AdminSearchResumes(WithDefaultSort(query, "이름")), respond))
  }

  function GetResumeDetail(session: Option<User>, resumeId: string, respond: Svc.ServiceCall -> Svc.Outcome): (r: Reply)
    ensures IsAdmin(session) ==>
              (r.response == Response(404, Empty) <==> respond(Svc.AdminResumeDetail(resumeId)) == Svc.Returns(Svc.Null))
    ensures IsAdmin(session) && respond(Svc.AdminResumeDetail(resumeId)).Returns? && respond(Svc.AdminResumeDetail(resumeId)).value != Svc.Null ==>
              r.response == Response(200, Json(respond(Svc.AdminResumeDetail(resumeId)).value))
  {
    Guard(session, Lookup(Svc.AdminResumeDetail(resumeId), respond))
  }

  // ---- companies -------------------------------------------------------------

  function GetAllCompanies(session: Option<User>, query: Svc.SearchQuery, respond: Svc.ServiceCall -> Svc.Outcome): (r: Reply)
    ensures IsAdmin(session) ==> r.calls == [Svc.AdminSearchCompanies(query)]
  {
    Guard(session, Fetch(Svc.AdminSearchCompanies(query), respond))
  }

  function GetPendingCompanies(session: Option<User>, respond: Svc.ServiceCall -> Svc.Outcome): (r: Reply)
    ensures IsAdmin(session) ==> r.calls == [Svc.GetPendingCompanies]
  {
    Guard(session, Fetch(Svc.GetPendingCompanies, respond))
  }

  function GetCompanyDetail(session: Option<User>, companyId: string, respond: Svc.ServiceCall -> Svc.Outcome): (r: Reply)
    ensures IsAdmin(session) ==>
              (r.response == Response(404, Empty) <==> respond(Svc.AdminCompanyDetail(companyId)) == Svc.Returns(Svc.Null))
    ensures IsAdmin(session) && respond(Svc.AdminCompanyDetail(companyId)).Returns? && respond(Svc.AdminCompanyDetail(companyId)).value != Svc.Null ==>
              r.response == Response(200, Json(respond(Svc.AdminCompanyDetail(companyId)).value))
  {
    Guard(session, Lookup(Svc.AdminCompanyDetail(companyId), respond))
  }

  const NoApprovalStatus: string := "승인 상태가 제공되지 않았습니다."
  const CompanyStatusUpdated: string := "회사 상태가 성공적으로 업데이트되었습니다."
  const CompanyStatusError: string := "회사 상태 업데이트 중 오류가 발생했습니다: "

  /** A null or empty `companyApprovalStatus`. */
  predicate MissingStatus(statusRequest: map<string, string>) {
    "companyApprovalStatus" !in statusRequest || statusRequest["companyApprovalStatus"] == ""
  }

  /** `updateCompanyStatus`: a null or empty status is answered with 400
      before any service call; any other string, known status or not, is
      passed to the service unchanged. */
  function UpdateCompanyStatus(session: Option<User>, companyId: string, statusRequest: map<string, string>,
                               respond: Svc.ServiceCall -> Svc.Outcome): (r: Reply)
    ensures IsAdmin(session) && MissingStatus(statusRequest) ==>
              r == Reply(Response(400, Message(NoApprovalStatus)), [])
    ensures IsAdmin(session) && !MissingStatus(statusRequest) ==>
              && r.calls == [Svc.UpdateCompanyStatus(companyId, statusRequest["companyApprovalStatus"])]
              && (r.response == Response(200, Success(CompanyStatusUpdated)) <==> respond(r.calls[0]).Returns?)
              && (StatusOf(r.response) == 500 <==> respond(r.calls[0]).Throws?)
  {
    Guard(session,
      if MissingStatus(statusRequest) then Reply(Response(400, Message(NoApprovalStatus)), [])
      else Attempt(Svc.UpdateCompanyStatus(companyId, statusRequest["companyApprovalStatus"]),
                   Success(CompanyStatusUpdated), CompanyStatusError, respond))
  }

  const CompanyDeleted: string := "회사가 성공적으로 삭제되었습니다."
  const DeleteCompanyError: string := "회사 삭제 중 오류가 발생했습니다: "

  function DeleteCompany(session: Option<User>, companyId: string, respond: Svc.ServiceCall -> Svc.Outcome): (r: Reply)
    ensures IsAdmin(session) ==> r.calls == [Svc.DeleteCompanyWithRelatedData(companyId)]
    ensures IsAdmin(session) ==> (r.response == Response(200, Success(CompanyDeleted)) <==> respond(r.calls[0]).Returns?)
  {
    Guard(session, Attempt(Svc.DeleteCompanyWithRelatedData(companyId), Success(CompanyDeleted), DeleteCompanyError, respond))
  }

  // ---- job posts -------------------------------------------------------------

  /** `getJobPosts`: `sortOrderBy` defaults to 공고 제목 (post title). */
  function GetJobPosts(session: Option<User>, query: Svc.SearchQuery, respond: Svc.ServiceCall -> Svc.Outcome): (r: Reply)
    ensures IsAdmin(session) ==> |r.calls| == 1 && r.calls[0].AdminSearchJobPosts?
    ensures IsAdmin(session) ==> r.calls[0].query.sortOrderBy == Some(DefaultParam(query.sortOrderBy, "공고 제목"))
  {
    Guard(session, Fetch(Svc.AdminSearchJobPosts(WithDefaultSort(query, "공고 제목")), respond))
  }

  function GetJobPostDetail(session: Option<User>, jobPostId: string, respond: Svc.ServiceCall -> Svc.Outcome): (r: Reply)
    ensures IsAdmin(session) ==>
              (r.response == Response(404, Empty) <==> respond(Svc.AdminJobPostDetail(jobPostId)) == Svc.Returns(Svc.Null))
    ensures IsAdmin(session) && respond(Svc.AdminJobPostDetail(jobPostId)).Returns? && respond(Svc.AdminJobPostDetail(jobPostId)).value != Svc.Null ==>
              r.response == Response(200, Json(respond(Svc.AdminJobPostDetail(jobPostId)).value))
  {
    Guard(session, Lookup(Svc.AdminJobPostDetail(jobPostId), respond))
  }

  const NoJobPostStatus: string := "상태값이 제공되지 않았습니다."
  const JobPostStatusUpdated: string := "공고 상태가 성공적으로 업데이트되었습니다."
  const JobPostStatusError: string := "공고 상태 업데이트 중 오류가 발생했습니다: "

  /** `updateJobPostStatus`: a missing `status` is answered with 400 before
      any service call; the path id is parsed inside the `try`, so a
      non-numeric id is answered with 500. */
  function UpdateJobPostStatus(session: Option<User>, jobPostId: string, statusRequest: map<string, bool>,
                               respond: Svc.ServiceCall -> Svc.Outcome): (r: Reply)
    ensures IsAdmin(session) && "status" !in statusRequest ==>
              r == Reply(Response(400, Message(NoJobPostStatus)), [])
    ensures IsAdmin(session) && "status" in statusRequest && ParseLong(jobPostId).NumberFormatError? ==>
              r == Reply(Response(500, Message(JobPostStatusError + ForInputString(jobPostId))), [])
    ensures IsAdmin(session) && "status" in statusRequest && ParseLong(jobPostId).Parsed? ==>
              && r.calls == [Svc.UpdateJobPostStatus(ParseLong(jobPostId).value, statusRequest["status"])]
              && (StatusOf(r.response) == 200 <==> respond(r.calls[0]).Returns?)
  {
    Guard(session,
      if "status" !in statusRequest then Reply(Response(400, Message(NoJobPostStatus)), [])
      else match ParseLong(jobPostId)
        case NumberFormatError => Reply(Response(500, Message(JobPostStatusError + ForInputString(jobPostId))), [])
        case Parsed(id) =>
          Attempt(Svc.UpdateJobPostStatus(id, statusRequest["status"]), Success(JobPostStatusUpdated), JobPostStatusError, respond))
  }

  const JobPostDeleted: string := "공고가 성공적으로 삭제되었습니다."
  const DeleteJobPostError: string := "공고 삭제 중 오류가 발생했습니다: "

  function DeleteJobPost(session: Option<User>, jobPostId: string, respond: Svc.ServiceCall -> Svc.Outcome): (r: Reply)
    ensures IsAdmin(session) ==> r.calls == [Svc.AdminJobPostDelete(jobPostId)]
    ensures IsAdmin(session) ==> (r.response == Response(200, Success(JobPostDeleted)) <==> respond(r.calls[0]).Returns?)
  {
    Guard(session, Attempt(Svc.AdminJobPostDelete(jobPostId), Success(JobPostDeleted), DeleteJobPostError, respond))
  }

  // ---- applications ------------------------------------------------------------

  /** `getApplications`: `sortOrderBy` defaults to 지원자명 (applicant name). */
  function GetApplications(session: Option<User>, query: Svc.SearchQuery, respond: Svc.ServiceCall -> Svc.Outcome): (r: Reply)
    ensures IsAdmin(session) ==> |r.calls| == 1 && r.calls[0].AdminSearchJobApplications?
    ensures IsAdmin(session) ==> r.calls[0].query.sortOrderBy == Some(DefaultParam(query.sortOrderBy, "지원자명"))
  {
    Guard(session, Fetch(Svc.AdminSearchJobApplications(WithDefaultSort(query, "지원자명")), respond))
  }

  // ---- reviews -----------------------------------------------------------------

  function GetAllReviewsForAdmin(session: Option<User>, respond: Svc.ServiceCall -> Svc.Outcome): (r: Reply)
    ensures IsAdmin(session) ==> r.calls == [Svc.GetAllReviewsForAdmin]
  {
    Guard(session, Fetch(Svc.GetAllReviewsForAdmin, respond))
  }

  const ReviewLookupError: string := "리뷰 조회 중 오류가 발생했습니다: "

  /** `getReviewDetail`: parse the id, look the review up (404 when absent),
      then fetch its comments; every exception inside, the parse included,
      is answered with 500. */
  function GetReviewDetail(session: Option<User>, reviewId: string, respond: Svc.ServiceCall -> Svc.Outcome): (r: Reply)
    ensures IsAdmin(session) && ParseLong(reviewId).NumberFormatError? ==>
              r == Reply(Response(500, Message(ReviewLookupError + ForInputString(reviewId))), [])
    ensures IsAdmin(session) && ParseLong(reviewId).Parsed? ==>
              var id := ParseLong(reviewId).value;
              && 1 <= |r.calls| <= 2
              && r.calls[0] == Svc.ReviewCheck(id)
              && (r.response == Response(404, Empty) <==> respond(Svc.ReviewCheck(id)) == Svc.Returns(Svc.Null))
              && (|r.calls| == 2 <==> respond(Svc.ReviewCheck(id)).Returns? && respond(Svc.ReviewCheck(id)).value != Svc.Null)
              && (|r.calls| == 2 ==> r.calls[1] == Svc.GetCommentsByReviewId(id))
              && (StatusOf(r.response) == 200 <==> |r.calls| == 2 && respond(r.calls[1]).Returns?)
  {
    Guard(session,
      match ParseLong(reviewId)
      case NumberFormatError => Reply(Response(500, Message(ReviewLookupError + ForInputString(reviewId))), [])
      case Parsed(id) =>
        var check := Svc.ReviewCheck(id);
        match respond(check)
        case Throws(m) => Reply(Response(500, Message(ReviewLookupError + m)), [check])
        case Returns(review) =>
          if review == Svc.Null then Reply(Response(404, Empty), [check])
          else
            var comments := Svc.GetCommentsByReviewId(id);
            match respond(comments)
            case Throws(m) => Reply(Response(500, Message(ReviewLookupError + m)), [check, comments])
            case Returns(list) => Reply(Response(200, ReviewWithComments(review, list)), [check, comments]))
  }

  const ReviewMissing: string := "리뷰가 존재하지 않습니다."

  /** `updateReviewByAdmin`: the path id replaces the body's id; the service's
      `true` is answered with 200 and `false` with 404. */
  function UpdateReviewByAdmin(session: Option<User>, reviewId: int, review: Svc.Record,
                               respond: Svc.ServiceCall -> Svc.Outcome): (r: Reply)
    ensures IsAdmin(session) ==> r.calls == [Svc.UpdateReviewByAdmin(review.(id := Some(reviewId)))]
    ensures IsAdmin(session) && respond(r.calls[0]) == Svc.Returns(Svc.Flag(true)) ==> r.response == Response(200, Empty)
    ensures IsAdmin(session) && respond(r.calls[0]) == Svc.Returns(Svc.Flag(false)) ==>
              r.response == Response(404, Message(ReviewMissing))
  {
    var call := Svc.UpdateReviewByAdmin(review.(id := Some(reviewId)));
    Guard(session,
      match respond(call)
      case Throws(m) => Reply(Escaped(m), [call])
      case Returns(v) =>
        if v == Svc.Flag(true) then Reply(Response(200, Empty), [call])
        else Reply(Response(404, Message(ReviewMissing)), [call]))
  }

  function DeleteReviewByAdmin(session: Option<User>, reviewId: int, respond: Svc.ServiceCall -> Svc.Outcome): (r: Reply)
    ensures IsAdmin(session) ==> r.calls == [Svc.DeleteReviewByAdmin(reviewId)]
  {
    Guard(session, Command(Svc.DeleteReviewByAdmin(reviewId), respond))
  }

  function DeleteCommentByAdmin(session: Option<User>, commentId: int, respond: Svc.ServiceCall -> Svc.Outcome): (r: Reply)
    ensures IsAdmin(session) ==> r.calls == [Svc.DeleteCommentByAdmin(commentId)]
  {
    Guard(session, Command(Svc.DeleteCommentByAdmin(commentId), respond))
  }

  // ---- notices -----------------------------------------------------------------

  function GetAllNotices(session: Option<User>, respond: Svc.ServiceCall -> Svc.Outcome): (r: Reply)
    ensures IsAdmin(session) ==> r.calls == [Svc.GetAllNotices]
  {
    Guard(session, Fetch(Svc.GetAllNotices, respond))
  }

  function GetNoticeById(session: Option<User>, noticeId: int, respond: Svc.ServiceCall -> Svc.Outcome): (r: Reply)
    ensures IsAdmin(session) ==>
              (r.response == Response(404, Empty) <==> respond(Svc.GetNoticeById(noticeId)) == Svc.Returns(Svc.Null))
    ensures IsAdmin(session) && respond(Svc.GetNoticeById(noticeId)).Returns? && respond(Svc.GetNoticeById(noticeId)).value != Svc.Null ==>
              r.response == Response(200, Json(respond(Svc.GetNoticeById(noticeId)).value))
  {
    Guard(session, Lookup(Svc.GetNoticeById(noticeId), respond))
  }

  function AddNotice(session: Option<User>, notice: Svc.Record, respond: Svc.ServiceCall -> Svc.Outcome): (r: Reply)
    ensures IsAdmin(session) ==> r.calls == [Svc.AddNotice(notice)]
  {
    Guard(session, Command(Svc.AddNotice(notice), respond))
  }

  /** `updateNotice`: the path id replaces the body's id. */
  function UpdateNotice(session: Option<User>, noticeId: int, notice: Svc.Record, respond: Svc.ServiceCall -> Svc.Outcome): (r: Reply)
    ensures IsAdmin(session) ==> r.calls == [Svc.UpdateNotice(notice.(id := Some(noticeId)))]
    ensures IsAdmin(session) ==> r.calls[0].notice.id == Some(noticeId) && r.calls[0].notice.fields == notice.fields
  {
    Guard(session, Command(Svc.UpdateNotice(notice.(id := Some(noticeId))), respond))
  }

  function DeleteNotice(session: Option<User>, noticeId: int, respond: Svc.ServiceCall -> Svc.Outcome): (r: Reply)
    ensures IsAdmin(session) ==> r.calls == [Svc.DeleteNotice(noticeId)]
  {
    Guard(session, Command(Svc.DeleteNotice(noticeId), respond))
  }

  // ---- dispatch ----------------------------------------------------------------

  /** The controller as a whole: the endpoint a request reaches. */
  function Handle(session: Option<User>, req: Request, respond: Svc.ServiceCall -> Svc.Outcome): (r: Reply)
    // every endpoint: 403 before any service call when the caller is not an admin
    ensures !IsAdmin(session) ==> r == Reply(Forbidden(), [])
    ensures IsAdmin(session) ==> StatusOf(r.response) in {200, 400, 404, 500}
    // validation failures never reach a service
    ensures StatusOf(r.response) == 400 ==> r.calls == []
    // a 404 is always the service's answer
    ensures StatusOf(r.response) == 404 ==> r.calls != []
    // an escaping exception is the last call's
    ensures r.response.Escaped? ==> r.calls != [] && respond(r.calls[|r.calls| - 1]).Throws?
    ensures |r.calls| <= 2
  {
    match req
    case StatsGet => GetStats(session, respond)
    case UsersGet(q) => GetAllUsers(session, q, respond)
    case UserGet(id) => GetUserDetail(session, id, respond)
    case UserPut(id, user) => UpdateUser(session, id, user, respond)
    case UserDelete(id) => DeleteUser(session, id, respond)
    case ResumesGet(q) => SearchResumes(session, q, respond)
    case ResumeGet(id) => GetResumeDetail(session, id, respond)
    case CompaniesGet(q) => GetAllCompanies(session, q, respond)
    case PendingCompaniesGet => GetPendingCompanies(session, respond)
    case CompanyGet(id) => GetCompanyDetail(session, id, respond)
    case CompanyStatusPatch(id, body) => UpdateCompanyStatus(session, id, body, respond)
    case CompanyDelete(id) => DeleteCompany(session, id, respond)
    case JobPostsGet(q) => GetJobPosts(session, q, respond)
    case JobPostGet(id) => GetJobPostDetail(session, id, respond)
    case JobPostStatusPatch(id, body) => UpdateJobPostStatus(session, id, body, respond)
    case JobPostDelete(id) => DeleteJobPost(session, id, respond)
    case ApplicationsGet(q) => GetApplications(session, q, respond)
    case ReviewsGet => GetAllReviewsForAdmin(session, respond)
    case ReviewGet(id) => GetReviewDetail(session, id, respond)
    case ReviewPut(id, review) => UpdateReviewByAdmin(session, id, review, respond)
    case ReviewDelete(id) => DeleteReviewByAdmin(session, id, respond)
    case CommentDelete(id) => DeleteCommentByAdmin(session, id, respond)
    case NoticesGet => GetAllNotices(session, respond)
    case NoticeGet(id) => GetNoticeById(session, id, respond)
    case NoticePost(notice) => AddNotice(session, notice, respond)
    case NoticePut(id, notice) => UpdateNotice(session, id, notice, respond)
    case NoticeDelete(id) => DeleteNotice(session, id, respond)
  }
}
