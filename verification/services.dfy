/** The service layer the admin controllers call, kept abstract: each call is
    a value naming the service method and its arguments, and the service's
    answer to it (a result or an exception) is a parameter of the model. */
module Services {
  import opened Wrappers

  /** A request or response DTO (`User`, `Review`, `Notice`, ...): its id
      property and the rest of its properties. */
  datatype Record = Record(id: Option<int>, fields: map<string, string>)

  /** What a service method hands back: Java `null`, an object or list, or a
      primitive boolean. */
  datatype Value = Null | Data(record: Record) | Items(records: seq<Record>) | Flag(b: bool)

  /** A service call either returns or throws an exception with a message. */
  datatype Outcome = Returns(value: Value) | Throws(message: string)

  /** The optional search parameters of a list endpoint: the text filters in
      declaration order, then `sortOrderBy`, `isDESC` and `limit`. */
  datatype SearchQuery = SearchQuery(filters: seq<Option<string>>, sortOrderBy: Option<string>,
                                     isDesc: Option<bool>, limit: Option<int>)

  /** Service methods, named as in the services. */
  datatype ServiceCall =
    // AdminService
    | GetDashboardStats
    | AdminSearchUsers(query: SearchQuery)
    | AdminUserDetail(userId: string)
    | AdminUserUpdate(user: Record)
    | DeleteUserWithRelatedData(userId: string)
    | AdminSearchResumes(query: SearchQuery)
    | AdminResumeDetail(resumeId: string)
    | AdminSearchCompanies(query: SearchQuery)
    | AdminCompanyDetail(companyId: string)
    | UpdateCompanyStatus(companyIdText: string, status: string)
    | DeleteCompanyWithRelatedData(companyId: string)
    | AdminSearchJobPosts(query: SearchQuery)
    | AdminJobPostDetail(jobPostId: string)
    | AdminJobPostDelete(jobPostId: string)
    | AdminSearchJobApplications(query: SearchQuery)
    // CompanyService
    | GetAllCompanies
    | GetPendingCompanies
    | CompanyDetail(companyNumber: int)
    | UpdateApprovalStatus(companyNumber: int, approvalStatus: string)
    | DeleteCompany(companyNumber: int)
    // JobPostService
    | UpdateJobPostStatus(jobPostNumber: int, jobPostStatus: bool)
    // ReviewService
    | GetAllReviewsForAdmin
    | ReviewCheck(reviewNumber: int)
    | GetCommentsByReviewId(reviewNumber: int)
    | UpdateReviewByAdmin(review: Record)
    | DeleteReviewByAdmin(reviewNumber: int)
    | DeleteCommentByAdmin(commentNumber: int)
    // NoticeService
    | GetAllNotices
    | GetNoticeById(noticeNumber: int)
    | AddNotice(notice: Record)
    | UpdateNotice(notice: Record)
    | DeleteNotice(noticeNumber: int)
}
