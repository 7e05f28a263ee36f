/** `manage/jobposts/AdminJobPostDetail`: one job post, with the open/close
    toggle, delete and update. */
module JobPostDetail {
  import opened Wrappers
  import opened Client

  /** The post as the page holds it: its status and its other fields. */
  datatype JobPostRecord = JobPostRecord(jobPostStatus: bool, fields: map<string, string>)

  /** The toggle button offers the opposite of the current status. */
  function OfferedStatus(record: JobPostRecord): (r: bool)
    ensures r != record.jobPostStatus
  {
    !record.jobPostStatus
  }

  /** The shown post after a successful status change. */
  function WithStatus(record: JobPostRecord, status: bool): (r: JobPostRecord)
    ensures r.jobPostStatus == status && r.fields == record.fields
  {
    record.(jobPostStatus := status)
  }

  /** Pressing the offered toggle twice, both times successfully, gives back
      the post as it was shown. */
  lemma ToggleTwiceRestores(record: JobPostRecord)
    ensures var once := WithStatus(record, OfferedStatus(record));
            WithStatus(once, OfferedStatus(once)) == record
  {
  }

  /** The post as the JSON body axios sends: every field, with the status
      as `true` or `false`. */
  function RecordJson(record: JobPostRecord): (r: map<string, string>)
    ensures r.Keys == record.fields.Keys + {"jobPostStatus"}
    ensures r["jobPostStatus"] == BoolText(record.jobPostStatus)
    ensures forall k :: k in record.fields && k != "jobPostStatus" ==> r[k] == record.fields[k]
  {
    record.fields["jobPostStatus" := BoolText(record.jobPostStatus)]
  }

  function JobPostPath(jobPostId: string): string {
    "/api/admin/job-posts/" + jobPostId
  }

  function TitleText(record: JobPostRecord): string {
    if "jobPostTitle" in record.fields then record.fields["jobPostTitle"] else "undefined"
  }

  class JobPostDetailScreen {
    const jobPostId: string
    var jobPost: Option<JobPostRecord>
    var editForm: Option<JobPostRecord>
    var isEditing: bool

    constructor (jobPostId: string)
      ensures this.jobPostId == jobPostId
      ensures jobPost == None && editForm == None && !isEditing
    {
      this.jobPostId := jobPostId;
      jobPost := None;
      editForm := None;
      isEditing := false;
    }

    /** `fetchJobPostDetail()`; a failure keeps the page as it was. */
    method FetchJobPostDetail(response: Option<JobPostRecord>) returns (sent: Request)
      modifies this`jobPost, this`editForm
      ensures sent == Request(Get, JobPostPath(jobPostId), map[])
      ensures response.Some? ==> jobPost == response && editForm == response
      ensures response.None? ==> jobPost == old(jobPost) && editForm == old(editForm)
    {
      sent := Request(Get, JobPostPath(jobPostId), map[]);
      if response.Some? {
        jobPost := response;
        editForm := response;
      }
    }

    /** `handleStatusChange(status)`, reachable once the post is shown: on
        success the shown status is the requested one and the other fields
        stay; a failure changes nothing. */
    method HandleStatusChange(status: bool, ok: bool) returns (sent: Request)
      requires jobPost.Some?
      modifies this`jobPost
      ensures sent == Request(Patch, JobPostPath(jobPostId) + "/status", map["status" := BoolText(status)])
      ensures ok ==> jobPost == Some(WithStatus(old(jobPost).value, status))
      ensures !ok ==> jobPost == old(jobPost)
    {
      sent := Request(Patch, JobPostPath(jobPostId) + "/status", map["status" := BoolText(status)]);
      if ok {
        jobPost := Some(jobPost.value.(jobPostStatus := status));
      }
    }

    /** `handleDelete()`: the `window.confirm` first; then the applications
        DELETE, and the post DELETE only once that succeeded; the page goes
        back to the list when both succeeded. */
    method HandleDelete(confirmed: bool, applicationsDeleted: bool, postDeleted: bool)
      returns (message: string, sent: seq<Request>, navigateTo: Option<string>)
      requires jobPost.Some?
      ensures message == TitleText(jobPost.value) + " 공고를 삭제하시겠습니까? 이 작업은 되돌릴 수 없습니다."
      ensures !confirmed ==> sent == [] && navigateTo == None
      ensures confirmed ==> sent == Chain(Del(JobPostPath(jobPostId) + "/applications"), Del(JobPostPath(jobPostId)), applicationsDeleted)
      ensures navigateTo.Some? <==> confirmed && applicationsDeleted && postDeleted
      ensures navigateTo.Some? ==> navigateTo.value == "/admin/job-posts"
    {
      message := TitleText(jobPost.value) + " 공고를 삭제하시겠습니까? 이 작업은 되돌릴 수 없습니다.";
      sent := [];
      navigateTo := None;
      if confirmed {
        sent := Chain(Del(JobPostPath(jobPostId) + "/applications"), Del(JobPostPath(jobPostId)), applicationsDeleted);
        if applicationsDeleted && postDeleted {
          navigateTo := Some("/admin/job-posts");
        }
      }
    }

    /** `handleUpdateJobPost()`: the PUT of the edit form; on success the
        form becomes the post and editing ends. */
    method HandleUpdateJobPost(ok: bool) returns (sent: Request)
      requires editForm.Some?
      modifies this`jobPost, this`isEditing
      ensures sent == Request(Put, JobPostPath(jobPostId), RecordJson(editForm.value))
      ensures ok ==> jobPost == editForm && !isEditing
      ensures !ok ==> jobPost == old(jobPost) && isEditing == old(isEditing)
    {
      var form := editForm.value;
      sent := Request(Put, JobPostPath(jobPostId), RecordJson(form));
      if ok {
        jobPost := editForm;
        isEditing := false;
      }
    }
  }
}
