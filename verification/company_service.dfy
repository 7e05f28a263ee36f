/** `CompanyServiceImpl`: the company approval-status write and the company
    deletion, which first deletes the company's job posts one by one and then
    the company row. Each mapper call may throw; the method catches the
    exception and reports `false`, and nothing already done is undone. */
module CompanyService {
  import opened Seqs

  datatype JobPost = JobPost(jobPostId: int, companyId: int, title: string)
  datatype Application = Application(applicationId: int, jobPostId: int)
  datatype Review = Review(reviewId: int, companyId: int)
  datatype Scrap = Scrap(userId: int, jobPostId: int)

  /** The mapper calls the service issues, in order. */
  datatype MapperCall =
    | GetJobPostIdsByCompanyId(companyId: int)
    | DeleteJobPostById(jobPostId: int)
    | DeleteCompanyById(companyId: int)
    | UpdateApprovalStatusRow(companyId: int, status: string)

  /** Which mapper call throws: none, or the one at position `step`
      (0 is the first call the method makes). */
  datatype Fault = NoFault | FailAt(step: nat)

  function IsOfCompany(companyId: int): JobPost -> bool {
    (p: JobPost) => p.companyId == companyId
  }

  function IdOf(p: JobPost): int { p.jobPostId }

  function IdNotIn(ids: seq<int>): JobPost -> bool {
    (p: JobPost) => p.jobPostId !in ids
  }

  /** `getJobPostIdsByCompanyId`: the ids of the company's job posts, in
      table order. */
  function JobPostIdsOf(posts: seq<JobPost>, companyId: int): (ids: seq<int>)
    ensures forall i :: 0 <= i < |posts| && posts[i].companyId == companyId ==> posts[i].jobPostId in ids
    ensures forall id :: id in ids ==> exists i :: 0 <= i < |posts| && posts[i].companyId == companyId && posts[i].jobPostId == id
  {
    var mine := Filter(posts, IsOfCompany(companyId));
    var ids := Map(mine, IdOf);
    assert forall i :: 0 <= i < |posts| && posts[i].companyId == companyId ==> posts[i] in mine;
    assert forall k :: 0 <= k < |mine| ==> ids[k] == mine[k].jobPostId && mine[k] in posts;
    ids
  }

  /** The rows left after deleting every job post whose id is in `ids`. */
  function RemoveIds(posts: seq<JobPost>, ids: seq<int>): seq<JobPost> {
    Filter(posts, IdNotIn(ids))
  }

  /** Job post ids are primary keys. */
  predicate UniqueIds(posts: seq<JobPost>) {
    forall i, j :: 0 <= i < j < |posts| ==> posts[i].jobPostId != posts[j].jobPostId
  }

  lemma {:induction false} FilterKeepsUniqueIds(posts: seq<JobPost>, p: JobPost -> bool)
    requires UniqueIds(posts)
    ensures UniqueIds(Filter(posts, p))
  {
    if posts != [] {
      var tail := posts[1..];
      FilterKeepsUniqueIds(tail, p);
      if p(posts[0]) {
        var r := Filter(tail, p);
        forall k | 0 <= k < |r| ensures r[k].jobPostId != posts[0].jobPostId {
          assert r[k] in tail;
          var m :| 0 <= m < |tail| && tail[m] == r[k];
          assert posts[m + 1] == r[k];
        }
      }
    }
  }

  /** One `deleteJobPostById` call per listed id, in order. */
  function DeleteCalls(ids: seq<int>): seq<MapperCall> {
    Map(ids, id => DeleteJobPostById(id))
  }

  /** The calls `deleteCompany` makes when nothing throws. */
  function PlannedCalls(companyId: int, ids: seq<int>): (calls: seq<MapperCall>)
    ensures |calls| == |ids| + 2
    ensures calls[0] == GetJobPostIdsByCompanyId(companyId)
    ensures calls[|calls| - 1] == DeleteCompanyById(companyId)
  {
    [GetJobPostIdsByCompanyId(companyId)] + DeleteCalls(ids) + [DeleteCompanyById(companyId)]
  }

  /** Whether the fault hits one of the `n` calls the method makes. */
  predicate Hits(fault: Fault, n: nat) {
    fault.FailAt? && fault.step < n
  }

  /** Number of job-post deletes that complete before the fault. */
  function DeletesDone(fault: Fault, count: nat): (k: nat)
    ensures k <= count
    ensures !Hits(fault, count + 1) ==> k == count
  {
    if fault.FailAt? && fault.step <= count then (if fault.step == 0 then 0 else fault.step - 1) else count
  }

  class CompanyStore {
    /** company id -> `company_approval_status` */
    var companies: map<int, string>
    var jobPosts: seq<JobPost>
    var applications: seq<Application>
    var reviews: seq<Review>
    var scraps: seq<Scrap>

    ghost predicate Valid()
      reads this
    {
      UniqueIds(jobPosts)
    }

    constructor (companies: map<int, string>, jobPosts: seq<JobPost>)
      requires UniqueIds(jobPosts)
      ensures Valid()
      ensures this.companies == companies && this.jobPosts == jobPosts
      ensures applications == [] && reviews == [] && scraps == []
    {
      this.companies := companies;
      this.jobPosts := jobPosts;
      applications := [];
      reviews := [];
      scraps := [];
    }

    /** `updateApprovalStatus`: writes the status string as given, without
        checking it against the known statuses; a throwing write gives false.
        An UPDATE of a missing company changes nothing and still succeeds. */
    method UpdateApprovalStatus(companyId: int, approvalStatus: string, writeThrows: bool)
      returns (ok: bool, calls: seq<MapperCall>)
      modifies this`companies
      ensures calls == [UpdateApprovalStatusRow(companyId, approvalStatus)]
      ensures ok == !writeThrows
      ensures companies ==
                if ok && companyId in old(companies) then old(companies)[companyId := approvalStatus]
                else old(companies)
    {
      calls := [UpdateApprovalStatusRow(companyId, approvalStatus)];
      if writeThrows {
        return false, calls;
      }
      if companyId in companies {
        companies := companies[companyId := approvalStatus];
      }
      ok := true;
    }

    /** `jobPostMapper.deleteJobPostById`. */
    method DeleteJobPostRow(jobPostId: int)
      requires Valid()
      modifies this`jobPosts
      ensures Valid()
      ensures jobPosts == Filter(old(jobPosts), IdNotIn([jobPostId]))
    {
      FilterKeepsUniqueIds(jobPosts, IdNotIn([jobPostId]));
      jobPosts := Filter(jobPosts, IdNotIn([jobPostId]));
    }

    /** The `for` loop of `deleteCompany`: deletes the listed job posts in
        order and stops at the delete that throws (call `fault.step`, counting
        the id lookup as call 0). `completed` says that no delete threw. */
    method DeleteListedJobPosts(ids: seq<int>, fault: Fault) returns (completed: bool, deletes: seq<MapperCall>)
      requires Valid()
      requires fault != FailAt(0)
      modifies this`jobPosts
      ensures Valid()
      ensures completed == !Hits(fault, |ids| + 1)
      ensures deletes == DeleteCalls(ids[..if completed then |ids| else fault.step])
      ensures jobPosts == RemoveIds(old(jobPosts), ids[..DeletesDone(fault, |ids|)])
    {
      RemoveNone(jobPosts, ids);
      deletes := [];
      assert deletes == DeleteCalls(ids[..0]);
      var i := 0;
      while i < |ids|
        invariant 0 <= i <= |ids|
        invariant Valid()
        invariant jobPosts == RemoveIds(old(jobPosts), ids[..i])
        invariant deletes == DeleteCalls(ids[..i])
        invariant !(fault.FailAt? && fault.step <= i)
      {
        deletes := deletes + [DeleteJobPostById(ids[i])];
        assert deletes == DeleteCalls(ids[..i + 1]) by {
          DeleteCallsStep(ids, i);
        }
        if fault == FailAt(i + 1) {
          assert DeletesDone(fault, |ids|) == i;
          return false, deletes;
        }
        DeleteJobPostRow(ids[i]);
        assert jobPosts == RemoveIds(old(jobPosts), ids[..i + 1]) by {
          RemoveOneMore(old(jobPosts), ids, i);
        }
        i := i + 1;
      }
      assert DeletesDone(fault, |ids|) == i;
      completed := true;
    }

    /** `deleteCompany`: list the company's job post ids, delete each post,
        delete the company row. `fault` says which mapper call throws; the
        method then stops, returns false and keeps what was already deleted. */
    method DeleteCompany(companyId: int, fault: Fault) returns (ok: bool, calls: seq<MapperCall>)
      requires Valid()
      modifies this`jobPosts, this`companies
      ensures Valid()
      ensures var ids := JobPostIdsOf(old(jobPosts), companyId);
              && ok == !Hits(fault, |ids| + 2)
              && calls == PlannedCalls(companyId, ids)[..if ok then |ids| + 2 else fault.step + 1]
              && jobPosts == RemoveIds(old(jobPosts), ids[..DeletesDone(fault, |ids|)])
              && companies == if ok then old(companies) - {companyId} else old(companies)
    {
      var ids := JobPostIdsOf(jobPosts, companyId);
      calls := [GetJobPostIdsByCompanyId(companyId)];
      if fault == FailAt(0) {
        RemoveNone(jobPosts, ids);
        PlannedPrefix(companyId, ids, 0);
        return false, calls;
      }
      var completed, deletes := DeleteListedJobPosts(ids, fault);
      calls := calls + deletes;
      if !completed {
        PlannedPrefix(companyId, ids, fault.step);
        return false, calls;
      }
      PlannedWhole(companyId, ids);
      calls := calls + [DeleteCompanyById(companyId)];
      if fault == FailAt(|ids| + 1) {
        return false, calls;
      }
      companies := companies - {companyId};
      ok := true;
    }
  }

  lemma RemoveNone(posts: seq<JobPost>, ids: seq<int>)
    ensures RemoveIds(posts, ids[..0]) == posts
  {
    assert ids[..0] == [];
    FilterKeepsAll(posts, IdNotIn([]));
  }

  /** Between the id lookup and the company delete, the plan deletes each
      listed job post once, in list order. */
  lemma PlannedDeletes(companyId: int, ids: seq<int>)
    ensures forall k :: 0 <= k < |ids| ==> PlannedCalls(companyId, ids)[k + 1] == DeleteJobPostById(ids[k])
  {
    var planned := PlannedCalls(companyId, ids);
    forall k | 0 <= k < |ids|
      ensures planned[k + 1] == DeleteJobPostById(ids[k])
    {
      assert planned[k + 1] == DeleteCalls(ids)[k];
    }
  }

  lemma DeleteCallsStep(ids: seq<int>, i: nat)
    requires i < |ids|
    ensures DeleteCalls(ids[..i]) + [DeleteJobPostById(ids[i])] == DeleteCalls(ids[..i + 1])
  {
    assert ids[..i + 1] == ids[..i] + [ids[i]];
  }

  /** The calls up to and including the `n`-th delete are a prefix of the plan. */
  lemma PlannedPrefix(companyId: int, ids: seq<int>, n: nat)
    requires n <= |ids|
    ensures PlannedCalls(companyId, ids)[..n + 1] == [GetJobPostIdsByCompanyId(companyId)] + DeleteCalls(ids[..n])
  {
    var planned := PlannedCalls(companyId, ids);
    var prefix := [GetJobPostIdsByCompanyId(companyId)] + DeleteCalls(ids[..n]);
    assert |planned[..n + 1]| == |prefix|;
    forall k | 0 <= k < n + 1
      ensures planned[..n + 1][k] == prefix[k]
    {
      if k > 0 {
        assert prefix[k] == DeleteCalls(ids[..n])[k - 1];
      }
    }
  }

  lemma PlannedWhole(companyId: int, ids: seq<int>)
    ensures [GetJobPostIdsByCompanyId(companyId)] + DeleteCalls(ids[..|ids|]) + [DeleteCompanyById(companyId)]
            == PlannedCalls(companyId, ids)
  {
    assert ids[..|ids|] == ids;
  }

  lemma RemoveOneMore(posts: seq<JobPost>, ids: seq<int>, i: nat)
    requires i < |ids|
    ensures Filter(RemoveIds(posts, ids[..i]), IdNotIn([ids[i]])) == RemoveIds(posts, ids[..i + 1])
  {
    assert ids[..i + 1] == ids[..i] + [ids[i]];
    FilterCompose(posts, IdNotIn(ids[..i]), IdNotIn([ids[i]]), IdNotIn(ids[..i + 1]));
  }

  /** With primary-key job post ids, deleting the listed ids removes exactly
      the company's job posts: every other company's posts stay, in order. */
  lemma RemoveCompanyPosts(posts: seq<JobPost>, companyId: int)
    requires UniqueIds(posts)
    ensures RemoveIds(posts, JobPostIdsOf(posts, companyId)) == Filter(posts, (p: JobPost) => p.companyId != companyId)
  {
    var ids := JobPostIdsOf(posts, companyId);
    forall i | 0 <= i < |posts|
      ensures IdNotIn(ids)(posts[i]) == (posts[i].companyId != companyId)
    {
      if posts[i].jobPostId in ids {
        var j :| 0 <= j < |posts| && posts[j].companyId == companyId && posts[j].jobPostId == posts[i].jobPostId;
        assert i == j;
      }
    }
    FilterExt(posts, IdNotIn(ids), (p: JobPost) => p.companyId != companyId);
  }

  /** After a successful `deleteCompany` no job post of the company is left,
      every other job post is still there, and the company row is gone while
      every other company row is kept as it was. */
  lemma DeleteCompanySucceeded(before: seq<JobPost>, after: seq<JobPost>,
                               companiesBefore: map<int, string>, companiesAfter: map<int, string>, companyId: int)
    requires UniqueIds(before)
    requires after == RemoveIds(before, JobPostIdsOf(before, companyId))
    requires companiesAfter == companiesBefore - {companyId}
    ensures forall p :: p in after ==> p.companyId != companyId
    ensures forall p :: p in before && p.companyId != companyId ==> p in after
    ensures IsSubseq(after, before)
    ensures companyId !in companiesAfter && companiesAfter.Keys <= companiesBefore.Keys
    ensures forall c :: c in companiesBefore && c != companyId ==> c in companiesAfter && companiesAfter[c] == companiesBefore[c]
  {
    FilterIsSubseq(before, IdNotIn(JobPostIdsOf(before, companyId)));
    RemoveCompanyPosts(before, companyId);
  }
}
