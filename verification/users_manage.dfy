/** `manage/users/AdminUsersManage`: the member list behind the shared data
    table; deleting a member removes the member's related data first. */
module UsersManage {
  import opened Wrappers
  import opened Strings
  import opened Seqs
  import opened Client
  import opened ListQuery

  datatype User = User(userId: int, userName: string)

  const SortFieldMap: map<string, string> :=
    map["userName" := "이름", "userEmail" := "이메일", "userPhone" := "전화번호", "userCreatedAt" := "가입일"]

  const Initial: Query :=
    Query(map["userName" := "", "userEmail" := "", "userPhone" := ""], "이름", false, 1, 10)

  /** The four column keys get their labels; any other key is sent as is. */
  lemma SortLabels(key: string)
    ensures SortLabel(SortFieldMap, "userName") == "이름"
    ensures SortLabel(SortFieldMap, "userEmail") == "이메일"
    ensures SortLabel(SortFieldMap, "userPhone") == "전화번호"
    ensures SortLabel(SortFieldMap, "userCreatedAt") == "가입일"
    ensures key !in {"userName", "userEmail", "userPhone", "userCreatedAt"} ==> SortLabel(SortFieldMap, key) == key
  {
  }

  function ListRequest(q: Query): Request {
    Request(Get, "/api/admin/users", Params(q))
  }

  function UserPath(userId: string): string {
    "/api/admin/users/" + userId
  }

  /** The related-data DELETE, then the member DELETE once that succeeded. */
  function DeleteRequests(userId: string, relatedDeleted: bool): seq<Request> {
    Chain(Del(UserPath(userId) + "/related-data"), Del(UserPath(userId)), relatedDeleted)
  }

  /** `users.filter(user => user.userId !== userId)`. */
  function WithoutUser(users: seq<User>, userId: int): (r: seq<User>)
    ensures forall u :: u in r <==> u in users && u.userId != userId
    ensures IsSubseq(r, users)
  {
    var other := (u: User) => u.userId != userId;
    FilterIsSubseq(users, other);
    Filter(users, other)
  }

  /** The handlers' own list request is built from `searchParams` as it was
      before the update they schedule. */
  class UsersScreen {
    var users: seq<User>
    var totalItems: int
    var searchParams: Query

    constructor ()
      ensures users == [] && totalItems == 0 && searchParams == Initial
    {
      users := [];
      totalItems := 0;
      searchParams := Initial;
    }

    /** `fetchUsers()`; a failure keeps the list. */
    method FetchUsers(response: Option<seq<User>>) returns (sent: Request)
      modifies this`users, this`totalItems
      ensures sent == ListRequest(searchParams)
      ensures response.Some? ==> users == response.value && totalItems == |response.value|
      ensures response.None? ==> users == old(users) && totalItems == old(totalItems)
    {
      sent := ListRequest(searchParams);
      if response.Some? {
        users := response.value;
        totalItems := |response.value|;
      }
    }

    method HandleSearch(searchTerm: string, page: Option<int>, rowsPerPage: Option<int>) returns (sent: Request)
      modifies this`searchParams
      ensures searchParams == WithSearch(old(searchParams), "userName", searchTerm, page, rowsPerPage)
      ensures sent == ListRequest(old(searchParams))
    {
      sent := ListRequest(searchParams);
      searchParams := WithSearch(searchParams, "userName", searchTerm, page, rowsPerPage);
    }

    method HandleSort(key: string, direction: string) returns (sent: Request)
      modifies this`searchParams
      ensures searchParams == WithSort(old(searchParams), SortFieldMap, key, direction)
      ensures sent == ListRequest(old(searchParams))
    {
      sent := ListRequest(searchParams);
      searchParams := WithSort(searchParams, SortFieldMap, key, direction);
    }

    method HandleFilter(filters: map<string, string>) returns (sent: Request)
      modifies this`searchParams
      ensures searchParams == WithFilters(old(searchParams), filters)
      ensures sent == ListRequest(old(searchParams))
    {
      sent := ListRequest(searchParams);
      searchParams := WithFilters(searchParams, filters);
    }

    method HandlePageChange(page: int, rowsPerPage: Option<int>) returns (sent: Request)
      modifies this`searchParams
      ensures searchParams == WithPage(old(searchParams), page, rowsPerPage)
      ensures sent == ListRequest(old(searchParams))
    {
      sent := ListRequest(searchParams);
      searchParams := WithPage(searchParams, page, rowsPerPage);
    }

    /** `handleDelete(userId)`: the related-data DELETE, then the member
        DELETE; only when both succeed does the member leave the list. */
    method HandleDelete(userId: int, relatedDeleted: bool, userDeleted: bool) returns (sent: seq<Request>)
      modifies this`users
      ensures sent == DeleteRequests(IntToString(userId), relatedDeleted)
      ensures relatedDeleted && userDeleted ==> users == WithoutUser(old(users), userId)
      ensures !(relatedDeleted && userDeleted) ==> users == old(users)
    {
      sent := DeleteRequests(IntToString(userId), relatedDeleted);
      if relatedDeleted && userDeleted {
        users := Filter(users, (u: User) => u.userId != userId);
      }
    }
  }
}
