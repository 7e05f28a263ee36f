/** What the two admin controllers share: the session's admin check and the
    shape of their responses. */
module Http {
  import opened Wrappers
  import opened Services

  /** The `userSession` attribute: the signed-in user, of whom only the
      nullable `userIsAdmin` flag matters to the controllers. */
  datatype User = User(userId: int, userIsAdmin: Option<bool>)

  /** `isAdmin(session)`, identical in `AdminController` and
      `AdminCompanyController`: a user is signed in, the flag is not null
      and it is true. */
  predicate IsAdmin(session: Option<User>)
  {
    session.Some? && session.value.userIsAdmin.Some? && session.value.userIsAdmin.value
  }

  /** Exactly one kind of session passes the check: a user whose flag is
      `true`; a missing user, a null flag and `false` are all refused. */
  lemma IsAdminExactly(session: Option<User>)
    ensures IsAdmin(session) <==> exists id :: session == Some(User(id, Some(true)))
  {
    if IsAdmin(session) {
      assert session == Some(User(session.value.userId, Some(true)));
    }
  }

  /** Response bodies: none (`ok().build()`, `notFound().build()`), a service
      result, `{"message": ...}`, `{"success": true, "message": ...}`, or the
      review detail's `{"review": ..., "comments": ...}`. */
  datatype Body = Empty | Json(value: Value) | Message(text: string) | Success(text: string)
                | ReviewWithComments(review: Value, comments: Value)

  /** A `ResponseEntity`, or an exception that leaves the controller method
      uncaught, which the framework turns into its default 500 error. */
  datatype Response = Response(status: int, body: Body) | Escaped(exceptionMessage: string)

  function StatusOf(r: Response): int {
    if r.Escaped? then 500 else r.status
  }

  /** The answer and the service calls made, in order. */
  datatype Reply = Reply(response: Response, calls: seq<ServiceCall>)

  const AdminRequired: string := "관리자 권한이 필요합니다."

  function Forbidden(): Response {
    Response(403, Message(AdminRequired))
  }

  /** The admin check every endpoint starts with: a non-admin caller gets 403
      and no service is called. */
  function Guard(session: Option<User>, admitted: Reply): (r: Reply)
    ensures !IsAdmin(session) ==> r == Reply(Forbidden(), [])
    ensures IsAdmin(session) ==> r == admitted
  {
    if !IsAdmin(session) then Reply(Forbidden(), []) else admitted
  }
}
