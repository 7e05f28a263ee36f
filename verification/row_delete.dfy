/** The delete button and the selection of the shared data table, seen from
    the list screen whose `handleDelete` they call: the table hands over
    `row.id || row` (the button) or `row.id` (the selection), and a screen
    puts what it receives into a request path with `${…}`. */
module RowDelete {
  import opened Wrappers
  import opened Strings
  import opened Client
  import DataTable
  import UsersManage

  /** What `onDelete` is called with: a row's text id, the row object, or `undefined`. */
  datatype DeleteArg = IdText(id: string) | RowObject(row: DataTable.Row) | Undefined

  /** `row.id || row`: the id when it is truthy, otherwise the whole row. */
  function ButtonArgument(row: DataTable.Row): (r: DeleteArg)
    ensures r.IdText? <==> "id" in row && row["id"] != ""
    ensures r.IdText? ==> r.id == row["id"]
    ensures !r.IdText? ==> r == RowObject(row)
  {
    if "id" in row && row["id"] != "" then IdText(row["id"]) else RowObject(row)
  }

  /** `row.id` as the selection and the bulk delete keep it. */
  function SelectionArgument(row: DataTable.Row): (r: DeleteArg)
    ensures r.Undefined? <==> DataTable.IdOf(row).None?
    ensures r.IdText? ==> Some(r.id) == DataTable.IdOf(row)
  {
    if "id" in row then IdText(row["id"]) else Undefined
  }

  /** `${arg}` in a template literal. */
  function ArgText(a: DeleteArg): (r: string)
    ensures a.IdText? ==> r == a.id
    ensures a.RowObject? ==> r == "[object Object]"
    ensures a.Undefined? ==> r == "undefined"
  {
    match a
    case IdText(id) => id
    case RowObject(_) => "[object Object]"
    case Undefined => "undefined"
  }

  /** The member screen's `handleDelete(userId)` requests for what the table
      hands over. */
  function UserDeleteRequests(a: DeleteArg, relatedDeleted: bool): seq<Request> {
    UsersManage.DeleteRequests(ArgText(a), relatedDeleted)
  }

  /** The list filter `user.userId !== userId` removes a member only when the
      argument is that member's id. */
  predicate RemovesMember(a: DeleteArg, userId: int) {
    a.IdText? && a.id == IntToString(userId)
  }

  /** As written: the list rows carry `userId`, `companyId` or `jobPostId`
      but no `id`, so the button hands over the row object. The first DELETE
      goes to `/api/admin/users/[object Object]/related-data`, whose path
      segment the server cannot read as a number, and the list filter
      removes no member. */
  lemma {:induction false} IdlessRowSendsObjectPath(row: DataTable.Row, relatedDeleted: bool, userId: int)
    requires "id" !in row
    ensures ButtonArgument(row) == RowObject(row)
    ensures UserDeleteRequests(ButtonArgument(row), relatedDeleted)[0]
            == Del("/api/admin/users/[object Object]/related-data")
    ensures ParseLong(ArgText(ButtonArgument(row))) == NumberFormatError
    ensures !RemovesMember(ButtonArgument(row), userId)
  {
    var segment := ArgText(ButtonArgument(row));
    assert segment == "[object Object]";
    ObjectPath(relatedDeleted);
    ParseLongRejectsNonDigits(segment, 0);
  }

  lemma ObjectPath(relatedDeleted: bool)
    ensures UsersManage.DeleteRequests("[object Object]", relatedDeleted)[0]
            == Del("/api/admin/users/[object Object]/related-data")
  {
    assert UsersManage.UserPath("[object Object]") + "/related-data" == "/api/admin/users/[object Object]/related-data";
  }

  /** As written, the selection and the bulk delete hand over `row.id`,
      which is `undefined` for the same rows: the path segment is
      `undefined`, which fails the same way. */
  lemma {:induction false} IdlessSelectionSendsUndefinedPath(row: DataTable.Row, relatedDeleted: bool)
    requires "id" !in row
    ensures SelectionArgument(row) == Undefined
    ensures UserDeleteRequests(SelectionArgument(row), relatedDeleted)[0]
            == Del("/api/admin/users/undefined/related-data")
    ensures ParseLong(ArgText(SelectionArgument(row))) == NumberFormatError
  {
    assert ArgText(SelectionArgument(row)) == "undefined";
    assert UsersManage.UserPath("undefined") + "/related-data" == "/api/admin/users/undefined/related-data";
    ParseLongRejectsNonDigits("undefined", 0);
  }

  /** The row's own key, `row[key]`, as the screens' handlers expect. */
  function KeyedArgument(row: DataTable.Row, key: string): (r: DeleteArg)
    ensures r.IdText? <==> key in row
    ensures key in row ==> r == IdText(row[key])
  {
    if key in row then IdText(row[key]) else Undefined
  }

  /** Intended: handing over `row.userId` sends exactly the requests
      `UsersManage.UsersScreen.HandleDelete` sends for that member, the
      server reads the id back, and the list filter removes that member. */
  lemma {:induction false} KeyedArgumentReachesMember(row: DataTable.Row, userId: int, relatedDeleted: bool)
    requires "userId" in row && row["userId"] == IntToString(userId)
    requires LongMin <= userId <= LongMax
    ensures UserDeleteRequests(KeyedArgument(row, "userId"), relatedDeleted)
            == UsersManage.DeleteRequests(IntToString(userId), relatedDeleted)
    ensures ParseLong(ArgText(KeyedArgument(row, "userId"))) == Parsed(userId)
    ensures RemovesMember(KeyedArgument(row, "userId"), userId)
  {
    ParseLongRoundTrip(userId);
  }
}
