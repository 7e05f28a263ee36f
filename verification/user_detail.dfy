/** `manage/users/AdminUserDetail`: one member, with an edit form that is
    checked before it is sent, and a confirmed delete. */
module UserDetail {
  import opened Wrappers
  import opened Strings
  import opened Client
  import UsersManage

  /** A form value: text from an input, or the state of a checkbox. */
  datatype FormValue = Text(text: string) | Flag(checked: bool)

  type Form = map<string, FormValue>

  /** How `!form[key] || !form[key].trim()` treats a field: absent, falsy or
      blank text is missing; a checked box has no `trim` and throws. */
  datatype FieldState = Missing | Filled | Throws

  function StateOf(form: Form, key: string): (r: FieldState)
    ensures r == Filled <==> key in form && form[key].Text? && !IsBlank(form[key].text)
    ensures r == Throws <==> key in form && form[key] == Flag(true)
  {
    if key !in form then Missing
    else match form[key]
      case Flag(checked) => if checked then Throws else Missing
      case Text(s) => if s == "" || IsBlank(s) then Missing else Filled
  }

  /** The outcome of `handleSubmit`'s checks. */
  datatype Check = NameRequired | EmailRequired | Passes | Aborted

  /** The name is checked before the email; the form passes only when both
      hold non-blank text. */
  function Validate(form: Form): (r: Check)
    ensures r == NameRequired <==> StateOf(form, "userName") == Missing
    ensures r == EmailRequired <==> StateOf(form, "userName") == Filled && StateOf(form, "userEmail") == Missing
    ensures r == Passes <==> StateOf(form, "userName") == Filled && StateOf(form, "userEmail") == Filled
  {
    match StateOf(form, "userName")
    case Missing => NameRequired
    case Throws => Aborted
    case Filled =>
      match StateOf(form, "userEmail")
      case Missing => EmailRequired
      case Throws => Aborted
      case Filled => Passes
  }

  /** A form that passes has a non-blank name and a non-blank email. */
  lemma PassedFormHasNameAndEmail(form: Form)
    requires Validate(form) == Passes
    ensures "userName" in form && form["userName"].Text? && !IsBlank(form["userName"].text)
    ensures "userEmail" in form && form["userEmail"].Text? && !IsBlank(form["userEmail"].text)
  {
  }

  function CheckMessage(c: Check): string {
    match c
    case NameRequired => "이름은 필수 입력 항목입니다."
    case EmailRequired => "이메일은 필수 입력 항목입니다."
    case _ => ""
  }

  function ValueText(v: FormValue): string {
    match v
    case Text(s) => s
    case Flag(b) => BoolText(b)
  }

  /** The form as the JSON body of the PUT. */
  function Encode(form: Form): (r: map<string, string>)
    ensures r.Keys == form.Keys
    ensures forall k :: k in form ==> r[k] == ValueText(form[k])
  {
    map k | k in form :: ValueText(form[k])
  }

  class UserDetailScreen {
    const userId: string
    var user: Option<Form>
    var editForm: Option<Form>
    var isEditing: bool

    constructor (userId: string)
      ensures this.userId == userId
      ensures user == None && editForm == None && !isEditing
    {
      this.userId := userId;
      user := None;
      editForm := None;
      isEditing := false;
    }

    /** `fetchUserDetail()`; a failure keeps the page as it was. */
    method FetchUserDetail(response: Option<Form>) returns (sent: Request)
      modifies this`user, this`editForm
      ensures sent == Request(Get, UsersManage.UserPath(userId), map[])
      ensures response.Some? ==> user == response && editForm == response
      ensures response.None? ==> user == old(user) && editForm == old(editForm)
    {
      sent := Request(Get, UsersManage.UserPath(userId), map[]);
      if response.Some? {
        user := response;
        editForm := response;
      }
    }

    method HandleInputChange(name: string, value: string)
      requires editForm.Some?
      modifies this`editForm
      ensures editForm == Some(old(editForm).value[name := Text(value)])
    {
      editForm := Some(editForm.value[name := Text(value)]);
    }

    /** `handleCheckboxChange`: only the named field changes, to the box's
        state. */
    method HandleCheckboxChange(name: string, checked: bool)
      requires editForm.Some?
      modifies this`editForm
      ensures editForm.Some? && name in editForm.value && editForm.value[name] == Flag(checked)
      ensures forall k :: k != name ==> (k in editForm.value <==> k in old(editForm).value)
      ensures forall k :: k != name && k in editForm.value ==> editForm.value[k] == old(editForm).value[k]
    {
      editForm := Some(editForm.value[name := Flag(checked)]);
    }

    /** `handleSubmit`: a form that fails a check is not sent and the error
        names the first failing field; a passing form is PUT, and on success
        it becomes the shown member and editing ends. */
    method HandleSubmit(ok: bool) returns (message: string, sent: seq<Request>)
      requires editForm.Some?
      modifies this`user, this`isEditing
      ensures Validate(editForm.value) != Passes ==>
                sent == [] && message == CheckMessage(Validate(editForm.value))
                && user == old(user) && isEditing == old(isEditing)
      ensures Validate(editForm.value) == Passes ==>
                sent == [Request(Put, UsersManage.UserPath(userId), Encode(editForm.value))]
      ensures Validate(editForm.value) == Passes && ok ==> user == editForm && !isEditing
      ensures Validate(editForm.value) == Passes && !ok ==> user == old(user) && isEditing == old(isEditing)
    {
      var check := Validate(editForm.value);
      message := CheckMessage(check);
      sent := [];
      if check != Passes {
        return;
      }
      sent := [Request(Put, UsersManage.UserPath(userId), Encode(editForm.value))];
      if ok {
        user := editForm;
        isEditing := false;
      }
    }

    /** `handleDelete()`: nothing before the dialog is confirmed; then the
        related-data DELETE and, once it succeeded, the member DELETE; the
        page goes back to the list when both succeeded. */
    method HandleDelete(confirmed: bool, relatedDeleted: bool, userDeleted: bool)
      returns (sent: seq<Request>, navigateTo: Option<string>)
      ensures !confirmed ==> sent == [] && navigateTo == None
      ensures confirmed ==> sent == UsersManage.DeleteRequests(userId, relatedDeleted)
      ensures navigateTo.Some? <==> confirmed && relatedDeleted && userDeleted
      ensures navigateTo.Some? ==> navigateTo.value == "/admin/users"
    {
      sent := [];
      navigateTo := None;
      if confirmed {
        sent := UsersManage.DeleteRequests(userId, relatedDeleted);
        if relatedDeleted && userDeleted {
          navigateTo := Some("/admin/users");
        }
      }
    }
  }
}
