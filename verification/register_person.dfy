/** `public/register/RegisterPerson`: the sign-up form of a person member,
    its pre-filling from the Kakao login redirect, the ordered input checks
    and the sign-up request. */
module RegisterPerson {
  import opened Wrappers
  import opened Strings
  import opened Client
  import ErrorHandler

  datatype Form = Form(userName: string, userEmail: string, userPassword: string, confirmPassword: string,
                       userBirthdate: string, userGender: string, userPhone: string, userAddress: string,
                       userProfileImage: string, userTermsAgreement: bool, emailVerified: bool)

  const EmptyForm: Form := Form("", "", "", "", "", "", "", "", "", false, false)

  /** A URL parameter: `params.get(name)` is null when absent. */
  function Param(params: map<string, string>, name: string): Option<string> {
    if name in params then Some(params[name]) else None
  }

  predicate Truthy(v: Option<string>) {
    v.Some? && v.value != ""
  }

  /** `value || ""`. */
  function OrEmpty(v: Option<string>): (r: string)
    ensures v.Some? ==> r == v.value
    ensures v.None? ==> r == ""
  {
    if v.Some? then v.value else ""
  }

  /** The `gender` parameter: 'male' whatever its case, anything else is
      taken as 'female'. */
  function NormaliseGender(gender: string): (r: string)
    ensures r == "male" <==> Lower(gender) == "male"
    ensures r == "female" <==> Lower(gender) != "male"
  {
    if Lower(gender) == "male" then "male" else "female"
  }

  /** Normalising a normalised gender changes nothing. */
  lemma NormaliseGenderIdempotent(gender: string)
    ensures NormaliseGender(NormaliseGender(gender)) == NormaliseGender(gender)
  {
    var g := NormaliseGender(gender);
    if g == "male" {
      assert Lower("male") == "male";
    } else {
      assert Lower("female")[0] == 'f';
    }
  }

  /** The `birthday` parameter: a 4-character `MMDD` becomes
      `year-MM-DD`; any other value is kept as it is. */
  function NormaliseBirthday(birthday: string, currentYear: int): (r: string)
    ensures |birthday| == 4 ==> r == IntToString(currentYear) + "-" + birthday[..2] + "-" + birthday[2..]
    ensures |birthday| != 4 ==> r == birthday
  {
    if |birthday| == 4 then IntToString(currentYear) + "-" + birthday[0..2] + "-" + birthday[2..4]
    else birthday
  }

  /** A normalised birthday is longer than four characters, so normalising
      it again keeps it; its last five characters are `MM-DD`. */
  lemma NormaliseBirthdayStable(birthday: string, currentYear: int)
    ensures NormaliseBirthday(NormaliseBirthday(birthday, currentYear), currentYear) == NormaliseBirthday(birthday, currentYear)
    ensures |birthday| == 4 ==>
              var r := NormaliseBirthday(birthday, currentYear);
              |r| >= 5 && r[|r| - 5..] == birthday[..2] + "-" + birthday[2..]
  {
    if |birthday| == 4 {
      var y := IntToString(currentYear);
      var monthDay := birthday[..2] + "-" + birthday[2..];
      var r := y + ("-" + monthDay);
      assert |y| >= 1;
      assert NormaliseBirthday(birthday, currentYear) == r;
      assert |r| == |y| + 6;
      assert r[|r| - 5..] == monthDay;
    }
  }

  /** The effect that reads the redirect's parameters: name, email and
      picture are taken (empty when absent); the email counts as verified
      when both `email` and `kakaoId` are given; gender and birthday are
      normalised only when given. */
  function ApplyParams(f: Form, params: map<string, string>, currentYear: int): (r: Form)
    ensures r.userName == OrEmpty(Param(params, "nickname"))
    ensures r.userEmail == OrEmpty(Param(params, "email"))
    ensures r.userProfileImage == OrEmpty(Param(params, "profileImage"))
    ensures r.emailVerified <==> f.emailVerified || (Truthy(Param(params, "email")) && Truthy(Param(params, "kakaoId")))
    ensures Truthy(Param(params, "gender")) ==> r.userGender == NormaliseGender(params["gender"])
    ensures !Truthy(Param(params, "gender")) ==> r.userGender == f.userGender
    ensures Truthy(Param(params, "birthday")) ==> r.userBirthdate == NormaliseBirthday(params["birthday"], currentYear)
    ensures !Truthy(Param(params, "birthday")) ==> r.userBirthdate == f.userBirthdate
    ensures r.userPassword == f.userPassword && r.confirmPassword == f.confirmPassword
    ensures r.userPhone == f.userPhone && r.userAddress == f.userAddress && r.userTermsAgreement == f.userTermsAgreement
  {
    var email := Param(params, "email");
    var gender := Param(params, "gender");
    var birthday := Param(params, "birthday");
    f.(userName := OrEmpty(Param(params, "nickname")),
       userEmail := OrEmpty(email),
       userProfileImage := OrEmpty(Param(params, "profileImage")),
       emailVerified := if Truthy(email) && Truthy(Param(params, "kakaoId")) then true else f.emailVerified,
       userGender := if Truthy(gender) then NormaliseGender(gender.value) else f.userGender,
       userBirthdate := if Truthy(birthday) then NormaliseBirthday(birthday.value, currentYear) else f.userBirthdate)
  }

  predicate IsSpecial(c: char) {
    c in "!@#$%^&*"
  }

  /** `/[0-9]/` and `/[!@#$%^&*]/` both match, and there are at least 8
      characters. */
  predicate StrongPassword(p: string) {
    |p| >= 8 && (exists i :: 0 <= i < |p| && IsDigit(p[i])) && (exists i :: 0 <= i < |p| && IsSpecial(p[i]))
  }

  /** The checks of `validateInputs`, each with its error text. */
  datatype Failure = EmailMissing | EmailNotVerified | PasswordMissing | PasswordWeak
                   | PasswordMismatch | NameMissing | PhoneMissing | TermsNotAgreed

  function Message(failure: Failure): string {
    match failure
    case EmailMissing => "이메일을 입력해주세요."
    case EmailNotVerified => "이메일 인증을 완료해주세요."
    case PasswordMissing => "비밀번호를 입력해주세요."
    case PasswordWeak => "비밀번호는 최소 8자 이상이며 숫자와 특수문자를 포함해야 합니다."
    case PasswordMismatch => "비밀번호와 비밀번호 확인이 일치하지 않습니다."
    case NameMissing => "이름을 입력해주세요."
    case PhoneMissing => "전화번호를 입력해주세요."
    case TermsNotAgreed => "이용약관에 동의해주세요."
  }

  /** Whether the form passes one check. */
  predicate Passes(f: Form, check: Failure) {
    match check
    case EmailMissing => f.userEmail != ""
    case EmailNotVerified => f.emailVerified
    case PasswordMissing => f.userPassword != ""
    case PasswordWeak => StrongPassword(f.userPassword)
    case PasswordMismatch => f.userPassword == f.confirmPassword
    case NameMissing => f.userName != ""
    case PhoneMissing => f.userPhone != ""
    case TermsNotAgreed => f.userTermsAgreement
  }

  /** The order in which the checks run. */
  const CheckOrder: seq<Failure> :=
    [EmailMissing, EmailNotVerified, PasswordMissing, PasswordWeak, PasswordMismatch, NameMissing, PhoneMissing, TermsNotAgreed]

  /** Reference definition: the first check of `checks` the form fails. */
  function FirstFailure(f: Form, checks: seq<Failure>): (r: Option<Failure>)
    ensures r.None? <==> forall i :: 0 <= i < |checks| ==> Passes(f, checks[i])
    ensures r.Some? ==> r.value in checks && !Passes(f, r.value)
  {
    if checks == [] then None
    else if !Passes(f, checks[0]) then Some(checks[0])
    else
      assert forall i :: 1 <= i < |checks| ==> checks[i] == checks[1..][i - 1];
      FirstFailure(f, checks[1..])
  }

  /** The check found is the first failing one: every check before it
      passes. */
  lemma {:induction false} FirstFailureAt(f: Form, checks: seq<Failure>, i: int)
    requires 0 <= i < |checks| && !Passes(f, checks[i])
    requires forall j :: 0 <= j < i ==> Passes(f, checks[j])
    ensures FirstFailure(f, checks) == Some(checks[i])
  {
    if i > 0 {
      FirstFailureAt(f, checks[1..], i - 1);
    }
  }

  /** `validateInputs()`: None when the form may be sent, otherwise the
      first failing check. */
  function ValidateInputs(f: Form): Option<Failure> {
    if f.userEmail == "" then Some(EmailMissing)
    else if !f.emailVerified then Some(EmailNotVerified)
    else if f.userPassword == "" then Some(PasswordMissing)
    else if !StrongPassword(f.userPassword) then Some(PasswordWeak)
    else if f.userPassword != f.confirmPassword then Some(PasswordMismatch)
    else if f.userName == "" then Some(NameMissing)
    else if f.userPhone == "" then Some(PhoneMissing)
    else if !f.userTermsAgreement then Some(TermsNotAgreed)
    else None
  }

  /** The checks run in their fixed order and the first failure decides the
      message: `validateInputs` is the first failing check of `CheckOrder`. */
  lemma {:induction false} ValidateInputsIsFirstFailure(f: Form)
    ensures ValidateInputs(f) == FirstFailure(f, CheckOrder)
  {
    var c := CheckOrder;
    var r := ValidateInputs(f);
    if r.None? {
      assert forall i :: 0 <= i < |c| ==> Passes(f, c[i]);
    } else {
      var i := if r.value == EmailMissing then 0 else if r.value == EmailNotVerified then 1
               else if r.value == PasswordMissing then 2 else if r.value == PasswordWeak then 3
               else if r.value == PasswordMismatch then 4 else if r.value == NameMissing then 5
               else if r.value == PhoneMissing then 6 else 7;
      FirstFailureAt(f, c, i);
    }
  }

  /** The form is accepted exactly when every condition holds. */
  lemma ValidIffAll(f: Form)
    ensures ValidateInputs(f).None? <==>
              f.userEmail != "" && f.emailVerified && f.userPassword != "" && StrongPassword(f.userPassword)
              && f.userPassword == f.confirmPassword && f.userName != "" && f.userPhone != "" && f.userTermsAgreement
  {
  }

  /** The body of `POST /api/auth/register/person`: `emailVerified` is true
      whenever a Kakao id is present; the birthday, as `new Date(...)`
      rendered back to `YYYY-MM-DD` (`isoBirthdate`), and the Kakao id are
      left out when empty; every other field is the form's. */
  function SignupBody(f: Form, kakaoId: Option<string>, isoBirthdate: string): (r: map<string, string>)
    ensures "emailVerified" in r
    ensures Truthy(kakaoId) ==> r["emailVerified"] == "true"
    ensures !Truthy(kakaoId) ==> r["emailVerified"] == BoolText(f.emailVerified)
    ensures "kakaoId" in r <==> kakaoId.Some?
    ensures kakaoId.Some? ==> r["kakaoId"] == kakaoId.value
    ensures "userBirthdate" in r <==> f.userBirthdate != ""
    ensures f.userBirthdate != "" ==> r["userBirthdate"] == isoBirthdate
    ensures "userEmail" in r && r["userEmail"] == f.userEmail
    ensures "userPassword" in r && r["userPassword"] == f.userPassword
    ensures "userTermsAgreement" in r && r["userTermsAgreement"] == BoolText(f.userTermsAgreement)
  {
    var base := map["userEmail" := f.userEmail, "userPassword" := f.userPassword, "userName" := f.userName,
                    "userGender" := f.userGender, "userPhone" := f.userPhone, "userAddress" := f.userAddress,
                    "userProfileImage" := f.userProfileImage, "userTermsAgreement" := BoolText(f.userTermsAgreement),
                    "emailVerified" := BoolText(Truthy(kakaoId) || f.emailVerified)];
    var withBirthdate := if f.userBirthdate != "" then base["userBirthdate" := isoBirthdate] else base;
    if kakaoId.Some? then withBirthdate["kakaoId" := kakaoId.value] else withBirthdate
  }

  const SignupFailed: string := "회원가입 실패: "
  const UnknownError: string := "알 수 없는 오류가 발생했습니다."

  class RegisterScreen {
    var form: Form
    var error: string

    constructor ()
      ensures form == EmptyForm && error == ""
    {
      form := EmptyForm;
      error := "";
    }

    /** The mount effect. */
    method ReadParams(params: map<string, string>, currentYear: int)
      modifies this`form
      ensures form == ApplyParams(old(form), params, currentYear)
    {
      form := ApplyParams(form, params, currentYear);
    }

    /** `handleSignup()`: nothing is sent when a check fails, and the error
        is that check's message. Otherwise the error is cleared and the
        birthday converted: `isoBirthdate` is `new Date(userBirthdate)
        .toISOString().split("T")[0]`, None when that throws on an invalid
        date, which ends the handler before any request. Then the sign-up
        POST; on success the login page, on failure the server's `message`
        (`serverMessage`) or the generic text after the failure prefix. */
    method HandleSignup(kakaoId: Option<string>, isoBirthdate: Option<string>, ok: bool, serverMessage: Option<string>)
      returns (sent: seq<Request>, navigateTo: Option<string>)
      modifies this`error
      ensures ValidateInputs(form).Some? ==> sent == [] && navigateTo == None && error == Message(ValidateInputs(form).value)
      ensures ValidateInputs(form).None? && form.userBirthdate != "" && isoBirthdate.None? ==>
                sent == [] && navigateTo == None && error == ""
      ensures ValidateInputs(form).None? && (form.userBirthdate == "" || isoBirthdate.Some?) ==>
                sent == [Request(Post, "/api/auth/register/person",
                                 SignupBody(form, kakaoId, if isoBirthdate.Some? then isoBirthdate.value else ""))]
      ensures |sent| == 1 && ok ==> navigateTo == Some("/login") && error == ""
      ensures |sent| == 1 && !ok ==> navigateTo == None && error == SignupFailed + ErrorHandler.OrElse(serverMessage, UnknownError)
    {
      var failure := ValidateInputs(form);
      sent := [];
      navigateTo := None;
      if failure.Some? {
        error := Message(failure.value);
        return;
      }
      error := "";
      if form.userBirthdate != "" && isoBirthdate.None? {
        return;
      }
      var birthdate := if isoBirthdate.Some? then isoBirthdate.value else "";
      sent := [Request(Post, "/api/auth/register/person", SignupBody(form, kakaoId, birthdate))];
      if ok {
        navigateTo := Some("/login");
      } else {
        error := SignupFailed + ErrorHandler.OrElse(serverMessage, UnknownError);
      }
    }
  }
}
