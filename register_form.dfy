/**
 * The registration form: its zod schema, which collects every failing check
 * in schema order (the four fields, then the password-confirmation
 * refinement), and what a submission does to the screen.
 */
module RegisterForm {
  import opened JsModel

  datatype RegisterInput = RegisterInput(fullName: string, email: string, password: string, confirmPassword: string)

  const FullNameTooShort := "Full name must be at least 3 characters long"
  const FullNameTooLong := "Full name must be at most 50 characters long"
  const FullNameCharset := "Full name must contain only alphabetical characters and spaces"
  const InvalidEmail := "Please enter a valid email address"
  const PasswordTooShort := "Password must be at least 8 characters long"
  const PasswordNoUpper := "Password must contain at least one uppercase letter"
  const PasswordNoLower := "Password must contain at least one lowercase letter"
  const PasswordNoDigit := "Password must contain at least one digit"
  const PasswordNoSpecial := "Password must contain at least one special character"
  const PasswordsDiffer := "Passwords must match"

  /** `[a-zA-Z\s]` */
  predicate IsNameChar(c: char) {
    IsAsciiLetter(c) || IsJsWhitespace(c)
  }

  predicate IsUpper(c: char) {
    'A' <= c <= 'Z'
  }

  predicate IsLower(c: char) {
    'a' <= c <= 'z'
  }

  /** `[!@#$%^&*(),.?":{}|<>]` */
  predicate IsPasswordSpecial(c: char) {
    c in "!@#$%^&*(),.?\":{}|<>"
  }

  /** A full name is 3 to 50 characters long and made of letters and white space only. */
  predicate FullNameOk(name: string) {
    3 <= Utf16Length(name) <= 50 && forall i :: 0 <= i < |name| ==> IsNameChar(name[i])
  }

  /** A password has at least 8 characters, among them an uppercase letter, a lowercase letter, a digit and a listed special character. */
  predicate PasswordOk(password: string) {
    Utf16Length(password) >= 8
    && Contains(password, IsUpper) && Contains(password, IsLower)
    && Contains(password, IsAsciiDigit) && Contains(password, IsPasswordSpecial)
  }

  /** The issues of `fullName`: length bounds, then the character class; each reported exactly when its check fails. */
  function FullNameIssues(name: string): (r: seq<Issue>)
    ensures r == [] <==> FullNameOk(name)
    ensures Issue("fullName", FullNameTooShort) in r <==> Utf16Length(name) < 3
    ensures Issue("fullName", FullNameTooLong) in r <==> Utf16Length(name) > 50
    ensures Issue("fullName", FullNameCharset) in r <==> !OnlyOf(name, IsNameChar)
    ensures forall i | i in r :: i.path == "fullName"
  {
    Check(Utf16Length(name) >= 3, "fullName", FullNameTooShort)
    + Check(Utf16Length(name) <= 50, "fullName", FullNameTooLong)
    + Check(OnlyOf(name, IsNameChar), "fullName", FullNameCharset)
  }

  /** The issues of `password`, one per failing check (which message is which: `PasswordIssueMessages`). */
  function PasswordIssues(password: string): (r: seq<Issue>)
    ensures r == [] <==> PasswordOk(password)
    ensures forall i | i in r :: i.path == "password"
  {
    var short := Check(Utf16Length(password) >= 8, "password", PasswordTooShort);
    var upper := Check(Contains(password, IsUpper), "password", PasswordNoUpper);
    var lower := Check(Contains(password, IsLower), "password", PasswordNoLower);
    var digit := Check(Contains(password, IsAsciiDigit), "password", PasswordNoDigit);
    var special := Check(Contains(password, IsPasswordSpecial), "password", PasswordNoSpecial);
    short + upper + lower + digit + special
  }

  /** Each password message is reported exactly when its own check fails. */
  lemma PasswordIssueMessages(password: string)
    ensures Issue("password", PasswordTooShort) in PasswordIssues(password) <==> Utf16Length(password) < 8
    ensures Issue("password", PasswordNoUpper) in PasswordIssues(password) <==> !Contains(password, IsUpper)
    ensures Issue("password", PasswordNoLower) in PasswordIssues(password) <==> !Contains(password, IsLower)
    ensures Issue("password", PasswordNoDigit) in PasswordIssues(password) <==> !Contains(password, IsAsciiDigit)
    ensures Issue("password", PasswordNoSpecial) in PasswordIssues(password) <==> !Contains(password, IsPasswordSpecial)
  {
    PasswordMessagesDistinct();
    InPasswordChecks(Issue("password", PasswordTooShort), password);
    InPasswordChecks(Issue("password", PasswordNoUpper), password);
    InPasswordChecks(Issue("password", PasswordNoLower), password);
    InPasswordChecks(Issue("password", PasswordNoDigit), password);
    InPasswordChecks(Issue("password", PasswordNoSpecial), password);
  }

  /** Which of the five password checks reports `x`. */
  lemma InPasswordChecks(x: Issue, password: string)
    ensures (x in Check(Utf16Length(password) >= 8, "password", PasswordTooShort)
      + Check(Contains(password, IsUpper), "password", PasswordNoUpper)
      + Check(Contains(password, IsLower), "password", PasswordNoLower)
      + Check(Contains(password, IsAsciiDigit), "password", PasswordNoDigit)
      + Check(Contains(password, IsPasswordSpecial), "password", PasswordNoSpecial))
      <==>
      (Utf16Length(password) < 8 && x == Issue("password", PasswordTooShort))
      || (!Contains(password, IsUpper) && x == Issue("password", PasswordNoUpper))
      || (!Contains(password, IsLower) && x == Issue("password", PasswordNoLower))
      || (!Contains(password, IsAsciiDigit) && x == Issue("password", PasswordNoDigit))
      || (!Contains(password, IsPasswordSpecial) && x == Issue("password", PasswordNoSpecial))
  {
    InCheck(x, Utf16Length(password) >= 8, "password", PasswordTooShort);
    InCheck(x, Contains(password, IsUpper), "password", PasswordNoUpper);
    InCheck(x, Contains(password, IsLower), "password", PasswordNoLower);
    InCheck(x, Contains(password, IsAsciiDigit), "password", PasswordNoDigit);
    InCheck(x, Contains(password, IsPasswordSpecial), "password", PasswordNoSpecial);
  }

  lemma PasswordMessagesDistinct()
    ensures PasswordTooShort != PasswordNoUpper && PasswordTooShort != PasswordNoLower
    ensures PasswordTooShort != PasswordNoDigit && PasswordTooShort != PasswordNoSpecial
    ensures PasswordNoUpper != PasswordNoLower && PasswordNoUpper != PasswordNoDigit && PasswordNoUpper != PasswordNoSpecial
    ensures PasswordNoLower != PasswordNoDigit && PasswordNoLower != PasswordNoSpecial
    ensures PasswordNoDigit != PasswordNoSpecial
  {
    // the two messages of equal length differ at "u"/"l"
    assert PasswordNoUpper[35] != PasswordNoLower[35];
  }

  /**
   * The issues `registerFormSchema` reports, in order. Whether the email is
   * well formed is zod's `.email()` check, given as `emailAccepted`.
   */
  function RegisterIssues(form: RegisterInput, emailAccepted: bool): (r: seq<Issue>)
    ensures r == [] <==> FullNameOk(form.fullName) && emailAccepted && PasswordOk(form.password) && form.password == form.confirmPassword
    ensures form.password != form.confirmPassword ==> |r| > 0 && r[|r| - 1] == Issue("confirmPassword", PasswordsDiffer)
    ensures (exists i | i in r :: i.path == "confirmPassword") <==> form.password != form.confirmPassword
  {
    FullNameIssues(form.fullName)
    + Check(emailAccepted, "email", InvalidEmail)
    + PasswordIssues(form.password)
    + Check(form.password == form.confirmPassword, "confirmPassword", PasswordsDiffer)
  }

  /** A name made of letters and white space has no character outside the Basic Multilingual Plane, so its `length` is its character count. */
  lemma {:induction false} NameLengthIsCharCount(name: string)
    requires forall i :: 0 <= i < |name| ==> IsNameChar(name[i])
    ensures Utf16Length(name) == |name|
  {
    if name != [] {
      NameLengthIsCharCount(name[1..]);
    }
  }

  /** An accepted full name has between 3 and 50 characters. */
  lemma AcceptedFullNameLength(name: string)
    requires FullNameOk(name)
    ensures 3 <= |name| <= 50
  {
    NameLengthIsCharCount(name);
  }

  /** The part of the registration screen a submission changes. */
  datatype RegisterScreen = RegisterScreen(registeredEmail: string, isModalOpen: bool, toasts: seq<Toast>)

  const RegisteredToast := "User Registered. Please check your email for verification."

  /**
   * `onSubmit`: on success a toast, the submitted email recorded and the
   * verification modal opened; on failure an error toast and nothing else.
   */
  function OnRegisterSubmit(screen: RegisterScreen, userData: RegisterInput, outcome: Settled): (r: RegisterScreen)
    ensures outcome.Fulfilled? ==> r == RegisterScreen(userData.email, true, screen.toasts + [Success(RegisteredToast)])
    ensures outcome.Rejected? ==> r == screen.(toasts := screen.toasts + [Error(ErrorToastText(outcome.error))])
  {
    match outcome
    case Fulfilled(_) =>
      var shown := screen.(toasts := screen.toasts + [Success(RegisteredToast)]);
      shown.(registeredEmail := userData.email).(isModalOpen := true)
    case Rejected(err) =>
      screen.(toasts := screen.toasts + [Error(ErrorToastText(err))])
  }

  /** `handleSubmit(onSubmit)`: the handler runs only when the schema reports no issue. */
  function Submit(screen: RegisterScreen, form: RegisterInput, emailAccepted: bool, outcome: Settled): (r: RegisterScreen)
    ensures RegisterIssues(form, emailAccepted) != [] ==> r == screen
    ensures RegisterIssues(form, emailAccepted) == [] ==> r == OnRegisterSubmit(screen, form, outcome)
  {
    if RegisterIssues(form, emailAccepted) == [] then OnRegisterSubmit(screen, form, outcome) else screen
  }

  /**
   * The verification modal opens only for a submission that passed the
   * schema and that the server accepted, and then it shows the submitted email.
   */
  lemma ModalOpensOnlyAfterRegistration(screen: RegisterScreen, form: RegisterInput, emailAccepted: bool, outcome: Settled)
    requires !screen.isModalOpen
    ensures Submit(screen, form, emailAccepted, outcome).isModalOpen <==> RegisterIssues(form, emailAccepted) == [] && outcome.Fulfilled?
    ensures Submit(screen, form, emailAccepted, outcome).isModalOpen ==>
      Submit(screen, form, emailAccepted, outcome).registeredEmail == form.email
      && FullNameOk(form.fullName) && PasswordOk(form.password) && form.password == form.confirmPassword
  {
  }
}
