/**
 * The login form: its zod schema, the shape test for error responses, and
 * what a submission dispatches, shows and navigates to.
 */
module LoginForm {
  import opened Wrappers
  import opened JsModel
  import AuthSlice

  const InvalidEmail := "Invalid email"
  const PasswordTooShort := "String must contain at least 8 character(s)"
  const Required := "Required"
  const LoggedInToast := "Logged In Successfully"

  /**
   * `isErrorReponse(obj)`: a truthy value whose `status` is a number, whose
   * `data` is truthy, and whose `data.error`, `data.success` and `data.errors`
   * are a string, a boolean and an array.
   */
  predicate IsErrorResponse(obj: JsValue) {
    var data := Get(obj, "data");
    Truthy(obj)
    && TypeOf(Get(obj, "status")) == "number"
    && Truthy(data)
    && TypeOf(Get(data, "error")) == "string"
    && TypeOf(Get(data, "success")) == "boolean"
    && IsArray(Get(data, "errors"))
  }

  /** The shape `isErrorReponse` accepts, stated on the value's structure: exactly the `ErrorResponse` type. */
  lemma IsErrorResponseShape(obj: JsValue)
    ensures IsErrorResponse(obj) <==>
      obj.Object? && Get(obj, "status").Number? && Get(obj, "data").Object?
      && Get(Get(obj, "data"), "error").Str?
      && Get(Get(obj, "data"), "success").Bool?
      && Get(Get(obj, "data"), "errors").Array?
  {
    var data := Get(obj, "data");
    if IsErrorResponse(obj) {
      assert Get(data, "error") != Undefined;
      assert Get(obj, "status") != Undefined;
    }
  }

  /**
   * The issues `loginFormSchema` reports. The email starts as "" and is zod's
   * `.email()` check, given as `emailAccepted`; the password has no default,
   * so it is `None` (`undefined`) until the field is edited.
   */
  function LoginIssues(email: string, password: Option<string>, emailAccepted: bool): (r: seq<Issue>)
    ensures r == [] <==> emailAccepted && password.Some? && Utf16Length(password.value) >= 8
    ensures password.None? ==> Issue("password", Required) in r
    ensures password.Some? ==> (Issue("password", PasswordTooShort) in r <==> Utf16Length(password.value) < 8)
    ensures Issue("email", InvalidEmail) in r <==> !emailAccepted
  {
    Check(emailAccepted, "email", InvalidEmail)
    + match password
      case None => [Issue("password", Required)]
      case Some(p) => Check(Utf16Length(p) >= 8, "password", PasswordTooShort)
  }

  /** What a submission does: the action it dispatches, the toasts it shows, where it navigates. */
  datatype LoginEffects = LoginEffects(dispatched: Option<JsValue>, toasts: seq<Toast>, navigateTo: Option<string>)

  /** `response.data?.user` */
  function ResponseUser(response: JsValue): JsValue {
    Get(Get(response, "data"), "user")
  }

  /** The `catch` clause: an error toast with the server's message, only for an error of the `isErrorReponse` shape. */
  function Caught(err: JsValue): (r: LoginEffects)
    ensures r.dispatched.None? && r.navigateTo.None?
    ensures r.toasts != [] <==> IsErrorResponse(err)
    ensures IsErrorResponse(err) ==> r.toasts == [Error(Get(Get(err, "data"), "error").s)]
  {
    IsErrorResponseShape(err);
    LoginEffects(None, if IsErrorResponse(err) then [Error(ErrorToastText(err))] else [], None)
  }

  /**
   * `onSubmit`: on success `setUserCredentials` with a copy of the response's
   * user, a success toast and (800 ms later) navigation to "/"; on failure the
   * `catch` clause. A `null` or `undefined` response makes `response.data`
   * throw a `TypeError`, which the `catch` clause ignores.
   */
  function OnLoginSubmit(outcome: Settled): (r: LoginEffects)
    ensures outcome.Fulfilled? && !Nullish(outcome.response) ==>
      r.dispatched.Some? && r.dispatched.value.Object? && r.navigateTo == Some("/")
    ensures outcome.Fulfilled? && ResponseUser(outcome.response).Object? ==> r.dispatched == Some(ResponseUser(outcome.response))
    ensures outcome.Fulfilled? && !Nullish(outcome.response) ==> r.toasts == [Success(LoggedInToast)]
    ensures outcome.Fulfilled? && Nullish(outcome.response) ==> r == LoginEffects(None, [], None)
    ensures outcome.Rejected? ==> r.dispatched.None? && r.navigateTo.None?
    ensures outcome.Rejected? ==> (r.toasts != [] <==> IsErrorResponse(outcome.error))
    ensures outcome.Rejected? && IsErrorResponse(outcome.error) ==>
      r.toasts == [Error(Get(Get(outcome.error, "data"), "error").s)]
  {
    match outcome
    case Fulfilled(response) =>
      if Nullish(response) then Caught(ThrownTypeError)
      else LoginEffects(Some(Spread(ResponseUser(response))), [Success(LoggedInToast)], Some("/"))
    case Rejected(err) =>
      Caught(err)
  }

  /** `handleSubmit(onSubmit)`: nothing happens unless the schema reports no issue. */
  function Submit(email: string, password: Option<string>, emailAccepted: bool, outcome: Settled): (r: LoginEffects)
    ensures LoginIssues(email, password, emailAccepted) != [] ==> r == LoginEffects(None, [], None)
    ensures LoginIssues(email, password, emailAccepted) == [] ==> r == OnLoginSubmit(outcome)
  {
    if LoginIssues(email, password, emailAccepted) == [] then OnLoginSubmit(outcome) else LoginEffects(None, [], None)
  }

  /**
   * A successful login always leaves a session that survives a reload: the
   * dispatched copy is an object, so "user" never holds "undefined", and the
   * reload reads `isLoggedIn` true with the same user (exactly that user when
   * it is plain JSON).
   */
  lemma LoginSurvivesReload(s: AuthSlice.Session, response: JsValue)
    ensures !Nullish(response) ==>
      var payload := OnLoginSubmit(Fulfilled(response)).dispatched.value;
      AuthSlice.InitialState(AuthSlice.SetUserCredentialsStep(s, payload).storage)
        == Some(AuthSlice.AuthState(AuthSlice.Normalize(payload), Bool(true)))
    ensures var user := ResponseUser(response);
      user.Object? && AuthSlice.JsonSafe(user) ==>
        AuthSlice.InitialState(AuthSlice.SetUserCredentialsStep(s, OnLoginSubmit(Fulfilled(response)).dispatched.value).storage)
          == Some(AuthSlice.AuthState(user, Bool(true)))
  {
    if !Nullish(response) {
      var payload := OnLoginSubmit(Fulfilled(response)).dispatched.value;
      AuthSlice.ReloadAfterSetUserCredentials(s, payload);
      var user := ResponseUser(response);
      if user.Object? && AuthSlice.JsonSafe(user) {
        AuthSlice.NormalizeSafe(user);
      }
    }
  }
}
