/** The login form. Its submit checks only that both fields are filled; it
    does not check credentials or call the backend, but waits and then
    navigates home with a "coming soon" notice. */
module LoginForm {
  import opened Common

  datatype LoginField = LoginEmail | LoginPassword

  datatype LoginState = LoginState(email: string, password: string, loading: bool, message: Option<Notice>)

  const Initial: LoginState := LoginState("", "", false, None)

  const FillAllFields: string := "Please fill in all fields"
  const ComingSoon: string := "Backend functionality coming soon!"

  /** `handleChange`: `{ ...formData, [name]: value }`. */
  function HandleChange(s: LoginState, f: LoginField, v: string): (r: LoginState)
    ensures f == LoginEmail ==> r.email == v && r.password == s.password
    ensures f == LoginPassword ==> r.password == v && r.email == s.email
    ensures r.loading == s.loading && r.message == s.message
  {
    match f
    case LoginEmail => s.(email := v)
    case LoginPassword => s.(password := v)
  }

  datatype SubmitResult = SubmitResult(state: LoginState, navigation: Option<string>)

  /** `handleSubmit`, run to completion. */
  function HandleSubmit(s: LoginState): (r: SubmitResult)
    ensures !r.state.loading
    ensures r.state.email == s.email && r.state.password == s.password
    ensures r.navigation.None? <==> s.email == "" || s.password == ""
    ensures r.navigation.None? ==> r.state.message == Some(Notice(ErrorNotice, FillAllFields))
    ensures r.navigation.Some? ==> r.navigation.value == "/" && r.state.message == Some(Notice(ErrorNotice, ComingSoon))
  {
    if s.email == "" || s.password == "" then
      SubmitResult(s.(message := Some(Notice(ErrorNotice, FillAllFields)), loading := false), None)
    else
      SubmitResult(s.(message := Some(Notice(ErrorNotice, ComingSoon)), loading := false), Some("/"))
  }

  /** From the empty form, a submit after typing both fields navigates home
      exactly when neither typed value is empty. */
  lemma SubmitAfterTyping(email: string, password: string)
    ensures var s := HandleChange(HandleChange(Initial, LoginEmail, email), LoginPassword, password);
            HandleSubmit(s).navigation.Some? <==> email != "" && password != ""
  {
  }

  /** The submit outcome depends only on which fields are empty, never on
      their contents: no credential is checked. */
  lemma SubmitIgnoresCredentials(s: LoginState, t: LoginState)
    requires s.email != "" && s.password != "" && t.email != "" && t.password != ""
    ensures HandleSubmit(s).navigation == HandleSubmit(t).navigation
    ensures HandleSubmit(s).state.message == HandleSubmit(t).state.message
  {
  }
}
